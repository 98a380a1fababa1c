/** What every step, and so every run, moves in one direction only. */
module Onwards {
  import opened FlinkTypes
  import opened StatusUpdater
  import opened Converter
  import opened FlinkClient
  import opened WorldModel
  import opened ControlLoop
  import opened Drifting
  import opened Invariant
  import opened Preservation

  /** Jobs are only added, and none once the cluster winds down or the job is cancelled. */
  predicate CreatesOnward(before: World, after: World) {
    && before.created <= after.created
    && (Rank(before.status.state) >= 2 || RecordedAs(before, Cancelled) ==> after.created == before.created)
  }

  /** The spec changes only where users may change it, and asks for at most one savepoint more than there are. */
  predicate SpecOnward(before: World, after: World) {
    && Core(after.spec) == Core(before.spec)
    && (CancelRequested(before.spec) ==> CancelRequested(after.spec))
    && (before.spec.job.Some? && after.spec.job.value.cancelRequested != before.spec.job.value.cancelRequested ==>
          CancelRequested(after.spec))
    && (Generation(after.spec) == Generation(before.spec) || Generation(after.spec) <= |after.savepoints| + 1)
  }

  /** A job once recorded stays recorded, a cancelled one stays cancelled, and restarts are not forgotten
      (as long as an int32 can count them). */
  predicate JobOnward(before: World, after: World) {
    && (Recorded(before).Some? ==>
          && Recorded(after).Some?
          && (|after.created| <= 0x8000_0000 ==>
                Recorded(after).value.restartCount >= Recorded(before).value.restartCount))
    && (RecordedAs(before, Cancelled) ==> RecordedAs(after, Cancelled))
  }

  predicate Onward(before: World, after: World) {
    && after.name == before.name
    && Rank(after.status.state) >= Rank(before.status.state)
    && before.savepoints <= after.savepoints
    && (before.deleted ==> after.deleted)
    && CreatesOnward(before, after)
    && SpecOnward(before, after)
    && JobOnward(before, after)
  }

  lemma OnwardTransitive(a: World, b: World, c: World)
    requires Onward(a, b) && Onward(b, c)
    ensures Onward(a, c)
  {
  }

  lemma DriftOnward(w: World, after: World)
    requires Facts(w) && Drift(w, after)
    ensures Onward(w, after)
  {
  }

  lemma WriteJobOnward(w: World, middle: World, now: World, seen: Observation)
    requires JobsAccounted(middle) && RestartsCounted(middle) && CancelledIsFinal(w) && CancelledIsFinal(middle)
    requires Sighting(w, middle, now, seen) && DeriveSafe(w.status, seen)
    ensures JobOnward(now, WriteStatus(now, seen, StatusOf(w.status, seen), Succeeds))
  {
  }

  lemma WriteOnward(w: World, middle: World, now: World, seen: Observation)
    requires Facts(w) && Facts(middle) && Sighting(w, middle, now, seen) && DeriveSafe(w.status, seen)
    ensures Onward(now, WriteStatus(now, seen, StatusOf(w.status, seen), Succeeds))
  {
    WriteJobOnward(w, middle, now, seen);
  }

  lemma ComponentsOnward(w: World, seen: Observation, d: Desired, calls: Calls)
    ensures Onward(w, ReconcileComponents(w, seen, d, calls).0)
  {
    ComponentsOnly(w, seen, d, calls);
  }

  lemma CreateOnward(w: World, middle: World, now: World, seen: Observation, job: Job, savepoint: Option<string>)
    requires Facts(w) && Sighting(w, middle, now, seen) && WantsJob(w.spec) && seen.flinkJobList.Some?
    ensures Onward(now, CreateJob(now, job, savepoint, Recorded(w), Succeeds))
  {
  }

  lemma RecordOnward(w: World, now: World, s: SavepointStatus, trigger: Trigger)
    requires Undisturbed(w, now) && Recorded(w).Some?
    ensures Onward(now, RecordSavepoint(now, w.Cluster(), s, trigger, Succeeds))
  {
  }

  lemma TakeSavepointOnward(w: World, now: World, trigger: Trigger, o: Conditions)
    requires Facts(now) && Undisturbed(w, now) && Recorded(w).Some?
    ensures Onward(now, TakeSavepointStep(now, w.Cluster(), trigger, o).0)
  {
    var later := HappenAll(now, o.duringSavepoint);
    HappenAllDrifts(now, o.duringSavepoint);
    DriftOnward(now, later);
    UndisturbedTransitive(w, now, later);
    if Outcome(o.answers).Done? && o.calls.savepoint.Takes() {
      var recorded := RecordSavepoint(later, w.Cluster(), Outcome(o.answers).status, trigger, Succeeds);
      RecordOnward(w, later, Outcome(o.answers).status, trigger);
      OnwardTransitive(now, later, recorded);
      assert TakeSavepointStep(now, w.Cluster(), trigger, o).0 == recorded;
    } else {
      assert TakeSavepointStep(now, w.Cluster(), trigger, o).0 == later;
    }
  }

  lemma StopOnward(w: World, id: string, call: Call)
    ensures Onward(w, StopJob(w, id, call))
  {
  }

  lemma {:induction false} CancelRunningOnward(w: World, ids: seq<string>, calls: Calls, i: nat)
    ensures Onward(w, CancelRunningJobs(w, ids, calls, i).0)
    decreases |ids|
  {
    if ids != [] {
      var stopped := StopJob(w, ids[0], calls.Stop(i));
      StopOnward(w, ids[0], calls.Stop(i));
      if !calls.Stop(i).Errs() {
        CancelRunningOnward(stopped, ids[1..], calls, i + 1);
        OnwardTransitive(w, stopped, CancelRunningJobs(w, ids, calls, i).0);
      }
    }
  }

  lemma DeleteOnward(w: World, call: Call)
    ensures Onward(w, DeleteJob(w, call))
  {
  }

  lemma SubmitOnward(w: World, middle: World, now: World, seen: Observation, job: Job, o: Conditions)
    requires Facts(w) && Sighting(w, middle, now, seen) && WantsJob(w.spec)
    ensures Onward(now, SubmitOrWait(now, seen, job, o))
  {
    if seen.flinkJobList.Some? {
      if seen.flinkRunningJobIDs != [] {
        CancelRunningOnward(now, seen.flinkRunningJobIDs, o.calls, 0);
      } else if o.calls.job.Takes() {
        CreateOnward(w, middle, now, seen, job, ConvertFromSavepoint(w.spec.job.value, Recorded(w)));
      }
    }
  }

  lemma RestartOrSaveOnward(w: World, middle: World, now: World, seen: Observation, o: Conditions)
    requires Facts(now) && Sighting(w, middle, now, seen) && w.spec.job.Some?
    ensures Onward(now, RestartOrSave(now, seen, o))
  {
    var c := w.Cluster();
    UndisturbedTransitive(w, middle, now);
    if ShouldRestart(w.spec.job.value.restartPolicy, Recorded(w)) {
      var (stopped, err) := CancelRunningJobs(now, seen.flinkRunningJobIDs, o.calls, 0);
      CancelRunningOnward(now, seen.flinkRunningJobIDs, o.calls, 0);
      if !err {
        DeleteOnward(stopped, o.calls.job);
        OnwardTransitive(now, stopped, DeleteJob(stopped, o.calls.job));
      }
    } else if JobID(c) != "" && SavepointDue(c, now.clock).Some? {
      TakeSavepointOnward(w, now, SavepointDue(c, now.clock).value, o);
    }
  }

  lemma CancelFlinkJobOnward(w: World, now: World, id: string, o: Conditions)
    requires Facts(now) && Undisturbed(w, now) && Recorded(w).Some?
    ensures Onward(now, CancelFlinkJob(now, w.Cluster(), id, o).0)
  {
    var c := w.Cluster();
    var saved, err := now, false;
    if CanTakeSavepoint(c) {
      TakeSavepointOnward(w, now, BeforeCancel, o);
      saved, err := TakeSavepointStep(now, c, BeforeCancel, o).0, TakeSavepointStep(now, c, BeforeCancel, o).1;
    }
    if !err {
      StopOnward(saved, id, o.calls.Stop(0));
      OnwardTransitive(now, saved, StopJob(saved, id, o.calls.Stop(0)));
    }
  }

  lemma CancelAndDeleteOnward(w: World, middle: World, now: World, seen: Observation, o: Conditions)
    requires Facts(now) && Sighting(w, middle, now, seen)
    ensures Onward(now, CancelAndDelete(now, seen, o))
  {
    var c := w.Cluster();
    UndisturbedTransitive(w, middle, now);
    if JobID(c) == "" {
      DeleteOnward(now, o.calls.job);
    } else {
      var cancelled := CancelFlinkJob(now, c, JobID(c), o).0;
      CancelFlinkJobOnward(w, now, JobID(c), o);
      DeleteOnward(cancelled, o.calls.job);
      OnwardTransitive(now, cancelled, DeleteJob(cancelled, o.calls.job));
    }
  }

  lemma JobPartOnward(w: World, middle: World, now: World, seen: Observation, o: Conditions)
    requires Facts(w) && Facts(now) && Sighting(w, middle, now, seen) && ConvertSafe(w.Cluster())
    ensures Onward(now, ReconcileJob(now, seen, DesiredJob(w.Cluster()), o))
  {
    if WantsJob(w.spec) {
      if seen.job.None? {
        SubmitOnward(w, middle, now, seen, DesiredJob(w.Cluster()).value, o);
      } else {
        RestartOrSaveOnward(w, middle, now, seen, o);
      }
    } else if seen.job.Some? {
      CancelAndDeleteOnward(w, middle, now, seen, o);
    }
  }

  lemma ActOnward(w: World, middle: World, now: World, seen: Observation, o: Conditions)
    requires Facts(w) && Facts(now) && Sighting(w, middle, now, seen) && ConvertSafe(w.Cluster())
    ensures Onward(now, Act(now, seen, o))
  {
    var d := DesiredState(w.Cluster());
    var (changed, err) := ReconcileComponents(now, seen, d, o.calls);
    assert Onward(now, changed) by {
      ComponentsOnward(now, seen, d, o.calls);
    }
    ComponentsKeepFacts(w, middle, now, seen, o.calls);
    if !err {
      JobPartOnward(w, middle, changed, seen, o);
      OnwardTransitive(now, changed, ReconcileJob(changed, seen, d.job, o));
    }
  }

  lemma ConcludeWrites(w: World, middle: World, now: World, seen: Observation, o: Conditions)
    requires Facts(w) && Facts(middle) && Sighting(w, middle, now, seen) && DeriveSafe(w.status, seen)
    requires CompareSafe(w.status, StatusOf(w.status, seen)) && Changed(w.status, StatusOf(w.status, seen))
    ensures Onward(now, Conclude(now, seen, o))
  {
    WriteOnward(w, middle, now, seen);
    assert Conclude(now, seen, o) == WriteStatus(now, seen, StatusOf(w.status, seen), o.calls.status);
  }

  lemma ConcludeActs(w: World, middle: World, now: World, seen: Observation, o: Conditions)
    requires Facts(w) && Facts(now) && Sighting(w, middle, now, seen) && DeriveSafe(w.status, seen)
    requires CompareSafe(w.status, StatusOf(w.status, seen)) && !Changed(w.status, StatusOf(w.status, seen))
    requires ConvertSafe(w.Cluster())
    ensures Onward(now, Conclude(now, seen, o))
  {
    ActOnward(w, middle, now, seen, o);
    assert Conclude(now, seen, o) == Act(now, seen, o);
  }

  lemma ConcludeOnward(w: World, middle: World, now: World, seen: Observation, o: Conditions)
    requires Facts(w) && Facts(middle) && Facts(now) && Sighting(w, middle, now, seen)
    ensures Onward(now, Conclude(now, seen, o))
  {
    WriteSafe(w, middle, now, seen);
    if Changed(w.status, StatusOf(w.status, seen)) {
      ConcludeWrites(w, middle, now, seen, o);
    } else if ConvertSafe(w.Cluster()) {
      ConcludeActs(w, middle, now, seen, o);
    } else {
      assert Conclude(now, seen, o) == Panic(now);
    }
  }

  lemma ReadsOnward(w: World, o: Conditions)
    requires Facts(w)
    ensures Facts(AfterComponents(w, o)) && Facts(AfterFlink(w, o)) && Facts(AfterJob(w, o))
    ensures Onward(w, AfterComponents(w, o)) && Onward(w, AfterFlink(w, o)) && Onward(w, AfterJob(w, o))
  {
    HappenAllDrifts(w, o.afterComponents);
    HappenAllDrifts(AfterComponents(w, o), o.afterFlink);
    HappenAllDrifts(AfterFlink(w, o), o.afterJob);
    DriftTransitive(w, AfterComponents(w, o), AfterFlink(w, o));
    DriftTransitive(w, AfterFlink(w, o), AfterJob(w, o));
    DriftOnward(w, AfterComponents(w, o));
    DriftOnward(w, AfterFlink(w, o));
    DriftOnward(w, AfterJob(w, o));
    DriftKeepsFacts(w, AfterComponents(w, o));
    DriftKeepsFacts(w, AfterFlink(w, o));
    DriftKeepsFacts(w, AfterJob(w, o));
  }

  lemma ReadAndConcludeOnward(w: World, o: Conditions)
    requires Facts(w) && !w.deleted
    ensures Onward(w, Conclude(AfterJob(w, o), View(w, o), o))
  {
    var now, seen := AfterJob(w, o), View(w, o);
    ReadsOnward(w, o);
    ViewIsSighting(w, o);
    ConcludeOnward(w, AfterFlink(w, o), now, seen, o);
    OnwardTransitive(w, now, Conclude(now, seen, o));
  }

  lemma PassOnward(w: World, o: Conditions)
    requires Facts(w)
    ensures Onward(w, Pass(w, o))
  {
    if o.failing.ComponentErr() {
      assert Pass(w, o) == w;
    } else if ObservesJob(w) && o.failing.job {
      ReadsOnward(w, o);
      assert Pass(w, o) == AfterFlink(w, o);
    } else if w.deleted {
      ReadsOnward(w, o);
      assert Pass(w, o) == AfterJob(w, o);
    } else {
      ReadAndConcludeOnward(w, o);
      assert Pass(w, o) == Conclude(AfterJob(w, o), View(w, o), o);
    }
  }

  lemma {:induction false} RunOnward(w: World, steps: seq<Step>)
    requires Inv(w)
    ensures Onward(w, Run(w, steps))
    decreases |steps|
  {
    if steps != [] {
      var next := Next(w, steps[0]);
      NextKeeps(w, steps[0]);
      match steps[0] {
        case Operator(o) => PassOnward(w, o);
        case Other(e) => HappenDrifts(w, e); DriftOnward(w, next);
      }
      RunOnward(next, steps[1..]);
      OnwardTransitive(w, next, Run(next, steps[1..]));
    }
  }
}
