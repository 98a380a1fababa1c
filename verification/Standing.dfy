/** What stays as it is: the savepoints while there is no Job, and a failed job without a savepoint. */
module Standing {
  import opened FlinkTypes
  import opened StatusUpdater
  import opened Converter
  import opened WorldModel
  import opened ControlLoop
  import opened Drifting
  import opened Invariant
  import opened Preservation
  import opened Onwards
  import opened Submission

  /******* Without a Job *******/

  /** No savepoint is recorded, and there is no Job unless one is created. */
  predicate Unsaved(before: World, after: World) {
    && after.savepoints == before.savepoints
    && (before.job.None? && after.created == before.created ==> after.job.None?)
  }

  lemma NoJobToSave(w: World, seen: Observation, wanted: Option<Job>, o: Conditions)
    requires seen.cluster.Some? && (wanted.Some? ==> seen.cluster.value.spec.job.Some?) && seen.job.None?
    ensures Unsaved(w, ReconcileJob(w, seen, wanted, o))
  {
    CancelRunningDrifts(w, seen.flinkRunningJobIDs, o.calls, 0);
  }

  lemma ActWithoutJob(now: World, seen: Observation, o: Conditions)
    requires seen.cluster.Some? && ConvertSafe(seen.cluster.value) && seen.job.None?
    ensures Unsaved(now, Act(now, seen, o))
  {
    var d := DesiredState(seen.cluster.value);
    var (changed, err) := ReconcileComponents(now, seen, d, o.calls);
    ComponentsOnly(now, seen, d, o.calls);
    if !err {
      NoJobToSave(changed, seen, d.job, o);
    }
  }

  lemma ConcludeWithoutJob(now: World, seen: Observation, o: Conditions)
    requires seen.job.None?
    ensures Unsaved(now, Conclude(now, seen, o))
  {
    if Acts(seen) {
      ActWithoutJob(now, seen, o);
      assert Conclude(now, seen, o) == Act(now, seen, o);
    } else {
      OnlyActingActs(now, seen, o);
    }
  }

  /** The reads leave the savepoints alone, and without a Job there is none afterwards. */
  predicate StillNoJob(before: World, after: World) {
    after.savepoints == before.savepoints && after.created == before.created && after.job.None?
  }

  lemma ReadsWithoutJob(w: World, o: Conditions)
    requires w.job.None?
    ensures StillNoJob(w, AfterComponents(w, o)) && StillNoJob(w, AfterFlink(w, o)) && StillNoJob(w, AfterJob(w, o))
  {
    HappenAllDrifts(w, o.afterComponents);
    HappenAllDrifts(AfterComponents(w, o), o.afterFlink);
    HappenAllDrifts(AfterFlink(w, o), o.afterJob);
  }

  lemma PassWithoutJob(w: World, o: Conditions)
    requires w.job.None?
    ensures Unsaved(w, Pass(w, o))
  {
    ReadsWithoutJob(w, o);
    if !o.failing.ComponentErr() && CanAskFlink(w) && !(ObservesJob(w) && o.failing.job) {
      ConcludeWithoutJob(AfterJob(w, o), View(w, o), o);
      assert Pass(w, o) == Conclude(AfterJob(w, o), View(w, o), o);
    }
  }

  /** From the deletion of a Job until the next one is created, no savepoint is recorded. */
  lemma {:induction false} RunWithoutJob(w: World, steps: seq<Step>)
    requires w.job.None? && Run(w, steps).created == w.created
    ensures Run(w, steps).savepoints == w.savepoints && Run(w, steps).job.None?
    decreases |steps|
  {
    if steps != [] {
      var next := Next(w, steps[0]);
      RunAddsJobs(w, [steps[0]]);
      assert Run(w, [steps[0]]) == next;
      RunAddsJobs(next, steps[1..]);
      match steps[0] {
        case Operator(o) => PassWithoutJob(w, o);
        case Other(e) => HappenDrifts(w, e);
      }
      RunWithoutJob(next, steps[1..]);
    }
  }

  /******* A failed job without a savepoint *******/

  /** The Job has failed and there is no savepoint to restart from. */
  predicate FailedUnsaved(w: World) {
    && w.job.Some? && w.job.value.failed > 0
    && (Recorded(w).Some? ==> Recorded(w).value.savepointLocation == "")
  }

  /** No Job will be created any more. */
  predicate Stuck(w: World) {
    CancelRequested(w.spec) || FailedUnsaved(w)
  }

  lemma ReadsKeepFailed(w: World, o: Conditions)
    requires FailedUnsaved(w)
    ensures FailedUnsaved(AfterComponents(w, o)) && FailedUnsaved(AfterFlink(w, o)) && FailedUnsaved(AfterJob(w, o))
    ensures AfterComponents(w, o).status == AfterFlink(w, o).status == AfterJob(w, o).status == w.status
  {
    HappenAllDrifts(w, o.afterComponents);
    HappenAllDrifts(AfterComponents(w, o), o.afterFlink);
    HappenAllDrifts(AfterFlink(w, o), o.afterJob);
  }

  lemma StuckCreatesNone(w: World, o: Conditions)
    requires Stuck(w)
    ensures Pass(w, o).created == w.created
  {
    PassCreates(w, o);
    if FailedUnsaved(w) {
      ReadsKeepFailed(w, o);
    }
  }

  /** Acting does nothing to the Job or the status: it is no case for a restart, and a job that has ended
      is not saved. */
  lemma ActLeavesFailed(w: World, now: World, seen: Observation, o: Conditions)
    requires seen.cluster == Some(w.Cluster()) && ConvertSafe(w.Cluster()) && WantsJob(w.spec) && seen.job.Some?
    requires RecordedAs(w, Failed) && Recorded(w).value.savepointLocation == ""
    ensures Act(now, seen, o).job == now.job && Act(now, seen, o).status == now.status
  {
    var d := DesiredState(w.Cluster());
    ComponentsOnly(now, seen, d, o.calls);
    var (changed, err) := ReconcileComponents(now, seen, d, o.calls);
    if !err {
      assert ReconcileJob(changed, seen, d.job, o) == RestartOrSave(changed, seen, o) == changed;
    }
  }

  /** What a pass does to a failed job without a savepoint. */
  predicate LeftFailed(w: World, after: World) {
    FailedUnsaved(after) && (RecordedAs(w, Failed) ==> RecordedAs(after, Failed))
  }

  lemma DerivesFailed(w: World, seen: Observation)
    requires seen.cluster == Some(w.Cluster()) && DeriveSafe(w.status, seen)
    requires seen.job.Some? && seen.job.value.failed > 0
    requires Recorded(w).Some? ==> Recorded(w).value.savepointLocation == ""
    ensures var job := StatusOf(w.status, seen).components.job;
            job.Some? && job.value.state == Failed && job.value.savepointLocation == ""
  {
  }

  lemma ConcludeLeavesFailed(w: World, now: World, seen: Observation, o: Conditions)
    requires seen.cluster == Some(w.Cluster()) && WantsJob(w.spec) && seen.job.Some? && seen.job.value.failed > 0
    requires FailedUnsaved(w) && FailedUnsaved(now) && now.status == w.status
    ensures LeftFailed(w, Conclude(now, seen, o))
  {
    if Acts(seen) {
      ActsOnFailed(w, seen);
      ActLeavesFailed(w, now, seen, o);
      assert Conclude(now, seen, o) == Act(now, seen, o);
    } else {
      WriteLeavesFailed(w, now, seen, o);
    }
  }

  lemma WriteLeavesFailed(w: World, now: World, seen: Observation, o: Conditions)
    requires seen.cluster == Some(w.Cluster()) && seen.job.Some? && seen.job.value.failed > 0 && !Acts(seen)
    requires FailedUnsaved(w) && FailedUnsaved(now) && now.status == w.status
    ensures LeftFailed(w, Conclude(now, seen, o))
  {
    OnlyActingActs(now, seen, o);
    if DeriveSafe(w.status, seen) {
      DerivesFailed(w, seen);
    }
  }

  lemma ActsOnFailed(w: World, seen: Observation)
    requires seen.cluster == Some(w.Cluster()) && Acts(seen) && seen.job.Some? && seen.job.value.failed > 0
    requires Recorded(w).Some? ==> Recorded(w).value.savepointLocation == ""
    ensures RecordedAs(w, Failed) && Recorded(w).value.savepointLocation == ""
  {
    DerivesFailed(w, seen);
    assert Recorded(w) == StatusOf(w.status, seen).components.job;
  }

  lemma PassLeavesFailed(w: World, o: Conditions)
    requires FailedUnsaved(w) && WantsJob(w.spec)
    ensures LeftFailed(w, Pass(w, o))
  {
    ReadsKeepFailed(w, o);
    if !o.failing.ComponentErr() && CanAskFlink(w) && !(ObservesJob(w) && o.failing.job) && !w.deleted {
      ConcludeLeavesFailed(w, AfterJob(w, o), View(w, o), o);
      assert Pass(w, o) == Conclude(AfterJob(w, o), View(w, o), o);
    }
  }

  lemma {:induction false} RunLeavesFailed(w: World, steps: seq<Step>)
    requires Inv(w) && Stuck(w)
    ensures var after := Run(w, steps);
            && after.created == w.created && Stuck(after)
            && (RecordedAs(w, Failed) ==> RecordedAs(after, Failed) || CancelRequested(after.spec))
    decreases |steps|
  {
    if steps != [] {
      var next := Next(w, steps[0]);
      NextKeeps(w, steps[0]);
      StuckNext(w, steps[0]);
      RunLeavesFailed(next, steps[1..]);
      if CancelRequested(next.spec) {
        RunOnward(next, steps[1..]);
      }
    }
  }

  lemma StuckNext(w: World, s: Step)
    requires Facts(w) && Stuck(w)
    ensures var next := Next(w, s);
            && next.created == w.created && Stuck(next)
            && (RecordedAs(w, Failed) ==> RecordedAs(next, Failed) || CancelRequested(next.spec))
  {
    match s {
      case Operator(o) =>
        StuckCreatesNone(w, o);
        if CancelRequested(w.spec) {
          PassOnward(w, o);
        } else {
          PassLeavesFailed(w, o);
        }
      case Other(e) =>
        HappenDrifts(w, e);
    }
  }
}
