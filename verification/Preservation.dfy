/** Every pass keeps the invariant. */
module Preservation {
  import opened FlinkTypes
  import opened StatusUpdater
  import opened Converter
  import opened FlinkClient
  import opened Validation
  import opened Defaults
  import opened WorldModel
  import opened ControlLoop
  import opened Drifting
  import opened Invariant

  /** What a pass that started in `w` knows when it has read the Job in `middle` and goes on in `now`. */
  ghost predicate Sighting(w: World, middle: World, now: World, seen: Observation) {
    && seen.cluster == Some(w.Cluster())
    && seen.jmIngress == w.jmIngress
    && seen.job == (if w.spec.job.Some? then middle.job else None)
    && Undisturbed(w, middle) && Undisturbed(middle, now)
    && (seen.flinkJobList.Some? ==> AsksFlink(w.Cluster()))
    && (seen.flinkJobList.Some? && seen.flinkRunningJobIDs == [] && seen.job.None? ==> Load(now) == 0)
  }

  /** The Flink job list is older than the Job, but without a Job no Flink job can have appeared since. */
  lemma ViewIsSighting(w: World, o: Conditions)
    requires !w.deleted
    ensures Sighting(w, AfterFlink(w, o), AfterJob(w, o), View(w, o))
  {
    var first, middle, now := AfterComponents(w, o), AfterFlink(w, o), AfterJob(w, o);
    HappenAllDrifts(w, o.afterComponents);
    HappenAllDrifts(first, o.afterFlink);
    HappenAllDrifts(middle, o.afterJob);
    DriftTransitive(w, first, middle);
    DriftTransitive(first, middle, now);
  }

  /******* Writing the status *******/

  lemma WriteSafe(w: World, middle: World, now: World, seen: Observation)
    requires Facts(w) && Facts(middle) && Sighting(w, middle, now, seen)
    ensures DeriveSafe(w.status, seen) && CompareSafe(w.status, StatusOf(w.status, seen))
  {
  }

  lemma WriteKeepsShape(w: World, middle: World, now: World, seen: Observation, after: World)
    requires Sighting(w, middle, now, seen) && DeriveSafe(w.status, seen)
    requires after == now.(status := StatusOf(w.status, seen), noted := after.noted)
    requires WellFormed(w) && WellFormed(now) && JobsAccounted(w) && JobsAccounted(now)
    ensures WellFormed(after)
  {
  }

  lemma WriteKeepsAccounts(w: World, middle: World, now: World, seen: Observation, after: World)
    requires Sighting(w, middle, now, seen) && DeriveSafe(w.status, seen)
    requires after == now.(status := StatusOf(w.status, seen), noted := after.noted)
    requires WellFormed(w) && JobsAccounted(w) && JobsAccounted(now)
    ensures JobsAccounted(after)
  {
  }

  lemma WriteKeepsEnd(w: World, middle: World, now: World, seen: Observation, after: World)
    requires Sighting(w, middle, now, seen) && DeriveSafe(w.status, seen)
    requires after == now.(status := StatusOf(w.status, seen), noted := after.noted)
    requires WellFormed(w) && EndedWhenWindingDown(w) && EndedWhenWindingDown(middle)
    ensures EndedWhenWindingDown(after)
  {
  }

  lemma WriteKeepsSavepoints(w: World, middle: World, now: World, seen: Observation, after: World)
    requires Sighting(w, middle, now, seen) && DeriveSafe(w.status, seen)
    requires after == now.(status := StatusOf(w.status, seen), noted := after.noted)
    requires SavepointsAccounted(w)
    ensures SavepointsAccounted(after)
  {
  }

  lemma WriteKeepsCancelled(w: World, middle: World, now: World, seen: Observation, after: World)
    requires Sighting(w, middle, now, seen) && DeriveSafe(w.status, seen)
    requires after == now.(status := StatusOf(w.status, seen), noted := after.noted)
    requires CancelledIsFinal(w) && CancelledIsFinal(now)
    ensures CancelledIsFinal(after)
  {
  }

  lemma WriteKeepsReasons(w: World, middle: World, now: World, seen: Observation, after: World)
    requires Sighting(w, middle, now, seen) && DeriveSafe(w.status, seen)
    requires after == now.(status := StatusOf(w.status, seen), noted := after.noted)
    requires WellFormed(w) && JobsAccounted(w) && JobsAccounted(middle) && GoneForAReason(w) && GoneForAReason(now)
    ensures GoneForAReason(after)
  {
  }

  lemma WriteKeepsCount(w: World, middle: World, now: World, seen: Observation, after: World)
    requires Sighting(w, middle, now, seen) && DeriveSafe(w.status, seen)
    requires after == now.(status := StatusOf(w.status, seen), noted := after.noted)
    requires JobsAccounted(middle) && CancelledIsFinal(middle) && RestartsCounted(w) && RestartsCounted(middle)
    ensures RestartsCounted(after)
  {
  }

  lemma WriteKeeps(w: World, middle: World, now: World, seen: Observation, call: Call)
    requires Facts(w) && Facts(middle) && Inv(now) && Sighting(w, middle, now, seen) && DeriveSafe(w.status, seen)
    ensures Inv(WriteStatus(now, seen, StatusOf(w.status, seen), call))
  {
    var after := WriteStatus(now, seen, StatusOf(w.status, seen), Succeeds);
    WriteKeepsShape(w, middle, now, seen, after);
    WriteKeepsAccounts(w, middle, now, seen, after);
    WriteKeepsEnd(w, middle, now, seen, after);
    WriteKeepsSavepoints(w, middle, now, seen, after);
    WriteKeepsCancelled(w, middle, now, seen, after);
    WriteKeepsReasons(w, middle, now, seen, after);
    WriteKeepsCount(w, middle, now, seen, after);
    HistoriesKept(now, after);
  }

  /******* Acting on components *******/

  /** Whatever fails, only the five components change, and only towards the desired state. */
  lemma ComponentsOnly(w: World, seen: Observation, d: Desired, calls: Calls)
    ensures var after := ReconcileComponents(w, seen, d, calls).0;
            && after == w.(configMap := after.configMap, jmDeployment := after.jmDeployment,
                           jmService := after.jmService, jmIngress := after.jmIngress,
                           tmDeployment := after.tmDeployment)
            && (after.configMap == w.configMap || after.configMap == d.configMap || after.configMap.None?)
            && (|| after.jmDeployment == w.jmDeployment || after.jmDeployment == d.jmDeployment
                || after.jmDeployment.None?)
            && (after.jmService == w.jmService || after.jmService == d.jmService || after.jmService.None?)
            && (after.jmIngress == w.jmIngress || after.jmIngress == d.jmIngress || after.jmIngress.None?)
            && (|| after.tmDeployment == w.tmDeployment || after.tmDeployment == d.tmDeployment
                || after.tmDeployment.None?)
  {
  }

  /** A resource that is wanted and not seen, or seen and not wanted, and whose request fails. */
  predicate FailsAt<T>(wanted: Option<T>, seen: Option<T>, call: Call) {
    wanted.Some? != seen.Some? && call != Succeeds
  }

  /** The config map comes first, then the JobManager deployment, its service and its ingress, and the
      TaskManager deployment last; a failed request leaves all that come later alone. */
  lemma FailureEndsReconciling(w: World, seen: Observation, d: Desired, calls: Calls)
    ensures var (after, err) := ReconcileComponents(w, seen, d, calls);
            && (FailsAt(d.configMap, seen.configMap, calls.configMap) ==>
                  err && after == w.(configMap := after.configMap))
            && (FailsAt(d.jmDeployment, seen.jmDeployment, calls.jmDeployment) ==>
                  err && after == w.(configMap := after.configMap, jmDeployment := after.jmDeployment))
            && (FailsAt(d.jmService, seen.jmService, calls.jmService) ==>
                  err && after == w.(configMap := after.configMap, jmDeployment := after.jmDeployment,
                                     jmService := after.jmService))
            && (FailsAt(d.jmIngress, seen.jmIngress, calls.jmIngress) ==>
                  err && after == w.(configMap := after.configMap, jmDeployment := after.jmDeployment,
                                     jmService := after.jmService, jmIngress := after.jmIngress))
            && (FailsAt(d.tmDeployment, seen.tmDeployment, calls.tmDeployment) ==> err)
  {
  }

  /** After a failed request for a component the job is not touched. */
  lemma FailureEndsActing(w: World, seen: Observation, o: Conditions)
    requires seen.cluster.Some? && ConvertSafe(seen.cluster.value)
    requires var d := DesiredState(seen.cluster.value);
             || FailsAt(d.configMap, seen.configMap, o.calls.configMap)
             || FailsAt(d.jmDeployment, seen.jmDeployment, o.calls.jmDeployment)
             || FailsAt(d.jmService, seen.jmService, o.calls.jmService)
             || FailsAt(d.jmIngress, seen.jmIngress, o.calls.jmIngress)
             || FailsAt(d.tmDeployment, seen.tmDeployment, o.calls.tmDeployment)
    ensures var after := Act(w, seen, o);
            after == w.(configMap := after.configMap, jmDeployment := after.jmDeployment,
                        jmService := after.jmService, jmIngress := after.jmIngress, tmDeployment := after.tmDeployment)
  {
    FailureEndsReconciling(w, seen, DesiredState(seen.cluster.value), o.calls);
    ComponentsOnly(w, seen, DesiredState(seen.cluster.value), o.calls);
  }

  lemma OnlyComponentsKeepFacts(now: World, after: World)
    requires Facts(now)
    requires after == now.(configMap := after.configMap, jmDeployment := after.jmDeployment,
                           jmService := after.jmService, jmIngress := after.jmIngress,
                           tmDeployment := after.tmDeployment)
    requires after.jmIngress.Some? ==> after.jmIngress.value.name != "" && now.spec.jobManager.ingress.Some?
    ensures Facts(after)
  {
  }

  lemma ComponentsKeepFacts(w: World, middle: World, now: World, seen: Observation, calls: Calls)
    requires Facts(now) && Sighting(w, middle, now, seen) && ConvertSafe(w.Cluster())
    ensures var after := ReconcileComponents(now, seen, DesiredState(w.Cluster()), calls).0;
            Facts(after) && Sighting(w, middle, after, seen)
  {
    var after := ReconcileComponents(now, seen, DesiredState(w.Cluster()), calls).0;
    ComponentsOnly(now, seen, DesiredState(w.Cluster()), calls);
    assert now.spec.jobManager.ingress == w.spec.jobManager.ingress;
    OnlyComponentsKeepFacts(now, after);
  }

  lemma ComponentsKeep(w: World, middle: World, now: World, seen: Observation, calls: Calls)
    requires Inv(now) && Sighting(w, middle, now, seen) && ConvertSafe(w.Cluster())
    ensures var after := ReconcileComponents(now, seen, DesiredState(w.Cluster()), calls).0;
            Inv(after) && Sighting(w, middle, after, seen)
  {
    ComponentsOnly(now, seen, DesiredState(w.Cluster()), calls);
    ComponentsKeepFacts(w, middle, now, seen, calls);
    HistoriesKept(now, ReconcileComponents(now, seen, DesiredState(w.Cluster()), calls).0);
  }

  /******* Acting on the job *******/

  lemma StopDrifts(w: World, id: string, call: Call)
    ensures Drift(w, StopJob(w, id, call))
  {
    RunningShrinks(w.flinkJobs, CancelJob(w.flinkJobs, id));
  }

  lemma {:induction false} CancelRunningDrifts(w: World, ids: seq<string>, calls: Calls, i: nat)
    ensures Drift(w, CancelRunningJobs(w, ids, calls, i).0)
    decreases |ids|
  {
    if ids != [] {
      var stopped := StopJob(w, ids[0], calls.Stop(i));
      StopDrifts(w, ids[0], calls.Stop(i));
      if !calls.Stop(i).Errs() {
        CancelRunningDrifts(stopped, ids[1..], calls, i + 1);
        DriftTransitive(w, stopped, CancelRunningJobs(w, ids, calls, i).0);
      }
    }
  }

  /** A Job created after another one starts from the savepoint recorded last. */
  lemma CreatedWell(w: World, middle: World, now: World, seen: Observation, job: Job)
    requires Facts(w) && Facts(now) && Sighting(w, middle, now, seen)
    requires WantsJob(w.spec) && seen.job.None?
    ensures var savepoint := ConvertFromSavepoint(w.spec.job.value, Recorded(w));
            var after := CreateJob(now, job, savepoint, Recorded(w), Succeeds);
            |after.created| == |now.created| + 1 && StartedWell(after, |now.created|)
  {
  }

  lemma CreateKeepsFacts(w: World, middle: World, now: World, seen: Observation, job: Job, savepoint: Option<string>)
    requires JobsAccounted(w) && GoneForAReason(w) && Facts(now) && Sighting(w, middle, now, seen)
    requires WantsJob(w.spec) && seen.job.None?
    requires seen.flinkJobList.Some? && seen.flinkRunningJobIDs == []
    ensures Facts(CreateJob(now, job, savepoint, Recorded(w), Succeeds))
  {
  }

  lemma CreateKeeps(w: World, middle: World, now: World, seen: Observation, job: Job)
    requires Facts(w) && Inv(now) && Sighting(w, middle, now, seen)
    requires WantsJob(w.spec) && seen.job.None?
    requires seen.flinkJobList.Some? && seen.flinkRunningJobIDs == []
    ensures Inv(CreateJob(now, job, ConvertFromSavepoint(w.spec.job.value, Recorded(w)), Recorded(w), Succeeds))
  {
    var savepoint := ConvertFromSavepoint(w.spec.job.value, Recorded(w));
    var after := CreateJob(now, job, savepoint, Recorded(w), Succeeds);
    assert Facts(after) by {
      CreateKeepsFacts(w, middle, now, seen, job, savepoint);
    }
    assert Histories(after) by {
      CreatedWell(w, middle, now, seen, job);
      HistoriesKept(now, after);
    }
  }

  lemma SubmitKeeps(w: World, middle: World, now: World, seen: Observation, job: Job, o: Conditions)
    requires Facts(w) && Inv(now) && Sighting(w, middle, now, seen)
    requires WantsJob(w.spec) && seen.job.None?
    ensures Inv(SubmitOrWait(now, seen, job, o))
  {
    if seen.flinkJobList.Some? {
      if seen.flinkRunningJobIDs != [] {
        CancelRunningDrifts(now, seen.flinkRunningJobIDs, o.calls, 0);
        DriftKeeps(now, CancelRunningJobs(now, seen.flinkRunningJobIDs, o.calls, 0).0);
      } else if o.calls.job.Takes() {
        CreateKeeps(w, middle, now, seen, job);
      }
    }
  }

  /** Deleting the Job is safe once the deletion has a reason. */
  lemma DeleteKeeps(now: World, call: Call)
    requires Inv(now)
    requires CancelRequested(now.spec) || ShouldRestart(Policy(now.spec), Recorded(now))
    ensures Inv(DeleteJob(now, call))
  {
    HistoriesKept(now, DeleteJob(now, call));
  }

  lemma NextGeneration(n: nat)
    ensures Wrap32(Wrap32(n) + 1) == Wrap32(n + 1)
  {
  }

  /** A clock past a whole second shows at least that second. */
  lemma SecondsReached(clock: int, decided: int, second: int)
    requires clock >= decided > second * SECOND
    ensures Seconds(clock) >= second
  {
  }

  /** The savepoint was due in `now`, or the job is about to be cancelled. */
  predicate DueIn(now: World, c: Cluster, trigger: Trigger) {
    c.status.components.job.Some? && CanTakeSavepoint(c)
    && (trigger == BeforeCancel || SavepointDue(c, now.clock) == Some(trigger))
  }

  lemma RecordKeepsSpacing(w: World, decided: World, now: World, s: SavepointStatus, trigger: Trigger)
    requires SavepointsAccounted(now) && SavepointsSpaced(now) && Undisturbed(w, now) && now.clock >= decided.clock
    requires DueIn(decided, w.Cluster(), trigger)
    ensures SavepointsSpaced(RecordSavepoint(now, w.Cluster(), s, trigger, Succeeds))
  {
    var after := RecordSavepoint(now, w.Cluster(), s, trigger, Succeeds);
    var n := |now.savepoints|;
    if trigger == Interval {
      var due := Recorded(w).value.lastSavepointTime.value + w.spec.job.value.autoSavepointSeconds.value;
      SecondsReached(now.clock, decided.clock, due);
      assert after.savepoints[n].time >= after.savepoints[n - 1].time + now.spec.job.value.autoSavepointSeconds.value;
    }
    forall i | 0 <= i < |after.savepoints| && after.savepoints[i].trigger == Interval
      ensures i > 0 && after.spec.job.Some? && after.spec.job.value.autoSavepointSeconds.Some?
      ensures after.savepoints[i].time
           >= after.savepoints[i - 1].time + after.spec.job.value.autoSavepointSeconds.value
    {
      if i < n {
        assert now.savepoints[i] == after.savepoints[i];
        assert i > 0 ==> now.savepoints[i - 1] == after.savepoints[i - 1];
      }
    }
  }

  lemma RecordKeepsAccounts(w: World, now: World, s: SavepointStatus, trigger: Trigger)
    requires SavepointsAccounted(now) && Undisturbed(w, now) && Recorded(w).Some?
    ensures SavepointsAccounted(RecordSavepoint(now, w.Cluster(), s, trigger, Succeeds))
  {
    NextGeneration(|now.savepoints|);
  }

  lemma RecordKeepsFacts(w: World, now: World, s: SavepointStatus, trigger: Trigger)
    requires Facts(now) && Undisturbed(w, now) && now.job.Some?
    requires Recorded(w).Some? && CanTakeSavepoint(w.Cluster())
    ensures Facts(RecordSavepoint(now, w.Cluster(), s, trigger, Succeeds))
  {
    RecordKeepsAccounts(w, now, s, trigger);
  }

  lemma RecordKeepsStarts(w: World, now: World, after: World)
    requires AllStartedWell(now) && after.created == now.created && after.spec == now.spec
    requires now.savepoints <= after.savepoints
    ensures AllStartedWell(after)
  {
    forall i | 0 <= i < |after.created|
      ensures StartedWell(after, i)
    {
      assert StartedWell(now, i);
    }
  }

  lemma RecordKeeps(w: World, decided: World, now: World, s: SavepointStatus, trigger: Trigger, call: Call)
    requires Inv(now) && Undisturbed(w, now) && now.job.Some? && now.clock >= decided.clock
    requires DueIn(decided, w.Cluster(), trigger)
    ensures Inv(RecordSavepoint(now, w.Cluster(), s, trigger, call))
  {
    var after := RecordSavepoint(now, w.Cluster(), s, trigger, Succeeds);
    RecordKeepsFacts(w, now, s, trigger);
    RecordKeepsSpacing(w, decided, now, s, trigger);
    RecordKeepsStarts(w, now, after);
  }

  lemma TakeSavepointKeeps(w: World, now: World, trigger: Trigger, o: Conditions)
    requires Inv(now) && Undisturbed(w, now) && now.job.Some?
    requires DueIn(now, w.Cluster(), trigger)
    ensures Inv(TakeSavepointStep(now, w.Cluster(), trigger, o).0)
  {
    var later := HappenAll(now, o.duringSavepoint);
    HappenAllDrifts(now, o.duringSavepoint);
    DriftKeeps(now, later);
    UndisturbedTransitive(w, now, later);
    match Outcome(o.answers) {
      case Done(s) => RecordKeeps(w, now, later, s, trigger, o.calls.savepoint);
      case _ =>
    }
  }

  lemma RestartOrSaveKeeps(w: World, middle: World, now: World, seen: Observation, o: Conditions)
    requires Inv(now) && Sighting(w, middle, now, seen)
    requires w.spec.job.Some? && seen.job.Some?
    ensures Inv(RestartOrSave(now, seen, o))
  {
    var c := w.Cluster();
    UndisturbedTransitive(w, middle, now);
    if ShouldRestart(w.spec.job.value.restartPolicy, Recorded(w)) {
      var (stopped, err) := CancelRunningJobs(now, seen.flinkRunningJobIDs, o.calls, 0);
      CancelRunningDrifts(now, seen.flinkRunningJobIDs, o.calls, 0);
      DriftKeeps(now, stopped);
      if !err {
        DeleteKeeps(stopped, o.calls.job);
      }
    } else if JobID(c) != "" && SavepointDue(c, now.clock).Some? {
      TakeSavepointKeeps(w, now, SavepointDue(c, now.clock).value, o);
    }
  }

  lemma CancelFlinkJobKeeps(w: World, now: World, id: string, o: Conditions)
    requires Inv(now) && Undisturbed(w, now) && CancelRequested(w.spec) && now.job.Some? && Recorded(w).Some?
    ensures var after := CancelFlinkJob(now, w.Cluster(), id, o).0;
            Inv(after) && CancelRequested(after.spec)
  {
    var c := w.Cluster();
    if CanTakeSavepoint(c) {
      var saved := TakeSavepointStep(now, c, BeforeCancel, o).0;
      TakeSavepointKeeps(w, now, BeforeCancel, o);
      TakeSavepointKeepsRequest(now, c, BeforeCancel, o);
      StopKeeps(saved, id, o.calls.Stop(0));
    } else {
      StopKeeps(now, id, o.calls.Stop(0));
    }
  }

  lemma TakeSavepointKeepsRequest(now: World, c: Cluster, trigger: Trigger, o: Conditions)
    requires c.status.components.job.Some? && CancelRequested(now.spec)
    ensures CancelRequested(TakeSavepointStep(now, c, trigger, o).0.spec)
  {
    HappenAllDrifts(now, o.duringSavepoint);
  }

  lemma StopKeeps(now: World, id: string, call: Call)
    requires Inv(now) && CancelRequested(now.spec)
    ensures Inv(StopJob(now, id, call)) && CancelRequested(StopJob(now, id, call).spec)
  {
    StopDrifts(now, id, call);
    DriftKeeps(now, StopJob(now, id, call));
  }

  lemma CancelAndDeleteKeeps(w: World, middle: World, now: World, seen: Observation, o: Conditions)
    requires Inv(now) && Sighting(w, middle, now, seen)
    requires CancelRequested(w.spec) && seen.job.Some?
    ensures Inv(CancelAndDelete(now, seen, o))
  {
    var c := w.Cluster();
    UndisturbedTransitive(w, middle, now);
    if JobID(c) == "" {
      DeleteKeeps(now, o.calls.job);
    } else {
      CancelFlinkJobKeeps(w, now, JobID(c), o);
      DeleteKeeps(CancelFlinkJob(now, c, JobID(c), o).0, o.calls.job);
    }
  }

  /******* The pass *******/

  lemma JobPartKeeps(w: World, middle: World, now: World, seen: Observation, o: Conditions)
    requires Facts(w) && Inv(now) && Sighting(w, middle, now, seen) && ConvertSafe(w.Cluster())
    ensures Inv(ReconcileJob(now, seen, DesiredJob(w.Cluster()), o))
  {
    if WantsJob(w.spec) {
      if seen.job.None? {
        SubmitKeeps(w, middle, now, seen, DesiredJob(w.Cluster()).value, o);
      } else {
        RestartOrSaveKeeps(w, middle, now, seen, o);
      }
    } else if seen.job.Some? {
      CancelAndDeleteKeeps(w, middle, now, seen, o);
    }
  }

  lemma ActKeeps(w: World, middle: World, now: World, seen: Observation, o: Conditions)
    requires Facts(w) && Inv(now) && Sighting(w, middle, now, seen) && ConvertSafe(w.Cluster())
    ensures Inv(Act(now, seen, o))
  {
    var d := DesiredState(w.Cluster());
    var (changed, err) := ReconcileComponents(now, seen, d, o.calls);
    ComponentsKeep(w, middle, now, seen, o.calls);
    if !err {
      JobPartKeeps(w, middle, changed, seen, o);
    }
  }

  lemma ReadsKeep(w: World, o: Conditions)
    requires Inv(w)
    ensures Inv(AfterComponents(w, o)) && Inv(AfterFlink(w, o)) && Inv(AfterJob(w, o))
  {
    HappenAllDrifts(w, o.afterComponents);
    DriftKeeps(w, AfterComponents(w, o));
    HappenAllDrifts(AfterComponents(w, o), o.afterFlink);
    DriftKeeps(AfterComponents(w, o), AfterFlink(w, o));
    HappenAllDrifts(AfterFlink(w, o), o.afterJob);
    DriftKeeps(AfterFlink(w, o), AfterJob(w, o));
  }

  lemma PanicKeeps(w: World)
    requires Inv(w)
    ensures Inv(Panic(w))
  {
    HistoriesKept(w, Panic(w));
  }

  lemma ConcludeKeeps(w: World, middle: World, now: World, seen: Observation, o: Conditions)
    requires Facts(w) && Facts(middle) && Inv(now) && Sighting(w, middle, now, seen)
    ensures Inv(Conclude(now, seen, o))
  {
    WriteSafe(w, middle, now, seen);
    if Changed(w.status, StatusOf(w.status, seen)) {
      WriteKeeps(w, middle, now, seen, o.calls.status);
      assert Conclude(now, seen, o) == WriteStatus(now, seen, StatusOf(w.status, seen), o.calls.status);
    } else if ConvertSafe(w.Cluster()) {
      ActKeeps(w, middle, now, seen, o);
      assert Conclude(now, seen, o) == Act(now, seen, o);
    } else {
      PanicKeeps(now);
      assert Conclude(now, seen, o) == Panic(now);
    }
  }

  lemma ReadAndConcludeKeeps(w: World, o: Conditions)
    requires Inv(w) && !w.deleted
    ensures Inv(Conclude(AfterJob(w, o), View(w, o), o))
  {
    ReadsKeep(w, o);
    ViewIsSighting(w, o);
    ConcludeKeeps(w, AfterFlink(w, o), AfterJob(w, o), View(w, o), o);
  }

  lemma PassKeeps(w: World, o: Conditions)
    requires Inv(w)
    ensures Inv(Pass(w, o))
  {
    if o.failing.ComponentErr() {
      assert Pass(w, o) == w;
    } else if ObservesJob(w) && o.failing.job {
      ReadsKeep(w, o);
      assert Pass(w, o) == AfterFlink(w, o);
    } else if w.deleted {
      ReadsKeep(w, o);
      assert Pass(w, o) == AfterJob(w, o);
    } else {
      ReadAndConcludeKeeps(w, o);
      assert Pass(w, o) == Conclude(AfterJob(w, o), View(w, o), o);
    }
  }

  lemma NextKeeps(w: World, s: Step)
    requires Inv(w)
    ensures Inv(Next(w, s))
  {
    match s {
      case Operator(o) => PassKeeps(w, o);
      case Other(e) => HappenDrifts(w, e); DriftKeeps(w, Happen(w, e));
    }
  }

  lemma {:induction false} RunKeeps(w: World, steps: seq<Step>)
    requires Inv(w)
    ensures Inv(Run(w, steps))
    decreases |steps|
  {
    if steps != [] {
      NextKeeps(w, steps[0]);
      RunKeeps(Next(w, steps[0]), steps[1..]);
    }
  }

  lemma FreshStartsWell(name: string, namespace: string, spec: ClusterSpec, clock: int)
    requires SpecReady(spec)
    ensures Inv(Fresh(name, namespace, spec, clock))
  {
  }

  lemma AdmittedStartsWell(w: World)
    requires Admitted(w)
    ensures Inv(w) && !w.panicked && w == Fresh(w.name, w.namespace, w.spec, w.clock)
  {
    var c: Cluster, clock: int :| AdmittedAs(w, c, clock);
    AdmittedIsReady(c.(spec := SpecDefault(c.spec)));
    FreshStartsWell(c.name, c.namespace, SpecDefault(c.spec), clock);
  }
}
