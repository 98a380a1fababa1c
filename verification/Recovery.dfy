/** What calm passes do for a job: submit it, restart it after a failure, cancel it. */
module Recovery {
  import opened FlinkTypes
  import opened Converter
  import opened WorldModel
  import opened ControlLoop
  import opened Invariant
  import opened Settling
  import opened Cleanup

  /** All components the spec asks for exist. */
  predicate Complete(w: World) {
    && w.configMap.Some? && w.jmDeployment.Some? && w.jmService.Some? && w.tmDeployment.Some?
    && (w.jmIngress.Some? <==> w.spec.jobManager.ingress.Some?)
  }

  /** Flink answers and every request to stop a job succeeds. */
  predicate Responsive(o: Conditions) {
    Calm(o) && !o.failing.flink && forall i :: 0 <= i < |o.calls.stops| ==> o.calls.stops[i] == Succeeds
  }

  /** The cluster runs, its status is up to date and no component is to be cleaned up. */
  ghost predicate Steady(w: World, o: Conditions) {
    && Derivable(w) && Still(o) && !Writes(w, o)
    && w.status.state == Running && Complete(w) && ConvertSafe(w.Cluster())
    && (ActionOf(w.Cluster()).None? || ActionOf(w.Cluster()) == Some(KeepCluster))
  }

  /** A pass over a steady cluster comes straight to its job. */
  lemma SteadyPass(w: World, o: Conditions)
    requires Steady(w, o)
    ensures w.spec.job.Some? ==> Pass(w, o) == ReconcileJob(w, View(w, o), DesiredJob(w.Cluster()), o)
  {
    StillPassActs(w, o);
    ComponentsSteady(w, o);
  }

  lemma ComponentsSteady(w: World, o: Conditions)
    requires Steady(w, o)
    ensures ReconcileComponents(w, View(w, o), DesiredState(w.Cluster()), o.calls) == (w, false)
  {
    NothingToDo(w, View(w, o), DesiredState(w.Cluster()), o.calls);
  }

  lemma NothingToDo(w: World, seen: Observation, d: Desired, calls: Calls)
    requires d.configMap.Some? == seen.configMap.Some? && d.jmDeployment.Some? == seen.jmDeployment.Some?
    requires d.jmService.Some? == seen.jmService.Some? && d.jmIngress.Some? == seen.jmIngress.Some?
    requires d.tmDeployment.Some? == seen.tmDeployment.Some?
    ensures ReconcileComponents(w, seen, d, calls) == (w, false)
  {
  }

  /******* Submitting *******/

  /** With no Job and nothing running, one pass creates the desired Job. */
  lemma SubmitsInOnePass(w: World, o: Conditions)
    requires Steady(w, o) && Responsive(o) && WantsJob(w.spec) && w.job.None? && RunningIDs(w.flinkJobs) == []
    ensures var job := DesiredJob(w.Cluster()).value;
            var savepoint := ConvertFromSavepoint(w.spec.job.value, Recorded(w));
            Pass(w, o) == w.(job := Some(job),
                             created := w.created + [Creation(job, savepoint, Recorded(w), |w.savepoints|)])
  {
    SteadyPass(w, o);
    assert View(w, o).flinkJobList == Some(w.flinkJobs);
  }

  /******* Restarting *******/

  lemma {:induction false} RunningAreListed(jobs: seq<FlinkJob>, k: nat)
    requires k < |jobs| && jobs[k].status == FLINK_RUNNING
    ensures jobs[k].id in RunningIDs(jobs)
  {
    if k < |jobs| - 1 {
      RunningAreListed(jobs[..|jobs| - 1], k);
    }
  }

  lemma {:induction false} NoneRunning(jobs: seq<FlinkJob>)
    requires forall k :: 0 <= k < |jobs| ==> jobs[k].status != FLINK_RUNNING
    ensures RunningIDs(jobs) == []
  {
    if jobs != [] {
      NoneRunning(jobs[..|jobs| - 1]);
    }
  }

  /** What still runs afterwards ran before and was not to be stopped. */
  lemma {:induction false} StopsThose(w: World, ids: seq<string>, calls: Calls, i: nat)
    requires forall k :: 0 <= k < |calls.stops| ==> calls.stops[k] == Succeeds
    ensures var (after, err) := CancelRunningJobs(w, ids, calls, i);
            && !err && after == w.(flinkJobs := after.flinkJobs) && |after.flinkJobs| == |w.flinkJobs|
            && forall k :: 0 <= k < |w.flinkJobs| && after.flinkJobs[k].status == FLINK_RUNNING ==>
                             after.flinkJobs[k] == w.flinkJobs[k] && w.flinkJobs[k].id !in ids
    decreases |ids|
  {
    if ids != [] {
      StopsThose(StopJob(w, ids[0], calls.Stop(i)), ids[1..], calls, i + 1);
    }
  }

  lemma StopsAll(w: World, calls: Calls)
    requires forall k :: 0 <= k < |calls.stops| ==> calls.stops[k] == Succeeds
    ensures var (after, err) := CancelRunningJobs(w, RunningIDs(w.flinkJobs), calls, 0);
            !err && after == w.(flinkJobs := after.flinkJobs) && RunningIDs(after.flinkJobs) == []
  {
    var after := CancelRunningJobs(w, RunningIDs(w.flinkJobs), calls, 0).0;
    StopsThose(w, RunningIDs(w.flinkJobs), calls, 0);
    forall k | 0 <= k < |after.flinkJobs|
      ensures after.flinkJobs[k].status != FLINK_RUNNING
    {
      if after.flinkJobs[k].status == FLINK_RUNNING {
        RunningAreListed(w.flinkJobs, k);
      }
    }
    NoneRunning(after.flinkJobs);
  }

  /** The job has failed and is to be restarted. */
  predicate ToRestart(w: World) {
    WantsJob(w.spec) && ShouldRestart(Policy(w.spec), Recorded(w))
  }

  /** First everything that still runs is stopped and the Job deleted. */
  lemma RestartClears(w: World, o: Conditions)
    requires Steady(w, o) && Responsive(o) && ToRestart(w) && w.job.Some?
    ensures var after := Pass(w, o);
            after == w.(job := None, flinkJobs := after.flinkJobs) && RunningIDs(after.flinkJobs) == []
  {
    SteadyPass(w, o);
    assert View(w, o).flinkRunningJobIDs == RunningIDs(w.flinkJobs);
    StopsAll(w, o.calls);
  }

  /** Without its Job the failed job keeps its status, so the next pass is not spent on writing it. */
  lemma StaysSteady(w: World, o: Conditions, after: World, next: Conditions)
    requires Steady(w, o) && ToRestart(w) && Still(next)
    requires after == w.(job := None, flinkJobs := after.flinkJobs)
    ensures Steady(after, next)
  {
    JobIs(w, o);
    JobIs(after, next);
    StateIs(w, o);
    StateIs(after, next);
    OthersAlike(w, o, after, next);
    RederivedDerivable(w, o);
    RederivedDerivable(after, next);
  }

  lemma OthersAlike(w: World, o: Conditions, after: World, next: Conditions)
    requires Derivable(w) && Still(o) && Still(next)
    requires after == w.(job := None, flinkJobs := after.flinkJobs)
    ensures Others(Derived(after, next).components) == Others(Derived(w, o).components)
  {
  }

  /** Two calm passes restart a failed job from the savepoint recorded last, also when it still runs in
      Flink, and leave everything else as it was. */
  lemma RestartsInTwoPasses(w: World, o: Conditions, next: Conditions)
    requires Steady(w, o) && Responsive(o) && Responsive(next) && ToRestart(w) && w.job.Some?
    ensures var after := Pass(Pass(w, o), next);
            var savepoint := Some(Recorded(w).value.savepointLocation);
            var job := DesiredJob(w.Cluster());
            && RunningIDs(after.flinkJobs) == []
            && after == w.(job := job, flinkJobs := after.flinkJobs,
                           created := w.created + [Creation(job.value, savepoint, Recorded(w), |w.savepoints|)])
  {
    var middle := Pass(w, o);
    RestartClears(w, o);
    StaysSteady(w, o, middle, next);
    SubmitsInOnePass(middle, next);
  }
}
