/** How a failed job that is to be restarted comes to a new Job. */
module Restarting {
  import opened FlinkTypes
  import opened StatusUpdater
  import opened Converter
  import opened Validation
  import opened WorldModel
  import opened ControlLoop
  import opened Invariant
  import opened Preservation
  import opened Submission
  import opened Settling
  import opened Recovery

  /** The cluster is up and is kept although its job has failed, and the job is to be restarted from a
      recorded savepoint. Its Job may be gone already, components may be missing, and the status may be
      out of date. */
  predicate Broken(w: World) {
    && Derivable(w) && SpecReady(w.spec) && GCPSafe(w.spec) && Active(w.status.state)
    && KeptAfterFailure(w.spec) && Policy(w.spec) == Some(FromSavepointOnFailure) && WantsJob(w.spec)
    && Recorded(w).Some? && Recorded(w).value.savepointLocation != ""
    && (w.job.Some? ==> w.job.value.failed > 0)
    && (w.job.None? ==> RecordedAs(w, Failed))
  }

  /** Only the new Job is missing. */
  predicate Cleared(w: World) {
    w.job.None? && Complete(w) && RunningIDs(w.flinkJobs) == []
  }

  /** All responsive passes see the same. */
  lemma ViewAlike(w: World, o: Conditions, next: Conditions)
    requires !w.deleted && Responsive(o) && Responsive(next)
    ensures View(w, o) == View(w, next)
  {
  }

  lemma CalmIsResponsive()
    ensures Responsive(CALM)
  {
  }

  /** The status writes needed before the operator acts. */
  function WritesLeft(w: World): (n: nat)
    requires Derivable(w)
    ensures n <= 2
  {
    RederivedDerivable(w, CALM);
    if !Writes(w, CALM) then 0 else if !Writes(Rederived(w, CALM), CALM) then 1 else 2
  }

  /** The passes needed at most: two writes, one pass to clear away the failed job and complete the
      cluster, two writes, and one pass to create the Job. */
  function Remaining(w: World): (n: nat)
    requires Derivable(w)
    ensures 1 <= n <= 6
  {
    (if Cleared(w) then 1 else 4) + WritesLeft(w)
  }

  /******* A pass that writes *******/

  lemma RederivedBroken(w: World)
    requires Broken(w)
    ensures var after := Rederived(w, CALM);
            Broken(after) && Recorded(after).value.savepointLocation == Recorded(w).value.savepointLocation
  {
    RederivedDerivable(w, CALM);
    JobIs(w, CALM);
    StateIs(w, CALM);
  }

  lemma WriteComesCloser(w: World, o: Conditions)
    requires Broken(w) && Responsive(o) && Writes(w, CALM)
    ensures var after := Pass(w, o);
            && Broken(after) && after.created == w.created
            && Recorded(after).value.savepointLocation == Recorded(w).value.savepointLocation
            && Remaining(after) < Remaining(w)
  {
    ViewAlike(w, o, CALM);
    StillPassWrites(w, o);
    RederivedBroken(w);
    WritesLeftFalls(w);
  }

  lemma WritesLeftFalls(w: World)
    requires Derivable(w) && Writes(w, CALM)
    ensures Derivable(Rederived(w, CALM)) && WritesLeft(Rederived(w, CALM)) < WritesLeft(w)
  {
    StillPassWrites(w, CALM);
    AtMostTwoWrites(w, CALM);
    if Writes(Rederived(w, CALM), CALM) {
      StillPassWrites(Rederived(w, CALM), CALM);
    }
  }

  /******* A pass that acts *******/

  lemma SettledIsRunning(w: World)
    requires Broken(w) && !Writes(w, CALM)
    ensures w.status.state == Running && RecordedAs(w, Failed)
    ensures ConvertSafe(w.Cluster()) && ActionOf(w.Cluster()) == Some(KeepCluster)
  {
    RederivedDerivable(w, CALM);
    JobIs(w, CALM);
    StateIs(w, CALM);
  }

  /** The missing components are created. */
  lemma ComponentsFilled(w: World, seen: Observation, calls: Calls)
    requires ConvertSafe(w.Cluster()) && ActionOf(w.Cluster()) == Some(KeepCluster)
    requires seen.configMap == w.configMap && seen.jmDeployment == w.jmDeployment && seen.jmService == w.jmService
    requires seen.jmIngress == w.jmIngress && seen.tmDeployment == w.tmDeployment
    requires calls.configMap == Succeeds && calls.jmDeployment == Succeeds && calls.jmService == Succeeds
    requires calls.jmIngress == Succeeds && calls.tmDeployment == Succeeds
    ensures var (changed, err) := ReconcileComponents(w, seen, DesiredState(w.Cluster()), calls);
            !err && Complete(changed)
  {
    var d := DesiredState(w.Cluster());
    AllWanted(w, seen, d, calls);
    assert d.jmIngress.Some? <==> w.spec.jobManager.ingress.Some?;
  }

  lemma AllWanted(w: World, seen: Observation, d: Desired, calls: Calls)
    requires d.configMap.Some? && d.jmDeployment.Some? && d.jmService.Some? && d.tmDeployment.Some?
    requires seen.configMap == w.configMap && seen.jmDeployment == w.jmDeployment && seen.jmService == w.jmService
    requires seen.jmIngress == w.jmIngress && seen.tmDeployment == w.tmDeployment
    requires calls.configMap == Succeeds && calls.jmDeployment == Succeeds && calls.jmService == Succeeds
    requires calls.jmIngress == Succeeds && calls.tmDeployment == Succeeds
    ensures var (changed, err) := ReconcileComponents(w, seen, d, calls);
            && !err && changed.spec == w.spec
            && changed.configMap.Some? && changed.jmDeployment.Some? && changed.jmService.Some?
            && changed.tmDeployment.Some? && (changed.jmIngress.Some? <==> d.jmIngress.Some?)
  {
  }

  predicate OnlyComponents(w: World, changed: World) {
    changed == w.(configMap := changed.configMap, jmDeployment := changed.jmDeployment,
                  jmService := changed.jmService, jmIngress := changed.jmIngress,
                  tmDeployment := changed.tmDeployment)
  }

  /** One more Job is created, from the recorded savepoint. */
  predicate RestartedFrom(w: World, after: World) {
    && w.created < after.created
    && Recorded(w).Some?
    && after.created[|w.created|].savepoint == Some(Recorded(w).value.savepointLocation)
  }

  /** Either the Job is created, or the failed one and whatever still runs are cleared away. */
  predicate ClearedOrRestarted(w: World, changed: World, after: World) {
    || RestartedFrom(w, after)
    || (after == changed.(job := None, flinkJobs := after.flinkJobs) && RunningIDs(after.flinkJobs) == [])
  }

  lemma JobCleared(w: World, changed: World, seen: Observation, o: Conditions)
    requires Broken(w) && RecordedAs(w, Failed) && ConvertSafe(w.Cluster())
    requires OnlyComponents(w, changed) && Responsive(o)
    requires seen.cluster == Some(w.Cluster()) && seen.job == w.job
    requires seen.flinkJobList == Some(w.flinkJobs) && seen.flinkRunningJobIDs == RunningIDs(w.flinkJobs)
    ensures var after := ReconcileJob(changed, seen, DesiredJob(w.Cluster()), o);
            ClearedOrRestarted(w, changed, after) && (Cleared(w) ==> RestartedFrom(w, after))
  {
    StopsAll(changed, o.calls);
  }

  lemma ClearedIsBroken(w: World, changed: World, after: World)
    requires Broken(w) && RecordedAs(w, Failed) && OnlyComponents(w, changed) && Complete(changed)
    requires changed.jmIngress.Some? ==> changed.jmIngress.value.name != ""
    requires after == changed.(job := None, flinkJobs := after.flinkJobs) && RunningIDs(after.flinkJobs) == []
    ensures Broken(after) && Cleared(after)
  {
  }

  lemma SettledActs(w: World, o: Conditions)
    requires Broken(w) && Responsive(o) && !Writes(w, CALM)
    ensures ConvertSafe(w.Cluster()) && ActionOf(w.Cluster()) == Some(KeepCluster)
    ensures Pass(w, o) == Act(w, View(w, o), o)
  {
    SettledIsRunning(w);
    ViewAlike(w, o, CALM);
    StillPassActs(w, o);
  }

  lemma ActIs(w: World, seen: Observation, o: Conditions)
    requires seen.cluster == Some(w.Cluster()) && ConvertSafe(w.Cluster()) && AddressSafe(w.Cluster())
    requires !ReconcileComponents(w, seen, DesiredState(w.Cluster()), o.calls).1
    ensures Act(w, seen, o)
         == ReconcileJob(ReconcileComponents(w, seen, DesiredState(w.Cluster()), o.calls).0, seen,
                         DesiredJob(w.Cluster()), o)
  {
  }

  lemma ActFills(w: World, o: Conditions) returns (changed: World)
    requires Broken(w) && Responsive(o) && !Writes(w, CALM)
    ensures OnlyComponents(w, changed) && Complete(changed)
    ensures changed.jmIngress.Some? ==> changed.jmIngress.value.name != ""
    ensures ConvertSafe(w.Cluster()) && Pass(w, o) == ReconcileJob(changed, View(w, o), DesiredJob(w.Cluster()), o)
  {
    SettledActs(w, o);
    changed := ReconcileComponents(w, View(w, o), DesiredState(w.Cluster()), o.calls).0;
    ComponentsFilled(w, View(w, o), o.calls);
    ComponentsOnly(w, View(w, o), DesiredState(w.Cluster()), o.calls);
    ActIs(w, View(w, o), o);
  }

  lemma ActComesCloser(w: World, o: Conditions)
    requires Broken(w) && Responsive(o) && !Writes(w, CALM)
    ensures var after := Pass(w, o);
            || RestartedFrom(w, after)
            || (&& Broken(after) && Cleared(after) && !Cleared(w)
                && after.created == w.created && after.status == w.status)
  {
    SettledIsRunning(w);
    var changed := ActFills(w, o);
    JobCleared(w, changed, View(w, o), o);
    if !RestartedFrom(w, Pass(w, o)) {
      ClearedIsBroken(w, changed, Pass(w, o));
    }
  }

  /******* Runs *******/

  predicate ResponsiveSteps(steps: seq<Step>) {
    forall i :: 0 <= i < |steps| ==> steps[i].Operator? && Responsive(steps[i].conditions)
  }

  /** With one pass less remaining, the same restart is still to be made. */
  predicate Closer(w: World, after: World)
    requires Broken(w)
  {
    && Broken(after) && Remaining(after) < Remaining(w)
    && after.created == w.created && Recorded(after).value.savepointLocation == Recorded(w).value.savepointLocation
  }

  lemma PassComesCloser(w: World, o: Conditions)
    requires Broken(w) && Responsive(o)
    ensures RestartedFrom(w, Pass(w, o)) || Closer(w, Pass(w, o))
  {
    if Writes(w, CALM) {
      WriteComesCloser(w, o);
    } else {
      ActComesCloser(w, o);
    }
  }

  lemma StepComesCloser(w: World, steps: seq<Step>)
    requires Broken(w) && steps != [] && ResponsiveSteps(steps) && |steps| >= Remaining(w)
    ensures ResponsiveSteps(steps[1..])
    ensures var next := Pass(w, steps[0].conditions);
            RestartedFrom(w, next) || (Closer(w, next) && |steps[1..]| >= Remaining(next))
  {
    PassComesCloser(w, steps[0].conditions);
  }

  lemma {:induction false} RunRestarts(w: World, steps: seq<Step>)
    requires Broken(w) && ResponsiveSteps(steps) && |steps| >= Remaining(w)
    ensures RestartedFrom(w, Run(w, steps))
    decreases |steps|
  {
    var next, rest := Pass(w, steps[0].conditions), steps[1..];
    StepComesCloser(w, steps);
    if RestartedFrom(w, next) {
      RunAddsJobs(next, rest);
      StaysRestarted(w, next, Run(next, rest));
    } else {
      RunRestarts(next, rest);
      RestartedLater(w, next, Run(next, rest));
    }
  }

  lemma RestartedLater(w: World, next: World, after: World)
    requires Broken(w) && Closer(w, next) && RestartedFrom(next, after)
    ensures RestartedFrom(w, after)
  {
  }

  lemma StaysRestarted(w: World, next: World, after: World)
    requires RestartedFrom(w, next) && next.created <= after.created
    ensures RestartedFrom(w, after)
  {
  }
}
