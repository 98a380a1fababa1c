/** Which components a pass may create and delete, and how a finished cluster is cleaned up. */
module Cleanup {
  import opened FlinkTypes
  import opened StatusUpdater
  import opened Converter
  import opened WorldModel
  import opened ControlLoop
  import opened Drifting
  import opened Invariant
  import opened Preservation
  import opened Onwards
  import opened Settling
  import opened Submission

  predicate Present(w: World, kind: ComponentKind) {
    match kind
    case ConfigMapKind => w.configMap.Some?
    case JobManagerDeploymentKind => w.jmDeployment.Some?
    case JobManagerServiceKind => w.jmService.Some?
    case JobManagerIngressKind => w.jmIngress.Some?
    case TaskManagerDeploymentKind => w.tmDeployment.Some?
  }

  /******* Components come only from reconciling components *******/

  /** What is to be cleaned up is not created. */
  lemma ActAddsNone(now: World, seen: Observation, kind: ComponentKind, o: Conditions)
    requires seen.cluster.Some? && ConvertSafe(seen.cluster.value) && ShouldCleanup(seen.cluster.value, kind)
    requires !Present(now, kind)
    ensures !Present(Act(now, seen, o), kind)
  {
    var d := DesiredState(seen.cluster.value);
    ComponentsOnly(now, seen, d, o.calls);
    var (changed, err) := ReconcileComponents(now, seen, d, o.calls);
    if !err && (StopsUnwanted(seen) ==> AddressSafe(seen.cluster.value)) {
      ReconcileJobCreates(changed, seen, d.job, o);
    }
  }

  lemma ConcludeAddsNone(now: World, seen: Observation, kind: ComponentKind, o: Conditions)
    requires seen.cluster.Some? && CleanupSafe(seen.cluster.value) && ShouldCleanup(seen.cluster.value, kind)
    requires !Present(now, kind)
    ensures !Present(Conclude(now, seen, o), kind)
  {
    if Acts(seen) {
      ActAddsNone(now, seen, kind, o);
      assert Conclude(now, seen, o) == Act(now, seen, o);
    } else {
      OnlyActingActs(now, seen, o);
    }
  }

  lemma ReadsAddNone(w: World, kind: ComponentKind, o: Conditions)
    requires !Present(w, kind)
    ensures !Present(AfterComponents(w, o), kind) && !Present(AfterFlink(w, o), kind) && !Present(AfterJob(w, o), kind)
  {
    HappenAllDrifts(w, o.afterComponents);
    HappenAllDrifts(AfterComponents(w, o), o.afterFlink);
    HappenAllDrifts(AfterFlink(w, o), o.afterJob);
  }

  lemma PassAddsNone(w: World, kind: ComponentKind, o: Conditions)
    requires CleanupSafe(w.Cluster()) && ShouldCleanup(w.Cluster(), kind) && !Present(w, kind)
    ensures !Present(Pass(w, o), kind)
  {
    ReadsAddNone(w, kind, o);
    if !w.deleted {
      ConcludeAddsNone(AfterJob(w, o), View(w, o), kind, o);
    }
  }

  /******* Once the cluster winds down *******/

  predicate Removes(action: CleanupAction, kind: ComponentKind) {
    action == DeleteCluster || (action == DeleteTaskManager && kind == TaskManagerDeploymentKind)
  }

  /** However the job ends, components of this kind are to be cleaned up. */
  predicate AlwaysRemoves(spec: ClusterSpec, kind: ComponentKind) {
    && spec.job.Some? && spec.job.value.cleanupPolicy.Some?
    && var p := spec.job.value.cleanupPolicy.value;
       Removes(p.afterJobSucceeds, kind) && Removes(p.afterJobFails, kind) && Removes(p.afterJobCancelled, kind)
  }

  /** Once the cluster winds down, no component that is always cleaned up is ever created again, whatever
      fails and whatever others do. */
  lemma {:induction false} NeverCreatedAgain(w: World, kind: ComponentKind, steps: seq<Step>)
    requires Inv(w) && Rank(w.status.state) >= 2 && AlwaysRemoves(w.spec, kind) && !Present(w, kind)
    ensures !Present(Run(w, steps), kind)
    decreases |steps|
  {
    if steps != [] {
      NextKeeps(w, steps[0]);
      match steps[0] {
        case Operator(o) => PassOnward(w, o); PassAddsNone(w, kind, o);
        case Other(e) => HappenDrifts(w, e);
      }
      NeverCreatedAgain(Next(w, steps[0]), kind, steps[1..]);
    }
  }

  /******* Reaching the end *******/

  /** A still pass whose requests all succeed. */
  predicate Calm(o: Conditions) {
    Still(o)
    && var c := o.calls;
       && c.configMap == Succeeds && c.jmDeployment == Succeeds && c.jmService == Succeeds && c.jmIngress == Succeeds
       && c.tmDeployment == Succeeds && c.job == Succeeds && c.savepoint == Succeeds && c.Stop(0) == Succeeds
  }

  /** How the job has ended, as the next derivation will see it. */
  function EndState(w: World): JobState
    requires Recorded(w).Some?
  {
    if w.job.Some? then if w.job.value.failed > 0 then Failed else Succeeded
    else if CancelRequested(w.spec) then Cancelled
    else Recorded(w).value.state
  }

  /** The cleanup policy deletes the cluster, with the job ended as it has, and as cancelled if that was
      requested. */
  predicate ToBeDeleted(w: World) {
    && w.spec.job.Some? && w.spec.job.value.cleanupPolicy.Some? && Recorded(w).Some? && Terminal(EndState(w))
    && var p := w.spec.job.value.cleanupPolicy.value;
       && ActionAfter(p, EndState(w)) == DeleteCluster
       && (CancelRequested(w.spec) ==> p.afterJobCancelled == DeleteCluster)
  }

  /** The cluster winds down and is to be deleted. */
  predicate Condemned(w: World) {
    && Derivable(w) && Rank(w.status.state) >= 2 && GCPSafe(w.spec) && ToBeDeleted(w)
    && Terminal(Recorded(w).value.state)
    && (w.job.Some? ==> w.job.value.Finished())
  }

  predicate Gone(w: World) {
    && w.configMap.None? && w.jmDeployment.None? && w.jmService.None? && w.jmIngress.None? && w.tmDeployment.None?
  }

  predicate CleanedUp(w: World) {
    w.status.state == Stopped && Gone(w)
  }

  /** The calm passes still needed at most: one to write the status, one to delete everything and one to
      write the status again. */
  function Measure(w: World): (n: nat)
    requires Condemned(w)
    ensures n <= 3
  {
    if CleanedUp(w) then 0 else (if Gone(w) then 0 else 2) + if Writes(w, CALM) then 1 else 0
  }

  /******* A calm pass that writes *******/

  lemma DerivesEnd(w: World, o: Conditions)
    requires Condemned(w) && Still(o)
    ensures var job := Derived(w, o).components.job;
            job.Some? && job.value.state == EndState(w)
  {
    JobIs(w, o);
  }

  lemma RederivedCondemned(w: World, o: Conditions)
    requires Condemned(w) && Still(o)
    ensures Condemned(Rederived(w, o))
  {
    DerivesEnd(w, o);
    RederivedDerivable(w, o);
    StateIs(w, o);
  }

  /** Once the cluster winds down one derivation is enough. */
  lemma WindingSettles(w: World, o: Conditions)
    requires Condemned(w) && Still(o)
    ensures var after := Rederived(w, o);
            Derivable(after) && Derived(after, o) == after.status
  {
    var after := Rederived(w, o);
    RederivedCondemned(w, o);
    ComponentsSettle(w, o);
    assert Others(Derived(after, o).components) == Others(after.status.components);
    assert Derived(after, o).components.job == after.status.components.job by {
      JobIs(w, o);
      JobIs(after, o);
      JobSettles(Recorded(w), w.job, None, None, CancelRequested(w.spec));
    }
    assert Derived(after, o).state == after.status.state by {
      EndingSettles(w, o);
      StateIs(w, o);
      StateIs(after, o);
    }
  }

  lemma CalmWrite(w: World, o: Conditions)
    requires Condemned(w) && Calm(o) && Writes(w, o)
    ensures var after := Pass(w, o);
            Condemned(after) && !Writes(after, o) && (Gone(after) <==> Gone(w))
  {
    StillPassWrites(w, o);
    RederivedCondemned(w, o);
    WindingSettles(w, o);
    UnchangedFromItself(Rederived(w, o).status);
  }

  /******* A calm pass that acts *******/

  lemma ActsAtEnd(w: World, o: Conditions)
    requires Condemned(w) && Calm(o) && !Writes(w, o)
    ensures Recorded(w).value.state == EndState(w) && ActionOf(w.Cluster()) == Some(DeleteCluster)
    ensures ConvertSafe(w.Cluster()) && Pass(w, o) == Act(w, View(w, o), o)
  {
    DerivesEnd(w, o);
    RederivedDerivable(w, o);
    assert Recorded(w) == Derived(w, o).components.job;
    StillPassActs(w, o);
  }

  function WithoutComponents(w: World): World {
    w.(configMap := None, jmDeployment := None, jmService := None, jmIngress := None, tmDeployment := None)
  }

  lemma ComponentsCleared(w: World, o: Conditions)
    requires !w.deleted && Calm(o) && ConvertSafe(w.Cluster()) && ActionOf(w.Cluster()) == Some(DeleteCluster)
    ensures ReconcileComponents(w, View(w, o), DesiredState(w.Cluster()), o.calls) == (WithoutComponents(w), false)
  {
  }

  /** The Job stays or is deleted, and nothing else happens to the cluster. */
  lemma JobLeft(w: World, now: World, o: Conditions)
    requires Condemned(w) && Calm(o) && ConvertSafe(w.Cluster()) && now.job == w.job
    requires Terminal(Recorded(w).value.state)
    ensures var after := ReconcileJob(now, View(w, o), DesiredJob(w.Cluster()), o);
            && after == now.(job := after.job, flinkJobs := after.flinkJobs)
            && (after.job == now.job || after.job.None?)
  {
    assert View(w, o).flinkJobList.None? && View(w, o).flinkRunningJobIDs == [];
  }

  lemma LeftCondemned(w: World, after: World)
    requires Condemned(w) && Recorded(w).value.state == EndState(w)
    requires after == WithoutComponents(w).(job := after.job, flinkJobs := after.flinkJobs)
    requires after.job == w.job || after.job.None?
    ensures Condemned(after) && Gone(after)
  {
  }

  lemma CalmAct(w: World, o: Conditions)
    requires Condemned(w) && Calm(o) && !Writes(w, o)
    ensures var after := Pass(w, o);
            Condemned(after) && Gone(after) && after.status == w.status
  {
    ActsAtEnd(w, o);
    ComponentsCleared(w, o);
    JobLeft(w, WithoutComponents(w), o);
    LeftCondemned(w, Pass(w, o));
  }

  /** Nothing left to write and nothing left to delete: the cluster has stopped. */
  lemma NothingLeft(w: World, o: Conditions)
    requires Condemned(w) && Calm(o) && Gone(w) && !Writes(w, o)
    ensures CleanedUp(w)
  {
    RederivedDerivable(w, o);
    StateIs(w, o);
  }

  /** Flink is not asked any more, so it does not matter whether it would answer. */
  lemma WritesAlike(w: World, o: Conditions, next: Conditions)
    requires Condemned(w) && Still(o) && Still(next)
    ensures Writes(w, o) <==> Writes(w, next)
  {
    assert View(w, o) == View(w, next);
  }

  /** Every calm pass comes closer to the end, and the end stays. */
  lemma CalmPassDescends(w: World, o: Conditions)
    requires Condemned(w) && Calm(o)
    ensures var after := Pass(w, o);
            && Condemned(after)
            && (Measure(w) == 0 ==> Measure(after) == 0)
            && (Measure(w) > 0 ==> Measure(after) < Measure(w))
  {
    WritesAlike(w, o, CALM);
    if Writes(w, o) {
      CalmWrite(w, o);
      WritesAlike(Pass(w, o), o, CALM);
      StillPassWrites(w, o);
      StateIs(w, o);
    } else {
      CalmAct(w, o);
      if Gone(w) {
        NothingLeft(w, o);
      }
    }
  }

  predicate CalmSteps(steps: seq<Step>) {
    forall i :: 0 <= i < |steps| ==> steps[i].Operator? && Calm(steps[i].conditions)
  }

  /** As many calm passes as the measure says, or more, end with everything gone. */
  lemma {:induction false} CalmRunEnds(w: World, steps: seq<Step>)
    requires Condemned(w) && CalmSteps(steps) && |steps| >= Measure(w)
    ensures CleanedUp(Run(w, steps))
    decreases |steps|
  {
    if steps == [] {
      MeasuresEnd(w);
    } else {
      CalmStepDescends(w, steps);
      CalmRunEnds(Pass(w, steps[0].conditions), steps[1..]);
    }
  }

  lemma CalmStepDescends(w: World, steps: seq<Step>)
    requires Condemned(w) && steps != [] && CalmSteps(steps) && |steps| >= Measure(w)
    ensures CalmSteps(steps[1..])
    ensures var next := Pass(w, steps[0].conditions);
            Condemned(next) && |steps[1..]| >= Measure(next)
  {
    CalmPassDescends(w, steps[0].conditions);
  }

  lemma MeasuresEnd(w: World)
    requires Condemned(w) && Measure(w) == 0
    ensures CleanedUp(w)
  {
    if !CleanedUp(w) {
      NothingLeft(w, CALM);
    }
  }

  /******* Session clusters *******/

  predicate Wanted(d: Desired, kind: ComponentKind) {
    match kind
    case ConfigMapKind => d.configMap.Some?
    case JobManagerDeploymentKind => d.jmDeployment.Some?
    case JobManagerServiceKind => d.jmService.Some?
    case JobManagerIngressKind => d.jmIngress.Some?
    case TaskManagerDeploymentKind => d.tmDeployment.Some?
  }

  /** What is wanted is not deleted, nor is an ingress that was not seen. */
  lemma NotDeleted(w: World, seen: Observation, d: Desired, kind: ComponentKind, calls: Calls)
    requires Present(w, kind) && (Wanted(d, kind) || (kind == JobManagerIngressKind && seen.jmIngress.None?))
    ensures Present(ReconcileComponents(w, seen, d, calls).0, kind)
  {
  }

  lemma SessionActKeeps(w: World, now: World, seen: Observation, kind: ComponentKind, o: Conditions)
    requires Facts(w) && w.spec.job.None? && ConvertSafe(w.Cluster()) && Present(now, kind)
    requires seen.cluster == Some(w.Cluster()) && seen.jmIngress == w.jmIngress && seen.job.None?
    ensures Present(Act(now, seen, o), kind)
  {
    var d := DesiredState(w.Cluster());
    NotDeleted(now, seen, d, kind, o.calls);
    assert Act(now, seen, o) == ReconcileComponents(now, seen, d, o.calls).0;
  }

  lemma SessionConcludeKeeps(w: World, now: World, seen: Observation, kind: ComponentKind, o: Conditions)
    requires Facts(w) && w.spec.job.None? && Present(now, kind)
    requires seen.cluster == Some(w.Cluster()) && seen.jmIngress == w.jmIngress && seen.job.None?
    ensures Present(Conclude(now, seen, o), kind)
  {
    if Acts(seen) {
      SessionActKeeps(w, now, seen, kind, o);
      assert Conclude(now, seen, o) == Act(now, seen, o);
    } else {
      OnlyActingActs(now, seen, o);
    }
  }

  /** A session cluster has nothing cleaned up: what exists when the pass is done reading still exists
      after it. */
  lemma SessionKeepsComponents(w: World, kind: ComponentKind, o: Conditions)
    requires Facts(w) && w.spec.job.None? && !o.failing.ComponentErr() && Present(AfterJob(w, o), kind)
    ensures Present(Pass(w, o), kind)
  {
    if !w.deleted {
      SessionConcludeKeeps(w, AfterJob(w, o), View(w, o), kind, o);
    }
  }
}
