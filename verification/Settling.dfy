/** While nothing else moves, the status settles after at most two writes. */
module Settling {
  import opened FlinkTypes
  import opened StatusUpdater
  import opened Converter
  import opened WorldModel
  import opened ControlLoop

  /** The conditions under which only the status moves: nothing happens during the pass, every Kubernetes
      read succeeds and a status write succeeds. Flink either answers or does not. */
  predicate Still(o: Conditions) {
    && !o.failing.ComponentErr() && !o.failing.job
    && o.calls.status == Succeeds
    && o.afterComponents == [] && o.afterFlink == [] && o.afterJob == []
  }

  /** Neither deriving nor comparing can panic, whatever the status becomes. */
  predicate Derivable(w: World) {
    && !w.deleted
    && !w.status.state.OtherState?
    && w.spec.jobManager.ports.ui.Some?
    && (w.spec.job.Some? ==> w.spec.job.value.cleanupPolicy.Some?)
    && (w.spec.job.None? ==> w.status.components.job.None?)
    && (w.jmIngress.Some? ==> w.jmIngress.value.name != "")
    && (w.status.components.jobManagerIngress.Some? ==> w.status.components.jobManagerIngress.value.name != "")
  }

  /** What a still pass over `w` derives. */
  function Derived(w: World, o: Conditions): ClusterStatus
    requires Derivable(w) && Still(o)
  {
    StatusOf(w.status, View(w, o))
  }

  function Rederived(w: World, o: Conditions): World
    requires Derivable(w) && Still(o)
  {
    WriteStatus(w, View(w, o), Derived(w, o), Succeeds)
  }

  lemma RederivedDerivable(w: World, o: Conditions)
    requires Derivable(w) && Still(o)
    ensures Derivable(Rederived(w, o))
    ensures CompareSafe(w.status, Derived(w, o))
  {
  }

  /** The components other than the job, which do not depend on the job or on Flink. */
  function Others(c: ComponentsStatus): ComponentsStatus {
    c.(job := None)
  }

  function OthersOf(recorded: ComponentsStatus, w: World): ComponentsStatus {
    ComponentsStatus(
      ConfigMapOf(w.configMap, recorded.configMap),
      DeploymentOf(w.jmDeployment, recorded.jobManagerDeployment),
      ServiceOf(w.jmService, recorded.jobManagerService),
      IngressOf(w.jmIngress, recorded.jobManagerIngress),
      DeploymentOf(w.tmDeployment, recorded.taskManagerDeployment),
      None)
  }

  lemma OthersAre(w: World, o: Conditions)
    requires Derivable(w) && Still(o)
    ensures Others(Derived(w, o).components) == OthersOf(w.status.components, w)
  {
  }

  lemma OthersSettle(recorded: ComponentsStatus, w: World, again: ComponentsStatus)
    requires Others(again) == OthersOf(recorded, w)
    ensures OthersOf(again, w) == OthersOf(recorded, w)
  {
  }

  lemma ComponentsSettle(w: World, o: Conditions)
    requires Derivable(w) && Still(o)
    ensures Derivable(Rederived(w, o))
    ensures Others(Derived(Rederived(w, o), o).components) == Others(Derived(w, o).components)
  {
    RederivedDerivable(w, o);
    OthersAre(w, o);
    OthersAre(Rederived(w, o), o);
    OthersSettle(w.status.components, w, Derived(w, o).components);
  }

  function EndingIn(w: World): Ending {
    var job := if w.spec.job.Some? then w.job else None;
    EndingOf(w.status.components.job, job, CancelRequested(w.spec))
  }

  lemma EndingSettles(w: World, o: Conditions)
    requires Derivable(w) && Still(o)
    ensures EndingIn(Rederived(w, o)) == EndingIn(w)
  {
  }

  lemma StateIs(w: World, o: Conditions)
    requires Derivable(w) && Still(o)
    ensures Derived(w, o).state
         == ClusterStateOf(w.status.state, RunningComponents(Derived(w, o).components), EndingIn(w), w.spec)
  {
  }

  /** A state twice derived is a fixed point, and the second derivation never turns to Running. */
  lemma StateSettles(s: ClusterState, running: nat, e: Ending, spec: ClusterSpec)
    requires running <= 3
    ensures var s1 := ClusterStateOf(s, running, e, spec);
            var s2 := ClusterStateOf(s1, running, e, spec);
            && ClusterStateOf(s2, running, e, spec) == s2
            && (s2 == Running ==> s1 == Running)
  {
  }

  lemma StatesSettle(w: World, o: Conditions, w1: World, w2: World, w3: World)
    requires Derivable(w) && Still(o) && w1 == Rederived(w, o)
    requires Derivable(w1) && w2 == Rederived(w1, o)
    requires Derivable(w2) && w3 == Rederived(w2, o)
    ensures w3.status.state == w2.status.state
    ensures w2.status.state == Running ==> w1.status.state == Running
  {
    assert RunningComponents(w2.status.components) == RunningComponents(w1.status.components) by {
      ComponentsSettle(w, o);
    }
    assert RunningComponents(w3.status.components) == RunningComponents(w2.status.components) by {
      ComponentsSettle(w1, o);
    }
    EndingSettles(w, o);
    EndingSettles(w1, o);
    StateIs(w, o);
    StateIs(w1, o);
    StateIs(w2, o);
    StateSettles(w.status.state, RunningComponents(w1.status.components), EndingIn(w), w.spec);
  }

  /** The ID a still pass reads from Flink. */
  function IDIn(w: World, o: Conditions): Option<string> {
    if AsksFlink(w.Cluster()) && !o.failing.flink then ObservedJobID(w.flinkJobs) else None
  }

  lemma JobIs(w: World, o: Conditions)
    requires Derivable(w) && Still(o)
    ensures Derived(w, o).components.job
         == JobStatusOf(w.status.components.job, if w.spec.job.Some? then w.job else None, IDIn(w, o),
                        CancelRequested(w.spec))
  {
    assert AfterComponents(w, o) == w && AfterFlink(w, o) == w;
  }

  /** A job status derived from the same Job and the same ID, or none, is a fixed point. */
  lemma JobSettles(recorded: Option<JobStatus>, job: Option<Job>, id: Option<string>, again: Option<string>,
                   cancel: bool)
    requires again == id || again == None
    ensures var once := JobStatusOf(recorded, job, id, cancel);
            JobStatusOf(once, job, again, cancel) == once
  {
  }

  /** Deriving three times gives what deriving twice gives, although Flink is asked only in Running. */
  lemma ThirdDerivationChangesNothing(w: World, o: Conditions)
    requires Derivable(w) && Still(o)
    ensures var w1 := Rederived(w, o);
            Derivable(w1)
            && var w2 := Rederived(w1, o);
               Derivable(w2) && Derived(w2, o) == w2.status
  {
    var w1 := Rederived(w, o);
    RederivedDerivable(w, o);
    var w2 := Rederived(w1, o);
    RederivedDerivable(w1, o);
    var w3 := Rederived(w2, o);
    StatesSettle(w, o, w1, w2, w3);
    ComponentsSettle(w1, o);
    assert w3.status.components.job == w2.status.components.job by {
      JobIs(w1, o);
      JobIs(w2, o);
      JobSettles(w1.status.components.job, if w.spec.job.Some? then w.job else None, IDIn(w1, o), IDIn(w2, o),
                 CancelRequested(w.spec));
    }
    assert w3.status.components == w2.status.components by {
      assert Others(w3.status.components) == Others(w2.status.components);
    }
  }

  /** The pass over `w` writes the status instead of acting. */
  predicate Writes(w: World, o: Conditions)
    requires Derivable(w) && Still(o)
  {
    RederivedDerivable(w, o);
    Changed(w.status, Derived(w, o))
  }

  lemma StillPass(w: World, o: Conditions)
    requires Derivable(w) && Still(o)
    ensures Pass(w, o) == Conclude(w, View(w, o), o)
  {
    assert AfterComponents(w, o) == w && AfterFlink(w, o) == w && AfterJob(w, o) == w;
  }

  lemma StillPassWrites(w: World, o: Conditions)
    requires Derivable(w) && Still(o) && Writes(w, o)
    ensures Pass(w, o) == Rederived(w, o)
  {
    StillPass(w, o);
    RederivedDerivable(w, o);
  }

  lemma StillPassActs(w: World, o: Conditions)
    requires Derivable(w) && Still(o) && !Writes(w, o) && ConvertSafe(w.Cluster())
    ensures Pass(w, o) == Act(w, View(w, o), o)
  {
    StillPass(w, o);
    RederivedDerivable(w, o);
  }

  /** After two passes in a row that wrote the status, the third finds it unchanged and acts. */
  lemma AtMostTwoWrites(w: World, o: Conditions)
    requires Derivable(w) && Still(o) && Writes(w, o)
    ensures var w1 := Pass(w, o);
            Derivable(w1)
            && (Writes(w1, o) ==> var w2 := Pass(w1, o); Derivable(w2) && !Writes(w2, o))
  {
    StillPassWrites(w, o);
    var w1 := Pass(w, o);
    RederivedDerivable(w, o);
    if Writes(w1, o) {
      StillPassWrites(w1, o);
      ThirdDerivationChangesNothing(w, o);
      UnchangedFromItself(Pass(w1, o).status);
    }
  }

  lemma StateChangeIsWritten(w: World, o: Conditions)
    requires Derivable(w) && Still(o) && Derived(w, o).state != w.status.state
    ensures Writes(w, o) && Pass(w, o) == Rederived(w, o) && Derivable(Rederived(w, o))
  {
    RederivedDerivable(w, o);
    StillPassWrites(w, o);
  }

  lemma StopsWhenNothingRuns(w: World, o: Conditions)
    requires Derivable(w) && Still(o) && Winding(w.status.state) && RunningComponents(Derived(w, o).components) == 0
    ensures Writes(w, o) && Pass(w, o).status.state == Stopped
  {
    StateIs(w, o);
    StateChangeIsWritten(w, o);
  }

  /** Two writes in a row do happen: when nothing is left to run as the job's end is seen, the cluster is
      stopping before it has stopped. */
  lemma TwoWritesToStop(w: World, o: Conditions)
    requires Derivable(w) && Still(o)
    requires Active(w.status.state) && CleansUp(w.spec, EndingIn(w)) && RunningComponents(Derived(w, o).components) == 0
    ensures Writes(w, o) && Pass(w, o).status.state == Stopping
    ensures Derivable(Pass(w, o)) && Writes(Pass(w, o), o) && Pass(Pass(w, o), o).status.state == Stopped
  {
    var after := Rederived(w, o);
    StateIs(w, o);
    StateChangeIsWritten(w, o);
    assert RunningComponents(Derived(after, o).components) == 0 by {
      ComponentsSettle(w, o);
    }
    StopsWhenNothingRuns(after, o);
  }
}
