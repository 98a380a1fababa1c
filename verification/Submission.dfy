/** What a pass can create, and when it can panic. */
module Submission {
  import opened FlinkTypes
  import opened JobArguments
  import opened StatusUpdater
  import opened Converter
  import opened FlinkClient
  import opened Validation
  import opened WorldModel
  import opened ControlLoop
  import opened Drifting
  import opened Invariant
  import opened Preservation
  import opened Onwards

  /** Neither a Job nor a component is created, no Job is noted, and nothing panics. */
  predicate Quiet(before: World, after: World) {
    && after.created == before.created && after.noted == before.noted
    && after.panicked == before.panicked
    && ComponentsDrift(before, after)
  }

  lemma TakeSavepointQuiet(w: World, c: Cluster, trigger: Trigger, o: Conditions)
    requires c.status.components.job.Some?
    ensures Quiet(w, TakeSavepointStep(w, c, trigger, o).0)
  {
    HappenAllDrifts(w, o.duringSavepoint);
  }

  lemma RestartOrSaveQuiet(w: World, seen: Observation, o: Conditions)
    requires seen.cluster.Some? && seen.cluster.value.spec.job.Some?
    ensures Quiet(w, RestartOrSave(w, seen, o))
  {
    var c := seen.cluster.value;
    CancelRunningDrifts(w, seen.flinkRunningJobIDs, o.calls, 0);
    if JobID(c) != "" && SavepointDue(c, w.clock).Some? {
      TakeSavepointQuiet(w, c, SavepointDue(c, w.clock).value, o);
    }
  }

  lemma CancelFlinkJobQuiet(w: World, c: Cluster, id: string, o: Conditions)
    requires c.status.components.job.Some?
    ensures Quiet(w, CancelFlinkJob(w, c, id, o).0)
  {
    TakeSavepointQuiet(w, c, BeforeCancel, o);
  }

  lemma CancelAndDeleteQuiet(w: World, seen: Observation, o: Conditions)
    requires seen.cluster.Some?
    ensures Quiet(w, CancelAndDelete(w, seen, o))
  {
    var c := seen.cluster.value;
    if JobID(c) != "" {
      CancelFlinkJobQuiet(w, c, JobID(c), o);
    }
  }

  /** The only entry a pass adds is that of the desired Job, when there was no Job and Flink answered
      that nothing runs. */
  predicate CreatesAtMost(before: World, after: World, seen: Observation, wanted: Option<Job>) {
    || after.created == before.created
    || (&& wanted.Some? && seen.job.None? && seen.cluster.Some? && seen.cluster.value.spec.job.Some?
        && seen.flinkJobList.Some? && seen.flinkRunningJobIDs == []
        && var c := seen.cluster.value;
           var savepoint := ConvertFromSavepoint(c.spec.job.value, c.status.components.job);
           after.created
           == before.created + [Creation(wanted.value, savepoint, c.status.components.job, |before.savepoints|)])
  }

  lemma ReconcileJobCreates(w: World, seen: Observation, wanted: Option<Job>, o: Conditions)
    requires seen.cluster.Some? && (wanted.Some? ==> seen.cluster.value.spec.job.Some?)
    ensures var after := ReconcileJob(w, seen, wanted, o);
            && CreatesAtMost(w, after, seen, wanted) && after.noted == w.noted
            && after.panicked == w.panicked && ComponentsDrift(w, after)
  {
    if wanted.Some? {
      if seen.job.None? {
        CancelRunningDrifts(w, seen.flinkRunningJobIDs, o.calls, 0);
      } else {
        RestartOrSaveQuiet(w, seen, o);
      }
    } else if seen.job.Some? {
      CancelAndDeleteQuiet(w, seen, o);
    }
  }

  lemma ActCreates(w: World, seen: Observation, o: Conditions)
    requires seen.cluster.Some? && ConvertSafe(seen.cluster.value)
    ensures var after := Act(w, seen, o);
            && CreatesAtMost(w, after, seen, DesiredJob(seen.cluster.value)) && after.noted == w.noted
            && (after.panicked <==> w.panicked || !ActSafe(w, seen, o))
  {
    var d := DesiredState(seen.cluster.value);
    ComponentsOnly(w, seen, d, o.calls);
    var (changed, err) := ReconcileComponents(w, seen, d, o.calls);
    if !err && (StopsUnwanted(seen) ==> AddressSafe(seen.cluster.value)) {
      ReconcileJobCreates(changed, seen, d.job, o);
    }
  }

  lemma ReadsQuiet(w: World, o: Conditions)
    ensures Quiet(w, AfterComponents(w, o)) && Quiet(w, AfterFlink(w, o)) && Quiet(w, AfterJob(w, o))
    ensures AfterJob(w, o).savepoints == w.savepoints
  {
    HappenAllDrifts(w, o.afterComponents);
    HappenAllDrifts(AfterComponents(w, o), o.afterFlink);
    HappenAllDrifts(AfterFlink(w, o), o.afterJob);
  }

  /** Short of acting, a pass writes the status or panics. */
  lemma OnlyActingActs(now: World, seen: Observation, o: Conditions)
    requires !Acts(seen)
    ensures var after := Conclude(now, seen, o);
            after == now.(status := after.status, noted := after.noted, panicked := after.panicked)
  {
  }

  lemma ConcludePanics(now: World, seen: Observation, o: Conditions)
    requires !now.panicked && seen.cluster.Some?
    ensures Conclude(now, seen, o).panicked <==> !ConcludeSafe(now, seen, o)
  {
    if Acts(seen) {
      ActCreates(now, seen, o);
      assert Conclude(now, seen, o) == Act(now, seen, o);
    }
  }

  lemma ConcludeCreates(now: World, seen: Observation, o: Conditions)
    requires seen.cluster.Some?
    ensures var after := Conclude(now, seen, o);
            || after.created == now.created
            || (ConvertSafe(seen.cluster.value) && CreatesAtMost(now, after, seen, DesiredJob(seen.cluster.value)))
  {
    if Acts(seen) {
      ActCreates(now, seen, o);
      assert Conclude(now, seen, o) == Act(now, seen, o);
    } else {
      OnlyActingActs(now, seen, o);
    }
  }

  /** A pass panics exactly when it is not safe. */
  lemma PanicsIffUnsafe(w: World, o: Conditions)
    requires !w.panicked
    ensures Pass(w, o).panicked <==> !PassSafe(w, o)
  {
    ReadsQuiet(w, o);
    if !w.deleted {
      ConcludePanics(AfterJob(w, o), View(w, o), o);
    }
  }

  lemma PassCreates(w: World, o: Conditions)
    ensures || Pass(w, o).created == w.created
            || (ConvertSafe(w.Cluster()) && CreatesAtMost(w, Pass(w, o), View(w, o), DesiredJob(w.Cluster())))
  {
    ReadsQuiet(w, o);
    if !w.deleted {
      ConcludeCreates(AfterJob(w, o), View(w, o), o);
    }
  }

  lemma {:induction false} RunAddsJobs(w: World, steps: seq<Step>)
    ensures w.created <= Run(w, steps).created
    decreases |steps|
  {
    if steps != [] {
      match steps[0] {
        case Operator(o) => PassCreates(w, o);
        case Other(e) => HappenDrifts(w, e);
      }
      RunAddsJobs(Next(w, steps[0]), steps[1..]);
    }
  }

  /******* Arguments *******/

  /** The i-th Job has the name, the arguments and the containers of this cluster, with the savepoint it was
      given. */
  predicate ArgsMatch(w: World, i: nat)
    requires i < |w.created|
  {
    && w.spec.job.Some? && w.spec.jobManager.ports.ui.Some? && GCPSafe(w.spec)
    && w.created[i].job.name == w.name + "-job"
    && w.created[i].job.initContainers == MergeAll(Core(w.spec).job.value.initContainers,
                                                   Core(w.spec).job.value.volumeMounts)
    && w.created[i].job.gcp == ConvertGCPConfig(w.spec.gcpConfig)
    && w.created[i].job.args
    == JobArgs(w.name, w.spec.jobManager.ports.ui.value, Core(w.spec).job.value, w.created[i].savepoint)
  }

  predicate AllArgsMatch(w: World) {
    forall i :: 0 <= i < |w.created| ==> ArgsMatch(w, i)
  }

  lemma CoreArgs(clusterName: string, port: int, spec: ClusterSpec, savepoint: Option<string>)
    requires spec.job.Some?
    ensures JobArgs(clusterName, port, spec.job.value, savepoint)
         == JobArgs(clusterName, port, Core(spec).job.value, savepoint)
  {
  }

  lemma ArgsKept(w: World, after: World)
    requires AllArgsMatch(w) && after.name == w.name && Core(after.spec) == Core(w.spec)
    requires w.created <= after.created
    requires forall i :: |w.created| <= i < |after.created| ==> ArgsMatch(after, i)
    ensures AllArgsMatch(after)
  {
    forall i | 0 <= i < |w.created|
      ensures ArgsMatch(after, i)
    {
      assert ArgsMatch(w, i);
    }
  }

  lemma PassKeepsArgs(w: World, o: Conditions)
    requires Facts(w) && AllArgsMatch(w)
    ensures AllArgsMatch(Pass(w, o))
  {
    var after := Pass(w, o);
    PassOnward(w, o);
    PassCreates(w, o);
    if after.created != w.created {
      NewArgsMatch(w, after, View(w, o));
    }
    ArgsKept(w, after);
  }

  lemma NewArgsMatch(w: World, after: World, seen: Observation)
    requires ConvertSafe(w.Cluster()) && seen.cluster == Some(w.Cluster())
    requires CreatesAtMost(w, after, seen, DesiredJob(w.Cluster())) && after.created != w.created
    requires after.name == w.name && Core(after.spec) == Core(w.spec)
    ensures |after.created| == |w.created| + 1 && ArgsMatch(after, |w.created|)
  {
    CoreArgs(w.name, w.spec.jobManager.ports.ui.value, w.spec, ConvertFromSavepoint(w.spec.job.value, Recorded(w)));
  }

  lemma {:induction false} RunKeepsArgs(w: World, steps: seq<Step>)
    requires Inv(w) && AllArgsMatch(w)
    ensures AllArgsMatch(Run(w, steps))
    decreases |steps|
  {
    if steps != [] {
      var next := Next(w, steps[0]);
      NextKeeps(w, steps[0]);
      match steps[0] {
        case Operator(o) => PassKeepsArgs(w, o);
        case Other(e) => HappenDrifts(w, e); ArgsKept(w, next);
      }
      RunKeepsArgs(next, steps[1..]);
    }
  }

  /******* Panics *******/

  /** A pass over a well-kept world is safe if the GCP configuration, if any, names a service account. */
  lemma WellKeptIsSafe(w: World, o: Conditions)
    requires Inv(w) && GCPSafe(w.spec)
    ensures PassSafe(w, o)
  {
    ReadsKeep(w, o);
    if !w.deleted {
      ViewIsSighting(w, o);
      WriteSafe(w, AfterFlink(w, o), AfterJob(w, o), View(w, o));
    }
  }

  lemma {:induction false} RunNeverPanics(w: World, steps: seq<Step>)
    requires Inv(w) && GCPSafe(w.spec) && !w.panicked
    ensures !Run(w, steps).panicked
    decreases |steps|
  {
    if steps != [] {
      NextKeeps(w, steps[0]);
      match steps[0] {
        case Operator(o) =>
          WellKeptIsSafe(w, o);
          PanicsIffUnsafe(w, o);
          PassOnward(w, o);
        case Other(e) =>
          HappenDrifts(w, e);
      }
      RunNeverPanics(Next(w, steps[0]), steps[1..]);
    }
  }

  const CALM := Conditions(Reads(false, false, false, false, false, false, false, false),
                           Calls(Succeeds, Succeeds, Succeeds, Succeeds, Succeeds, Succeeds, Succeeds, Succeeds, []),
                           FlinkAnswers(None, []), [], [], [], [])

  /** Two passes are enough to panic over a GCP configuration without a service account. */
  lemma GCPPanics(w: World)
    requires Inv(w) && !GCPSafe(w.spec) && !w.panicked
    requires w == Fresh(w.name, w.namespace, w.spec, w.clock)
    ensures Run(w, [Operator(CALM), Operator(CALM)]).panicked
  {
    var second := Pass(w, CALM);
    FirstPassWrites(w);
    SecondPassPanics(w, second);
    assert Run(w, [Operator(CALM), Operator(CALM)]) == Run(second, [Operator(CALM)]) == Pass(second, CALM);
  }

  lemma FirstPassWrites(w: World)
    requires SpecReady(w.spec) && w == Fresh(w.name, w.namespace, w.spec, w.clock)
    ensures Pass(w, CALM) == w.(status := NO_STATUS.(state := Creating))
  {
    assert AfterJob(w, CALM) == w;
    assert StatusOf(w.status, View(w, CALM)) == NO_STATUS.(state := Creating);
  }

  lemma SecondPassPanics(w: World, second: World)
    requires SpecReady(w.spec) && !GCPSafe(w.spec) && w == Fresh(w.name, w.namespace, w.spec, w.clock)
    requires second == w.(status := NO_STATUS.(state := Creating))
    ensures Pass(second, CALM).panicked
  {
    assert AfterJob(second, CALM) == second;
    assert StatusOf(second.status, View(second, CALM)) == second.status;
    UnchangedFromItself(second.status);
  }
}
