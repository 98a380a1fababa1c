/** What the recorded status says in every run. */
module Statuses {
  import opened FlinkTypes
  import opened StatusUpdater
  import opened Converter
  import opened WorldModel
  import opened ControlLoop
  import opened Drifting
  import opened Invariant
  import opened Preservation
  import opened Counting
  import opened Readings

  /******* What a pass does to the status *******/

  /** The status is the same up to a job that both record. */
  predicate StatusKept(before: World, after: World) {
    && after.status == before.status.(components := before.status.components.(job := Recorded(after)))
    && (Recorded(before).Some? <==> Recorded(after).Some?)
  }

  lemma TakeSavepointKeepsStatus(w: World, c: Cluster, trigger: Trigger, o: Conditions)
    requires c.status.components.job.Some? && w.status == c.status
    ensures StatusKept(w, TakeSavepointStep(w, c, trigger, o).0)
  {
    HappenAllDrifts(w, o.duringSavepoint);
  }

  lemma RestartOrSaveKeepsStatus(w: World, seen: Observation, o: Conditions)
    requires seen.cluster.Some? && seen.cluster.value.spec.job.Some? && w.status == seen.cluster.value.status
    ensures StatusKept(w, RestartOrSave(w, seen, o))
  {
    var c := seen.cluster.value;
    CancelRunningDrifts(w, seen.flinkRunningJobIDs, o.calls, 0);
    if JobID(c) != "" && SavepointDue(c, w.clock).Some? {
      TakeSavepointKeepsStatus(w, c, SavepointDue(c, w.clock).value, o);
    }
  }

  lemma CancelAndDeleteKeepsStatus(w: World, seen: Observation, o: Conditions)
    requires seen.cluster.Some? && w.status == seen.cluster.value.status
    ensures StatusKept(w, CancelAndDelete(w, seen, o))
  {
    var c := seen.cluster.value;
    if JobID(c) != "" {
      TakeSavepointKeepsStatus(w, c, BeforeCancel, o);
      assert StatusKept(w, CancelFlinkJob(w, c, JobID(c), o).0);
    }
  }

  lemma JobPartKeepsStatus(w: World, seen: Observation, wanted: Option<Job>, o: Conditions)
    requires seen.cluster.Some? && (wanted.Some? ==> seen.cluster.value.spec.job.Some?)
    requires w.status == seen.cluster.value.status
    ensures StatusKept(w, ReconcileJob(w, seen, wanted, o))
  {
    if wanted.Some? && seen.job.None? {
      CancelRunningDrifts(w, seen.flinkRunningJobIDs, o.calls, 0);
    } else if wanted.Some? {
      RestartOrSaveKeepsStatus(w, seen, o);
    } else if seen.job.Some? {
      CancelAndDeleteKeepsStatus(w, seen, o);
    }
  }

  lemma ActKeepsStatus(now: World, seen: Observation, o: Conditions)
    requires seen.cluster.Some? && ConvertSafe(seen.cluster.value) && now.status == seen.cluster.value.status
    ensures StatusKept(now, Act(now, seen, o))
  {
    var d := DesiredState(seen.cluster.value);
    ComponentsOnly(now, seen, d, o.calls);
    JobPartKeepsStatus(ReconcileComponents(now, seen, d, o.calls).0, seen, d.job, o);
  }

  lemma ConcludeStatus(now: World, seen: Observation, o: Conditions)
    requires seen.cluster.Some? ==> now.status == seen.cluster.value.status
    ensures var after := Conclude(now, seen, o);
            if Rewrites(seen, o) then after.status == StatusOf(now.status, seen) else StatusKept(now, after)
  {
    if Acts(seen) {
      ActKeepsStatus(now, seen, o);
      assert Conclude(now, seen, o) == Act(now, seen, o);
    }
  }

  /** The pass over `w` comes to writing the status, and the write takes effect. */
  ghost predicate PassWrites(w: World, o: Conditions) {
    && !o.failing.ComponentErr() && CanAskFlink(w) && !(ObservesJob(w) && o.failing.job)
    && Rewrites(View(w, o), o)
  }

  lemma ReadsKeepStatus(w: World, o: Conditions)
    ensures AfterComponents(w, o).status == AfterFlink(w, o).status == AfterJob(w, o).status == w.status
  {
    HappenAllDrifts(w, o.afterComponents);
    HappenAllDrifts(AfterComponents(w, o), o.afterFlink);
    HappenAllDrifts(AfterFlink(w, o), o.afterJob);
  }

  /** A pass writes the status derived from what it has seen, or leaves it but for a savepoint of the job. */
  lemma PassStatus(w: World, o: Conditions)
    ensures PassWrites(w, o) ==> DeriveSafe(w.status, View(w, o)) && Pass(w, o).status == StatusOf(w.status, View(w, o))
    ensures !PassWrites(w, o) ==> StatusKept(w, Pass(w, o))
  {
    ReadsKeepStatus(w, o);
    if !o.failing.ComponentErr() && CanAskFlink(w) && !(ObservesJob(w) && o.failing.job) {
      ConcludeStatus(AfterJob(w, o), View(w, o), o);
      assert Pass(w, o) == Conclude(AfterJob(w, o), View(w, o), o);
    }
  }

  /******* What the recorded state says *******/

  /** A state that says that something is missing is recorded only with an entry that is not Ready, and
      Running only with all three Ready until the job is recorded. */
  predicate StateSays(w: World) {
    && (w.status.state == Creating || w.status.state == Reconciling ==> !AllReady(w.status.components))
    && (w.status.state == Running && Recorded(w).None? ==> AllReady(w.status.components))
  }

  lemma DerivedSays(recorded: ClusterStatus, o: Observation)
    requires DeriveSafe(recorded, o)
    ensures var s := StatusOf(recorded, o);
            && (s.state == Creating || s.state == Reconciling ==> !AllReady(s.components))
            && (s.state == Running && s.components.job.None? ==> AllReady(s.components))
  {
    match recorded.state {
      case UnsetState => CreatingMeans(recorded, o);
      case Creating => CreatingMeans(recorded, o);
      case Running => ActiveMeans(recorded, o);
      case Reconciling => ActiveMeans(recorded, o);
      case Stopping => WindingMeans(recorded, o);
      case PartiallyStopped => WindingMeans(recorded, o);
      case Stopped =>
    }
  }

  lemma PassKeepsSaying(w: World, o: Conditions)
    requires StateSays(w)
    ensures StateSays(Pass(w, o))
  {
    PassStatus(w, o);
    if PassWrites(w, o) {
      DerivedSays(w.status, View(w, o));
    }
  }

  lemma {:induction false} RunKeepsSaying(w: World, steps: seq<Step>)
    requires StateSays(w)
    ensures StateSays(Run(w, steps))
    decreases |steps|
  {
    if steps != [] {
      match steps[0] {
        case Operator(o) => PassKeepsSaying(w, o);
        case Other(e) => HappenDrifts(w, e);
      }
      RunKeepsSaying(Next(w, steps[0]), steps[1..]);
    }
  }

  /** A cluster that was not up is up after a pass only as Running, with all three entries Ready. */
  lemma BecomesRunning(w: World, o: Conditions)
    requires (w.status.state == UnsetState || w.status.state == Creating) && Rank(Pass(w, o).status.state) > 0
    ensures Pass(w, o).status.state == Running && AllReady(Pass(w, o).status.components)
  {
    PassStatus(w, o);
    if PassWrites(w, o) {
      CreatingMeans(w.status, View(w, o));
    }
  }

  /** A cluster that is up stops in a pass exactly if the pass writes the status and has seen the job end in a
      way after which the policy does not keep the cluster. */
  lemma StopsIff(w: World, o: Conditions)
    requires Active(w.status.state)
    ensures Rank(Pass(w, o).status.state) >= 2 <==> PassWrites(w, o) && EndsCluster(w.status, View(w, o))
    ensures Rank(Pass(w, o).status.state) >= 2 ==> Pass(w, o).status.state == Stopping
  {
    PassStatus(w, o);
    if PassWrites(w, o) {
      ActiveMeans(w.status, View(w, o));
      if EndsCluster(w.status, View(w, o)) {
        EndedToStop(w.status, View(w, o));
      }
    }
  }

  lemma EndedToStop(recorded: ClusterStatus, o: Observation)
    requires o.cluster.Some? && EndsCluster(recorded, o)
    ensures !Unended(recorded, o)
  {
  }
}
