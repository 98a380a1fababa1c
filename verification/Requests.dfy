/** Every request for a savepoint is met by one savepoint. */
module Requests {
  import opened FlinkTypes
  import opened Converter
  import opened WorldModel
  import opened ControlLoop
  import opened Drifting
  import opened Invariant
  import opened Preservation
  import opened Onwards
  import opened Submission

  /** The spec has changed as the status before allowed, and at most one savepoint is recorded. */
  predicate AsksWithin(before: World, after: World) {
    SpecDrift(before.spec, after.spec, before.status) && |after.savepoints| <= |before.savepoints| + 1
  }

  lemma TakeSavepointAsks(w: World, c: Cluster, trigger: Trigger, o: Conditions)
    requires c.status.components.job.Some?
    ensures AsksWithin(w, TakeSavepointStep(w, c, trigger, o).0)
  {
    HappenAllDrifts(w, o.duringSavepoint);
  }

  lemma RestartOrSaveAsks(w: World, seen: Observation, o: Conditions)
    requires seen.cluster.Some? && seen.cluster.value.spec.job.Some?
    ensures AsksWithin(w, RestartOrSave(w, seen, o))
  {
    var c := seen.cluster.value;
    CancelRunningDrifts(w, seen.flinkRunningJobIDs, o.calls, 0);
    if JobID(c) != "" && SavepointDue(c, w.clock).Some? {
      TakeSavepointAsks(w, c, SavepointDue(c, w.clock).value, o);
    }
  }

  lemma CancelAndDeleteAsks(w: World, seen: Observation, o: Conditions)
    requires seen.cluster.Some?
    ensures AsksWithin(w, CancelAndDelete(w, seen, o))
  {
    var c := seen.cluster.value;
    if JobID(c) != "" {
      TakeSavepointAsks(w, c, BeforeCancel, o);
      assert AsksWithin(w, CancelFlinkJob(w, c, JobID(c), o).0);
    }
  }

  lemma ReconcileJobAsks(w: World, seen: Observation, wanted: Option<Job>, o: Conditions)
    requires seen.cluster.Some? && (wanted.Some? ==> seen.cluster.value.spec.job.Some?)
    ensures AsksWithin(w, ReconcileJob(w, seen, wanted, o))
  {
    if wanted.Some? && seen.job.None? {
      CancelRunningDrifts(w, seen.flinkRunningJobIDs, o.calls, 0);
    } else if wanted.Some? {
      RestartOrSaveAsks(w, seen, o);
    } else if seen.job.Some? {
      CancelAndDeleteAsks(w, seen, o);
    }
  }

  lemma ActAsks(now: World, seen: Observation, o: Conditions)
    requires seen.cluster.Some? && ConvertSafe(seen.cluster.value)
    ensures AsksWithin(now, Act(now, seen, o))
  {
    var d := DesiredState(seen.cluster.value);
    ComponentsOnly(now, seen, d, o.calls);
    ReconcileJobAsks(ReconcileComponents(now, seen, d, o.calls).0, seen, d.job, o);
  }

  lemma ConcludeAsks(now: World, seen: Observation, o: Conditions)
    ensures AsksWithin(now, Conclude(now, seen, o))
  {
    if Acts(seen) {
      ActAsks(now, seen, o);
      assert Conclude(now, seen, o) == Act(now, seen, o);
    } else {
      OnlyActingActs(now, seen, o);
    }
  }

  /** Nothing but the spec matters here, and no savepoint is recorded. */
  predicate OnlyAsks(before: World, after: World) {
    after.status == before.status && after.savepoints == before.savepoints
    && SpecDrift(before.spec, after.spec, before.status)
  }

  lemma ReadsAsk(w: World, o: Conditions)
    ensures OnlyAsks(w, AfterComponents(w, o)) && OnlyAsks(w, AfterFlink(w, o)) && OnlyAsks(w, AfterJob(w, o))
  {
    HappenAllDrifts(w, o.afterComponents);
    HappenAllDrifts(AfterComponents(w, o), o.afterFlink);
    HappenAllDrifts(AfterFlink(w, o), o.afterJob);
  }

  lemma PassAsks(w: World, o: Conditions)
    ensures AsksWithin(w, Pass(w, o))
  {
    ReadsAsk(w, o);
    if !o.failing.ComponentErr() && CanAskFlink(w) && !(ObservesJob(w) && o.failing.job) {
      ConcludeAsks(AfterJob(w, o), View(w, o), o);
      assert Pass(w, o) == Conclude(AfterJob(w, o), View(w, o), o);
    }
  }

  /** After a pass that has recorded a savepoint, a generation still asked for was asked for before any
      savepoint the status allowed to ask for: it is the one the run started with. */
  lemma SavedMeetsRequest(start: World, w: World, o: Conditions, clock: int)
    requires SavepointsAccounted(w) && SpecOnward(start, w) && SavepointsAccounted(Pass(w, o))
    requires |Pass(w, o).savepoints| > |w.savepoints| && |Pass(w, o).savepoints| < 0x8000_0000
    ensures Recorded(Pass(w, o)).Some?
    ensures SavepointDue(Pass(w, o).Cluster(), clock) == Some(Requested) ==>
              Generation(Pass(w, o).spec) == Generation(start.spec)
  {
    PassAsks(w, o);
  }
}
