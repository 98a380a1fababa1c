/** What holds in every state of every run of an admitted cluster. */
module Invariant {
  import opened FlinkTypes
  import opened StatusUpdater
  import opened Converter
  import opened Validation
  import opened WorldModel
  import opened Drifting

  function Recorded(w: World): Option<JobStatus> {
    w.status.components.job
  }

  /** The recorded job state is `s`. */
  predicate RecordedAs(w: World, s: JobState) {
    Recorded(w).Some? && Recorded(w).value.state == s
  }

  function Policy(spec: ClusterSpec): Option<RestartPolicy> {
    if spec.job.Some? then spec.job.value.restartPolicy else None
  }

  /** The cluster is kept when its job fails. */
  predicate KeptAfterFailure(spec: ClusterSpec) {
    && spec.job.Some? && spec.job.value.cleanupPolicy.Some?
    && spec.job.value.cleanupPolicy.value.afterJobFails == KeepCluster
  }

  /** The status has the shape the controllers rely on. */
  predicate WellFormed(w: World) {
    && SpecReady(w.spec)
    && !w.status.state.OtherState?
    && (w.jmIngress.Some? ==> w.jmIngress.value.name != "" && w.spec.jobManager.ingress.Some?)
    && (w.status.components.jobManagerIngress.Some? ==> w.status.components.jobManagerIngress.value.name != "")
  }

  /** Jobs exist, and are recorded, only in job clusters that were up when the first was created. */
  predicate JobsAccounted(w: World) {
    && (w.spec.job.None? ==> w.created == [] && Rank(w.status.state) <= 1)
    && (w.created == [] ==> w.job.None? && Recorded(w).None?)
    && (w.created != [] ==> Rank(w.status.state) >= 1)
  }

  /** At most one Flink job runs or may still be submitted. */
  predicate SingleJob(w: World) {
    Load(w) <= 1
  }

  /** The recorded savepoint is the last of those recorded, and the generation counts them. */
  predicate SavepointsAccounted(w: World) {
    && (Recorded(w).None? ==> w.savepoints == [])
    && (Recorded(w).Some? ==>
          var job := Recorded(w).value;
          && job.savepointGeneration == Wrap32(|w.savepoints|)
          && (w.savepoints == [] ==> job.savepointLocation == "" && job.lastSavepointTime.None?)
          && (w.savepoints != [] ==>
                var last := w.savepoints[|w.savepoints| - 1];
                job.savepointLocation == last.location && job.lastSavepointTime == Some(last.time)))
  }

  /** A savepoint taken because the interval had passed comes at least the interval after the one before. */
  predicate SavepointsSpaced(w: World) {
    forall i :: 0 <= i < |w.savepoints| && w.savepoints[i].trigger == Interval ==>
      && i > 0
      && w.spec.job.Some? && w.spec.job.value.autoSavepointSeconds.Some?
      && w.savepoints[i].time >= w.savepoints[i - 1].time + w.spec.job.value.autoSavepointSeconds.value
  }

  /** A job recorded as cancelled was to be cancelled and is gone. */
  predicate CancelledIsFinal(w: World) {
    RecordedAs(w, Cancelled) ==> CancelRequested(w.spec) && w.job.None?
  }

  /** A Job that is gone was deleted to cancel it or to restart it from the recorded savepoint. */
  predicate GoneForAReason(w: World) {
    && (w.created != [] && w.job.None? ==> CancelRequested(w.spec) || ShouldRestart(Policy(w.spec), Recorded(w)))
    && (RecordedAs(w, Failed) && !KeptAfterFailure(w.spec) ==> Rank(w.status.state) >= 2)
    && (|w.created| >= 2 ==> KeptAfterFailure(w.spec) && Policy(w.spec) == Some(FromSavepointOnFailure))
  }

  /** The i-th Job started where it should: the first from the savepoint of the spec; every later one
      after a recorded failure, from the savepoint recorded last at that time. */
  predicate StartedWell(w: World, i: nat)
    requires i < |w.created|
  {
    var c := w.created[i];
    && c.savepointsBefore <= |w.savepoints|
    && (i == 0 ==> w.spec.job.Some? && c.savepoint == w.spec.job.value.fromSavepoint)
    && (i > 0 ==>
          && c.recorded.Some? && c.recorded.value.state == Failed
          && c.savepointsBefore > 0
          && c.savepoint == Some(w.savepoints[c.savepointsBefore - 1].location))
  }

  predicate AllStartedWell(w: World) {
    forall i :: 0 <= i < |w.created| ==> StartedWell(w, i)
  }

  /** Each Job after the first is counted as a restart at most once. */
  predicate RestartsCounted(w: World) {
    Recorded(w).Some? ==>
      var job := Recorded(w).value;
      && -0x8000_0000 <= job.restartCount <= |w.created| - 1
      && (job.state == Failed && w.job.Some? && !w.job.value.Finished() ==> job.restartCount <= |w.created| - 2)
  }

  /** Once the cluster winds down its job has ended for good. */
  predicate EndedWhenWindingDown(w: World) {
    Rank(w.status.state) >= 2 ==>
      && Recorded(w).Some? && Terminal(Recorded(w).value.state)
      && (w.job.Some? ==> w.job.value.Finished())
  }

  /** What holds of the present. */
  predicate Facts(w: World) {
    && WellFormed(w)
    && JobsAccounted(w)
    && SingleJob(w)
    && SavepointsAccounted(w)
    && CancelledIsFinal(w)
    && GoneForAReason(w)
    && RestartsCounted(w)
    && EndedWhenWindingDown(w)
  }

  /** What holds of the past. */
  predicate Histories(w: World) {
    SavepointsSpaced(w) && AllStartedWell(w)
  }

  predicate Inv(w: World) {
    Facts(w) && Histories(w)
  }

  /******* Events *******/

  lemma DriftKeepsFacts(w: World, after: World)
    requires Facts(w) && Drift(w, after)
    ensures Facts(after)
  {
  }

  /** The past stays good while it only grows by good entries. */
  lemma HistoriesKept(w: World, after: World)
    requires Histories(w) && Core(after.spec) == Core(w.spec)
    requires w.created <= after.created && after.savepoints == w.savepoints
    requires forall i :: |w.created| <= i < |after.created| ==> StartedWell(after, i)
    ensures Histories(after)
  {
    forall i | 0 <= i < |w.created|
      ensures StartedWell(after, i)
    {
      assert StartedWell(w, i);
    }
  }

  lemma DriftKeeps(w: World, after: World)
    requires Inv(w) && Drift(w, after)
    ensures Inv(after)
  {
    DriftKeepsFacts(w, after);
    HistoriesKept(w, after);
  }
}
