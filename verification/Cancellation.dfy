/** What a requested cancellation comes to. */
module Cancellation {
  import opened FlinkTypes
  import opened StatusUpdater
  import opened Converter
  import opened FlinkClient
  import opened WorldModel
  import opened ControlLoop
  import opened Drifting
  import opened Invariant
  import opened Preservation
  import opened Onwards
  import opened Submission
  import opened Cleanup
  import opened Recovery

  /** A savepoint is taken before the job is stopped. */
  predicate SavesFirst(c: Cluster) {
    JobID(c) != "" && CanTakeSavepoint(c)
  }

  /** The world in which a cancelling pass would stop the job: the components are reconciled, and a
      savepoint has taken its time. */
  ghost function WhenStopping(w: World, o: Conditions): World
    requires ConvertSafe(w.Cluster())
  {
    var changed := ReconcileComponents(AfterJob(w, o), View(w, o), DesiredState(w.Cluster()), o.calls).0;
    if SavesFirst(w.Cluster()) then HappenAll(changed, o.duringSavepoint) else changed
  }

  function AfterStop(jobs: seq<FlinkJob>, id: string): seq<FlinkJob> {
    if id == "" then jobs else CancelJob(jobs, id)
  }

  /******* From the Job to the pass *******/

  /** If the Job is deleted, the job was stopped by its recorded ID, if there is one, and a savepoint is
      recorded unless there is no ID, none could be taken, or it did not come to an end. */
  predicate CancelledFrom(stopping: World, c: Cluster, outcome: Taken, after: World) {
    && after.flinkJobs == AfterStop(stopping.flinkJobs, JobID(c))
    && (after.savepoints == stopping.savepoints <==> !SavesFirst(c) || outcome.TimedOut?)
  }

  lemma FlinkJobCancelled(w: World, c: Cluster, o: Conditions)
    requires JobID(c) != "" && !CancelFlinkJob(w, c, JobID(c), o).1
    ensures var stopping := if SavesFirst(c) then HappenAll(w, o.duringSavepoint) else w;
            CancelledFrom(stopping, c, Outcome(o.answers), CancelFlinkJob(w, c, JobID(c), o).0)
  {
  }

  lemma FlinkJobKept(w: World, c: Cluster, o: Conditions)
    requires JobID(c) != "" && w.job.Some?
    ensures CancelFlinkJob(w, c, JobID(c), o).0.job.Some?
  {
    HappenAllDrifts(w, o.duringSavepoint);
  }

  lemma JobCancelled(w: World, seen: Observation, o: Conditions)
    requires seen.cluster.Some? && w.job.Some?
    ensures var c, after := seen.cluster.value, CancelAndDelete(w, seen, o);
            var stopping := if SavesFirst(c) then HappenAll(w, o.duringSavepoint) else w;
            after.job.None? ==> CancelledFrom(stopping, c, Outcome(o.answers), after)
  {
    var c := seen.cluster.value;
    if JobID(c) != "" {
      FlinkJobKept(w, c, o);
      if !CancelFlinkJob(w, c, JobID(c), o).1 {
        FlinkJobCancelled(w, c, o);
      }
    }
  }

  /** Concluding deletes the Job of a job that is not wanted only by cancelling it, after the components
      were reconciled without an error. */
  lemma ConcludeDeletes(now: World, seen: Observation, o: Conditions)
    requires seen.cluster.Some? && !WantsJob(seen.cluster.value.spec) && seen.job.Some? && now.job.Some?
    requires Conclude(now, seen, o).job.None?
    ensures ConvertSafe(seen.cluster.value) && Acts(seen)
    ensures var (changed, err) := ReconcileComponents(now, seen, DesiredState(seen.cluster.value), o.calls);
            changed.job.Some? && Conclude(now, seen, o) == CancelAndDelete(changed, seen, o)
  {
    if Acts(seen) {
      ComponentsOnly(now, seen, DesiredState(seen.cluster.value), o.calls);
      assert Conclude(now, seen, o) == Act(now, seen, o);
    } else {
      OnlyActingActs(now, seen, o);
    }
  }

  lemma ReadsKeepJob(w: World, o: Conditions)
    requires w.job.Some?
    ensures AfterComponents(w, o).job.Some? && AfterFlink(w, o).job.Some? && AfterJob(w, o).job.Some?
  {
    HappenAllDrifts(w, o.afterComponents);
    HappenAllDrifts(AfterComponents(w, o), o.afterFlink);
    HappenAllDrifts(AfterFlink(w, o), o.afterJob);
  }

  /** A pass that deletes the Job on request has come to that without an error. */
  lemma DeletedByActing(w: World, o: Conditions)
    requires !w.deleted && CancelRequested(w.spec) && w.job.Some? && Pass(w, o).job.None?
    ensures ConvertSafe(w.Cluster()) && Acts(View(w, o))
    ensures var changed := ReconcileComponents(AfterJob(w, o), View(w, o), DesiredState(w.Cluster()), o.calls).0;
            changed.job.Some? && Pass(w, o) == CancelAndDelete(changed, View(w, o), o)
  {
    ReadsKeepJob(w, o);
    assert Pass(w, o) == Conclude(AfterJob(w, o), View(w, o), o);
    ConcludeDeletes(AfterJob(w, o), View(w, o), o);
  }

  /** A pass that deletes the Job of a job to be cancelled, under any conditions. */
  lemma PassCancelled(w: World, o: Conditions)
    requires !w.deleted && CancelRequested(w.spec) && w.job.Some? && Pass(w, o).job.None?
    ensures ConvertSafe(w.Cluster())
    ensures CancelledFrom(WhenStopping(w, o), w.Cluster(), Outcome(o.answers), Pass(w, o))
    ensures WhenStopping(w, o).savepoints == w.savepoints
  {
    DeletedByActing(w, o);
    ReadsQuiet(w, o);
    var d := DesiredState(w.Cluster());
    var changed := ReconcileComponents(AfterJob(w, o), View(w, o), d, o.calls).0;
    ComponentsOnly(AfterJob(w, o), View(w, o), d, o.calls);
    JobCancelled(changed, View(w, o), o);
    HappenAllDrifts(changed, o.duringSavepoint);
  }

  /** Documented: a savepoint is taken before the job is stopped. The Job is deleted without one exactly
      if no job ID is recorded, none can be taken, or the savepoint did not come to an end in time. */
  lemma UnsavedIff(w: World, o: Conditions)
    requires !w.deleted && CancelRequested(w.spec) && w.job.Some? && Pass(w, o).job.None?
    ensures Pass(w, o).savepoints == w.savepoints <==>
            JobID(w.Cluster()) == "" || !CanTakeSavepoint(w.Cluster()) || Outcome(o.answers).TimedOut?
  {
    PassCancelled(w, o);
  }

  /** Every running job has the recorded ID. */
  predicate AllRunUnder(jobs: seq<FlinkJob>, id: string) {
    forall k :: 0 <= k < |jobs| && jobs[k].status == FLINK_RUNNING ==> jobs[k].id == id && id != ""
  }

  lemma LeftRunning(jobs: seq<FlinkJob>, id: string)
    ensures RunningIDs(AfterStop(jobs, id)) == [] <==> AllRunUnder(jobs, id)
  {
    var left := AfterStop(jobs, id);
    if AllRunUnder(jobs, id) {
      NoneRunning(left);
    } else {
      var k :| 0 <= k < |jobs| && jobs[k].status == FLINK_RUNNING && !(jobs[k].id == id && id != "");
      RunningAreListed(left, k);
    }
  }

  /** The pass that deletes the Job leaves no Flink job running exactly if all that ran when it was to be
      stopped had the recorded ID. */
  lemma NothingLeftIff(w: World, o: Conditions)
    requires !w.deleted && CancelRequested(w.spec) && w.job.Some? && Pass(w, o).job.None?
    ensures ConvertSafe(w.Cluster())
    ensures RunningIDs(Pass(w, o).flinkJobs) == [] <==> AllRunUnder(WhenStopping(w, o).flinkJobs, JobID(w.Cluster()))
  {
    PassCancelled(w, o);
    LeftRunning(WhenStopping(w, o).flinkJobs, JobID(w.Cluster()));
  }

  /******* Without events *******/

  predicate NoEvents(o: Conditions) {
    o.afterComponents == [] && o.afterFlink == [] && o.afterJob == [] && o.duringSavepoint == []
  }

  lemma {:induction false} ListedRuns(jobs: seq<FlinkJob>, id: string) returns (k: nat)
    requires id in RunningIDs(jobs)
    ensures k < |jobs| && jobs[k].status == FLINK_RUNNING && jobs[k].id == id
  {
    var last := |jobs| - 1;
    if jobs[last].status == FLINK_RUNNING && jobs[last].id == id {
      k := last;
    } else {
      k := ListedRuns(jobs[..last], id);
    }
  }

  lemma RunUnderIff(jobs: seq<FlinkJob>, id: string)
    requires |RunningIDs(jobs)| <= 1
    ensures AllRunUnder(jobs, id) <==> RunningIDs(jobs) == [] || RunningIDs(jobs) == [id]
  {
    if AllRunUnder(jobs, id) {
      if RunningIDs(jobs) != [] {
        var k := ListedRuns(jobs, RunningIDs(jobs)[0]);
      }
    } else {
      var k :| 0 <= k < |jobs| && jobs[k].status == FLINK_RUNNING && !(jobs[k].id == id && id != "");
      RunningAreListed(jobs, k);
    }
  }

  /** If Flink has answered, a pass that acts has the ID of the running job recorded. */
  lemma AnsweredIsRecorded(w: World, o: Conditions)
    requires !w.deleted && NoEvents(o) && w.job.Some? && Acts(View(w, o))
    requires AsksFlink(w.Cluster()) && !o.failing.flink && |RunningIDs(w.flinkJobs)| == 1
    ensures RunningIDs(w.flinkJobs) == [JobID(w.Cluster())]
  {
    var seen := View(w, o);
    assert seen.job == w.job && seen.flinkJobID == Some(RunningIDs(w.flinkJobs)[0]);
    var k := ListedRuns(w.flinkJobs, RunningIDs(w.flinkJobs)[0]);
    assert Recorded(w) == StatusOf(w.status, seen).components.job;
  }

  lemma StoppingSame(w: World, o: Conditions)
    requires ConvertSafe(w.Cluster()) && NoEvents(o)
    ensures WhenStopping(w, o).flinkJobs == w.flinkJobs
  {
    assert AfterJob(w, o) == w;
    ComponentsOnly(w, View(w, o), DesiredState(w.Cluster()), o.calls);
  }

  /** If nothing else happens, the pass that deletes the Job leaves a Flink job running exactly if Flink was
      not asked or did not answer and the running job is not the recorded one. */
  lemma LeftRunningIff(w: World, o: Conditions)
    requires SingleJob(w) && NoEvents(o)
    requires !w.deleted && CancelRequested(w.spec) && w.job.Some? && Pass(w, o).job.None?
    ensures RunningIDs(Pass(w, o).flinkJobs) != [] <==>
            && (!AsksFlink(w.Cluster()) || o.failing.flink)
            && RunningIDs(w.flinkJobs) != [] && RunningIDs(w.flinkJobs) != [JobID(w.Cluster())]
  {
    NothingLeftIff(w, o);
    StoppingSame(w, o);
    RunUnderIff(w.flinkJobs, JobID(w.Cluster()));
    if AsksFlink(w.Cluster()) && !o.failing.flink && RunningIDs(w.flinkJobs) != [] {
      DeletedByActing(w, o);
      AnsweredIsRecorded(w, o);
    }
  }

  /******* After the Job is deleted *******/

  predicate NothingNew(before: World, after: World) {
    after.job.None? && |RunningIDs(after.flinkJobs)| <= |RunningIDs(before.flinkJobs)|
  }

  lemma ReadsRunNothingNew(w: World, o: Conditions)
    requires w.job.None?
    ensures NothingNew(w, AfterComponents(w, o)) && NothingNew(w, AfterFlink(w, o)) && NothingNew(w, AfterJob(w, o))
  {
    HappenAllDrifts(w, o.afterComponents);
    HappenAllDrifts(AfterComponents(w, o), o.afterFlink);
    HappenAllDrifts(AfterFlink(w, o), o.afterJob);
  }

  lemma ConcludeRunsNothingNew(now: World, seen: Observation, o: Conditions)
    requires seen.cluster.Some? && !WantsJob(seen.cluster.value.spec) && seen.job.None? && now.job.None?
    ensures NothingNew(now, Conclude(now, seen, o))
  {
    if Acts(seen) {
      ComponentsOnly(now, seen, DesiredState(seen.cluster.value), o.calls);
      assert Conclude(now, seen, o) == Act(now, seen, o);
    } else {
      OnlyActingActs(now, seen, o);
    }
  }

  /** With the Job deleted on request, a pass submits and resumes nothing. */
  lemma PassRunsNothingNew(w: World, o: Conditions)
    requires CancelRequested(w.spec) && w.job.None?
    ensures NothingNew(w, Pass(w, o))
  {
    ReadsRunNothingNew(w, o);
    if !w.deleted {
      ConcludeRunsNothingNew(AfterJob(w, o), View(w, o), o);
    }
  }

  lemma {:induction false} RunRunsNothingNew(w: World, steps: seq<Step>)
    requires Inv(w) && CancelRequested(w.spec) && w.job.None?
    ensures NothingNew(w, Run(w, steps))
    decreases |steps|
  {
    if steps != [] {
      NextKeeps(w, steps[0]);
      match steps[0] {
        case Operator(o) => PassOnward(w, o); PassRunsNothingNew(w, o);
        case Other(e) => HappenDrifts(w, e);
      }
      RunRunsNothingNew(Next(w, steps[0]), steps[1..]);
    }
  }

  /******* A calm cancellation *******/

  /** What a calm pass comes to, by the outcome of the savepoint. */
  predicate CancelledAs(w: World, o: Conditions, after: World) {
    var id := JobID(w.Cluster());
    if id == "" then after == w.(job := None)
    else if !CanTakeSavepoint(w.Cluster()) then after == w.(job := None, flinkJobs := CancelJob(w.flinkJobs, id))
    else
      var later := HappenAll(w, o.duringSavepoint);
      match Outcome(o.answers)
      case Done(s) =>
        && after.job.None? && after.flinkJobs == CancelJob(later.flinkJobs, id)
        && after.savepoints == w.savepoints + [Savepoint(s.location, Seconds(later.clock), BeforeCancel)]
      case Erred => after == later
      case TimedOut => after == later.(job := None, flinkJobs := CancelJob(later.flinkJobs, id))
  }

  lemma CancelsAs(w: World, seen: Observation, o: Conditions)
    requires seen.cluster == Some(w.Cluster()) && Calm(o) && w.job.Some?
    ensures CancelledAs(w, o, CancelAndDelete(w, seen, o))
  {
    HappenAllDrifts(w, o.duringSavepoint);
  }

  /** A calm pass over a steady cluster: without an ID the Job is deleted and no job is stopped; otherwise
      the savepoint completes, is recorded, and the job is stopped and deleted; or it fails and nothing is
      done; or it stays unfinished or cannot be taken, and the job is stopped and deleted without it. */
  lemma CancelsInOnePass(w: World, o: Conditions)
    requires Steady(w, o) && Calm(o) && CancelRequested(w.spec) && w.job.Some?
    ensures CancelledAs(w, o, Pass(w, o))
  {
    SteadyPass(w, o);
    CancelsAs(w, View(w, o), o);
    assert Pass(w, o) == CancelAndDelete(w, View(w, o), o);
  }
}
