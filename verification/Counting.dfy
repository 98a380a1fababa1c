/** The restart count is exactly the number of Jobs after the first that the status has noted. */
module Counting {
  import opened FlinkTypes
  import opened StatusUpdater
  import opened Converter
  import opened FlinkClient
  import opened WorldModel
  import opened ControlLoop
  import opened Drifting
  import opened Invariant
  import opened Preservation
  import opened Onwards
  import opened Submission

  /** The noted Jobs are among those created, and a cluster without a job status has noted none. */
  predicate NotedAreCreated(w: World) {
    && (forall i :: i in w.noted ==> i < |w.created|)
    && (Recorded(w).None? ==> w.noted == {} && |w.created| <= 1)
  }

  predicate CountsNoted(w: World) {
    Recorded(w).Some? ==> Recorded(w).value.restartCount == Wrap32(|w.noted - {0}|)
  }

  /** A Job that has not finished is noted exactly if the status is not that of the Job before it. */
  predicate UnfinishedIsNoted(w: World) {
    w.job.Some? && !w.job.value.Finished() ==>
      && w.created != []
      && (|w.created| - 1 in w.noted <==> Recorded(w).Some? && Recorded(w).value.state != Failed)
      && (RecordedAs(w, Failed) ==> |w.created| >= 2)
  }

  predicate Counted(w: World) {
    NotedAreCreated(w) && CountsNoted(w) && UnfinishedIsNoted(w)
  }

  /** Nothing is created, written or counted, and no Job appears. */
  predicate Uncounted(before: World, after: World) {
    && after.noted == before.noted && after.created == before.created
    && (Recorded(before).None? <==> Recorded(after).None?)
    && (Recorded(before).Some? ==>
          && Recorded(after).value.restartCount == Recorded(before).value.restartCount
          && Recorded(after).value.state == Recorded(before).value.state)
    && (after.job.Some? ==> before.job.Some? && (before.job.value.Finished() ==> after.job.value.Finished()))
  }

  lemma UncountedKeeps(before: World, after: World)
    requires Counted(before) && Uncounted(before, after)
    ensures Counted(after)
  {
  }

  /******* Writing the status *******/

  lemma NotingAdds(noted: set<nat>, i: nat)
    requires i !in noted && i != 0
    ensures |noted + {i} - {0}| == |noted - {0}| + 1
  {
    assert noted + {i} - {0} == (noted - {0}) + {i};
  }

  lemma NotingFirst(noted: set<nat>)
    ensures |noted + {0} - {0}| == |noted - {0}|
  {
    assert noted + {0} - {0} == noted - {0};
  }

  /** Reading an unfinished Job notes it and counts it, unless it is noted already or is the first. */
  lemma NumberStep(recorded: Option<JobStatus>, job: Job, id: Option<string>, cancel: bool, noted: set<nat>, last: nat)
    requires recorded.None? ==> noted == {} && last == 0
    requires recorded.Some? ==> recorded.value.restartCount == Wrap32(|noted - {0}|)
    requires recorded.Some? ==> recorded.value.state != Cancelled
    requires !job.Finished() && (last in noted <==> recorded.Some? && recorded.value.state != Failed)
    requires recorded.Some? && recorded.value.state == Failed ==> last > 0
    ensures JobStatusOf(recorded, Some(job), id, cancel).value.restartCount == Wrap32(|noted + {last} - {0}|)
  {
    if last == 0 {
      NotingFirst(noted);
    } else if last in noted {
      assert noted + {last} == noted;
    } else {
      NotingAdds(noted, last);
      NextGeneration(|noted - {0}|);
    }
  }

  lemma WritesJob(w: World, now: World, seen: Observation)
    requires seen.cluster == Some(w.Cluster()) && DeriveSafe(w.status, seen)
    ensures Recorded(WriteStatus(now, seen, StatusOf(w.status, seen), Succeeds))
         == JobStatusOf(Recorded(w), seen.job, seen.flinkJobID, CancelRequested(w.spec))
  {
  }

  lemma WriteCounts(w: World, seen: Observation, after: World)
    requires seen.cluster == Some(w.Cluster()) && seen.job.Some? && !seen.job.value.Finished()
    requires Recorded(after) == JobStatusOf(Recorded(w), seen.job, seen.flinkJobID, CancelRequested(w.spec))
    requires w.created != [] && after.noted == w.noted + {|w.created| - 1}
    requires w.job.Some? && !w.job.value.Finished()
    requires CountsNoted(w) && UnfinishedIsNoted(w) && CancelledIsFinal(w)
    requires Recorded(w).None? ==> w.noted == {} && |w.created| <= 1
    ensures CountsNoted(after)
  {
    NumberStep(Recorded(w), seen.job.value, seen.flinkJobID, CancelRequested(w.spec), w.noted, |w.created| - 1);
  }

  lemma WriteKeepsNumber(w: World, seen: Observation, after: World)
    requires seen.cluster == Some(w.Cluster()) && (seen.job.Some? ==> seen.job.value.Finished())
    requires Recorded(after) == JobStatusOf(Recorded(w), seen.job, seen.flinkJobID, CancelRequested(w.spec))
    requires after.noted == w.noted
    requires CountsNoted(w) && (Recorded(w).None? ==> w.noted == {})
    ensures CountsNoted(after)
  {
    NumberStays(Recorded(w), seen.job, seen.flinkJobID, CancelRequested(w.spec), w.noted);
  }

  lemma NumberStays(recorded: Option<JobStatus>, job: Option<Job>, id: Option<string>, cancel: bool, noted: set<nat>)
    requires recorded.None? ==> noted == {}
    requires recorded.Some? ==> recorded.value.restartCount == Wrap32(|noted - {0}|)
    requires job.Some? ==> job.value.Finished()
    ensures var derived := JobStatusOf(recorded, job, id, cancel);
            derived.Some? ==> derived.value.restartCount == Wrap32(|noted - {0}|)
  {
  }

  /** What a pass that started in `w` and has read `seen` knows of the Job in `now`. */
  predicate ReadBetween(w: World, seen: Observation, now: World) {
    && seen.cluster == Some(w.Cluster())
    && now.created == w.created && now.noted == w.noted
    && (seen.job.Some? ==> w.job.Some? && (w.job.value.Finished() ==> seen.job.value.Finished()))
    && (now.job.Some? ==> seen.job.Some? && (seen.job.value.Finished() ==> now.job.value.Finished()))
  }

  lemma SightingReads(w: World, middle: World, now: World, seen: Observation)
    requires JobsAccounted(w) && Sighting(w, middle, now, seen)
    ensures ReadBetween(w, seen, now)
  {
  }

  /** The derived job status is written, and the Job it was derived from noted. */
  predicate Written(w: World, seen: Observation, now: World, after: World)
    requires seen.cluster == Some(w.Cluster())
  {
    && after.job == now.job && after.created == now.created && after.noted == Noted(now, seen)
    && Recorded(after) == JobStatusOf(Recorded(w), seen.job, seen.flinkJobID, CancelRequested(w.spec))
  }

  lemma WriteKeepsNoted(w: World, seen: Observation, now: World, after: World)
    requires ReadBetween(w, seen, now) && Written(w, seen, now, after)
    requires NotedAreCreated(w) && (w.created == [] ==> w.job.None?)
    ensures NotedAreCreated(after)
  {
  }

  lemma WriteNotesUnfinished(w: World, seen: Observation, now: World, after: World)
    requires ReadBetween(w, seen, now) && Written(w, seen, now, after)
    requires UnfinishedIsNoted(w)
    ensures UnfinishedIsNoted(after)
  {
  }

  lemma WriteKeepsCounted(w: World, seen: Observation, now: World, after: World)
    requires ReadBetween(w, seen, now) && Written(w, seen, now, after)
    requires Counted(w) && CancelledIsFinal(w) && (w.created == [] ==> w.job.None?)
    ensures Counted(after)
  {
    if seen.job.Some? && !seen.job.value.Finished() {
      WriteCounts(w, seen, after);
    } else {
      WriteKeepsNumber(w, seen, after);
    }
    WriteKeepsNoted(w, seen, now, after);
    WriteNotesUnfinished(w, seen, now, after);
  }

  lemma WriteStatusKeepsCounted(w: World, middle: World, now: World, seen: Observation, call: Call)
    requires JobsAccounted(w) && CancelledIsFinal(w) && Counted(w) && Counted(now)
    requires Sighting(w, middle, now, seen) && DeriveSafe(w.status, seen)
    ensures Counted(WriteStatus(now, seen, StatusOf(w.status, seen), call))
  {
    SightingReads(w, middle, now, seen);
    WritesJob(w, now, seen);
    WriteKeepsCounted(w, seen, now, WriteStatus(now, seen, StatusOf(w.status, seen), Succeeds));
  }

  /******* Acting *******/

  lemma TakeSavepointUncounted(w: World, c: Cluster, trigger: Trigger, o: Conditions)
    requires c.status.components.job.Some? && w.status == c.status
    ensures Uncounted(w, TakeSavepointStep(w, c, trigger, o).0)
  {
    var later := HappenAll(w, o.duringSavepoint);
    HappenAllDrifts(w, o.duringSavepoint);
    match Outcome(o.answers) {
      case Done(s) => RecordUncounted(later, c, s, trigger, o.calls.savepoint);
      case _ =>
    }
  }

  lemma RecordUncounted(w: World, c: Cluster, s: SavepointStatus, trigger: Trigger, call: Call)
    requires c.status.components.job.Some? && w.status == c.status
    ensures Uncounted(w, RecordSavepoint(w, c, s, trigger, call))
  {
  }

  lemma RestartOrSaveUncounted(w: World, seen: Observation, o: Conditions)
    requires seen.cluster.Some? && seen.cluster.value.spec.job.Some? && w.status == seen.cluster.value.status
    ensures Uncounted(w, RestartOrSave(w, seen, o))
  {
    var c := seen.cluster.value;
    CancelRunningDrifts(w, seen.flinkRunningJobIDs, o.calls, 0);
    if JobID(c) != "" && SavepointDue(c, w.clock).Some? {
      TakeSavepointUncounted(w, c, SavepointDue(c, w.clock).value, o);
    }
  }

  lemma CancelFlinkJobUncounted(w: World, c: Cluster, id: string, o: Conditions)
    requires c.status.components.job.Some? && w.status == c.status
    ensures Uncounted(w, CancelFlinkJob(w, c, id, o).0)
  {
    TakeSavepointUncounted(w, c, BeforeCancel, o);
  }

  lemma CancelAndDeleteUncounted(w: World, seen: Observation, o: Conditions)
    requires seen.cluster.Some? && w.status == seen.cluster.value.status
    ensures Uncounted(w, CancelAndDelete(w, seen, o))
  {
    var c := seen.cluster.value;
    if JobID(c) != "" {
      CancelFlinkJobUncounted(w, c, JobID(c), o);
    }
  }

  /** A new Job is not noted yet. */
  lemma CreateKeepsCounted(w: World, middle: World, now: World, seen: Observation, job: Job, savepoint: Option<string>)
    requires Facts(w) && Counted(now) && Sighting(w, middle, now, seen)
    requires WantsJob(w.spec) && seen.job.None?
    ensures Counted(CreateJob(now, job, savepoint, Recorded(w), Succeeds))
  {
  }

  lemma SubmitKeepsCounted(w: World, middle: World, now: World, seen: Observation, job: Job, o: Conditions)
    requires Facts(w) && Counted(now) && Sighting(w, middle, now, seen)
    requires WantsJob(w.spec) && seen.job.None?
    ensures Counted(SubmitOrWait(now, seen, job, o))
  {
    CancelRunningDrifts(now, seen.flinkRunningJobIDs, o.calls, 0);
    UncountedKeeps(now, CancelRunningJobs(now, seen.flinkRunningJobIDs, o.calls, 0).0);
    CreateKeepsCounted(w, middle, now, seen, job, ConvertFromSavepoint(w.spec.job.value, Recorded(w)));
  }

  lemma JobKeepsCounted(w: World, middle: World, now: World, seen: Observation, o: Conditions)
    requires Facts(w) && Counted(now) && Sighting(w, middle, now, seen) && ConvertSafe(w.Cluster())
    ensures Counted(ReconcileJob(now, seen, DesiredJob(w.Cluster()), o))
  {
    if WantsJob(w.spec) && seen.job.None? {
      SubmitKeepsCounted(w, middle, now, seen, DesiredJob(w.Cluster()).value, o);
    } else if WantsJob(w.spec) {
      RestartOrSaveUncounted(now, seen, o);
      UncountedKeeps(now, RestartOrSave(now, seen, o));
    } else if seen.job.Some? {
      CancelAndDeleteUncounted(now, seen, o);
      UncountedKeeps(now, CancelAndDelete(now, seen, o));
    }
  }

  lemma ActKeepsCounted(w: World, middle: World, now: World, seen: Observation, o: Conditions)
    requires Facts(w) && Facts(now) && Counted(now) && Sighting(w, middle, now, seen) && ConvertSafe(w.Cluster())
    ensures Counted(Act(now, seen, o))
  {
    var d := DesiredState(w.Cluster());
    var (changed, err) := ReconcileComponents(now, seen, d, o.calls);
    ComponentsOnly(now, seen, d, o.calls);
    UncountedKeeps(now, changed);
    ComponentsKeepFacts(w, middle, now, seen, o.calls);
    if !err {
      JobKeepsCounted(w, middle, changed, seen, o);
    }
  }

  /******* Runs *******/

  lemma ConcludeKeepsCounted(w: World, middle: World, now: World, seen: Observation, o: Conditions)
    requires Facts(w) && Facts(middle) && Facts(now) && Counted(w) && Counted(now) && Sighting(w, middle, now, seen)
    ensures Counted(Conclude(now, seen, o))
  {
    WriteSafe(w, middle, now, seen);
    if Changed(w.status, StatusOf(w.status, seen)) {
      WriteStatusKeepsCounted(w, middle, now, seen, o.calls.status);
      assert Conclude(now, seen, o) == WriteStatus(now, seen, StatusOf(w.status, seen), o.calls.status);
    } else if ConvertSafe(w.Cluster()) {
      ActKeepsCounted(w, middle, now, seen, o);
      assert Conclude(now, seen, o) == Act(now, seen, o);
    } else {
      UncountedKeeps(now, Panic(now));
      assert Conclude(now, seen, o) == Panic(now);
    }
  }

  lemma DriftKeepsCounted(w: World, after: World)
    requires Counted(w) && Undisturbed(w, after)
    ensures Counted(after)
  {
    UncountedKeeps(w, after);
  }

  lemma ReadsKeepCounted(w: World, o: Conditions)
    requires Counted(w)
    ensures Counted(AfterComponents(w, o)) && Counted(AfterFlink(w, o)) && Counted(AfterJob(w, o))
  {
    HappenAllDrifts(w, o.afterComponents);
    DriftKeepsCounted(w, AfterComponents(w, o));
    HappenAllDrifts(AfterComponents(w, o), o.afterFlink);
    DriftKeepsCounted(AfterComponents(w, o), AfterFlink(w, o));
    HappenAllDrifts(AfterFlink(w, o), o.afterJob);
    DriftKeepsCounted(AfterFlink(w, o), AfterJob(w, o));
  }

  lemma ReadAndConcludeCounted(w: World, o: Conditions)
    requires Facts(w) && Counted(w) && !w.deleted
    ensures Counted(Conclude(AfterJob(w, o), View(w, o), o))
  {
    ReadsKeepCounted(w, o);
    ReadsOnward(w, o);
    ViewIsSighting(w, o);
    ConcludeKeepsCounted(w, AfterFlink(w, o), AfterJob(w, o), View(w, o), o);
  }

  lemma PassKeepsCounted(w: World, o: Conditions)
    requires Facts(w) && Counted(w)
    ensures Counted(Pass(w, o))
  {
    ReadsKeepCounted(w, o);
    if o.failing.ComponentErr() {
      assert Pass(w, o) == w;
    } else if ObservesJob(w) && o.failing.job {
      assert Pass(w, o) == AfterFlink(w, o);
    } else if w.deleted {
      assert Pass(w, o) == AfterJob(w, o);
    } else {
      ReadAndConcludeCounted(w, o);
      assert Pass(w, o) == Conclude(AfterJob(w, o), View(w, o), o);
    }
  }

  lemma {:induction false} RunKeepsCounted(w: World, steps: seq<Step>)
    requires Inv(w) && Counted(w)
    ensures Counted(Run(w, steps))
    decreases |steps|
  {
    if steps != [] {
      NextKeeps(w, steps[0]);
      match steps[0] {
        case Operator(o) => PassKeepsCounted(w, o);
        case Other(e) => HappenDrifts(w, e); DriftKeepsCounted(w, Happen(w, e));
      }
      RunKeepsCounted(Next(w, steps[0]), steps[1..]);
    }
  }

  /******* Which Jobs are noted *******/

  /** Concluding from `seen` writes the status, and the write takes effect. */
  ghost predicate Rewrites(seen: Observation, o: Conditions) {
    && seen.cluster.Some?
    && var recorded := seen.cluster.value.status;
       && DeriveSafe(recorded, seen)
       && CompareSafe(recorded, StatusOf(recorded, seen)) && Changed(recorded, StatusOf(recorded, seen))
       && o.calls.status.Takes()
  }

  /** The pass over `w` comes to writing the status with effect, and has read the last Job unfinished. */
  ghost predicate Notes(w: World, o: Conditions) {
    && !o.failing.ComponentErr() && CanAskFlink(w) && !(ObservesJob(w) && o.failing.job)
    && View(w, o).job.Some? && !View(w, o).job.value.Finished()
    && Rewrites(View(w, o), o)
  }

  /** The Jobs that the passes of the run note. */
  ghost function NotedBy(w: World, steps: seq<Step>): set<nat>
    decreases |steps|
  {
    if steps == [] then {}
    else
      (if steps[0].Operator? && Notes(w, steps[0].conditions) && w.created != [] then {|w.created| - 1} else {})
      + NotedBy(Next(w, steps[0]), steps[1..])
  }

  lemma ConcludeNotes(now: World, seen: Observation, o: Conditions)
    ensures Conclude(now, seen, o).noted == if Rewrites(seen, o) then Noted(now, seen) else now.noted
  {
    if Acts(seen) {
      ActCreates(now, seen, o);
      assert Conclude(now, seen, o) == Act(now, seen, o);
    }
  }

  lemma PassNotes(w: World, o: Conditions)
    ensures Pass(w, o).noted == w.noted + if Notes(w, o) && w.created != [] then {|w.created| - 1} else {}
  {
    ReadsQuiet(w, o);
    ConcludeNotes(AfterJob(w, o), View(w, o), o);
  }

  lemma {:induction false} RunNotes(w: World, steps: seq<Step>)
    ensures Run(w, steps).noted == w.noted + NotedBy(w, steps)
    decreases |steps|
  {
    if steps != [] {
      RunNotes(Next(w, steps[0]), steps[1..]);
      match steps[0] {
        case Operator(o) => PassNotes(w, o);
        case Other(e) => HappenDrifts(w, e);
      }
    }
  }

  /******* How many there are *******/

  /** Numbers from 1 to n are at most n, and n only if all are there. */
  lemma {:induction false} AtMostAll(s: set<nat>, n: nat)
    requires forall i :: i in s ==> 1 <= i <= n
    ensures |s| <= n
    ensures |s| == n <==> forall i: nat :: 1 <= i <= n ==> i in s
    decreases n
  {
    if n == 0 {
      assert s == {};
    } else {
      var rest := s - {n};
      AtMostAll(rest, n - 1);
      assert n in s ==> s == rest + {n};
      assert n !in s ==> s == rest;
    }
  }

  lemma CountOf(now: World)
    requires JobsAccounted(now) && Counted(now) && Recorded(now).Some?
    ensures |now.created| <= 0x8000_0000 ==>
              (Recorded(now).value.restartCount == |now.created| - 1 <==>
               forall i: nat :: 1 <= i < |now.created| ==> i in now.noted)
  {
    AtMostAll(now.noted - {0}, |now.created| - 1);
    assert forall i: nat :: 1 <= i ==> (i in now.noted <==> i in now.noted - {0});
  }
}
