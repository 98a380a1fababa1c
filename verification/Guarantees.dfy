/** What the operator guarantees for every cluster the webhooks have admitted, in every run: whatever
    requests fail, whatever Kubernetes, Flink and the users do in between. */
module Guarantees {
  import opened FlinkTypes
  import opened JobArguments
  import opened StatusUpdater
  import opened Converter
  import opened FlinkClient
  import opened Defaults
  import opened Validation
  import opened WorldModel
  import opened ControlLoop
  import opened Drifting
  import opened Invariant
  import opened Preservation
  import opened Onwards
  import opened Submission
  import opened Settling
  import opened Cleanup
  import opened Recovery
  import opened Restarting
  import opened Cancellation
  import opened Counting
  import opened Requests
  import opened Standing
  import opened Readings
  import opened Statuses
  import opened Saving
  import opened Contents

  /** Every state of a run is well kept, and the run has gone onward from its start. */
  lemma Reached(w: World, steps: seq<Step>)
    requires Admitted(w)
    ensures Inv(w) && Inv(Run(w, steps)) && Onward(w, Run(w, steps))
  {
    AdmittedStartsWell(w);
    RunKeeps(w, steps);
    RunOnward(w, steps);
  }

  lemma ReachedLater(w: World, earlier: seq<Step>, later: seq<Step>)
    requires Admitted(w)
    ensures var now := Run(w, earlier);
            Inv(now) && Inv(Run(now, later)) && Onward(now, Run(now, later))
  {
    Reached(w, earlier);
    RunKeeps(Run(w, earlier), later);
    RunOnward(Run(w, earlier), later);
  }

  /******* Jobs *******/

  /** Never do two Flink jobs run; while one runs no other can still be submitted. */
  lemma AtMostOneJobRuns(w: World, steps: seq<Step>)
    requires Admitted(w)
    ensures var now := Run(w, steps);
            |RunningIDs(now.flinkJobs)| <= 1 && (MaySubmit(now.job) ==> RunningIDs(now.flinkJobs) == [])
  {
    Reached(w, steps);
  }

  /** The first Job starts from the savepoint of the spec. Every later one follows a recorded failure, is
      covered by the restart policy and starts from the savepoint that was recorded last when it was
      created. The arguments say so, and the operator reads it back from them. */
  lemma JobsStartFromTheirSavepoint(w: World, steps: seq<Step>, i: nat)
    requires Admitted(w) && i < |Run(w, steps).created|
    ensures var now := Run(w, steps);
            var c := now.created[i];
            && w.spec.job.Some? && w.spec.jobManager.ports.ui.Some?
            && c.job.args == JobArgs(w.name, w.spec.jobManager.ports.ui.value, Core(w.spec).job.value, c.savepoint)
            && (i == 0 ==> c.savepoint == w.spec.job.value.fromSavepoint)
            && (i > 0 ==>
                  && c.recorded.Some? && c.recorded.value.state == Failed
                  && Policy(w.spec) == Some(FromSavepointOnFailure)
                  && 0 < c.savepointsBefore <= |now.savepoints|
                  && c.savepoint == Some(now.savepoints[c.savepointsBefore - 1].location))
            && (c.savepoint.Some? && w.spec.job.value.className != Some(FROM_SAVEPOINT) ==>
                  FromSavepointArg(c.job.args) == c.savepoint.value)
  {
    var now := Run(w, steps);
    Reached(w, steps);
    RunKeepsArgs(w, steps);
    assert StartedWell(now, i) && ArgsMatch(now, i);
    var c := now.created[i];
    if c.savepoint.Some? {
      ReadsChosenSavepoint(w.name, w.spec.jobManager.ports.ui.value, Core(w.spec).job.value, c.savepoint.value);
    }
  }

  /** Every Job carries the admitted spec: its name, its command line position by position (the address of the
      JobManager, the class, the savepoint it was given, the options, the JAR, the user's arguments), its init
      containers with their mounts, and the GCP account. */
  lemma JobsCarrySpec(w: World, steps: seq<Step>, i: nat)
    requires Admitted(w) && i < |Run(w, steps).created|
    ensures CarriesJob(Run(w, steps).created[i].job, w.name, w.spec, Run(w, steps).created[i].savepoint)
  {
    Reached(w, steps);
    RunKeepsArgs(w, steps);
    assert ArgsMatch(Run(w, steps), i);
    CreatedCarries(Run(w, steps), i, w.spec);
  }

  /** The first Job is created only with the JobManager deployment, its service and the TaskManager deployment
      recorded as Ready. */
  lemma FirstJobNeedsAllReady(w: World, steps: seq<Step>, o: Conditions)
    requires Admitted(w) && Run(w, steps).created == [] && Pass(Run(w, steps), o).created != []
    ensures var c := Run(w, steps).status.components;
            && c.jobManagerDeployment.state == Ready && c.jobManagerService.state == Ready
            && c.taskManagerDeployment.state == Ready
  {
    AdmittedStartsWell(w);
    RunKeepsSaying(w, steps);
    CreatesOnlyRunning(Run(w, steps), o);
    assert Recorded(Run(w, steps)).None? by {
      Reached(w, steps);
    }
  }

  /** A pass creates a Job only if the recorded state is Running. */
  lemma CreatesOnlyRunning(now: World, o: Conditions)
    requires Pass(now, o).created != now.created
    ensures now.status.state == Running
  {
    PassCreates(now, o);
  }

  /** Nor can the savepoint to restart from change in between: from the deletion of a Job until the next is
      created, no savepoint is recorded, and the recorded location stays the same. */
  lemma NothingSavedWithoutJob(w: World, earlier: seq<Step>, later: seq<Step>)
    requires Admitted(w) && Run(w, earlier).job.None?
    requires Run(Run(w, earlier), later).created == Run(w, earlier).created
    ensures var now, after := Run(w, earlier), Run(Run(w, earlier), later);
            && after.savepoints == now.savepoints && after.job.None?
            && (Recorded(now).Some? ==>
                  Recorded(after).Some?
                  && Recorded(after).value.savepointLocation == Recorded(now).value.savepointLocation)
  {
    ReachedLater(w, earlier, later);
    RunWithoutJob(Run(w, earlier), later);
    if Recorded(Run(w, earlier)).Some? {
      SameLocation(Run(w, earlier), Run(Run(w, earlier), later));
    }
  }

  lemma SameLocation(now: World, after: World)
    requires SavepointsAccounted(now) && SavepointsAccounted(after) && JobOnward(now, after)
    requires after.savepoints == now.savepoints && Recorded(now).Some?
    ensures Recorded(after).Some?
    ensures Recorded(after).value.savepointLocation == Recorded(now).value.savepointLocation
  {
  }

  /** Once the cluster is stopping or has stopped, no Job is created any more. */
  lemma NoJobAfterStopping(w: World, earlier: seq<Step>, later: seq<Step>)
    requires Admitted(w) && Rank(Run(w, earlier).status.state) >= 2
    ensures Run(Run(w, earlier), later).created == Run(w, earlier).created
  {
    ReachedLater(w, earlier, later);
  }

  /** Documented: with the policy FromSavepointOnFailure a failed job is restarted. It never is unless the
      cleanup policy keeps the cluster when the job fails. */
  lemma NeverRestartedUnlessKept(w: World, steps: seq<Step>)
    requires Admitted(w)
    requires Policy(w.spec) != Some(FromSavepointOnFailure) || !KeptAfterFailure(w.spec)
    ensures |Run(w, steps).created| <= 1
  {
    Reached(w, steps);
  }

  /** The job has failed and is to be restarted: the cluster is up and kept, a savepoint is recorded, and
      no cancellation is requested. The Job may have been deleted already. */
  predicate FailedAndKept(now: World) {
    && !now.deleted && Rank(now.status.state) == 1 && !CancelRequested(now.spec)
    && KeptAfterFailure(now.spec) && Policy(now.spec) == Some(FromSavepointOnFailure)
    && Recorded(now).Some? && Recorded(now).value.savepointLocation != ""
    && (now.job.Some? ==> now.job.value.failed > 0)
  }

  /** If it keeps the cluster, the failed job is restarted: from every reachable state, whatever components
      are missing and however old the status is, six calm passes create one more Job, from the savepoint
      recorded last. */
  lemma RestartedIfKept(w: World, steps: seq<Step>, calm: seq<Step>, later: seq<Step>)
    requires Admitted(w) && GCPSafe(w.spec) && ResponsiveSteps(calm) && |calm| >= 6
    requires FailedAndKept(Run(w, steps))
    ensures RestartedFromLast(Run(w, steps), Run(Run(Run(w, steps), calm), later))
  {
    var now := Run(w, steps);
    Reached(w, steps);
    FailedIsBroken(now);
    RunRestarts(now, calm);
    RunAddsJobs(Run(now, calm), later);
    StaysRestarted(now, Run(now, calm), Run(Run(now, calm), later));
  }

  /** The next Job was created, from the savepoint recorded last. */
  predicate RestartedFromLast(now: World, after: World) {
    && now.savepoints != [] && now.created < after.created
    && after.created[|now.created|].savepoint == Some(now.savepoints[|now.savepoints| - 1].location)
  }

  /** Documented: otherwise the job stays in the failed state. A Job that has failed without a savepoint
      recorded is never followed by another, and stays recorded as failed unless it is cancelled. */
  lemma StaysFailedWithoutSavepoint(w: World, earlier: seq<Step>, later: seq<Step>)
    requires Admitted(w) && FailedUnsaved(Run(w, earlier))
    ensures var now, after := Run(w, earlier), Run(Run(w, earlier), later);
            && after.created == now.created
            && (FailedUnsaved(after) || CancelRequested(after.spec))
            && (RecordedAs(now, Failed) ==> RecordedAs(after, Failed) || CancelRequested(after.spec))
  {
    Reached(w, earlier);
    RunLeavesFailed(Run(w, earlier), later);
  }

  /** So in every reachable state in which the job has failed, six calm passes restart it if and only if the
      cluster is up and kept, the policy says so, a savepoint is recorded and no cancellation is requested. */
  lemma RestartedIff(w: World, steps: seq<Step>, calm: seq<Step>)
    requires Admitted(w) && GCPSafe(w.spec) && ResponsiveSteps(calm) && |calm| >= 6
    requires var now := Run(w, steps);
             !now.deleted && now.created != [] && (now.job.Some? ==> now.job.value.failed > 0)
    ensures Run(Run(w, steps), calm).created != Run(w, steps).created <==> FailedAndKept(Run(w, steps))
  {
    var now := Run(w, steps);
    if FailedAndKept(now) {
      RestartedIfKept(w, steps, calm, []);
    } else {
      ReachedLater(w, steps, calm);
      RunAddsJobs(now, calm);
      if Stuck(now) {
        RunLeavesFailed(now, calm);
      } else {
        NotKept(now, Run(now, calm));
      }
    }
  }

  lemma NotKept(now: World, after: World)
    requires Facts(now) && Facts(after) && Onward(now, after) && now.created <= after.created
    requires !now.deleted && now.created != [] && (now.job.Some? ==> now.job.value.failed > 0)
    requires !FailedAndKept(now) && !Stuck(now)
    ensures after.created == now.created
  {
  }

  lemma FailedIsBroken(now: World)
    requires Facts(now) && GCPSafe(now.spec) && FailedAndKept(now)
    ensures Broken(now) && now.savepoints != []
    ensures Recorded(now).value.savepointLocation == now.savepoints[|now.savepoints| - 1].location
  {
  }

  /** A job once recorded as cancelled stays cancelled, there is never a Job again, and no Flink job runs
      that did not run then. */
  lemma CancelledForGood(w: World, earlier: seq<Step>, later: seq<Step>)
    requires Admitted(w) && RecordedAs(Run(w, earlier), Cancelled)
    ensures var now, after := Run(w, earlier), Run(Run(w, earlier), later);
            && RecordedAs(after, Cancelled) && CancelRequested(after.spec)
            && after.job.None? && after.created == now.created
            && |RunningIDs(after.flinkJobs)| <= |RunningIDs(now.flinkJobs)|
  {
    ReachedLater(w, earlier, later);
    RunRunsNothingNew(Run(w, earlier), later);
  }

  /** The pass over `now` deletes the Job because its cancellation is requested. */
  ghost predicate DeletesOnRequest(now: World, o: Conditions) {
    !now.deleted && CancelRequested(now.spec) && now.job.Some? && Pass(now, o).job.None?
  }

  /** Documented: if a savepoint directory is given, a savepoint is taken before the job is stopped. In
      every run and under all conditions the Job is deleted without a savepoint exactly if no directory is
      given, the recorded job has ended, no job ID is recorded, or Flink accepted the savepoint, none of the
      twelve answers was completed and the last one was no failure. */
  lemma CancelledUnsavedIff(w: World, steps: seq<Step>, o: Conditions)
    requires Admitted(w) && DeletesOnRequest(Run(w, steps), o)
    ensures var now := Run(w, steps);
            Pass(now, o).savepoints == now.savepoints <==>
            || now.spec.job.value.savepointsDir.None? || JobStopped(Recorded(now)) || JobID(now.Cluster()) == ""
            || (&& o.answers.trigger.Some?
                && (forall k: nat :: k < 12 ==> !o.answers.CompletedAt(k))
                && !o.answers.At(11).err && o.answers.At(11).status.stackTrace == "")
  {
    Reached(w, steps);
    UnsavedIff(Run(w, steps), o);
    OutcomeExactly(o.answers);
  }

  /** That pass leaves no Flink job running exactly if every job that ran when it was to be stopped had the
      recorded ID; a job whose ID was not recorded yet is left running. */
  lemma CancelledStopsAllIff(w: World, steps: seq<Step>, o: Conditions)
    requires Admitted(w) && DeletesOnRequest(Run(w, steps), o)
    ensures var now := Run(w, steps);
            && ConvertSafe(now.Cluster())
            && (RunningIDs(Pass(now, o).flinkJobs) == [] <==>
                AllRunUnder(WhenStopping(now, o).flinkJobs, JobID(now.Cluster())))
  {
    Reached(w, steps);
    NothingLeftIff(Run(w, steps), o);
  }

  /** If nothing else happens during that pass, a Flink job is left running exactly if Flink was not asked or
      did not answer, and the job that runs is not the recorded one. */
  lemma CancelledLeavesRunningIff(w: World, steps: seq<Step>, o: Conditions)
    requires Admitted(w) && DeletesOnRequest(Run(w, steps), o) && NoEvents(o)
    ensures var now := Run(w, steps);
            RunningIDs(Pass(now, o).flinkJobs) != [] <==>
            && (now.status.state != Running || o.failing.flink)
            && RunningIDs(now.flinkJobs) != [] && RunningIDs(now.flinkJobs) != [JobID(now.Cluster())]
  {
    Reached(w, steps);
    LeftRunningIff(Run(w, steps), o);
  }

  /** Documented: the restart count is the number of restarts. It is exactly the number of Jobs after the
      first that some pass has read unfinished before writing the status with effect; it is the number of
      all restarts if and only if that happened to each of them. */
  lemma RestartCountExact(w: World, steps: seq<Step>)
    requires Admitted(w) && Recorded(Run(w, steps)).Some?
    ensures var now, count := Run(w, steps), Recorded(Run(w, steps)).value.restartCount;
            && count == Wrap32(|NotedBy(w, steps) - {0}|)
            && (|now.created| <= 0x8000_0000 ==>
                  (count == |now.created| - 1 <==> forall i: nat :: 1 <= i < |now.created| ==> i in NotedBy(w, steps)))
  {
    Reached(w, steps);
    AdmittedStartsWell(w);
    RunNotes(w, steps);
    RunKeepsCounted(w, steps);
    CountOf(Run(w, steps));
    assert Run(w, steps).noted == NotedBy(w, steps);
  }

  /** The restart count never falls and never exceeds the number of Jobs created after the first (as long
      as an int32 can count them). */
  lemma RestartCountBounded(w: World, earlier: seq<Step>, later: seq<Step>)
    requires Admitted(w) && Recorded(Run(w, earlier)).Some?
    ensures var now, after := Run(w, earlier), Run(Run(w, earlier), later);
            && Recorded(after).Some?
            && Recorded(after).value.restartCount <= |after.created| - 1
            && (|after.created| <= 0x8000_0000 ==>
                  Recorded(now).value.restartCount <= Recorded(after).value.restartCount)
  {
    ReachedLater(w, earlier, later);
  }

  /******* Savepoints *******/

  /** Savepoints are never lost: those recorded stay, the generation counts them, and the status shows the
      last one. */
  lemma SavepointsConserved(w: World, earlier: seq<Step>, later: seq<Step>)
    requires Admitted(w)
    ensures var now, after := Run(w, earlier), Run(Run(w, earlier), later);
            && now.savepoints <= after.savepoints
            && SavepointsAccounted(after)
  {
    ReachedLater(w, earlier, later);
  }

  /** In every reachable steady state, a pass whose savepoint completes records one exactly if the spec asks for
      a later generation than the recorded one, or savepoints are automatic and none was recorded yet, or the
      interval has passed since the last; the history says which, and otherwise nothing changes. */
  lemma SavesWhenCalledFor(w: World, steps: seq<Step>, o: Conditions)
    requires Admitted(w) && Steady(Run(w, steps), o) && CanBeSaved(Run(w, steps))
    requires Outcome(o.answers).Done? && o.calls.savepoint == Succeeds
    ensures var now := Run(w, steps);
            var spec, status, later := now.spec.job.value, Recorded(now).value, HappenAll(now, o.duringSavepoint);
            && (forall t :: CalledFor(t, spec, status, now.clock) ==>
                              SavedAs(now, Outcome(o.answers).status, later.clock, t, Pass(now, o)))
            && ((forall t :: !CalledFor(t, spec, status, now.clock)) ==> Pass(now, o) == now)
            && (|Pass(now, o).savepoints| == |now.savepoints| + 1 <==>
                || spec.savepointGeneration > status.savepointGeneration
                || (spec.autoSavepointSeconds.Some? && status.lastSavepointTime.None?)
                || (&& spec.autoSavepointSeconds.Some? && status.lastSavepointTime.Some?
                    && now.clock
                       > (status.lastSavepointTime.value + spec.autoSavepointSeconds.value) * 1_000_000_000))
  {
    var now := Run(w, steps);
    PassSaves(now, o);
    RuleApplies(now.spec.job.value, Recorded(now).value, now.clock);
  }

  lemma RuleApplies(spec: JobSpec, status: JobStatus, clock: int)
    ensures (exists t :: CalledFor(t, spec, status, clock)) <==>
            || spec.savepointGeneration > status.savepointGeneration
            || (spec.autoSavepointSeconds.Some? && status.lastSavepointTime.None?)
            || (&& spec.autoSavepointSeconds.Some? && status.lastSavepointTime.Some?
                && clock > (status.lastSavepointTime.value + spec.autoSavepointSeconds.value) * 1_000_000_000)
  {
    assert CalledFor(Requested, spec, status, clock) || CalledFor(FirstTime, spec, status, clock)
        || CalledFor(Interval, spec, status, clock) || forall t :: !CalledFor(t, spec, status, clock);
  }

  /** Under all conditions, every savepoint a pass records is called for, or is taken because the cancellation
      of the job is requested. */
  lemma SavesOnlyWhenCalledFor(w: World, steps: seq<Step>, o: Conditions)
    requires Admitted(w)
    ensures var now := Run(w, steps);
            SavedForAReason(now, AfterJob(now, o).clock, Pass(now, o))
  {
    PassSavesForAReason(Run(w, steps), o);
  }

  /** A user's request for the next savepoint is admitted in every reachable steady state, and the next pass
      whose savepoint completes meets it. */
  lemma RequestIsMet(w: World, steps: seq<Step>, o: Conditions)
    requires Admitted(w) && Steady(Run(w, steps), o) && CanBeSaved(Run(w, steps))
    requires Outcome(o.answers).Done? && o.calls.savepoint == Succeeds && |Run(w, steps).savepoints| < 0x7fff_ffff
    ensures var asked := Happen(Run(w, steps), Ask(Run(w, steps)));
            && Generation(asked.spec) == |asked.savepoints| + 1
            && SavedAs(asked, Outcome(o.answers).status, HappenAll(asked, o.duringSavepoint).clock, Requested,
                       Pass(asked, o))
  {
    var now := Run(w, steps);
    Reached(w, steps);
    RunStaysDefaulted(w, steps);
    GenerationCounts(now);
    AskHappens(now);
    AskedIsSaved(now, o);
  }

  lemma GenerationCounts(now: World)
    requires SavepointsAccounted(now) && Recorded(now).Some? && |now.savepoints| < 0x7fff_ffff
    ensures StatusGeneration(now.status) == |now.savepoints|
  {
  }

  lemma RunStaysDefaulted(w: World, steps: seq<Step>)
    requires Admitted(w)
    ensures SpecDefault(Run(w, steps).spec) == Run(w, steps).spec
  {
    Reached(w, steps);
    AdmittedIsDefaulted(w);
    SameCoreDefaulted(w.spec, Run(w, steps).spec);
  }

  lemma AdmittedIsDefaulted(w: World)
    requires Admitted(w)
    ensures SpecDefault(w.spec) == w.spec
  {
    var c: Cluster, clock: int :| AdmittedAs(w, c, clock);
    DefaultIdempotent(c.spec);
  }

  lemma SameCoreDefaulted(a: ClusterSpec, b: ClusterSpec)
    requires Core(a) == Core(b) && SpecDefault(a) == a
    ensures SpecDefault(b) == b
  {
    assert SpecDefault(b).job.Some? ==> SpecDefault(b).job.value == JobDefault(b.job.value);
    assert b.job.Some? ==> JobDefault(b.job.value) == b.job.value;
  }

  /** A savepoint taken by the interval is recorded at least the interval after the one before it. */
  lemma SavepointsKeepInterval(w: World, steps: seq<Step>, i: nat)
    requires Admitted(w) && i < |Run(w, steps).savepoints| && Run(w, steps).savepoints[i].trigger == Interval
    ensures var now := Run(w, steps);
            && i > 0 && w.spec.job.Some? && w.spec.job.value.autoSavepointSeconds.Some?
            && now.savepoints[i].time >= now.savepoints[i - 1].time + w.spec.job.value.autoSavepointSeconds.value
  {
    Reached(w, steps);
    assert Core(Run(w, steps).spec).job.value.autoSavepointSeconds == w.spec.job.value.autoSavepointSeconds;
  }

  /** The spec differs from the admitted one only in the cancellation, which can only be requested, and
      in the savepoint generation, which is the admitted one or at most one ahead of the recorded one. */
  predicate SpecFollows(admitted: ClusterSpec, now: World) {
    && Core(now.spec) == Core(admitted)
    && (admitted.job.Some? && now.spec.job.value.cancelRequested != admitted.job.value.cancelRequested ==>
          CancelRequested(now.spec))
    && (Generation(now.spec) == Generation(admitted) || Generation(now.spec) <= |now.savepoints| + 1)
    && (|now.savepoints| < 0x8000_0000 ==>
          Generation(now.spec) == Generation(admitted) || Generation(now.spec) <= StatusGeneration(now.status) + 1)
  }

  lemma OnwardSpecFollows(w: World, now: World)
    requires SavepointsAccounted(now) && SpecOnward(w, now)
    ensures SpecFollows(w.spec, now)
  {
  }

  lemma SpecStaysTheSame(w: World, steps: seq<Step>)
    requires Admitted(w)
    ensures SpecFollows(w.spec, Run(w, steps))
  {
    Reached(w, steps);
    OnwardSpecFollows(w, Run(w, steps));
  }

  /** So each request is met by the next savepoint: after a pass that records one, a savepoint is still due
      on request only if the spec still asks for what it asked for when it was admitted. */
  lemma OneSavepointSatisfies(w: World, steps: seq<Step>, o: Conditions, clock: int)
    requires Admitted(w)
    requires |Run(w, steps).savepoints| < |Pass(Run(w, steps), o).savepoints| < 0x8000_0000
    ensures var after := Pass(Run(w, steps), o);
            && Recorded(after).Some?
            && (SavepointDue(after.Cluster(), clock) == Some(Requested) ==>
                  Generation(after.spec) == Generation(w.spec))
  {
    Reached(w, steps);
    PassKeeps(Run(w, steps), o);
    SavedMeetsRequest(w, Run(w, steps), o, clock);
  }

  /******* The cluster *******/

  lemma StoppedIsLast(before: World, after: World)
    requires Onward(before, after) && before.status.state == Stopped
    ensures after.status.state == Stopped
  {
  }

  /** The cluster state only moves forward, and Stopped is final. */
  lemma StateMovesForward(w: World, earlier: seq<Step>, later: seq<Step>)
    requires Admitted(w)
    ensures var now, after := Run(w, earlier).status.state, Run(Run(w, earlier), later).status.state;
            Rank(now) <= Rank(after) && (now == Stopped ==> after == Stopped)
  {
    ReachedLater(w, earlier, later);
    if Run(w, earlier).status.state == Stopped {
      StoppedIsLast(Run(w, earlier), Run(Run(w, earlier), later));
    }
  }

  /** Creating and Reconciling are recorded only with an entry that is not Ready, and a cluster that was not up
      is up only as Running, with all three entries Ready. */
  lemma StateSaysWhatIsReady(w: World, steps: seq<Step>, s: Step)
    requires Admitted(w)
    ensures var now, next := Run(w, steps).status, Next(Run(w, steps), s).status;
            && (now.state == Creating || now.state == Reconciling ==> !AllReady(now.components))
            && (Rank(now.state) == 0 && Rank(next.state) > 0 ==> next.state == Running && AllReady(next.components))
  {
    Reached(w, steps);
    AdmittedStartsWell(w);
    RunKeepsSaying(w, steps);
    match s {
      case Operator(o) =>
        if Rank(Run(w, steps).status.state) == 0 && Rank(Pass(Run(w, steps), o).status.state) > 0 {
          BecomesRunning(Run(w, steps), o);
        }
      case Other(e) =>
        HappenDrifts(Run(w, steps), e);
    }
  }

  /** A cluster that is up begins to stop in a pass exactly if the pass writes the status and has seen the job
      end in a way after which the cleanup policy does not keep the cluster. */
  lemma BeginsToStopIff(w: World, steps: seq<Step>, o: Conditions)
    requires Admitted(w) && Rank(Run(w, steps).status.state) == 1
    ensures var now := Run(w, steps);
            && (Rank(Pass(now, o).status.state) >= 2 <==>
                PassWrites(now, o) && EndsCluster(now.status, View(now, o)))
            && (Rank(Pass(now, o).status.state) >= 2 ==> Pass(now, o).status.state == Stopping)
  {
    StopsIff(Run(w, steps), o);
  }

  /** Documented: without a cleanup policy the cluster is kept when its job fails. A cluster submitted without
      one never stops because its job failed: a pass that has read the failure leaves it up. */
  lemma KeptByDefault(submitted: Cluster, clock: int, w: World, steps: seq<Step>, o: Conditions)
    requires AdmittedAs(w, submitted, clock)
    requires submitted.spec.job.Some? && submitted.spec.job.value.cleanupPolicy.None?
    requires Rank(Run(w, steps).status.state) == 1
    requires View(Run(w, steps), o).job.Some? && View(Run(w, steps), o).job.value.failed > 0
    ensures Rank(Pass(Run(w, steps), o).status.state) == 1
    ensures KeptAfterFailure(w.spec)
  {
    assert Admitted(w);
    DefaultKeeps(submitted, clock, w);
    Reached(w, steps);
    PolicyStays(w, Run(w, steps));
    FailureLeavesUp(Run(w, steps), o);
  }

  lemma DefaultKeeps(submitted: Cluster, clock: int, w: World)
    requires AdmittedAs(w, submitted, clock)
    requires submitted.spec.job.Some? && submitted.spec.job.value.cleanupPolicy.None?
    ensures w.spec.job.Some? && KeptAfterFailure(w.spec)
  {
    DefaultsAre(submitted.spec);
  }

  lemma FailureLeavesUp(now: World, o: Conditions)
    requires Facts(now) && Rank(now.status.state) == 1 && KeptAfterFailure(now.spec)
    requires View(now, o).job.Some? && View(now, o).job.value.failed > 0
    ensures Rank(Pass(now, o).status.state) == 1
  {
    StopsIff(now, o);
    PassOnward(now, o);
  }

  lemma PolicyStays(w: World, now: World)
    requires Core(now.spec) == Core(w.spec) && w.spec.job.Some?
    ensures now.spec.job.Some? && now.spec.job.value.cleanupPolicy == w.spec.job.value.cleanupPolicy
  {
    assert Core(now.spec).job.value.cleanupPolicy == Core(w.spec).job.value.cleanupPolicy;
  }

  /** Whatever component a pass creates carries the admitted spec, and the rest of the pass creates none. */
  lemma ComponentsCarrySpec(w: World, steps: seq<Step>, o: Conditions)
    requires Admitted(w)
    ensures var now := Run(w, steps);
            NewCarries(AfterJob(now, o), Made(now, o), w.name, w.spec)
    ensures var now := Run(w, steps);
            !o.failing.ComponentErr() && !(ObservesJob(now) && o.failing.job) ==>
              NoneAdded(Made(now, o), Pass(now, o), o)
  {
    var now := Run(w, steps);
    Reached(w, steps);
    MadeCarries(now, o);
    SameSpecCarries(AfterJob(now, o), Made(now, o), w.name, now.spec, w.spec);
    if !o.failing.ComponentErr() && !(ObservesJob(now) && o.failing.job) {
      PassAfterMade(now, o);
    }
  }

  lemma SameSpecCarries(before: World, after: World, name: string, now: ClusterSpec, spec: ClusterSpec)
    requires NewCarries(before, after, name, now) && Core(now) == Core(spec)
    ensures NewCarries(before, after, name, spec)
  {
  }

  /** A session cluster never stops, and never has a Job. */
  lemma SessionClusterRuns(w: World, steps: seq<Step>)
    requires Admitted(w) && w.spec.job.None?
    ensures var now := Run(w, steps);
            Rank(now.status.state) <= 1 && now.created == [] && now.job.None? && Recorded(now).None?
  {
    Reached(w, steps);
  }

  /** No pass ever deletes a component of a session cluster. */
  lemma SessionClusterStays(w: World, steps: seq<Step>, kind: ComponentKind, o: Conditions)
    requires Admitted(w) && w.spec.job.None?
    requires !o.failing.ComponentErr() && Present(AfterJob(Run(w, steps), o), kind)
    ensures Present(Pass(Run(w, steps), o), kind)
  {
    Reached(w, steps);
    SessionKeepsComponents(Run(w, steps), kind, o);
  }

  /** Once the cluster is stopping its job has ended for good, and components that the cleanup policy
      deletes after every end are never created again. */
  lemma CleanedUpForGood(w: World, earlier: seq<Step>, later: seq<Step>, kind: ComponentKind)
    requires Admitted(w) && Rank(Run(w, earlier).status.state) >= 2
    ensures var now, after := Run(w, earlier), Run(Run(w, earlier), later);
            && Recorded(after).Some? && Terminal(Recorded(after).value.state)
            && (AlwaysRemoves(w.spec, kind) && Present(after, kind) ==> Present(now, kind))
  {
    var now := Run(w, earlier);
    Reached(w, earlier);
    ReachedLater(w, earlier, later);
    if AlwaysRemoves(w.spec, kind) && !Present(now, kind) {
      NeverCreatedAgain(now, kind, later);
    }
  }

  /** Three calm passes are enough to delete a stopping cluster that is to be deleted. */
  lemma CalmPassesCleanUp(w: World, steps: seq<Step>, calm: seq<Step>)
    requires Admitted(w) && GCPSafe(w.spec) && CalmSteps(calm) && |calm| >= 3
    requires !Run(w, steps).deleted && Rank(Run(w, steps).status.state) >= 2 && ToBeDeleted(Run(w, steps))
    ensures CleanedUp(Run(Run(w, steps), calm))
  {
    Reached(w, steps);
    CalmRunEnds(Run(w, steps), calm);
  }

  /** While nothing else moves, the status is written at most twice before the operator acts. */
  lemma StatusSettles(w: World, steps: seq<Step>, o: Conditions)
    requires Admitted(w) && !Run(w, steps).deleted && Still(o)
    ensures var now := Run(w, steps);
            && Derivable(now)
            && (Writes(now, o) ==>
                  var next := Pass(now, o);
                  && Derivable(next)
                  && (Writes(next, o) ==> Derivable(Pass(next, o)) && !Writes(Pass(next, o), o)))
  {
    Reached(w, steps);
    if Writes(Run(w, steps), o) {
      AtMostTwoWrites(Run(w, steps), o);
    }
  }

  lemma NeverPanics(w: World)
    requires Admitted(w) && GCPSafe(w.spec)
    ensures forall steps :: !Run(w, steps).panicked
  {
    AdmittedStartsWell(w);
    forall steps
      ensures !Run(w, steps).panicked
    {
      RunNeverPanics(w, steps);
    }
  }

  lemma CanPanic(w: World)
    requires Admitted(w) && !GCPSafe(w.spec)
    ensures exists steps :: Run(w, steps).panicked
  {
    AdmittedStartsWell(w);
    GCPPanics(w);
    assert Run(w, [Operator(CALM), Operator(CALM)]).panicked;
  }

  /** No run panics if and only if the GCP configuration, if there is one, names a service account. */
  lemma PanicFreeIff(w: World)
    requires Admitted(w)
    ensures (forall steps :: !Run(w, steps).panicked) <==> GCPSafe(w.spec)
  {
    if GCPSafe(w.spec) {
      NeverPanics(w);
    } else {
      CanPanic(w);
    }
  }
}
