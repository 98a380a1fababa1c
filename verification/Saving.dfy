/** When savepoints are taken, in terms of the spec, the status and the clock. */
module Saving {
  import opened FlinkTypes
  import opened Converter
  import opened FlinkClient
  import opened Defaults
  import opened Validation
  import opened WorldModel
  import opened ControlLoop
  import opened Drifting
  import opened Invariant
  import opened Preservation
  import opened Submission
  import opened Settling
  import opened Recovery

  /** The rule that calls for a savepoint of job `spec` with status `status` at the time `clock`, as a user
      reads the documentation: a request first, then the first automatic one, then one whenever the interval
      has passed since the last. */
  predicate CalledFor(trigger: Trigger, spec: JobSpec, status: JobStatus, clock: int) {
    match trigger
    case Requested => spec.savepointGeneration > status.savepointGeneration
    case FirstTime =>
      && spec.savepointGeneration <= status.savepointGeneration
      && spec.autoSavepointSeconds.Some? && status.lastSavepointTime.None?
    case Interval =>
      && spec.savepointGeneration <= status.savepointGeneration
      && spec.autoSavepointSeconds.Some? && status.lastSavepointTime.Some?
      && clock > (status.lastSavepointTime.value + spec.autoSavepointSeconds.value) * 1_000_000_000
    case BeforeCancel => false
  }

  /** The job runs under a recorded ID, savepoints have a directory, and it is neither to be restarted nor to
      be cancelled. */
  predicate CanBeSaved(w: World) {
    && w.spec.job.Some? && w.spec.job.value.savepointsDir.Some? && w.spec.job.value.cancelRequested != Some(true)
    && w.job.Some? && Recorded(w).Some? && Recorded(w).value.id != ""
    && Recorded(w).value.state != Succeeded && Recorded(w).value.state != Failed
    && Recorded(w).value.state != Cancelled
  }

  /** The savepoint is recorded last in the history, and the status shows it. */
  predicate SavedAs(w: World, s: SavepointStatus, clock: int, trigger: Trigger, after: World) {
    && after.savepoints == w.savepoints + [Savepoint(s.location, clock / 1_000_000_000, trigger)]
    && Recorded(w).Some?
    && Recorded(after)
       == Some(Recorded(w).value.(savepointGeneration := Wrap32(Recorded(w).value.savepointGeneration + 1),
                                  savepointLocation := s.location, lastSavepointTriggerID := s.triggerID,
                                  lastSavepointTime := Some(clock / 1_000_000_000)))
  }

  lemma JobSaved(w: World, seen: Observation, o: Conditions)
    requires seen.cluster == Some(w.Cluster()) && CanBeSaved(w)
    requires Outcome(o.answers).Done? && o.calls.savepoint == Succeeds
    ensures var after, later := RestartOrSave(w, seen, o), HappenAll(w, o.duringSavepoint);
            && (forall t :: CalledFor(t, w.spec.job.value, Recorded(w).value, w.clock) ==>
                              SavedAs(w, Outcome(o.answers).status, later.clock, t, after))
            && ((forall t :: !CalledFor(t, w.spec.job.value, Recorded(w).value, w.clock)) ==> after == w)
  {
    HappenAllDrifts(w, o.duringSavepoint);
    var due := SavepointDue(w.Cluster(), w.clock);
    assert CalledFor(Requested, w.spec.job.value, Recorded(w).value, w.clock) <==> due == Some(Requested);
    assert CalledFor(FirstTime, w.spec.job.value, Recorded(w).value, w.clock) <==> due == Some(FirstTime);
    assert CalledFor(Interval, w.spec.job.value, Recorded(w).value, w.clock) <==> due == Some(Interval);
  }

  /** A pass over a steady cluster whose savepoint completes records one, by the rule that calls for it,
      exactly if one does, and otherwise changes nothing. */
  lemma PassSaves(w: World, o: Conditions)
    requires Steady(w, o) && CanBeSaved(w)
    requires Outcome(o.answers).Done? && o.calls.savepoint == Succeeds
    ensures var later := HappenAll(w, o.duringSavepoint);
            && (forall t :: CalledFor(t, w.spec.job.value, Recorded(w).value, w.clock) ==>
                              SavedAs(w, Outcome(o.answers).status, later.clock, t, Pass(w, o)))
            && ((forall t :: !CalledFor(t, w.spec.job.value, Recorded(w).value, w.clock)) ==> Pass(w, o) == w)
  {
    SteadyPass(w, o);
    JobSaved(w, View(w, o), o);
    assert Pass(w, o) == RestartOrSave(w, View(w, o), o);
  }

  /******* Under all conditions *******/

  /** Every savepoint a pass records is called for, or is taken before the job is cancelled. */
  predicate SavedForAReason(w: World, clock: int, after: World) {
    || after.savepoints == w.savepoints
    || (&& |after.savepoints| == |w.savepoints| + 1 && w.savepoints <= after.savepoints
        && w.spec.job.Some? && w.spec.job.value.savepointsDir.Some? && Recorded(w).Some?
        && var t := after.savepoints[|w.savepoints|].trigger;
           if t == BeforeCancel then w.spec.job.value.cancelRequested == Some(true)
           else CalledFor(t, w.spec.job.value, Recorded(w).value, clock))
  }

  lemma TakenFor(w: World, now: World, trigger: Trigger, clock: int, o: Conditions)
    requires Recorded(w).Some? && now.savepoints == w.savepoints && CanTakeSavepoint(w.Cluster())
    requires if trigger == BeforeCancel then CancelRequested(w.spec)
             else SavepointDue(w.Cluster(), clock) == Some(trigger)
    ensures SavedForAReason(w, clock, TakeSavepointStep(now, w.Cluster(), trigger, o).0)
  {
    HappenAllDrifts(now, o.duringSavepoint);
  }

  lemma RestartOrSaveForAReason(w: World, now: World, seen: Observation, o: Conditions)
    requires seen.cluster == Some(w.Cluster()) && now.savepoints == w.savepoints && w.spec.job.Some?
    ensures SavedForAReason(w, now.clock, RestartOrSave(now, seen, o))
  {
    var c := w.Cluster();
    CancelRunningDrifts(now, seen.flinkRunningJobIDs, o.calls, 0);
    if JobID(c) != "" && SavepointDue(c, now.clock).Some? {
      TakenFor(w, now, SavepointDue(c, now.clock).value, now.clock, o);
    }
  }

  lemma CancelAndDeleteForAReason(w: World, now: World, seen: Observation, o: Conditions)
    requires seen.cluster == Some(w.Cluster()) && now.savepoints == w.savepoints && CancelRequested(w.spec)
    ensures SavedForAReason(w, now.clock, CancelAndDelete(now, seen, o))
  {
    var c := w.Cluster();
    if JobID(c) != "" {
      if CanTakeSavepoint(c) {
        TakenFor(w, now, BeforeCancel, now.clock, o);
      }
      assert SavedForAReason(w, now.clock, CancelFlinkJob(now, c, JobID(c), o).0);
    }
  }

  lemma JobSavedForAReason(w: World, now: World, seen: Observation, wanted: Option<Job>, o: Conditions)
    requires seen.cluster == Some(w.Cluster()) && now.savepoints == w.savepoints
    requires (wanted.Some? <==> WantsJob(w.spec)) && (seen.job.Some? ==> w.spec.job.Some?)
    ensures SavedForAReason(w, now.clock, ReconcileJob(now, seen, wanted, o))
  {
    if wanted.Some? && seen.job.None? {
      CancelRunningDrifts(now, seen.flinkRunningJobIDs, o.calls, 0);
    } else if wanted.Some? {
      RestartOrSaveForAReason(w, now, seen, o);
    } else if seen.job.Some? {
      CancelAndDeleteForAReason(w, now, seen, o);
    }
  }

  lemma ActSavesForAReason(w: World, now: World, seen: Observation, o: Conditions)
    requires seen.cluster == Some(w.Cluster()) && ConvertSafe(w.Cluster()) && now.savepoints == w.savepoints
    requires seen.job.Some? ==> w.spec.job.Some?
    ensures SavedForAReason(w, now.clock, Act(now, seen, o))
  {
    var d := DesiredState(w.Cluster());
    ComponentsOnly(now, seen, d, o.calls);
    JobSavedForAReason(w, ReconcileComponents(now, seen, d, o.calls).0, seen, d.job, o);
  }

  lemma ConcludeSavesForAReason(w: World, now: World, seen: Observation, o: Conditions)
    requires seen.cluster.Some? ==> seen.cluster == Some(w.Cluster())
    requires now.savepoints == w.savepoints && (seen.job.Some? ==> w.spec.job.Some?)
    ensures SavedForAReason(w, now.clock, Conclude(now, seen, o))
  {
    if Acts(seen) {
      ActSavesForAReason(w, now, seen, o);
      assert Conclude(now, seen, o) == Act(now, seen, o);
    } else {
      OnlyActingActs(now, seen, o);
    }
  }

  lemma PassSavesForAReason(w: World, o: Conditions)
    ensures SavedForAReason(w, AfterJob(w, o).clock, Pass(w, o))
  {
    HappenAllDrifts(w, o.afterComponents);
    HappenAllDrifts(AfterComponents(w, o), o.afterFlink);
    HappenAllDrifts(AfterFlink(w, o), o.afterJob);
    if !o.failing.ComponentErr() && CanAskFlink(w) && !(ObservesJob(w) && o.failing.job) {
      ConcludeSavesForAReason(w, AfterJob(w, o), View(w, o), o);
      assert Pass(w, o) == Conclude(AfterJob(w, o), View(w, o), o);
    }
  }

  /******* A user's request *******/

  /** A user asks for the next savepoint. */
  function Ask(w: World): Event
    requires w.spec.job.Some?
  {
    Update(WithGeneration(w.spec, StatusGeneration(w.status) + 1))
  }

  lemma AskHappens(w: World)
    requires !w.deleted && w.spec.job.Some? && SpecDefault(w.spec) == w.spec
    requires -0x8000_0000 <= StatusGeneration(w.status) < 0x7fff_ffff
    ensures Happen(w, Ask(w)) == w.(spec := WithGeneration(w.spec, StatusGeneration(w.status) + 1))
  {
    var next := WithGeneration(w.spec, StatusGeneration(w.status) + 1);
    assert SpecDefault(next) == next;
    UpdateAdmittedIff(w.Cluster(), w.Cluster().(spec := next));
  }

  /** Asking for a savepoint leaves a steady cluster steady. */
  lemma AskedStaysSteady(w: World, o: Conditions, generation: int)
    requires Steady(w, o) && w.spec.job.Some?
    ensures Steady(w.(spec := WithGeneration(w.spec, generation)), o)
  {
    var asked := w.(spec := WithGeneration(w.spec, generation));
    assert Derivable(asked);
    JobIs(w, o);
    JobIs(asked, o);
    StateIs(w, o);
    StateIs(asked, o);
    OthersAre(w, o);
    OthersAre(asked, o);
  }

  /** The request is met in the next pass if the savepoint completes. */
  lemma AskedIsSaved(w: World, o: Conditions)
    requires Steady(w, o) && CanBeSaved(w) && SpecDefault(w.spec) == w.spec
    requires Outcome(o.answers).Done? && o.calls.savepoint == Succeeds
    requires -0x8000_0000 <= StatusGeneration(w.status) < 0x7fff_ffff
    ensures var asked := Happen(w, Ask(w));
            SavedAs(asked, Outcome(o.answers).status, HappenAll(asked, o.duringSavepoint).clock, Requested,
                    Pass(asked, o))
  {
    var asked := Happen(w, Ask(w));
    AskHappens(w);
    AskedStaysSteady(w, o, StatusGeneration(w.status) + 1);
    PassSaves(asked, o);
    assert CalledFor(Requested, asked.spec.job.value, Recorded(asked).value, asked.clock);
  }
}
