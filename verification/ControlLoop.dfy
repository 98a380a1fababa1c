/** One pass of the controller as a function of the world and of everything the operator does not
    decide (controllers/flinkcluster_controller.go, _observer.go, _reconciler.go). */
module ControlLoop {
  import opened FlinkTypes
  import opened JobArguments
  import opened StatusUpdater
  import opened Converter
  import opened FlinkClient
  import opened WorldModel

  /******* What the operator does not decide *******/

  /** The outcome of a request that changes something: an error may be reported although the change was
      made, for example when the answer is lost. */
  datatype Call = Succeeds | FailsWithoutEffect | FailsAfterEffect {
    predicate Takes() {
      !FailsWithoutEffect?
    }

    predicate Errs() {
      !Succeeds?
    }
  }

  /** Which reads fail with an error other than "not found". */
  datatype Reads = Reads(cluster: bool, configMap: bool, jmDeployment: bool, jmService: bool, jmIngress: bool,
                         tmDeployment: bool, flink: bool, job: bool)
  {
    predicate ComponentErr() {
      cluster || configMap || jmDeployment || jmService || jmIngress || tmDeployment
    }
  }

  datatype Calls = Calls(status: Call, configMap: Call, jmDeployment: Call, jmService: Call, jmIngress: Call,
                         tmDeployment: Call, job: Call, savepoint: Call, stops: seq<Call>)
  {
    function Stop(i: nat): Call {
      if i < |stops| then stops[i] else Succeeds
    }
  }

  /** The conditions of one pass, with the events that happen after the components are read, after the
      Flink job list is read, after the Job is read and while a savepoint is taken. */
  datatype Conditions = Conditions(
    failing: Reads,
    calls: Calls,
    answers: FlinkAnswers,
    afterComponents: seq<Event>,
    afterFlink: seq<Event>,
    afterJob: seq<Event>,
    duringSavepoint: seq<Event>)

  /******* Observing *******/

  function SeenComponents(w: World): Observation {
    NOTHING_OBSERVED.(
      cluster := if w.deleted then None else Some(w.Cluster()),
      configMap := w.configMap,
      jmDeployment := w.jmDeployment,
      jmService := w.jmService,
      jmIngress := w.jmIngress,
      tmDeployment := w.tmDeployment)
  }

  /** The ID of the one running job, or of the one job there is if none runs. */
  function ObservedJobID(jobs: seq<FlinkJob>): Option<string> {
    var running := RunningIDs(jobs);
    if |running| > 1 then None
    else if |running| == 1 then Some(running[0])
    else if |jobs| == 1 then Some(jobs[0].id)
    else None
  }

  /** Flink is asked only while the recorded cluster state is Running. */
  predicate AsksFlink(c: Cluster) {
    c.spec.job.Some? && c.status.state == Running
  }

  function SeenFlink(seen: Observation, jobs: seq<FlinkJob>, err: bool): Observation {
    if seen.cluster.None? || !AsksFlink(seen.cluster.value) || err then seen
    else seen.(flinkJobList := Some(jobs), flinkRunningJobIDs := RunningIDs(jobs), flinkJobID := ObservedJobID(jobs))
  }

  predicate ObservesJob(w: World) {
    !w.deleted && w.spec.job.Some?
  }

  function AfterComponents(w: World, o: Conditions): World {
    HappenAll(w, o.afterComponents)
  }

  function AfterFlink(w: World, o: Conditions): World {
    HappenAll(AfterComponents(w, o), o.afterFlink)
  }

  function AfterJob(w: World, o: Conditions): World {
    HappenAll(AfterFlink(w, o), o.afterJob)
  }

  /** What a pass that starts in `w` has read when it is done reading. */
  function View(w: World, o: Conditions): Observation {
    var seen := SeenFlink(SeenComponents(w), AfterComponents(w, o).flinkJobs, o.failing.flink);
    seen.(job := if ObservesJob(w) then AfterFlink(w, o).job else None)
  }

  /** The Flink API is addressed through the UI port. */
  predicate AddressSafe(c: Cluster) {
    c.spec.jobManager.ports.ui.Some?
  }

  function FlinkAPIBaseURL(c: Cluster): string
    requires AddressSafe(c)
  {
    "http://" + c.name + "-jobmanager." + c.namespace + ".svc.cluster.local:"
    + Decimal(c.spec.jobManager.ports.ui.value)
  }

  predicate CanAskFlink(w: World) {
    ObservesJob(w) && AsksFlink(w.Cluster()) ==> AddressSafe(w.Cluster())
  }

  /******* Acting on components *******/

  /** Creates what is wanted and was not seen, deletes what was seen and is not wanted. A create fails if
      the resource exists by now. Yields the resource afterwards and whether an error is reported. */
  function Reconciled<T>(wanted: Option<T>, seen: Option<T>, current: Option<T>, call: Call): (r: (Option<T>, bool))
    ensures r.0 == current || r.0 == wanted || r.0.None?
    ensures current.Some? && (wanted.Some? || seen.None?) ==> r.0 == current
    ensures seen == current && call == Succeeds ==> !r.1 && (r.0.Some? <==> wanted.Some?)
  {
    if wanted.Some? && seen.None? then
      (if call.Takes() && current.None? then wanted else current, call.Errs() || current.Some?)
    else if wanted.None? && seen.Some? then
      (if call.Takes() then None else current, call.Errs())
    else (current, false)
  }

  /** The five components in order; an error ends the pass. */
  function ReconcileComponents(w: World, seen: Observation, d: Desired, calls: Calls): (World, bool) {
    var (configMap, err1) := Reconciled(d.configMap, seen.configMap, w.configMap, calls.configMap);
    var w1 := w.(configMap := configMap);
    if err1 then (w1, true)
    else
      var (jm, err2) := Reconciled(d.jmDeployment, seen.jmDeployment, w.jmDeployment, calls.jmDeployment);
      var w2 := w1.(jmDeployment := jm);
      if err2 then (w2, true)
      else
        var (service, err3) := Reconciled(d.jmService, seen.jmService, w.jmService, calls.jmService);
        var w3 := w2.(jmService := service);
        if err3 then (w3, true)
        else
          var (ingress, err4) := Reconciled(d.jmIngress, seen.jmIngress, w.jmIngress, calls.jmIngress);
          var w4 := w3.(jmIngress := ingress);
          if err4 then (w4, true)
          else
            var (tm, err5) := Reconciled(d.tmDeployment, seen.tmDeployment, w.tmDeployment, calls.tmDeployment);
            (w4.(tmDeployment := tm), err5)
  }

  /******* Acting on the job *******/

  function StopJob(w: World, id: string, call: Call): World {
    if call.Takes() then w.(flinkJobs := CancelJob(w.flinkJobs, id)) else w
  }

  /** Stops the jobs one by one until a request fails. */
  function CancelRunningJobs(w: World, ids: seq<string>, calls: Calls, i: nat): (World, bool)
    decreases |ids|
  {
    if ids == [] then (w, false)
    else
      var stopped := StopJob(w, ids[0], calls.Stop(i));
      if calls.Stop(i).Errs() then (stopped, true) else CancelRunningJobs(stopped, ids[1..], calls, i + 1)
  }

  function CreateJob(w: World, job: Job, savepoint: Option<string>, recorded: Option<JobStatus>, call: Call): World {
    if call.Takes() && w.job.None?
    then w.(job := Some(job), created := w.created + [Creation(job, savepoint, recorded, |w.savepoints|)])
    else w
  }

  function DeleteJob(w: World, call: Call): World {
    if call.Takes() then w.(job := None) else w
  }

  const SECOND := 1_000_000_000

  /** A time cut to whole seconds, as its RFC 3339 text is. */
  function Seconds(nanoseconds: int): int {
    nanoseconds / SECOND
  }

  predicate JobStopped(status: Option<JobStatus>) {
    status.Some? && Terminal(status.value.state)
  }

  predicate CanTakeSavepoint(c: Cluster) {
    && c.spec.job.Some?
    && c.spec.job.value.savepointsDir.Some?
    && !JobStopped(c.status.components.job)
  }

  /** Whether a savepoint is due at the time `clock`, and why. */
  function SavepointDue(c: Cluster, clock: int): Option<Trigger>
    requires c.status.components.job.Some?
  {
    if !CanTakeSavepoint(c) then None
    else
      var job, status := c.spec.job.value, c.status.components.job.value;
      if job.savepointGeneration > status.savepointGeneration then Some(Requested)
      else if job.autoSavepointSeconds.None? then None
      else if status.lastSavepointTime.None? then Some(FirstTime)
      else if clock > (status.lastSavepointTime.value + job.autoSavepointSeconds.value) * SECOND then Some(Interval)
      else None
  }

  /** The job status with one more savepoint. */
  function WithSavepoint(status: JobStatus, s: SavepointStatus, clock: int): JobStatus {
    status.(savepointGeneration := Wrap32(status.savepointGeneration + 1),
            lastSavepointTriggerID := s.triggerID,
            savepointLocation := s.location,
            lastSavepointTime := Some(Seconds(clock)))
  }

  function WithJobStatus(status: ClusterStatus, job: JobStatus): ClusterStatus {
    status.(components := status.components.(job := Some(job)))
  }

  /** Records a completed savepoint on top of the status this pass has read. */
  function RecordSavepoint(w: World, c: Cluster, s: SavepointStatus, trigger: Trigger, call: Call): World
    requires c.status.components.job.Some?
  {
    if !call.Takes() then w
    else w.(status := WithJobStatus(c.status, WithSavepoint(c.status.components.job.value, s, w.clock)),
            savepoints := w.savepoints + [Savepoint(s.location, Seconds(w.clock), trigger)])
  }

  /** Takes a savepoint and records it. Running out of queries is no error. */
  function TakeSavepointStep(w: World, c: Cluster, trigger: Trigger, o: Conditions): (World, bool)
    requires c.status.components.job.Some?
  {
    var later := HappenAll(w, o.duringSavepoint);
    match Outcome(o.answers)
    case Done(s) => (RecordSavepoint(later, c, s, trigger, o.calls.savepoint), o.calls.savepoint.Errs())
    case Erred => (later, true)
    case TimedOut => (later, false)
  }

  function JobID(c: Cluster): string {
    if c.status.components.job.Some? then c.status.components.job.value.id else ""
  }

  /** Takes a savepoint if possible, then stops the job. */
  function CancelFlinkJob(w: World, c: Cluster, id: string, o: Conditions): (World, bool)
    requires c.status.components.job.Some?
  {
    var (saved, err) := if CanTakeSavepoint(c) then TakeSavepointStep(w, c, BeforeCancel, o) else (w, false);
    if err then (saved, true) else (StopJob(saved, id, o.calls.Stop(0)), o.calls.Stop(0).Errs())
  }

  /** The job is wanted and there is no Job. */
  function SubmitOrWait(w: World, seen: Observation, job: Job, o: Conditions): World
    requires seen.cluster.Some? && seen.cluster.value.spec.job.Some?
  {
    var c := seen.cluster.value;
    if seen.flinkJobList.None? then w
    else if seen.flinkRunningJobIDs != [] then CancelRunningJobs(w, seen.flinkRunningJobIDs, o.calls, 0).0
    else
      var recorded := c.status.components.job;
      CreateJob(w, job, ConvertFromSavepoint(c.spec.job.value, recorded), recorded, o.calls.job)
  }

  /** The job is wanted and there is a Job. */
  function RestartOrSave(w: World, seen: Observation, o: Conditions): World
    requires seen.cluster.Some? && seen.cluster.value.spec.job.Some?
  {
    var c := seen.cluster.value;
    if ShouldRestart(c.spec.job.value.restartPolicy, c.status.components.job) then
      var (stopped, err) := CancelRunningJobs(w, seen.flinkRunningJobIDs, o.calls, 0);
      if err then stopped else DeleteJob(stopped, o.calls.job)
    else if JobID(c) != "" && SavepointDue(c, w.clock).Some? then
      TakeSavepointStep(w, c, SavepointDue(c, w.clock).value, o).0
    else w
  }

  /** The job is not wanted and there is a Job. */
  function CancelAndDelete(w: World, seen: Observation, o: Conditions): World
    requires seen.cluster.Some?
  {
    var c := seen.cluster.value;
    if JobID(c) == "" then DeleteJob(w, o.calls.job)
    else
      var (cancelled, err) := CancelFlinkJob(w, c, JobID(c), o);
      if err then cancelled else DeleteJob(cancelled, o.calls.job)
  }

  function ReconcileJob(w: World, seen: Observation, wanted: Option<Job>, o: Conditions): World
    requires seen.cluster.Some? && (wanted.Some? ==> seen.cluster.value.spec.job.Some?)
  {
    if wanted.Some? && seen.job.None? then SubmitOrWait(w, seen, wanted.value, o)
    else if wanted.Some? then RestartOrSave(w, seen, o)
    else if seen.job.Some? then CancelAndDelete(w, seen, o)
    else w
  }

  function Panic(w: World): World {
    w.(panicked := true)
  }

  /** A Flink job is to be stopped although no job is wanted any more. Where one is wanted, computing the
      desired state has needed the UI port already. */
  predicate StopsUnwanted(seen: Observation)
    requires seen.cluster.Some?
  {
    !WantsJob(seen.cluster.value.spec) && seen.job.Some? && JobID(seen.cluster.value) != ""
  }

  ghost function Act(w: World, seen: Observation, o: Conditions): World
    requires seen.cluster.Some? && ConvertSafe(seen.cluster.value)
  {
    var d := DesiredState(seen.cluster.value);
    var (changed, err) := ReconcileComponents(w, seen, d, o.calls);
    if err then changed
    else if StopsUnwanted(seen) && !AddressSafe(seen.cluster.value) then Panic(changed)
    else ReconcileJob(changed, seen, d.job, o)
  }

  /******* The pass *******/

  /** The history of Jobs read unfinished, with the one this pass has read. */
  function Noted(w: World, seen: Observation): set<nat> {
    if seen.job.Some? && !seen.job.value.Finished() && w.created != [] then w.noted + {|w.created| - 1} else w.noted
  }

  function WriteStatus(w: World, seen: Observation, status: ClusterStatus, call: Call): World {
    if call.Takes() then w.(status := status, noted := Noted(w, seen)) else w
  }

  /** Once everything is read: write the status if it changed, else act. */
  ghost function Conclude(w: World, seen: Observation, o: Conditions): World {
    if seen.cluster.None? then w
    else
      var recorded := seen.cluster.value.status;
      if !DeriveSafe(recorded, seen) then Panic(w)
      else
        var derived := StatusOf(recorded, seen);
        if !CompareSafe(recorded, derived) then Panic(w)
        else if Changed(recorded, derived) then WriteStatus(w, seen, derived, o.calls.status)
        else if !ConvertSafe(seen.cluster.value) then Panic(w)
        else Act(w, seen, o)
  }

  ghost function Pass(w: World, o: Conditions): World {
    if o.failing.ComponentErr() then w
    else if !CanAskFlink(w) then Panic(AfterComponents(w, o))
    else if ObservesJob(w) && o.failing.job then AfterFlink(w, o)
    else Conclude(AfterJob(w, o), View(w, o), o)
  }

  /** Concluding from `seen` comes to acting. */
  ghost predicate Acts(seen: Observation) {
    && seen.cluster.Some?
    && var c := seen.cluster.value;
       && DeriveSafe(c.status, seen)
       && CompareSafe(c.status, StatusOf(c.status, seen))
       && !Changed(c.status, StatusOf(c.status, seen))
       && ConvertSafe(c)
  }

  /** Exactly when acting in `w` reaches no nil pointer: the UI port is needed only if the components were
      reconciled without an error. */
  ghost predicate ActSafe(w: World, seen: Observation, o: Conditions)
    requires seen.cluster.Some? && ConvertSafe(seen.cluster.value)
  {
    StopsUnwanted(seen) && !ReconcileComponents(w, seen, DesiredState(seen.cluster.value), o.calls).1 ==>
      AddressSafe(seen.cluster.value)
  }

  /** Exactly when concluding from `seen` in `w` reaches neither a nil pointer nor a panic. */
  ghost predicate ConcludeSafe(w: World, seen: Observation, o: Conditions)
    requires seen.cluster.Some?
  {
    var c := seen.cluster.value;
    && DeriveSafe(c.status, seen)
    && CompareSafe(c.status, StatusOf(c.status, seen))
    && (!Changed(c.status, StatusOf(c.status, seen)) ==> ConvertSafe(c) && ActSafe(w, seen, o))
  }

  /** Exactly when the pass that starts in `w` under `o` reaches neither a nil pointer nor a panic. */
  ghost predicate PassSafe(w: World, o: Conditions) {
    !o.failing.ComponentErr() ==>
      && CanAskFlink(w)
      && (!w.deleted && !(ObservesJob(w) && o.failing.job) ==> ConcludeSafe(AfterJob(w, o), View(w, o), o))
  }

  /******* Runs *******/

  /** A step is one pass of the operator or one event. */
  datatype Step = Operator(conditions: Conditions) | Other(event: Event)

  ghost function Next(w: World, s: Step): World {
    match s
    case Operator(o) => Pass(w, o)
    case Other(e) => Happen(w, e)
  }

  ghost function Run(w: World, steps: seq<Step>): World
    decreases |steps|
  {
    if steps == [] then w else Run(Next(w, steps[0]), steps[1..])
  }
}
