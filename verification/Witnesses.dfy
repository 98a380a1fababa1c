/** Runs that show what the guarantees do not promise: from an admitted cluster, step by step. */
module Witnesses {
  import opened FlinkTypes
  import opened JobArguments
  import opened StatusUpdater
  import opened Converter
  import opened FlinkClient
  import opened Defaults
  import opened Validation
  import opened WorldModel
  import opened ControlLoop
  import opened Drifting
  import opened Invariant
  import opened Submission
  import opened Settling
  import opened Recovery
  import opened Restarting
  import opened Cancellation
  import opened Guarantees

  /******* Clusters *******/

  /** A job cluster reached inside Kubernetes only. */
  predicate Plain(spec: ClusterSpec) {
    && SpecReady(spec) && GCPSafe(spec) && spec.jobManager.ingress.None?
    && spec.jobManager.accessScope == ClusterScope && spec.job.Some?
  }

  /** All components exist and are ready. */
  predicate Healthy(w: World) {
    && Plain(w.spec) && !w.deleted && !w.status.state.OtherState? && w.status.components.jobManagerIngress.None?
    && w.configMap.Some? && w.jmDeployment.Some? && w.jmService.Some? && w.jmIngress.None? && w.tmDeployment.Some?
    && DeploymentState(w.jmDeployment.value) == Ready && DeploymentState(w.tmDeployment.value) == Ready
    && w.jmService.value.serviceType == ClusterIP && w.jmService.value.clusterIP != ""
  }

  /** The status of a healthy cluster. */
  function HealthyStatus(w: World, job: Option<JobStatus>): ClusterStatus
    requires Healthy(w)
  {
    ClusterStatus(
      Running,
      ComponentsStatus(ComponentStatus(w.configMap.value.name, Ready),
                       ComponentStatus(w.jmDeployment.value.name, Ready),
                       ServiceStatus(w.jmService.value.name, Ready, 0), None,
                       ComponentStatus(w.tmDeployment.value.name, Ready), job))
  }

  lemma HealthyDerives(w: World, o: Conditions)
    requires Healthy(w) && Still(o)
    ensures Derivable(w)
    ensures Derived(w, o).components
         == HealthyStatus(w, JobStatusOf(Recorded(w), w.job, IDIn(w, o), CancelRequested(w.spec))).components
  {
    JobIs(w, o);
  }

  /** A healthy cluster whose job has not ended, or is kept after its end, is derived as running. */
  lemma HealthyRuns(w: World, o: Conditions)
    requires Healthy(w) && Still(o) && (Rank(w.status.state) == 0 || !CleansUp(w.spec, EndingIn(w)))
    requires Rank(w.status.state) <= 1
    ensures Derivable(w)
    ensures Derived(w, o) == HealthyStatus(w, JobStatusOf(Recorded(w), w.job, IDIn(w, o), CancelRequested(w.spec)))
  {
    HealthyDerives(w, o);
    StateIs(w, o);
  }

  lemma HealthySteady(w: World, o: Conditions, job: Option<JobStatus>)
    requires Healthy(w) && Still(o) && w.status == HealthyStatus(w, job) && !CleansUp(w.spec, EndingIn(w))
    requires job == JobStatusOf(job, w.job, IDIn(w, o), CancelRequested(w.spec))
    requires job.Some? && Terminal(job.value.state) ==>
               ActionAfter(w.spec.job.value.cleanupPolicy.value, job.value.state) == KeepCluster
    ensures Steady(w, o)
  {
    HealthyRuns(w, o);
    UnchangedFromItself(w.status);
  }

  /******* Steps *******/

  lemma {:induction false} RunAppend(w: World, steps: seq<Step>, s: Step)
    ensures Run(w, steps + [s]) == Next(Run(w, steps), s)
    decreases |steps|
  {
    if steps == [] {
      assert steps + [s] == [s];
    } else {
      assert (steps + [s])[1..] == steps[1..] + [s];
      RunAppend(Next(w, steps[0]), steps[1..], s);
    }
  }

  /******* Until the components are up *******/

  function Begun(w: World): World {
    w.(status := NO_STATUS.(state := Creating))
  }

  ghost function Built(w: World): World
    requires Plain(w.spec)
  {
    var c := Begun(w).Cluster();
    Begun(w).(configMap := DesiredConfigMap(c), jmDeployment := DesiredJobManagerDeployment(c),
              jmService := DesiredJobManagerService(c), tmDeployment := DesiredTaskManagerDeployment(c))
  }

  /** The second pass creates the components, and waits with the job. */
  lemma SecondPassBuilds(w: World)
    requires Plain(w.spec) && WantsJob(w.spec) && w == Fresh(w.name, w.namespace, w.spec, w.clock)
    ensures Pass(Begun(w), CALM) == Built(w)
  {
    var b := Begun(w);
    assert Derived(b, CALM) == b.status;
    UnchangedFromItself(b.status);
    StillPassActs(b, CALM);
  }

  /** Kubernetes starts the pods and gives the service an address. */
  ghost function GetReady(w: World): Event
    requires Plain(w.spec)
  {
    var b := Built(w);
    var jm, svc, tm := b.jmDeployment.value, b.jmService.value, b.tmDeployment.value;
    ComponentsChange(b.configMap, Some(jm.(availableReplicas := jm.replicas)), Some(svc.(clusterIP := "10.0.0.1")),
                     None, Some(tm.(availableReplicas := tm.replicas)))
  }

  ghost function Up(w: World): World
    requires Plain(w.spec)
  {
    Happen(Built(w), GetReady(w))
  }

  lemma UpIsHealthy(w: World)
    requires Plain(w.spec) && w == Fresh(w.name, w.namespace, w.spec, w.clock)
    ensures Healthy(Up(w)) && Up(w).status == Begun(w).status
    ensures Up(w) == w.(status := Begun(w).status, configMap := Up(w).configMap, jmDeployment := Up(w).jmDeployment,
                        jmService := Up(w).jmService, tmDeployment := Up(w).tmDeployment)
  {
  }

  /******* Until the job runs *******/

  lemma OneRuns(id: FlinkID)
    ensures RunningIDs([FlinkJob(id, FLINK_RUNNING)]) == [id]
  {
    assert [FlinkJob(id, FLINK_RUNNING)][..0] == [];
  }

  /** The job is submitted, and no status of it is recorded yet. */
  predicate Launched(w: World, g: World) {
    && Healthy(g) && g.spec == w.spec && g.name == w.name && g.status == HealthyStatus(g, None)
    && g.job.Some? && !g.job.value.Finished() && g.job.value.submitted
    && g.flinkJobs == [FlinkJob("a", FLINK_RUNNING)]
    && |g.created| == 1 && g.noted == {} && g.savepoints == []
  }

  ghost function UntilLaunched(w: World): seq<Step>
    requires Plain(w.spec)
  {
    [] + [Operator(CALM)] + [Operator(CALM)] + [Other(GetReady(w))] + [Operator(CALM)] + [Operator(CALM)]
    + [Other(Submit("a"))]
  }

  /** The cluster runs without its job. */
  predicate Idle(w: World, g: World) {
    && Healthy(g) && g.spec == w.spec && g.name == w.name && g.status == HealthyStatus(g, None)
    && g.job.None? && g.flinkJobs == [] && g.created == [] && g.noted == {} && g.savepoints == []
  }

  lemma IdleNext(w: World, up: World)
    requires Healthy(up) && up.status == Begun(w).status && w == Fresh(w.name, w.namespace, w.spec, w.clock)
    requires up == w.(status := up.status, configMap := up.configMap, jmDeployment := up.jmDeployment,
                      jmService := up.jmService, tmDeployment := up.tmDeployment)
    ensures Idle(w, Pass(up, CALM))
  {
    HealthyRuns(up, CALM);
    StateChangeIsWritten(up, CALM);
  }

  lemma IdleSubmits(w: World, g: World)
    requires Idle(w, g) && WantsJob(w.spec)
    ensures var job := Pass(g, CALM).job;
            && job.Some? && !job.value.Finished() && !job.value.submitted
            && Pass(g, CALM) == g.(job := job, created := Pass(g, CALM).created)
            && |Pass(g, CALM).created| == 1
  {
    HealthySteady(g, CALM, None);
    SubmitsInOnePass(g, CALM);
  }

  lemma LaunchedNext(w: World, g: World)
    requires Idle(w, g) && WantsJob(w.spec)
    ensures Launched(w, Happen(Pass(g, CALM), Submit("a")))
  {
    IdleSubmits(w, g);
    LaunchedFrom(w, g, Pass(g, CALM));
  }

  lemma LaunchedFrom(w: World, g: World, submitted: World)
    requires Idle(w, g) && submitted == g.(job := submitted.job, created := submitted.created)
    requires MaySubmit(submitted.job) && |submitted.created| == 1
    ensures Launched(w, Happen(submitted, Submit("a")))
  {
  }

  /** Five passes, pods that come up and a Job that runs. */
  lemma ReachesLaunched(w: World)
    requires Plain(w.spec) && WantsJob(w.spec) && w == Fresh(w.name, w.namespace, w.spec, w.clock)
    ensures Launched(w, Run(w, UntilLaunched(w)))
  {
    var s1 := [] + [Operator(CALM)];
    var s2 := s1 + [Operator(CALM)];
    var s3 := s2 + [Other(GetReady(w))];
    var s4 := s3 + [Operator(CALM)];
    var s5 := s4 + [Operator(CALM)];
    RunAppend(w, [], Operator(CALM));
    FirstPassWrites(w);
    RunAppend(w, s1, Operator(CALM));
    SecondPassBuilds(w);
    RunAppend(w, s2, Other(GetReady(w)));
    RunAppend(w, s3, Operator(CALM));
    UpIsHealthy(w);
    IdleNext(w, Up(w));
    RunAppend(w, s4, Operator(CALM));
    RunAppend(w, s5, Other(Submit("a")));
    LaunchedNext(w, Run(w, s4));
  }

  function RunningStatus(job: Job): JobStatus {
    NO_JOB.(name := job.name, id := "a", state := JobRunning, fromSavepoint := FromSavepointArg(job.args))
  }

  /** The job runs and the status says so. */
  predicate Going(w: World, g: World) {
    && Healthy(g) && g.spec == w.spec && g.name == w.name
    && g.job.Some? && !g.job.value.Finished() && g.job.value.submitted
    && g.status == HealthyStatus(g, Some(RunningStatus(g.job.value)))
    && g.flinkJobs == [FlinkJob("a", FLINK_RUNNING)]
    && |g.created| == 1 && g.noted == {0} && g.savepoints == []
  }

  lemma GoingNext(w: World, g: World)
    requires Launched(w, g)
    ensures Going(w, Pass(g, CALM))
  {
    OneRuns("a");
    HealthyRuns(g, CALM);
    RederivedDerivable(g, CALM);
    StillPassWrites(g, CALM);
  }

  ghost function UntilGoing(w: World): seq<Step>
    requires Plain(w.spec)
  {
    UntilLaunched(w) + [Operator(CALM)]
  }

  lemma ReachesGoing(w: World)
    requires Plain(w.spec) && WantsJob(w.spec) && w == Fresh(w.name, w.namespace, w.spec, w.clock)
    ensures Going(w, Run(w, UntilGoing(w)))
  {
    ReachesLaunched(w);
    RunAppend(w, UntilLaunched(w), Operator(CALM));
    GoingNext(w, Run(w, UntilLaunched(w)));
  }

  /******* A savepoint that takes too long *******/

  /** Twelve times Flink says that the savepoint is still in progress. */
  function Slow(): FlinkAnswers {
    FlinkAnswers(Some("1"), seq(MAX_POLLS, i => Poll(NO_SAVEPOINT, false)))
  }

  /** A calm pass of which the polling takes a minute. */
  function Polling(): Conditions {
    CALM.(answers := Slow(), duringSavepoint := [Tick(60 * SECOND)])
  }

  lemma SlowTimesOut()
    ensures Outcome(Slow()).TimedOut?
  {
    assert forall k: nat :: k < MAX_POLLS ==> Slow().At(k) == Poll(NO_SAVEPOINT, false);
    OutcomeExactly(Slow());
  }

  /** A user requests the cancellation. */
  ghost function Cancel(w: World): Event
    requires w.spec.job.Some?
  {
    Update(WithCancel(w.spec))
  }

  lemma CancelHappens(w: World, g: World)
    requires Plain(w.spec) && WantsJob(w.spec) && SpecDefault(w.spec) == w.spec && g.spec == w.spec && !g.deleted
    ensures Happen(g, Cancel(w)) == g.(spec := WithCancel(g.spec)) && Plain(WithCancel(g.spec))
  {
    assert SpecDefault(WithCancel(w.spec)) == WithCancel(w.spec);
    UpdateAdmittedIff(g.Cluster(), g.Cluster().(spec := WithCancel(g.spec)));
  }

  lemma GoingStaysSteady(w: World, g: World, after: World, o: Conditions)
    requires Going(w, g) && Still(o) && !o.failing.flink && Plain(after.spec) && after == g.(spec := after.spec)
    ensures Steady(after, o)
  {
    OneRuns("a");
    HealthySteady(after, o, Some(RunningStatus(g.job.value)));
  }

  /** A cancellation that runs out of queries. */
  lemma TimedOutUnsaved(g: World, o: Conditions, after: World)
    requires CancelledAs(g, o, after) && SavesFirst(g.Cluster()) && Outcome(o.answers).TimedOut?
    requires CancelRequested(g.spec)
    ensures after.job.None? && after.savepoints == g.savepoints && after.created == g.created
    ensures after.flinkJobs == CancelJob(HappenAll(g, o.duringSavepoint).flinkJobs, JobID(g.Cluster()))
    ensures CancelRequested(after.spec)
  {
    HappenAllDrifts(g, o.duringSavepoint);
  }

  lemma SlowCancels(w: World, g: World, asked: World)
    requires Going(w, g) && Plain(asked.spec) && asked == g.(spec := asked.spec)
    requires CancelRequested(asked.spec) && asked.spec.job.value.savepointsDir.Some?
    ensures var after := Pass(asked, Polling());
            && after.job.None? && after.savepoints == [] && after.created == g.created
            && CancelRequested(after.spec) && RunningIDs(after.flinkJobs) == []
  {
    GoingStaysSteady(w, g, asked, Polling());
    SlowTimesOut();
    CancelsInOnePass(asked, Polling());
    TimedOutUnsaved(asked, Polling(), Pass(asked, Polling()));
    TickLeavesJobs(asked);
    NoneRunning(CancelJob(g.flinkJobs, "a"));
  }

  lemma TickLeavesJobs(g: World)
    ensures HappenAll(g, Polling().duringSavepoint).flinkJobs == g.flinkJobs
  {
  }

  ghost function UntilUnsaved(w: World): seq<Step>
    requires Plain(w.spec)
  {
    UntilGoing(w) + [Other(Cancel(w))] + [Operator(Polling())]
  }

  /** The job is cancelled and stopped, and no savepoint was taken. */
  predicate StoppedWithoutSavepoint(now: World) {
    && CancelRequested(now.spec) && |now.created| == 1 && now.job.None? && now.savepoints == []
    && RunningIDs(now.flinkJobs) == []
  }

  lemma UnsavedAfter(w: World, steps: seq<Step>)
    requires Going(w, Run(w, steps)) && WantsJob(w.spec) && SpecDefault(w.spec) == w.spec
    requires w.spec.job.value.savepointsDir.Some?
    ensures StoppedWithoutSavepoint(Run(w, steps + [Other(Cancel(w))] + [Operator(Polling())]))
  {
    var g := Run(w, steps);
    CancelHappens(w, g);
    RunTwo(w, steps, Other(Cancel(w)), Operator(Polling()));
    SlowCancels(w, g, Happen(g, Cancel(w)));
  }

  /** A job that runs is cancelled and stopped without the savepoint that was to be taken. */
  lemma StoppedUnsaved(w: World)
    requires Admitted(w) && Plain(w.spec) && w.spec.job.value.savepointsDir.Some?
    ensures RunningIDs(Run(w, UntilGoing(w)).flinkJobs) == ["a"]
    ensures StoppedWithoutSavepoint(Run(w, UntilUnsaved(w)))
  {
    AdmittedIsPlain(w);
    ReachesGoing(w);
    GoingRuns(w, Run(w, UntilGoing(w)));
    UnsavedAfter(w, UntilGoing(w));
  }

  lemma GoingRuns(w: World, g: World)
    requires Going(w, g)
    ensures RunningIDs(g.flinkJobs) == ["a"]
  {
    OneRuns("a");
  }

  lemma AdmittedIsPlain(w: World)
    requires Admitted(w)
    ensures w == Fresh(w.name, w.namespace, w.spec, w.clock) && SpecDefault(w.spec) == w.spec
    ensures w.spec.job.Some? ==> WantsJob(w.spec)
  {
    var c: Cluster, clock: int :| AdmittedAs(w, c, clock);
    AdmittedIsReady(c.(spec := SpecDefault(c.spec)));
    DefaultIdempotent(c.spec);
  }

  /******* A job whose ID is not recorded *******/

  /** A calm pass to which Flink does not answer. */
  function Mute(): Conditions {
    CALM.(failing := CALM.failing.(flink := true))
  }

  function PendingStatus(job: Job): JobStatus {
    NO_JOB.(name := job.name, state := Pending, fromSavepoint := FromSavepointArg(job.args))
  }

  /** The cancellation is requested while the job's ID is unknown. */
  predicate Unnamed(g: World) {
    && Healthy(g) && CancelRequested(g.spec) && g.flinkJobs == [FlinkJob("a", FLINK_RUNNING)] && g.savepoints == []
    && |g.created| == 1
  }

  lemma UnnamedWritten(g: World)
    requires Unnamed(g) && g.status == HealthyStatus(g, None) && g.job.Some? && !g.job.value.Finished()
    ensures var after := Pass(g, Mute());
            && Unnamed(after) && after.job == g.job
            && after.status == HealthyStatus(after, Some(PendingStatus(g.job.value)))
  {
    HealthyRuns(g, Mute());
    RederivedDerivable(g, Mute());
    StillPassWrites(g, Mute());
  }

  lemma UnnamedDeleted(g: World)
    requires Unnamed(g) && g.job.Some? && !g.job.value.Finished()
    requires g.status == HealthyStatus(g, Some(PendingStatus(g.job.value)))
    ensures Pass(g, Mute()) == g.(job := None)
  {
    HealthySteady(g, Mute(), Some(PendingStatus(g.job.value)));
    CancelsInOnePass(g, Mute());
  }

  lemma UnnamedCancelled(g: World)
    requires Unnamed(g) && g.job.None? && Recorded(g).Some? && Recorded(g).value.state == Pending
    ensures RecordedAs(Pass(g, Mute()), Cancelled) && Pass(g, Mute()).flinkJobs == g.flinkJobs
    ensures Pass(g, Mute()).savepoints == []
  {
    HealthyDerives(g, Mute());
    RederivedDerivable(g, Mute());
    StillPassWrites(g, Mute());
  }

  lemma UnnamedEnds(g: World)
    requires Unnamed(g) && g.status == HealthyStatus(g, None) && g.job.Some? && !g.job.value.Finished()
    ensures var after := Pass(Pass(Pass(g, Mute()), Mute()), Mute());
            RecordedAs(after, Cancelled) && RunningIDs(after.flinkJobs) == ["a"] && after.savepoints == []
  {
    UnnamedWritten(g);
    var written := Pass(g, Mute());
    UnnamedDeleted(written);
    UnnamedCancelled(written.(job := None));
    OneRuns("a");
  }

  ghost function UntilLeft(w: World): seq<Step>
    requires Plain(w.spec)
  {
    UntilLaunched(w) + [Other(Cancel(w))] + [Operator(Mute())] + [Operator(Mute())] + [Operator(Mute())]
  }

  /** A job is recorded as cancelled, without a savepoint, while it still runs. */
  lemma CancelledWhileRunning(w: World)
    requires Admitted(w) && Plain(w.spec)
    ensures var now := Run(w, UntilLeft(w));
            RecordedAs(now, Cancelled) && RunningIDs(now.flinkJobs) == ["a"] && now.savepoints == []
  {
    AdmittedIsPlain(w);
    ReachesLaunched(w);
    var s1 := UntilLaunched(w) + [Other(Cancel(w))];
    RunAppend(w, UntilLaunched(w), Other(Cancel(w)));
    LaunchedUnnamed(w, Run(w, UntilLaunched(w)));
    UnnamedEnds(Run(w, s1));
    RunThree(w, s1, Operator(Mute()));
  }

  lemma LaunchedUnnamed(w: World, g: World)
    requires Launched(w, g) && Plain(w.spec) && WantsJob(w.spec) && SpecDefault(w.spec) == w.spec
    ensures var asked := Happen(g, Cancel(w));
            && Unnamed(asked) && asked.status == HealthyStatus(asked, None)
            && asked.job.Some? && !asked.job.value.Finished()
  {
    CancelHappens(w, g);
  }

  lemma RunTwo(w: World, steps: seq<Step>, s: Step, t: Step)
    ensures Run(w, steps + [s] + [t]) == Next(Next(Run(w, steps), s), t)
  {
    RunAppend(w, steps, s);
    RunAppend(w, steps + [s], t);
  }

  lemma RunThree(w: World, steps: seq<Step>, s: Step)
    ensures Run(w, steps + [s] + [s] + [s]) == Next(Next(Next(Run(w, steps), s), s), s)
  {
    RunAppend(w, steps, s);
    RunAppend(w, steps + [s], s);
    RunAppend(w, steps + [s] + [s], s);
  }

  /******* A failed job with a savepoint *******/

  const LOCATION := "/savepoints/1"
  const SAVEPOINT := SavepointStatus("1", true, LOCATION, "")

  /** A calm pass in which Flink completes a savepoint at once. */
  function Saving(): Conditions {
    CALM.(answers := FlinkAnswers(Some("1"), [Poll(SAVEPOINT, false)]))
  }

  lemma SavingIsDone()
    ensures Outcome(Saving().answers) == Done(SAVEPOINT)
  {
  }

  /** Savepoints are taken by themselves, and a failed job is to be restarted from the last. */
  predicate Recovers(spec: ClusterSpec) {
    && Plain(spec) && spec.job.value.savepointsDir.Some? && spec.job.value.autoSavepointSeconds.Some?
    && spec.job.value.restartPolicy == Some(FromSavepointOnFailure)
  }

  /** The job runs with a savepoint recorded, or has just failed. */
  predicate Saved(w: World, g: World) {
    && Healthy(g) && g.spec == w.spec && g.name == w.name && g.job.Some?
    && Recorded(g).Some? && Recorded(g).value.state == JobRunning && Recorded(g).value.id == "a"
    && Recorded(g).value.savepointLocation == LOCATION && Recorded(g).value.restartCount == 0
    && g.status == HealthyStatus(g, Recorded(g))
    && g.flinkJobs == [FlinkJob("a", FLINK_RUNNING)]
    && |g.created| == 1 && g.noted == {0} && |g.savepoints| == 1
  }

  lemma GoingSaves(w: World, g: World)
    requires Going(w, g) && Recovers(w.spec) && WantsJob(w.spec)
    ensures SavepointDue(g.Cluster(), g.clock).Some?
    ensures Pass(g, Saving()) == RecordSavepoint(g, g.Cluster(), SAVEPOINT,
                                                 SavepointDue(g.Cluster(), g.clock).value, Succeeds)
  {
    GoingStaysSteady(w, g, g, Saving());
    SteadyPass(g, Saving());
    SavingSees(g);
    JobSaves(w, g, View(g, Saving()), DesiredJob(g.Cluster()));
  }

  lemma SavingSees(g: World)
    requires !g.deleted && g.spec.job.Some?
    ensures View(g, Saving()).cluster == Some(g.Cluster()) && View(g, Saving()).job == g.job
  {
  }

  lemma JobSaves(w: World, g: World, seen: Observation, wanted: Option<Job>)
    requires Going(w, g) && Recovers(w.spec) && wanted.Some? && seen.cluster == Some(g.Cluster()) && seen.job.Some?
    ensures SavepointDue(g.Cluster(), g.clock).Some?
    ensures ReconcileJob(g, seen, wanted, Saving())
         == RecordSavepoint(g, g.Cluster(), SAVEPOINT, SavepointDue(g.Cluster(), g.clock).value, Succeeds)
  {
    SavingIsDone();
    assert HappenAll(g, []) == g;
  }

  lemma RecordedIsSaved(w: World, g: World, trigger: Trigger)
    requires Going(w, g)
    ensures Saved(w, RecordSavepoint(g, g.Cluster(), SAVEPOINT, trigger, Succeeds))
    ensures RecordSavepoint(g, g.Cluster(), SAVEPOINT, trigger, Succeeds).job == g.job
  {
  }

  lemma SavedFails(w: World, g: World)
    requires Saved(w, g) && !g.job.value.Finished()
    ensures var after := Happen(g, JobCounters(1, 0));
            Saved(w, after) && after.job.value.failed == 1
  {
  }

  lemma GoingFails(w: World, g: World)
    requires Going(w, g) && Recovers(w.spec) && WantsJob(w.spec)
    ensures var after := Happen(Pass(g, Saving()), JobCounters(1, 0));
            Saved(w, after) && after.job.value.failed == 1
  {
    GoingSaves(w, g);
    RecordedIsSaved(w, g, SavepointDue(g.Cluster(), g.clock).value);
    SavedFails(w, Pass(g, Saving()));
  }

  ghost function UntilFailed(w: World): seq<Step>
    requires Plain(w.spec)
  {
    UntilGoing(w) + [Operator(Saving())] + [Other(JobCounters(1, 0))]
  }

  lemma FailsAfter(w: World, steps: seq<Step>)
    requires Going(w, Run(w, steps)) && Recovers(w.spec) && WantsJob(w.spec)
    ensures var now := Run(w, steps + [Operator(Saving())] + [Other(JobCounters(1, 0))]);
            Saved(w, now) && now.job.value.failed == 1
  {
    RunTwo(w, steps, Operator(Saving()), Other(JobCounters(1, 0)));
    GoingFails(w, Run(w, steps));
  }

  lemma ReachesFailed(w: World)
    requires Admitted(w) && Recovers(w.spec)
    ensures var now := Run(w, UntilFailed(w));
            Saved(w, now) && now.job.value.failed == 1
  {
    AdmittedIsPlain(w);
    ReachesGoing(w);
    FailsAfter(w, UntilGoing(w));
  }

  /******* A failed job that is not restarted *******/

  /** The failure is seen in a cluster that is not kept. */
  lemma FailureStops(w: World, g: World)
    requires Saved(w, g) && g.job.value.failed == 1 && !KeptAfterFailure(w.spec)
    ensures var after := Pass(g, CALM);
            && after.status.state == Stopping && RecordedAs(after, Failed)
            && Recorded(after).value.savepointLocation == LOCATION && after.created == g.created
  {
    HealthyDerives(g, CALM);
    StateIs(g, CALM);
    StateChangeIsWritten(g, CALM);
  }

  /** The job has failed, a savepoint is recorded, the policy is to restart from it, and no later step ever
      creates another Job. */
  lemma NotRestarted(w: World, later: seq<Step>)
    requires Admitted(w) && Recovers(w.spec) && !KeptAfterFailure(w.spec)
    ensures var now := Run(w, UntilFailed(w) + [Operator(CALM)]);
            && RecordedAs(now, Failed) && Recorded(now).value.savepointLocation == LOCATION
            && Run(now, later).created == now.created && |now.created| == 1
  {
    ReachesFailed(w);
    RunAppend(w, UntilFailed(w), Operator(CALM));
    FailureStops(w, Run(w, UntilFailed(w)));
    NoJobAfterStopping(w, UntilFailed(w) + [Operator(CALM)], later);
  }

  /******* A restart *******/

  function Six(): seq<Step> {
    seq(6, i => Operator(CALM))
  }

  lemma SixAreResponsive()
    ensures ResponsiveSteps(Six()) && |Six()| == 6
  {
    CalmIsResponsive();
  }

  lemma SavedIsKept(w: World, g: World)
    requires Saved(w, g) && g.job.value.failed == 1 && Recovers(w.spec) && KeptAfterFailure(w.spec) && WantsJob(w.spec)
    ensures FailedAndKept(g)
  {
  }

  lemma FromLocation(w: World, g: World, after: World)
    requires Saved(w, g) && SavepointsAccounted(g) && RestartedFromLast(g, after)
    ensures |after.created| > 1 && after.created[1].savepoint == Some(LOCATION)
  {
  }

  lemma RestartedAfter(w: World, steps: seq<Step>, calm: seq<Step>)
    requires Admitted(w) && Recovers(w.spec) && KeptAfterFailure(w.spec) && WantsJob(w.spec)
    requires Saved(w, Run(w, steps)) && Run(w, steps).job.value.failed == 1
    requires ResponsiveSteps(calm) && |calm| >= 6
    ensures var now := Run(Run(w, steps), calm);
            |now.created| > 1 && now.created[1].savepoint == Some(LOCATION)
  {
    var g := Run(w, steps);
    SavedIsKept(w, g);
    RestartedIfKept(w, steps, calm, []);
    assert SavepointsAccounted(g) by {
      Reached(w, steps);
    }
    FromLocation(w, g, Run(g, calm));
  }

  /** The failed job of a cluster that is kept is restarted from its savepoint. */
  lemma Restarted(w: World)
    requires Admitted(w) && Recovers(w.spec) && KeptAfterFailure(w.spec)
    ensures var now := Run(Run(w, UntilFailed(w)), Six());
            |now.created| > 1 && now.created[1].savepoint == Some(LOCATION)
  {
    AdmittedIsPlain(w);
    ReachesFailed(w);
    SixAreResponsive();
    RestartedAfter(w, UntilFailed(w), Six());
  }

  /******* A restart that is not counted *******/

  lemma FailureIsWritten(w: World, g: World)
    requires Saved(w, g) && g.job.value.failed == 1 && Recovers(w.spec) && KeptAfterFailure(w.spec) && WantsJob(w.spec)
    ensures var after := Pass(g, CALM);
            && Steady(after, CALM) && ToRestart(after) && after.job.Some? && |after.created| == 1
            && Recorded(after).value.restartCount == 0
  {
    OneRuns("a");
    HealthyRuns(g, CALM);
    FailureChanges(w, g);
    HealthySteady(Pass(g, CALM), CALM, Derived(g, CALM).components.job);
  }

  lemma FailureChanges(w: World, g: World)
    requires Saved(w, g) && g.job.value.failed == 1 && Derivable(g)
    ensures Pass(g, CALM) == Rederived(g, CALM)
  {
    JobIs(g, CALM);
    RederivedDerivable(g, CALM);
    StillPassWrites(g, CALM);
  }

  lemma FailsAgain(g: World)
    requires Steady(g, CALM) && ToRestart(g) && g.job.Some? && |g.created| == 1 && Recorded(g).value.restartCount == 0
    ensures TwoJobsNoRestart(Happen(Pass(Pass(g, CALM), CALM), JobCounters(1, 0)))
  {
    CalmIsResponsive();
    RestartsInTwoPasses(g, CALM, CALM);
  }

  predicate TwoJobsNoRestart(now: World) {
    && |now.created| == 2 && now.job.Some? && now.job.value.failed == 1
    && Recorded(now).Some? && Recorded(now).value.restartCount == 0
  }

  lemma FailsTwice(w: World, g: World)
    requires Saved(w, g) && g.job.value.failed == 1 && Recovers(w.spec) && KeptAfterFailure(w.spec) && WantsJob(w.spec)
    ensures TwoJobsNoRestart(Happen(Pass(Pass(Pass(g, CALM), CALM), CALM), JobCounters(1, 0)))
  {
    FailureIsWritten(w, g);
    FailsAgain(Pass(g, CALM));
  }

  lemma UncountedAfter(w: World, steps: seq<Step>)
    requires Recovers(w.spec) && KeptAfterFailure(w.spec) && WantsJob(w.spec)
    requires Saved(w, Run(w, steps)) && Run(w, steps).job.value.failed == 1
    ensures TwoJobsNoRestart(Run(w, steps + [Operator(CALM)] + [Operator(CALM)] + [Operator(CALM)]
                                    + [Other(JobCounters(1, 0))]))
  {
    FailsTwice(w, Run(w, steps));
    RunThree(w, steps, Operator(CALM));
    RunAppend(w, steps + [Operator(CALM)] + [Operator(CALM)] + [Operator(CALM)], Other(JobCounters(1, 0)));
  }

  ghost function UntilUncounted(w: World): seq<Step>
    requires Plain(w.spec)
  {
    UntilFailed(w) + [Operator(CALM)] + [Operator(CALM)] + [Operator(CALM)] + [Other(JobCounters(1, 0))]
  }

  /** The new Job fails before a pass reads it: there are two Jobs and no restart. */
  lemma UncountedRestart(w: World)
    requires Admitted(w) && Recovers(w.spec) && KeptAfterFailure(w.spec)
    ensures TwoJobsNoRestart(Run(w, UntilUncounted(w)))
  {
    AdmittedIsPlain(w);
    ReachesFailed(w);
    UncountedAfter(w, UntilFailed(w));
  }

  /******* Such clusters *******/

  /** What a user submits. */
  function Example(afterJobFails: CleanupAction): Cluster {
    var job := JobSpec("job.jar", None, [], None, None, Some("/savepoints"), Some(300), 0, None, None, [], [],
                       Some(FromSavepointOnFailure),
                       Some(CleanupPolicy(DeleteCluster, afterJobFails, DeleteCluster)), None);
    var jm := JobManagerSpec(None, UnsetScope, None, JobManagerPorts(None, None, None, None), 0, None, None);
    var tm := TaskManagerSpec(1, TaskManagerPorts(None, None, None), 0, None, None);
    Cluster("example", "default",
            ClusterSpec(ImageSpec("flink:1.9.3", UnsetPullPolicy), jm, tm, Some(job), map[], None, None), NO_STATUS)
  }

  function ExampleWorld(afterJobFails: CleanupAction): World {
    var c := Example(afterJobFails);
    Fresh(c.name, c.namespace, SpecDefault(c.spec), 0)
  }

  /** Such clusters are admitted, so each of these runs exists. */
  lemma ExampleAdmitted(afterJobFails: CleanupAction)
    requires !afterJobFails.OtherAction?
    ensures var w := ExampleWorld(afterJobFails);
            Admitted(w) && Recovers(w.spec) && (KeptAfterFailure(w.spec) <==> afterJobFails == KeepCluster)
  {
    var c := Example(afterJobFails);
    AdmittedByParts(c.(spec := SpecDefault(c.spec)));
    assert AdmittedAs(ExampleWorld(afterJobFails), c, 0);
  }

  /** The runs of two such clusters. */
  lemma ExampleRuns()
    ensures var w := ExampleWorld(KeepCluster);
            && Admitted(w) && Recovers(w.spec)
            && Run(w, UntilUnsaved(w)).job.None? && Run(w, UntilUnsaved(w)).savepoints == []
            && RecordedAs(Run(w, UntilLeft(w)), Cancelled) && RunningIDs(Run(w, UntilLeft(w)).flinkJobs) == ["a"]
            && |Run(Run(w, UntilFailed(w)), Six()).created| > 1
            && TwoJobsNoRestart(Run(w, UntilUncounted(w)))
    ensures var w := ExampleWorld(DeleteCluster);
            && Admitted(w) && Recovers(w.spec)
            && RecordedAs(Run(w, UntilFailed(w) + [Operator(CALM)]), Failed)
            && forall later :: |Run(Run(w, UntilFailed(w) + [Operator(CALM)]), later).created| == 1
  {
    var kept, lost := ExampleWorld(KeepCluster), ExampleWorld(DeleteCluster);
    ExampleAdmitted(KeepCluster);
    StoppedUnsaved(kept);
    CancelledWhileRunning(kept);
    Restarted(kept);
    UncountedRestart(kept);
    ExampleAdmitted(DeleteCluster);
    NotRestarted(lost, []);
    forall later
      ensures |Run(Run(lost, UntilFailed(lost) + [Operator(CALM)]), later).created| == 1
    {
      NotRestarted(lost, later);
    }
  }
}
