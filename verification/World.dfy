/** What surrounds the operator: the custom resource and its children in the Kubernetes API, the jobs
    Flink knows of, the clock, and everything others do to them. The operator is not the only one who
    acts: an Event is a step of Kubernetes, of Flink, of a Job's pod or of a user, and any number of
    events may happen between two steps of the operator. */
module WorldModel {
  import opened FlinkTypes
  import opened Defaults
  import opened Validation

  /** Why a savepoint was taken. */
  datatype Trigger = Requested | FirstTime | Interval | BeforeCancel

  /** A savepoint recorded in the status; `time` is the recorded time in seconds. */
  datatype Savepoint = Savepoint(location: string, time: int, trigger: Trigger)

  /** A Job the operator created, with the savepoint it was given, the job status recorded at that
      moment and the number of savepoints recorded before. */
  datatype Creation =
    Creation(job: Job, savepoint: Option<string>, recorded: Option<JobStatus>, savepointsBefore: nat)

  /** `created`, `noted`, `savepoints` and `panicked` are history: nobody reads them. `noted` has the index
      in `created` of each Job that was read unfinished by a pass whose status write took effect. `clock`
      is in nanoseconds. */
  datatype World = World(
    name: string,
    namespace: string,
    spec: ClusterSpec,
    status: ClusterStatus,
    deleted: bool,
    configMap: Option<ConfigMap>,
    jmDeployment: Option<Deployment>,
    jmService: Option<Service>,
    jmIngress: Option<Ingress>,
    tmDeployment: Option<Deployment>,
    job: Option<Job>,
    flinkJobs: seq<FlinkJob>,
    clock: int,
    created: seq<Creation>,
    noted: set<nat>,
    savepoints: seq<Savepoint>,
    panicked: bool)
  {
    function Cluster(): Cluster {
      FlinkTypes.Cluster.Cluster(name, namespace, spec, status)
    }
  }

  /** The world right after the custom resource is created. */
  function Fresh(name: string, namespace: string, spec: ClusterSpec, clock: int): World {
    World(name, namespace, spec, NO_STATUS, false, None, None, None, None, None, None, [], clock, [], {}, [], false)
  }

  predicate AdmittedAs(w: World, c: Cluster, clock: int) {
    var admitted := c.(spec := SpecDefault(c.spec));
    ValidateCreate(admitted).Ok? && w == Fresh(c.name, c.namespace, admitted.spec, clock)
  }

  /** The world with a cluster the webhooks have defaulted and admitted, before its first pass. */
  ghost predicate Admitted(w: World) {
    exists c: Cluster, clock: int :: AdmittedAs(w, c, clock)
  }

  /******* Flink jobs *******/

  function RunningIDs(jobs: seq<FlinkJob>): seq<string> {
    if jobs == [] then []
    else
      var last := jobs[|jobs| - 1];
      RunningIDs(jobs[..|jobs| - 1]) + if last.status == FLINK_RUNNING then [last.id] else []
  }

  /** A Job incarnation that has not handed over its Flink job and still can. */
  predicate MaySubmit(job: Option<Job>) {
    job.Some? && !job.value.Finished() && !job.value.submitted
  }

  /** The Flink jobs that run and the one that may still come. */
  function Load(w: World): nat {
    |RunningIDs(w.flinkJobs)| + if MaySubmit(w.job) then 1 else 0
  }

  function CancelJob(jobs: seq<FlinkJob>, id: string): seq<FlinkJob> {
    seq(|jobs|, i requires 0 <= i < |jobs| =>
          if jobs[i].id == id && jobs[i].status == FLINK_RUNNING then jobs[i].(status := "CANCELLING") else jobs[i])
  }

  /******* Events *******/

  datatype Event =
    | ComponentsChange(configMap: Option<ConfigMap>, jmDeployment: Option<Deployment>, jmService: Option<Service>,
                       jmIngress: Option<Ingress>, tmDeployment: Option<Deployment>)
    | JobCounters(failed: nat, succeeded: nat)
    | Submit(id: string)
    | FlinkJobEnds(index: nat, endStatus: string)
    | FlinkJobForgotten(index: nat)
    | FlinkJobResumes(index: nat)
    | Tick(nanoseconds: nat)
    | Update(spec: ClusterSpec)
    | Delete

  /** Others change or delete components but do not create them. */
  function ChangeComponents(w: World, cm: Option<ConfigMap>, jm: Option<Deployment>, svc: Option<Service>,
                            ing: Option<Ingress>, tm: Option<Deployment>): World
  {
    w.(configMap := if cm.Some? && !(w.configMap.Some? && cm.value.name == w.configMap.value.name)
                    then w.configMap else cm,
       jmDeployment := if jm.Some? && !(w.jmDeployment.Some? && jm.value.name == w.jmDeployment.value.name)
                       then w.jmDeployment else jm,
       jmService := if svc.Some? && !(w.jmService.Some? && svc.value.name == w.jmService.value.name)
                    then w.jmService else svc,
       jmIngress := if ing.Some? && !(w.jmIngress.Some? && ing.value.name == w.jmIngress.value.name)
                    then w.jmIngress else ing,
       tmDeployment := if tm.Some? && !(w.tmDeployment.Some? && tm.value.name == w.tmDeployment.value.name)
                       then w.tmDeployment else tm)
  }

  /** A user's update passes both webhooks. */
  function UpdateSpec(w: World, spec: ClusterSpec): World {
    var updated := w.Cluster().(spec := SpecDefault(spec));
    if !w.deleted && ValidateUpdate(w.Cluster(), updated).Ok? then w.(spec := updated.spec) else w
  }

  /** The effect of an event; one that cannot happen in `w` has none. A Flink job that has left RUNNING, for
      example to restart, comes back only while the Job exists and nothing else runs or may be submitted. */
  function Happen(w: World, e: Event): World {
    match e
    case ComponentsChange(cm, jm, svc, ing, tm) => ChangeComponents(w, cm, jm, svc, ing, tm)
    case JobCounters(failed, succeeded) =>
      if w.job.None? then w
      else w.(job := Some(w.job.value.(failed := w.job.value.failed + failed,
                                       succeeded := w.job.value.succeeded + succeeded)))
    case Submit(id) =>
      if !MaySubmit(w.job) || id == "" then w
      else w.(job := Some(w.job.value.(submitted := true)),
              flinkJobs := w.flinkJobs + [FlinkJob(id, FLINK_RUNNING)])
    case FlinkJobEnds(i, status) =>
      if i >= |w.flinkJobs| || status == FLINK_RUNNING then w
      else w.(flinkJobs := w.flinkJobs[i := w.flinkJobs[i].(status := status)])
    case FlinkJobForgotten(i) =>
      if i >= |w.flinkJobs| then w else w.(flinkJobs := w.flinkJobs[..i] + w.flinkJobs[i + 1..])
    case FlinkJobResumes(i) =>
      if i >= |w.flinkJobs| || w.job.None? || MaySubmit(w.job) || RunningIDs(w.flinkJobs) != [] then w
      else w.(flinkJobs := w.flinkJobs[i := w.flinkJobs[i].(status := FLINK_RUNNING)])
    case Tick(ns) => w.(clock := w.clock + ns)
    case Update(spec) => UpdateSpec(w, spec)
    case Delete => w.(deleted := true)
  }

  function HappenAll(w: World, events: seq<Event>): World
    decreases |events|
  {
    if events == [] then w else HappenAll(Happen(w, events[0]), events[1..])
  }
}
