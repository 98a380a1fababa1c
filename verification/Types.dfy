/** The custom resource, the Kubernetes resources it owns and the Flink job list, as values.
    Every enumeration keeps a constructor for "any other text", because the API stores strings
    and the validating webhook does not check all of them. */
module FlinkTypes {

  datatype Option<+T> = None | Some(value: T)

  /** Reduces to the range of Go's int32, as `++` and `+ 1` on an int32 do. */
  function Wrap32(x: int): (r: int)
    ensures -0x8000_0000 <= r < 0x8000_0000
    ensures -0x8000_0000 <= x < 0x8000_0000 ==> r == x
    ensures -0x8000_0000 <= x ==> r <= x
  {
    (x + 0x8000_0000) % 0x1_0000_0000 - 0x8000_0000
  }

  /******* Spec *******/

  datatype PullPolicy = UnsetPullPolicy | Always | IfNotPresent | NeverPull | OtherPullPolicy(text: string)

  datatype AccessScope = UnsetScope | ClusterScope | VPC | External | NodePort | OtherScope(text: string)

  datatype RestartPolicy = Never | FromSavepointOnFailure | OtherRestartPolicy(text: string)

  datatype CleanupAction = KeepCluster | DeleteCluster | DeleteTaskManager | OtherAction(text: string)

  datatype ImageSpec = ImageSpec(name: string, pullPolicy: PullPolicy)

  datatype JobManagerPorts =
    JobManagerPorts(rpc: Option<int>, blob: Option<int>, query: Option<int>, ui: Option<int>)

  datatype IngressSpec =
    IngressSpec(hostFormat: Option<string>, useTLS: Option<bool>, tlsSecretName: Option<string>)

  /** `memoryLimit` is the memory limit in bytes, 0 when there is none; `memoryOffHeapMin` is None
      when its quantity carries no format. */
  datatype JobManagerSpec = JobManagerSpec(
    replicas: Option<int>,
    accessScope: AccessScope,
    ingress: Option<IngressSpec>,
    ports: JobManagerPorts,
    memoryLimit: int,
    memoryOffHeapRatio: Option<int>,
    memoryOffHeapMin: Option<int>)

  datatype TaskManagerPorts = TaskManagerPorts(data: Option<int>, rpc: Option<int>, query: Option<int>)

  datatype TaskManagerSpec = TaskManagerSpec(
    replicas: int,
    ports: TaskManagerPorts,
    memoryLimit: int,
    memoryOffHeapRatio: Option<int>,
    memoryOffHeapMin: Option<int>)

  datatype CleanupPolicy = CleanupPolicy(
    afterJobSucceeds: CleanupAction,
    afterJobFails: CleanupAction,
    afterJobCancelled: CleanupAction)

  datatype VolumeMount = VolumeMount(name: string, mountPath: string)

  datatype Container = Container(name: string, volumeMounts: seq<VolumeMount>)

  datatype JobSpec = JobSpec(
    jarFile: string,
    className: Option<string>,
    args: seq<string>,
    fromSavepoint: Option<string>,
    allowNonRestoredState: Option<bool>,
    savepointsDir: Option<string>,
    autoSavepointSeconds: Option<int>,
    savepointGeneration: int,
    parallelism: Option<int>,
    noLoggingToStdout: Option<bool>,
    volumeMounts: seq<VolumeMount>,
    initContainers: seq<Container>,
    restartPolicy: Option<RestartPolicy>,
    cleanupPolicy: Option<CleanupPolicy>,
    cancelRequested: Option<bool>)

  datatype HadoopConfig = HadoopConfig(configMapName: string, mountPath: string)

  datatype GCPServiceAccount = GCPServiceAccount(secretName: string, keyFile: string, mountPath: string)

  datatype GCPConfig = GCPConfig(serviceAccount: Option<GCPServiceAccount>)

  datatype ClusterSpec = ClusterSpec(
    image: ImageSpec,
    jobManager: JobManagerSpec,
    taskManager: TaskManagerSpec,
    job: Option<JobSpec>,
    flinkProperties: map<string, string>,
    hadoopConfig: Option<HadoopConfig>,
    gcpConfig: Option<GCPConfig>)

  predicate CancelRequested(spec: ClusterSpec) {
    spec.job.Some? && spec.job.value.cancelRequested == Some(true)
  }

  /******* Status *******/

  datatype ClusterState =
    | UnsetState
    | Creating
    | Running
    | Reconciling
    | Stopping
    | PartiallyStopped
    | Stopped
    | OtherState(text: string)

  datatype ComponentState = UnsetComponent | NotReady | Ready | Deleted

  datatype JobState = UnsetJob | Pending | JobRunning | Succeeded | Failed | Cancelled

  datatype ComponentStatus = ComponentStatus(name: string, state: ComponentState)

  datatype ServiceStatus = ServiceStatus(name: string, state: ComponentState, nodePort: int)

  datatype IngressStatus = IngressStatus(name: string, state: ComponentState, urls: seq<string>)

  /** `lastSavepointTime` is the instant an RFC 3339 text denotes, in whole seconds. */
  datatype JobStatus = JobStatus(
    name: string,
    id: string,
    state: JobState,
    fromSavepoint: string,
    savepointGeneration: int,
    savepointLocation: string,
    lastSavepointTriggerID: string,
    lastSavepointTime: Option<int>,
    restartCount: int)

  datatype ComponentsStatus = ComponentsStatus(
    configMap: ComponentStatus,
    jobManagerDeployment: ComponentStatus,
    jobManagerService: ServiceStatus,
    jobManagerIngress: Option<IngressStatus>,
    taskManagerDeployment: ComponentStatus,
    job: Option<JobStatus>)

  datatype ClusterStatus = ClusterStatus(state: ClusterState, components: ComponentsStatus)

  const NO_COMPONENT := ComponentStatus("", UnsetComponent)
  const NO_SERVICE := ServiceStatus("", UnsetComponent, 0)
  const NO_JOB := JobStatus("", "", UnsetJob, "", 0, "", "", None, 0)
  const NO_STATUS :=
    ClusterStatus(UnsetState,
                  ComponentsStatus(NO_COMPONENT, NO_COMPONENT, NO_SERVICE, None, NO_COMPONENT, None))

  datatype Cluster = Cluster(name: string, namespace: string, spec: ClusterSpec, status: ClusterStatus)

  /** A job state from which the job does not leave by itself. */
  predicate Terminal(s: JobState) {
    s == Succeeded || s == Failed || s == Cancelled
  }

  /** What the cleanup policy asks for after a job has ended. */
  function ActionAfter(policy: CleanupPolicy, s: JobState): CleanupAction
    requires Terminal(s)
  {
    match s
    case Succeeded => policy.afterJobSucceeds
    case Failed => policy.afterJobFails
    case Cancelled => policy.afterJobCancelled
  }

  /******* Kubernetes and Flink *******/

  datatype ConfigMap = ConfigMap(name: string, flinkConf: string)

  /** Where a pod finds the GCP service account: the mounted secret, and the path of the key file. */
  datatype GCPAccess = GCPAccess(secretName: string, mountPath: string, credentials: string)

  /** `ports` are the container ports and `gcp` the GCP part of the pod. */
  datatype Deployment =
    Deployment(name: string, replicas: int, availableReplicas: int, ports: seq<int>, gcp: Option<GCPAccess>)

  datatype ServiceType = ClusterIP | LoadBalancer | NodePortService | OtherServiceType

  datatype ServicePort = ServicePort(name: string, port: int, nodePort: int)

  datatype Service = Service(
    name: string, serviceType: ServiceType, clusterIP: string, loadBalancerIngress: nat, ports: seq<ServicePort>)

  datatype LoadBalancerIngress = LoadBalancerIngress(hostname: string, ip: string)

  /** `tls` holds the host list of each TLS entry and `ruleHosts` the host of each rule. */
  datatype Ingress = Ingress(
    name: string, tls: seq<seq<string>>, ruleHosts: seq<string>, loadBalancer: seq<LoadBalancerIngress>)

  /** One incarnation of the Kubernetes Job. `submitted` says whether its pod has handed the Flink
      job to the JobManager; the operator cannot see it. */
  datatype Job = Job(name: string, args: seq<string>, initContainers: seq<Container>, gcp: Option<GCPAccess>,
                     failed: nat, succeeded: nat, submitted: bool)
  {
    predicate Finished() {
      failed > 0 || succeeded > 0
    }
  }

  /** Flink gives every job an ID. */
  type FlinkID = s: string | s != "" witness "a"

  datatype FlinkJob = FlinkJob(id: FlinkID, status: string)

  const FLINK_RUNNING := "RUNNING"

  /** Everything one pass has read; None stands for nil. */
  datatype Observation = Observation(
    cluster: Option<Cluster>,
    configMap: Option<ConfigMap>,
    jmDeployment: Option<Deployment>,
    jmService: Option<Service>,
    jmIngress: Option<Ingress>,
    tmDeployment: Option<Deployment>,
    job: Option<Job>,
    flinkJobList: Option<seq<FlinkJob>>,
    flinkRunningJobIDs: seq<string>,
    flinkJobID: Option<string>)

  const NOTHING_OBSERVED := Observation(None, None, None, None, None, None, None, None, [], None)

  datatype Desired = Desired(
    configMap: Option<ConfigMap>,
    jmDeployment: Option<Deployment>,
    jmService: Option<Service>,
    jmIngress: Option<Ingress>,
    tmDeployment: Option<Deployment>,
    job: Option<Job>)
}
