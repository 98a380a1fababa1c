/** The desired state of a cluster (controllers/flinkcluster_converter.go, controllers/flinkcluster_util.go). */
module Converter {
  import opened FlinkTypes
  import opened JobArguments
  import opened Mounts
  import opened FlinkConf

  datatype ComponentKind =
    ConfigMapKind | JobManagerDeploymentKind | JobManagerServiceKind | JobManagerIngressKind | TaskManagerDeploymentKind

  /******* Cleanup and restart *******/

  /** The action the policy asks for in the recorded job state, None while the job has not ended. */
  function ActionOf(c: Cluster): Option<CleanupAction>
    requires CleanupSafe(c)
  {
    var job := c.status.components.job;
    if job.None? || !Terminal(job.value.state) then None
    else Some(ActionAfter(c.spec.job.value.cleanupPolicy.value, job.value.state))
  }

  /** Exactly when shouldCleanup dereferences no nil pointer. */
  predicate CleanupSafe(c: Cluster) {
    var job := c.status.components.job;
    job.Some? && Terminal(job.value.state) ==> c.spec.job.Some? && c.spec.job.value.cleanupPolicy.Some?
  }

  predicate ShouldCleanup(c: Cluster, kind: ComponentKind)
    requires CleanupSafe(c)
  {
    || ActionOf(c) == Some(DeleteCluster)
    || (ActionOf(c) == Some(DeleteTaskManager) && kind == TaskManagerDeploymentKind)
  }

  predicate ShouldRestart(policy: Option<RestartPolicy>, status: Option<JobStatus>) {
    && policy == Some(FromSavepointOnFailure)
    && status.Some?
    && status.value.state == Failed
    && status.value.savepointLocation != ""
  }

  function ConvertFromSavepoint(job: JobSpec, status: Option<JobStatus>): Option<string> {
    if ShouldRestart(job.restartPolicy, status) then Some(status.value.savepointLocation) else job.fromSavepoint
  }

  /******* Nil pointers and panics *******/

  predicate JobManagerPortsSet(spec: ClusterSpec) {
    var p := spec.jobManager.ports;
    p.rpc.Some? && p.blob.Some? && p.query.Some? && p.ui.Some?
  }

  predicate TaskManagerPortsSet(spec: ClusterSpec) {
    var p := spec.taskManager.ports;
    p.data.Some? && p.rpc.Some? && p.query.Some?
  }

  predicate ScopeKnown(s: AccessScope) {
    s == ClusterScope || s == VPC || s == External || s == NodePort
  }

  predicate GCPSafe(spec: ClusterSpec) {
    spec.gcpConfig.Some? ==> spec.gcpConfig.value.serviceAccount.Some?
  }

  predicate WantsJob(spec: ClusterSpec) {
    spec.job.Some? && spec.job.value.cancelRequested != Some(true)
  }

  /** Exactly when computing the desired state neither dereferences a nil pointer nor meets an unknown
      access scope. */
  predicate ConvertSafe(c: Cluster) {
    && CleanupSafe(c)
    && (!ShouldCleanup(c, ConfigMapKind) ==> PropertiesSafe(c.spec))
    && (!ShouldCleanup(c, JobManagerDeploymentKind) ==> JobManagerPortsSet(c.spec) && GCPSafe(c.spec))
    && (!ShouldCleanup(c, JobManagerServiceKind) ==>
          JobManagerPortsSet(c.spec) && ScopeKnown(c.spec.jobManager.accessScope))
    && (!ShouldCleanup(c, TaskManagerDeploymentKind) ==> TaskManagerPortsSet(c.spec) && GCPSafe(c.spec))
    && (WantsJob(c.spec) ==> c.spec.jobManager.ports.ui.Some? && GCPSafe(c.spec))
  }

  /******* Desired resources *******/

  function ConvertGCPConfig(gcp: Option<GCPConfig>): (r: Option<GCPAccess>)
    requires gcp.Some? ==> gcp.value.serviceAccount.Some?
    ensures r.Some? <==> gcp.Some?
    ensures r.Some? ==>
              var account, path := gcp.value.serviceAccount.value, gcp.value.serviceAccount.value.mountPath;
              && r.value.secretName == account.secretName
              && r.value.mountPath != "" && r.value.mountPath[|r.value.mountPath| - 1] == '/'
              && r.value.mountPath == (if path != "" && path[|path| - 1] == '/' then path else path + "/")
              && r.value.credentials == r.value.mountPath + account.keyFile
  {
    if gcp.None? then None
    else
      var account := gcp.value.serviceAccount.value;
      var path := account.mountPath;
      var mount := path + if path != "" && path[|path| - 1] == '/' then "" else "/";
      Some(GCPAccess(account.secretName, mount, mount + account.keyFile))
  }

  ghost function DesiredConfigMap(c: Cluster): Option<ConfigMap>
    requires ConvertSafe(c)
  {
    if ShouldCleanup(c, ConfigMapKind) then None
    else Some(ConfigMap(c.name + "-configmap", ConfText(Properties(c.name, c.spec))))
  }

  function DesiredJobManagerDeployment(c: Cluster): Option<Deployment>
    requires ConvertSafe(c)
  {
    if ShouldCleanup(c, JobManagerDeploymentKind) then None
    else
      var replicas := c.spec.jobManager.replicas;
      var p := c.spec.jobManager.ports;
      Some(Deployment(c.name + "-jobmanager", if replicas.Some? then replicas.value else 1, 0,
                      [p.rpc.value, p.blob.value, p.query.value, p.ui.value], ConvertGCPConfig(c.spec.gcpConfig)))
  }

  function ServiceTypeOf(s: AccessScope): ServiceType
    requires ScopeKnown(s)
  {
    match s
    case ClusterScope => ClusterIP
    case VPC => LoadBalancer
    case External => LoadBalancer
    case NodePort => NodePortService
  }

  function DesiredJobManagerService(c: Cluster): Option<Service>
    requires ConvertSafe(c)
  {
    if ShouldCleanup(c, JobManagerServiceKind) then None
    else
      var p := c.spec.jobManager.ports;
      var ports := [ServicePort("rpc", p.rpc.value, 0), ServicePort("blob", p.blob.value, 0),
                    ServicePort("query", p.query.value, 0), ServicePort("ui", p.ui.value, 0)];
      Some(Service(c.name + "-jobmanager", ServiceTypeOf(c.spec.jobManager.accessScope), "", 0, ports))
  }

  function DesiredJobManagerIngress(c: Cluster): Option<Ingress>
    requires ConvertSafe(c)
  {
    var ingress := c.spec.jobManager.ingress;
    if ingress.None? || ShouldCleanup(c, JobManagerIngressKind) then None
    else
      var host := if ingress.value.hostFormat.Some? then ingress.value.hostFormat.value else "";
      var secret := if ingress.value.tlsSecretName.Some? then ingress.value.tlsSecretName.value else "";
      var tls :=
        if ingress.value.useTLS != Some(true) then []
        else if host != "" then [[host]]
        else if secret != "" then [[]]
        else [];
      Some(Ingress(c.name + "-jobmanager", tls, [host], []))
  }

  function DesiredTaskManagerDeployment(c: Cluster): Option<Deployment>
    requires ConvertSafe(c)
  {
    if ShouldCleanup(c, TaskManagerDeploymentKind) then None
    else
      var p := c.spec.taskManager.ports;
      Some(Deployment(c.name + "-taskmanager", c.spec.taskManager.replicas, 0,
                      [p.data.value, p.rpc.value, p.query.value], ConvertGCPConfig(c.spec.gcpConfig)))
  }

  function MergeAll(containers: seq<Container>, mounts: seq<VolumeMount>): seq<Container> {
    seq(|containers|, i requires 0 <= i < |containers| => MergeContainer(containers[i], mounts))
  }

  /** No job is wanted in a session cluster or once cancellation is requested. */
  function DesiredJob(c: Cluster): Option<Job>
    requires ConvertSafe(c)
  {
    if !WantsJob(c.spec) then None
    else
      var job := c.spec.job.value;
      var savepoint := ConvertFromSavepoint(job, c.status.components.job);
      Some(Job(c.name + "-job",
               JobArgs(c.name, c.spec.jobManager.ports.ui.value, job, savepoint),
               MergeAll(job.initContainers, job.volumeMounts),
               ConvertGCPConfig(c.spec.gcpConfig),
               0, 0, false))
  }

  ghost function DesiredState(c: Cluster): Desired
    requires ConvertSafe(c)
  {
    Desired(DesiredConfigMap(c), DesiredJobManagerDeployment(c), DesiredJobManagerService(c),
            DesiredJobManagerIngress(c), DesiredTaskManagerDeployment(c), DesiredJob(c))
  }

  /** getDesiredClusterState: nothing is desired for a deleted cluster. */
  method GetDesiredClusterState(cluster: Option<Cluster>) returns (desired: Desired)
    requires cluster.Some? ==> ConvertSafe(cluster.value)
    ensures cluster.Some? ==> desired == DesiredState(cluster.value)
    ensures cluster.None? ==> desired == Desired(None, None, None, None, None, None)
  {
    desired := Desired(None, None, None, None, None, None);
    if cluster.Some? {
      var c := cluster.value;
      var configMap := GetDesiredConfigMap(c);
      var job := GetDesiredJob(c);
      desired := Desired(configMap, DesiredJobManagerDeployment(c), DesiredJobManagerService(c),
                         DesiredJobManagerIngress(c), DesiredTaskManagerDeployment(c), job);
    }
  }

  method GetDesiredConfigMap(c: Cluster) returns (configMap: Option<ConfigMap>)
    requires ConvertSafe(c)
    ensures configMap == DesiredConfigMap(c)
  {
    if ShouldCleanup(c, ConfigMapKind) {
      return None;
    }
    var flinkProps := AddUserProperties(OperatorProperties(c.name, c.spec), c.spec.flinkProperties);
    var text := GetFlinkProperties(flinkProps);
    configMap := Some(ConfigMap(c.name + "-configmap", text));
  }

  method GetDesiredJob(c: Cluster) returns (job: Option<Job>)
    requires ConvertSafe(c)
    ensures job == DesiredJob(c)
  {
    if c.spec.job.None? {
      return None;
    }
    var jobSpec := c.spec.job.value;
    if jobSpec.cancelRequested.Some? && jobSpec.cancelRequested.value {
      return None;
    }
    var savepoint := ConvertFromSavepoint(jobSpec, c.status.components.job);
    var args := BuildJobArgs(c.name, c.spec.jobManager.ports.ui.value, jobSpec, savepoint);
    var initContainers := ConvertJobInitContainers(jobSpec);
    assert initContainers == MergeAll(jobSpec.initContainers, jobSpec.volumeMounts);
    job := Some(Job(c.name + "-job", args, initContainers, ConvertGCPConfig(c.spec.gcpConfig), 0, 0, false));
  }

  /** A job that failed with a savepoint recorded is started again from that savepoint: the reader of
      its arguments finds the recorded location. */
  lemma RestartsFromRecordedSavepoint(c: Cluster)
    requires ConvertSafe(c) && WantsJob(c.spec)
    requires ShouldRestart(c.spec.job.value.restartPolicy, c.status.components.job)
    requires c.spec.job.value.className != Some(FROM_SAVEPOINT)
    ensures FromSavepointArg(DesiredJob(c).value.args) == c.status.components.job.value.savepointLocation
  {
    ReadsChosenSavepoint(c.name, c.spec.jobManager.ports.ui.value, c.spec.job.value,
                         c.status.components.job.value.savepointLocation);
  }
}
