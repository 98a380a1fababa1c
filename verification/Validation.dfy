/** The validating webhook (api/v1beta1/flinkcluster_validate.go). */
module Validation {
  import opened FlinkTypes
  import opened Converter
  import opened FlinkConf
  import opened Defaults

  datatype Reason =
    | NameUnspecified | NamespaceUnspecified | HadoopConfigMapUnspecified
    | HadoopMountPathUnspecified | GCPSecretUnspecified | GCPKeyFileUnspecified
    | GCPMountPathUnspecified | GCPMountPathInvalid | ImageUnspecified | PullPolicyInvalid
    | PortUnspecified | PortInvalid | OffHeapRatioInvalid | OffHeapMinAboveLimit
    | JobManagerReplicasInvalid | AccessScopeInvalid | TaskManagerReplicasInvalid
    | CleanupActionInvalid | JarFileUnspecified | ParallelismUnspecified | ParallelismInvalid
    | RestartPolicyUnspecified | RestartPolicyInvalid | CleanupPolicyUnspecified
    | CancelRequestedAtCreation | CancelWithdrawn | GenerationNotNext | PropertiesImmutable

  /** A nil error or the first one met. */
  datatype Verdict = Ok | Rejected(reason: Reason) {
    function Then(next: Verdict): Verdict {
      if Ok? then next else this
    }
  }

  function Check(ok: bool, reason: Reason): Verdict {
    if ok then Ok else Rejected(reason)
  }

  /******* Create *******/

  function ValidateMeta(name: string, namespace: string): Verdict {
    Check(name != "", NameUnspecified)
    .Then(Check(namespace != "", NamespaceUnspecified))
  }

  function ValidateHadoopConfig(h: Option<HadoopConfig>): Verdict {
    if h.None? then Ok
    else
      Check(h.value.configMapName != "", HadoopConfigMapUnspecified)
      .Then(Check(h.value.mountPath != "", HadoopMountPathUnspecified))
  }

  predicate HasSuffix(s: string, suffix: string) {
    |suffix| <= |s| && s[|s| - |suffix|..] == suffix
  }

  function ValidateGCPConfig(g: Option<GCPConfig>): Verdict {
    if g.None? || g.value.serviceAccount.None? then Ok
    else
      var sa := g.value.serviceAccount.value;
      Check(sa.secretName != "", GCPSecretUnspecified)
      .Then(Check(sa.keyFile != "", GCPKeyFileUnspecified))
      .Then(Check(sa.mountPath != "", GCPMountPathUnspecified))
      .Then(Check(!HasSuffix(sa.mountPath, sa.keyFile), GCPMountPathInvalid))
  }

  function ValidateImage(i: ImageSpec): Verdict {
    Check(i.name != "", ImageUnspecified)
    .Then(Check(i.pullPolicy == Always || i.pullPolicy == IfNotPresent || i.pullPolicy == NeverPull,
                PullPolicyInvalid))
  }

  function ValidatePort(p: Option<int>): Verdict {
    if p.None? then Rejected(PortUnspecified) else Check(p.value > 1024, PortInvalid)
  }

  function ValidateMemoryOffHeapRatio(r: Option<int>): Verdict {
    Check(r.Some? && 0 <= r.value <= 100, OffHeapRatioInvalid)
  }

  function ValidateMemoryOffHeapMin(min: Option<int>, limit: int): Verdict {
    Check(!(limit > 0 && min.Some? && min.value > limit), OffHeapMinAboveLimit)
  }

  function ValidateJobManager(jm: JobManagerSpec): Verdict {
    Check(jm.replicas == Some(1), JobManagerReplicasInvalid)
    .Then(Check(ScopeKnown(jm.accessScope), AccessScopeInvalid))
    .Then(ValidatePort(jm.ports.rpc))
    .Then(ValidatePort(jm.ports.blob))
    .Then(ValidatePort(jm.ports.query))
    .Then(ValidatePort(jm.ports.ui))
    .Then(ValidateMemoryOffHeapRatio(jm.memoryOffHeapRatio))
    .Then(ValidateMemoryOffHeapMin(jm.memoryOffHeapMin, jm.memoryLimit))
  }

  function ValidateTaskManager(tm: TaskManagerSpec): Verdict {
    Check(tm.replicas >= 1, TaskManagerReplicasInvalid)
    .Then(ValidatePort(tm.ports.rpc))
    .Then(ValidatePort(tm.ports.data))
    .Then(ValidatePort(tm.ports.query))
    .Then(ValidateMemoryOffHeapRatio(tm.memoryOffHeapRatio))
    .Then(ValidateMemoryOffHeapMin(tm.memoryOffHeapMin, tm.memoryLimit))
  }

  function ValidateCleanupAction(a: CleanupAction): Verdict {
    Check(!a.OtherAction?, CleanupActionInvalid)
  }

  function ValidateJob(job: Option<JobSpec>): Verdict {
    if job.None? then Ok
    else
      var j := job.value;
      Check(j.jarFile != "", JarFileUnspecified)
      .Then(Check(j.parallelism.Some?, ParallelismUnspecified))
      .Then(Check(j.parallelism.Some? ==> j.parallelism.value >= 1, ParallelismInvalid))
      .Then(Check(j.restartPolicy.Some?, RestartPolicyUnspecified))
      .Then(Check(j.restartPolicy.Some? ==> !j.restartPolicy.value.OtherRestartPolicy?, RestartPolicyInvalid))
      .Then(if j.cleanupPolicy.None? then Rejected(CleanupPolicyUnspecified)
            else ValidateCleanupAction(j.cleanupPolicy.value.afterJobSucceeds)
                 .Then(ValidateCleanupAction(j.cleanupPolicy.value.afterJobFails)))
      .Then(Check(j.cancelRequested != Some(true), CancelRequestedAtCreation))
  }

  function ValidateCreate(c: Cluster): Verdict {
    ValidateMeta(c.name, c.namespace)
    .Then(ValidateHadoopConfig(c.spec.hadoopConfig))
    .Then(ValidateGCPConfig(c.spec.gcpConfig))
    .Then(ValidateImage(c.spec.image))
    .Then(ValidateJobManager(c.spec.jobManager))
    .Then(ValidateTaskManager(c.spec.taskManager))
    .Then(ValidateJob(c.spec.job))
  }

  /** What the controllers rely on in an admitted spec. It says nothing of the action after a cancelled
      job nor of a missing GCP service account, which admission does not look at. */
  predicate SpecReady(spec: ClusterSpec) {
    && JobManagerPortsSet(spec) && TaskManagerPortsSet(spec) && PropertiesSafe(spec)
    && ScopeKnown(spec.jobManager.accessScope)
    && (spec.job.Some? ==> spec.job.value.jarFile != "" && spec.job.value.cleanupPolicy.Some?)
  }

  lemma AdmittedIsReady(c: Cluster)
    requires ValidateCreate(c).Ok?
    ensures SpecReady(c.spec) && !CancelRequested(c.spec)
  {
    AdmittedByParts(c);
  }

  predicate MinimalJobManager(jm: JobManagerSpec) {
    && jm.replicas.None? && jm.accessScope == UnsetScope && jm.memoryLimit == 0
    && jm.ports == JobManagerPorts(None, None, None, None) && jm.memoryOffHeapRatio.None?
  }

  predicate MinimalTaskManager(tm: TaskManagerSpec) {
    tm.memoryLimit == 0 && tm.ports == TaskManagerPorts(None, None, None) && tm.memoryOffHeapRatio.None?
  }

  predicate MinimalJob(j: JobSpec) {
    j.parallelism.None? && j.restartPolicy.None? && j.cleanupPolicy.None? && j.cancelRequested.None?
  }

  /** A spec that leaves out everything it may leave out. */
  predicate Minimal(spec: ClusterSpec) {
    && MinimalJobManager(spec.jobManager) && MinimalTaskManager(spec.taskManager)
    && (spec.job.Some? ==> MinimalJob(spec.job.value))
    && spec.image.pullPolicy == UnsetPullPolicy && spec.hadoopConfig.None? && spec.gcpConfig.None?
  }

  lemma JobManagerDefaultSuffices(jm: JobManagerSpec)
    requires MinimalJobManager(jm)
    ensures ValidateJobManager(JobManagerDefault(jm)).Ok?
  {
  }

  lemma TaskManagerDefaultSuffices(tm: TaskManagerSpec)
    requires MinimalTaskManager(tm)
    ensures ValidateTaskManager(TaskManagerDefault(tm)).Ok? <==> tm.replicas >= 1
  {
  }

  lemma JobDefaultSuffices(j: JobSpec)
    requires MinimalJob(j)
    ensures ValidateJob(Some(JobDefault(j))).Ok? <==> j.jarFile != ""
  {
  }

  lemma AdmittedByParts(c: Cluster)
    ensures ValidateCreate(c).Ok? <==>
            && ValidateMeta(c.name, c.namespace).Ok? && ValidateHadoopConfig(c.spec.hadoopConfig).Ok?
            && ValidateGCPConfig(c.spec.gcpConfig).Ok? && ValidateImage(c.spec.image).Ok?
            && ValidateJobManager(c.spec.jobManager).Ok? && ValidateTaskManager(c.spec.taskManager).Ok?
            && ValidateJob(c.spec.job).Ok?
  {
  }

  predicate UserPort(p: Option<int>) {
    p.Some? && p.value > 1024
  }

  predicate Percentage(p: Option<int>) {
    p.Some? && 0 <= p.value <= 100
  }

  lemma JobManagerAdmittedIff(jm: JobManagerSpec)
    ensures ValidateJobManager(jm).Ok? <==>
            && jm.replicas == Some(1)
            && (jm.accessScope == ClusterScope || jm.accessScope == VPC || jm.accessScope == External
                || jm.accessScope == NodePort)
            && UserPort(jm.ports.rpc) && UserPort(jm.ports.blob) && UserPort(jm.ports.query) && UserPort(jm.ports.ui)
            && Percentage(jm.memoryOffHeapRatio)
            && (jm.memoryLimit > 0 && jm.memoryOffHeapMin.Some? ==> jm.memoryOffHeapMin.value <= jm.memoryLimit)
  {
  }

  lemma TaskManagerAdmittedIff(tm: TaskManagerSpec)
    ensures ValidateTaskManager(tm).Ok? <==>
            && tm.replicas >= 1
            && UserPort(tm.ports.data) && UserPort(tm.ports.rpc) && UserPort(tm.ports.query)
            && Percentage(tm.memoryOffHeapRatio)
            && (tm.memoryLimit > 0 && tm.memoryOffHeapMin.Some? ==> tm.memoryOffHeapMin.value <= tm.memoryLimit)
  {
  }

  lemma JobAdmittedIff(j: JobSpec)
    ensures ValidateJob(Some(j)).Ok? <==>
            && j.jarFile != ""
            && j.parallelism.Some? && j.parallelism.value >= 1
            && (j.restartPolicy == Some(Never) || j.restartPolicy == Some(FromSavepointOnFailure))
            && j.cleanupPolicy.Some?
            && j.cleanupPolicy.value.afterJobSucceeds in {KeepCluster, DeleteCluster, DeleteTaskManager}
            && j.cleanupPolicy.value.afterJobFails in {KeepCluster, DeleteCluster, DeleteTaskManager}
            && j.cancelRequested != Some(true)
  {
  }

  lemma GCPAdmittedIff(g: Option<GCPConfig>)
    ensures ValidateGCPConfig(g).Ok? <==>
            (g.Some? && g.value.serviceAccount.Some? ==>
               var account := g.value.serviceAccount.value;
               var extra := |account.mountPath| - |account.keyFile|;
               && account.secretName != "" && account.keyFile != "" && account.mountPath != ""
               && !(extra >= 0 && account.mountPath[extra..] == account.keyFile))
  {
  }

  /** Admission, field by field: exactly these clusters are let through. The action after a cancelled job and
      a missing GCP service account are not looked at. */
  lemma AdmittedIff(c: Cluster)
    ensures var s := c.spec;
            ValidateCreate(c).Ok? <==>
            && c.name != "" && c.namespace != "" && s.image.name != ""
            && (s.image.pullPolicy == Always || s.image.pullPolicy == IfNotPresent || s.image.pullPolicy == NeverPull)
            && (s.hadoopConfig.Some? ==>
                  s.hadoopConfig.value.configMapName != "" && s.hadoopConfig.value.mountPath != "")
            && (s.gcpConfig.Some? && s.gcpConfig.value.serviceAccount.Some? ==>
                  var account := s.gcpConfig.value.serviceAccount.value;
                  var extra := |account.mountPath| - |account.keyFile|;
                  && account.secretName != "" && account.keyFile != "" && account.mountPath != ""
                  && !(extra >= 0 && account.mountPath[extra..] == account.keyFile))
            && s.jobManager.replicas == Some(1)
            && (s.jobManager.accessScope == ClusterScope || s.jobManager.accessScope == VPC
                || s.jobManager.accessScope == External || s.jobManager.accessScope == NodePort)
            && UserPort(s.jobManager.ports.rpc) && UserPort(s.jobManager.ports.blob)
            && UserPort(s.jobManager.ports.query) && UserPort(s.jobManager.ports.ui)
            && Percentage(s.jobManager.memoryOffHeapRatio)
            && (s.jobManager.memoryLimit > 0 && s.jobManager.memoryOffHeapMin.Some? ==>
                  s.jobManager.memoryOffHeapMin.value <= s.jobManager.memoryLimit)
            && s.taskManager.replicas >= 1
            && UserPort(s.taskManager.ports.data) && UserPort(s.taskManager.ports.rpc)
            && UserPort(s.taskManager.ports.query)
            && Percentage(s.taskManager.memoryOffHeapRatio)
            && (s.taskManager.memoryLimit > 0 && s.taskManager.memoryOffHeapMin.Some? ==>
                  s.taskManager.memoryOffHeapMin.value <= s.taskManager.memoryLimit)
            && (s.job.Some? ==>
                  var j := s.job.value;
                  && j.jarFile != "" && j.parallelism.Some? && j.parallelism.value >= 1
                  && (j.restartPolicy == Some(Never) || j.restartPolicy == Some(FromSavepointOnFailure))
                  && j.cleanupPolicy.Some?
                  && j.cleanupPolicy.value.afterJobSucceeds in {KeepCluster, DeleteCluster, DeleteTaskManager}
                  && j.cleanupPolicy.value.afterJobFails in {KeepCluster, DeleteCluster, DeleteTaskManager}
                  && j.cancelRequested != Some(true))
  {
    AdmittedByParts(c);
    GCPAdmittedIff(c.spec.gcpConfig);
    JobManagerAdmittedIff(c.spec.jobManager);
    TaskManagerAdmittedIff(c.spec.taskManager);
    if c.spec.job.Some? {
      JobAdmittedIff(c.spec.job.value);
    }
  }

  predicate LowPort(p: Option<int>) {
    p.Some? && p.value <= 1024
  }

  /** What a reason says is wrong with a new cluster. */
  predicate Violates(c: Cluster, reason: Reason) {
    var s, jm, tm := c.spec, c.spec.jobManager, c.spec.taskManager;
    match reason
    case NameUnspecified => c.name == ""
    case NamespaceUnspecified => c.namespace == ""
    case HadoopConfigMapUnspecified => s.hadoopConfig.Some? && s.hadoopConfig.value.configMapName == ""
    case HadoopMountPathUnspecified => s.hadoopConfig.Some? && s.hadoopConfig.value.mountPath == ""
    case GCPSecretUnspecified => HasAccount(s) && s.gcpConfig.value.serviceAccount.value.secretName == ""
    case GCPKeyFileUnspecified => HasAccount(s) && s.gcpConfig.value.serviceAccount.value.keyFile == ""
    case GCPMountPathUnspecified => HasAccount(s) && s.gcpConfig.value.serviceAccount.value.mountPath == ""
    case GCPMountPathInvalid =>
      && HasAccount(s)
      && var account := s.gcpConfig.value.serviceAccount.value;
         var extra := |account.mountPath| - |account.keyFile|;
         extra >= 0 && account.mountPath[extra..] == account.keyFile
    case ImageUnspecified => s.image.name == ""
    case PullPolicyInvalid => s.image.pullPolicy == UnsetPullPolicy || s.image.pullPolicy.OtherPullPolicy?
    case JobManagerReplicasInvalid => jm.replicas != Some(1)
    case AccessScopeInvalid => jm.accessScope == UnsetScope || jm.accessScope.OtherScope?
    case TaskManagerReplicasInvalid => tm.replicas < 1
    case PortUnspecified =>
      || jm.ports.rpc.None? || jm.ports.blob.None? || jm.ports.query.None? || jm.ports.ui.None?
      || tm.ports.data.None? || tm.ports.rpc.None? || tm.ports.query.None?
    case PortInvalid =>
      || LowPort(jm.ports.rpc) || LowPort(jm.ports.blob) || LowPort(jm.ports.query) || LowPort(jm.ports.ui)
      || LowPort(tm.ports.data) || LowPort(tm.ports.rpc) || LowPort(tm.ports.query)
    case OffHeapRatioInvalid => !Percentage(jm.memoryOffHeapRatio) || !Percentage(tm.memoryOffHeapRatio)
    case OffHeapMinAboveLimit =>
      || (jm.memoryLimit > 0 && jm.memoryOffHeapMin.Some? && jm.memoryOffHeapMin.value > jm.memoryLimit)
      || (tm.memoryLimit > 0 && tm.memoryOffHeapMin.Some? && tm.memoryOffHeapMin.value > tm.memoryLimit)
    case JarFileUnspecified => s.job.Some? && s.job.value.jarFile == ""
    case ParallelismUnspecified => s.job.Some? && s.job.value.parallelism.None?
    case ParallelismInvalid => s.job.Some? && s.job.value.parallelism.Some? && s.job.value.parallelism.value < 1
    case RestartPolicyUnspecified => s.job.Some? && s.job.value.restartPolicy.None?
    case RestartPolicyInvalid =>
      s.job.Some? && s.job.value.restartPolicy.Some? && s.job.value.restartPolicy.value.OtherRestartPolicy?
    case CleanupPolicyUnspecified => s.job.Some? && s.job.value.cleanupPolicy.None?
    case CleanupActionInvalid =>
      && s.job.Some? && s.job.value.cleanupPolicy.Some?
      && (|| s.job.value.cleanupPolicy.value.afterJobSucceeds.OtherAction?
          || s.job.value.cleanupPolicy.value.afterJobFails.OtherAction?)
    case CancelRequestedAtCreation => s.job.Some? && s.job.value.cancelRequested == Some(true)
    case CancelWithdrawn => false
    case GenerationNotNext => false
    case PropertiesImmutable => false
  }

  predicate HasAccount(s: ClusterSpec) {
    s.gcpConfig.Some? && s.gcpConfig.value.serviceAccount.Some?
  }

  /** A cluster is rejected for a reason that holds of it. */
  lemma RejectedForAReason(c: Cluster)
    ensures ValidateCreate(c).Rejected? ==> Violates(c, ValidateCreate(c).reason)
  {
    var v := ValidateMeta(c.name, c.namespace);
    assert v.Rejected? ==> Violates(c, v.reason);
    var h := ValidateHadoopConfig(c.spec.hadoopConfig);
    assert h.Rejected? ==> Violates(c, h.reason);
    var g := ValidateGCPConfig(c.spec.gcpConfig);
    assert g.Rejected? ==> Violates(c, g.reason);
    JobManagerRejected(c);
    TaskManagerRejected(c);
    JobRejected(c);
  }

  lemma JobManagerRejected(c: Cluster)
    ensures var v := ValidateJobManager(c.spec.jobManager);
            v.Rejected? ==> Violates(c, v.reason)
  {
  }

  lemma TaskManagerRejected(c: Cluster)
    ensures var v := ValidateTaskManager(c.spec.taskManager);
            v.Rejected? ==> Violates(c, v.reason)
  {
  }

  lemma JobRejected(c: Cluster)
    ensures var v := ValidateJob(c.spec.job);
            v.Rejected? ==> Violates(c, v.reason)
  {
  }

  /** Once defaulted, such a spec lacks only what has no default: names, replicas and the JAR file. */
  lemma DefaultsSuffice(c: Cluster)
    requires Minimal(c.spec)
    ensures ValidateCreate(c.(spec := SpecDefault(c.spec))).Ok? <==>
            && c.name != "" && c.namespace != "" && c.spec.image.name != ""
            && c.spec.taskManager.replicas >= 1
            && (c.spec.job.Some? ==> c.spec.job.value.jarFile != "")
  {
    AdmittedByParts(c.(spec := SpecDefault(c.spec)));
    JobManagerDefaultSuffices(c.spec.jobManager);
    TaskManagerDefaultSuffices(c.spec.taskManager);
    if c.spec.job.Some? {
      JobDefaultSuffices(c.spec.job.value);
    }
  }

  /******* Update *******/

  datatype Answer = Answer(applies: bool, error: Verdict)

  function CheckCancelRequested(current: Cluster, updated: Cluster): Answer {
    if current.spec.job.None? || updated.spec.job.None? then Answer(false, Ok)
    else
      var before, now := CancelRequested(current.spec), CancelRequested(updated.spec);
      if before && !now then Answer(false, Rejected(CancelWithdrawn))
      else if !before && now then
        var job := current.spec.job.value.(cancelRequested := updated.spec.job.value.cancelRequested);
        Answer(updated.spec == current.spec.(job := Some(job)), Ok)
      else Answer(false, Ok)
  }

  function StatusGeneration(status: ClusterStatus): int {
    if status.components.job.Some? then status.components.job.value.savepointGeneration else 0
  }

  function CheckSavepointGeneration(current: Cluster, updated: Cluster): Answer {
    if current.spec.job.None? || updated.spec.job.None? then Answer(false, Ok)
    else
      var newGeneration := updated.spec.job.value.savepointGeneration;
      if current.spec.job.value.savepointGeneration == newGeneration then Answer(false, Ok)
      else if newGeneration != Wrap32(StatusGeneration(current.status) + 1) then
        Answer(false, Rejected(GenerationNotNext))
      else
        var job := current.spec.job.value.(savepointGeneration := newGeneration);
        Answer(updated.spec == current.spec.(job := Some(job)), Ok)
  }

  function ValidateUpdate(current: Cluster, updated: Cluster): Verdict {
    var cancel := CheckCancelRequested(current, updated);
    if cancel.error.Rejected? then cancel.error
    else if cancel.applies then Ok
    else
      var savepoint := CheckSavepointGeneration(current, updated);
      if savepoint.error.Rejected? then savepoint.error
      else if savepoint.applies then Ok
      else Check(updated.spec == current.spec, PropertiesImmutable)
  }

  /** The spec with cancellation requested. */
  function WithCancel(spec: ClusterSpec): ClusterSpec
    requires spec.job.Some?
  {
    spec.(job := Some(spec.job.value.(cancelRequested := Some(true))))
  }

  /** The spec with another savepoint generation. */
  function WithGeneration(spec: ClusterSpec, g: int): ClusterSpec
    requires spec.job.Some?
  {
    spec.(job := Some(spec.job.value.(savepointGeneration := g)))
  }

  /** An update is admitted exactly when it changes nothing, or only requests the cancellation of a job
      for which none was requested, or only asks for the savepoint after the recorded one. */
  lemma UpdateAdmittedIff(current: Cluster, updated: Cluster)
    ensures ValidateUpdate(current, updated).Ok? <==>
            || updated.spec == current.spec
            || (current.spec.job.Some? && !CancelRequested(current.spec) && updated.spec == WithCancel(current.spec))
            || (current.spec.job.Some?
                && updated.spec == WithGeneration(current.spec, Wrap32(StatusGeneration(current.status) + 1)))
  {
    if current.spec.job.Some? {
      assert CancelRequested(WithCancel(current.spec));
      var next := WithGeneration(current.spec, Wrap32(StatusGeneration(current.status) + 1));
      assert CancelRequested(next) == CancelRequested(current.spec);
    }
  }

  /** Why an update is rejected: it withdraws a cancellation, asks for another savepoint than the next, or
      changes something else. */
  lemma UpdateRejectedBecause(current: Cluster, updated: Cluster)
    ensures var v, before, now := ValidateUpdate(current, updated), current.spec.job, updated.spec.job;
            v.Rejected? ==>
              && (v.reason == CancelWithdrawn <==>
                  before.Some? && now.Some? && CancelRequested(current.spec) && !CancelRequested(updated.spec))
              && (v.reason == GenerationNotNext ==>
                    && before.Some? && now.Some? && before.value.savepointGeneration != now.value.savepointGeneration
                    && now.value.savepointGeneration != Wrap32(StatusGeneration(current.status) + 1))
              && (v.reason == PropertiesImmutable ==> updated.spec != current.spec)
              && (v.reason == CancelWithdrawn || v.reason == GenerationNotNext || v.reason == PropertiesImmutable)
  {
  }
}
