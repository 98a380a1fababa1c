/** Deriving the cluster status from the recorded status and an observation
    (controllers/flinkcluster_updater.go). */
module StatusUpdater {
  import opened FlinkTypes
  import opened JobArguments

  /******* JobManager service and ingress *******/

  function DeploymentState(d: Deployment): (s: ComponentState) {
    if d.availableReplicas >= d.replicas then Ready else NotReady
  }

  /** What makes a service of each type reachable. */
  predicate ServiceReady(s: Service) {
    match s.serviceType
    case ClusterIP => s.clusterIP != ""
    case LoadBalancer => s.loadBalancerIngress > 0
    case NodePortService => s.ports != []
    case OtherServiceType => false
  }

  function ServiceState(s: Service): (state: ComponentState) {
    if ServiceReady(s) then Ready else if s.serviceType.OtherServiceType? then UnsetComponent else NotReady
  }

  /** The node port of the last port named "ui", 0 if there is none. */
  function UINodePort(ports: seq<ServicePort>): int {
    if ports == [] then 0
    else
      var last := ports[|ports| - 1];
      if last.name == "ui" then last.nodePort else UINodePort(ports[..|ports| - 1])
  }

  function ServiceStatusOf(s: Service): ServiceStatus {
    ServiceStatus(s.name, ServiceState(s), if s.serviceType.NodePortService? then UINodePort(s.ports) else 0)
  }

  /** The last load balancer address, "" if there is none: an entry without an address repeats the one before. */
  function Address(lb: seq<LoadBalancerIngress>): string {
    if lb == [] then ""
    else
      var last := lb[|lb| - 1];
      if last.hostname != "" then last.hostname
      else if last.ip != "" then last.ip
      else Address(lb[..|lb| - 1])
  }

  function HostURLs(scheme: string, hosts: seq<string>): seq<string> {
    if hosts == [] then []
    else
      var last := hosts[|hosts| - 1];
      HostURLs(scheme, hosts[..|hosts| - 1]) + if last != "" then [scheme + last] else []
  }

  function TLSURLs(tls: seq<seq<string>>): seq<string> {
    if tls == [] then [] else TLSURLs(tls[..|tls| - 1]) + HostURLs("https://", tls[|tls| - 1])
  }

  function AddressURLs(scheme: string, lb: seq<LoadBalancerIngress>): seq<string> {
    if lb == [] then []
    else AddressURLs(scheme, lb[..|lb| - 1]) + if Address(lb) != "" then [scheme + Address(lb)] else []
  }

  function IngressHostURLs(i: Ingress): seq<string> {
    if i.tls != [] then TLSURLs(i.tls) else HostURLs("http://", i.ruleHosts)
  }

  function IngressStatusOf(i: Ingress): IngressStatus {
    var hostURLs := IngressHostURLs(i);
    IngressStatus(
      i.name,
      if Address(i.loadBalancer) != "" then Ready else NotReady,
      if hostURLs != [] then hostURLs
      else AddressURLs(if i.tls != [] then "https://" else "http://", i.loadBalancer))
  }

  /** The ingress is ready exactly when some load balancer entry carries a host name or an address. */
  lemma {:induction false} IngressReadyIffAddressed(i: Ingress)
    ensures IngressStatusOf(i).state == Ready
       <==> exists k :: 0 <= k < |i.loadBalancer| && (i.loadBalancer[k].hostname != "" || i.loadBalancer[k].ip != "")
  {
    AddressFound(i.loadBalancer);
  }

  lemma {:induction false} AddressFound(lb: seq<LoadBalancerIngress>)
    ensures Address(lb) != "" <==> exists k :: 0 <= k < |lb| && (lb[k].hostname != "" || lb[k].ip != "")
  {
    if lb != [] {
      var init := lb[..|lb| - 1];
      AddressFound(init);
      if k :| 0 <= k < |init| && (init[k].hostname != "" || init[k].ip != "") {
        assert lb[k] == init[k];
      }
      if Address(init) == "" {
        assert forall k :: 0 <= k < |init| ==> init[k] == lb[k];
      }
    }
  }

  /******* Components *******/

  /** A component that is gone keeps its recorded name and becomes Deleted; one never seen stays unset. */
  function ComponentOf(seen: Option<ComponentStatus>, recorded: ComponentStatus): ComponentStatus {
    if seen.Some? then seen.value
    else if recorded.name != "" then ComponentStatus(recorded.name, Deleted)
    else NO_COMPONENT
  }

  function DeploymentOf(d: Option<Deployment>, recorded: ComponentStatus): ComponentStatus {
    ComponentOf(if d.Some? then Some(ComponentStatus(d.value.name, DeploymentState(d.value))) else None, recorded)
  }

  function ConfigMapOf(c: Option<ConfigMap>, recorded: ComponentStatus): ComponentStatus {
    ComponentOf(if c.Some? then Some(ComponentStatus(c.value.name, Ready)) else None, recorded)
  }

  function ServiceOf(s: Option<Service>, recorded: ServiceStatus): ServiceStatus {
    if s.Some? then ServiceStatusOf(s.value)
    else if recorded.name != "" then ServiceStatus(recorded.name, Deleted, 0)
    else NO_SERVICE
  }

  function IngressOf(i: Option<Ingress>, recorded: Option<IngressStatus>): Option<IngressStatus> {
    if i.Some? then Some(IngressStatusOf(i.value))
    else if recorded.Some? && recorded.value.name != "" then Some(IngressStatus(recorded.value.name, Deleted, []))
    else None
  }

  function One(b: bool): nat {
    if b then 1 else 0
  }

  /** The Ready entries among the three components that are counted. */
  function RunningComponents(c: ComponentsStatus): nat {
    One(c.jobManagerDeployment.state == Ready)
    + One(c.jobManagerService.state == Ready)
    + One(c.taskManagerDeployment.state == Ready)
  }

  /******* Job *******/

  /** The Flink job ID: the observed one if it is not empty, else the recorded one if it is not empty. */
  function FlinkJobID(observed: Option<string>, recorded: Option<JobStatus>): Option<string> {
    if observed.Some? && observed.value != "" then observed
    else if recorded.Some? && recorded.value.id != "" then Some(recorded.value.id)
    else None
  }

  function ObservedJobState(job: Job, id: Option<string>): JobState {
    if job.failed > 0 then Failed
    else if job.succeeded > 0 then Succeeded
    else if id.None? then Pending
    else JobRunning
  }

  function JobStatusOf(recorded: Option<JobStatus>, job: Option<Job>, observedID: Option<string>, cancel: bool)
    : Option<JobStatus>
  {
    if job.Some? then
      var base := if recorded.Some? then recorded.value else NO_JOB;
      var id := FlinkJobID(observedID, recorded);
      var restarted := !job.value.Finished() && (base.state == Failed || base.state == Cancelled);
      Some(base.(name := job.value.name,
                 fromSavepoint := FromSavepointArg(job.value.args),
                 id := if id.Some? then id.value else base.id,
                 state := ObservedJobState(job.value, id),
                 restartCount := if restarted then Wrap32(base.restartCount + 1) else base.restartCount))
    else if recorded.Some? && cancel then Some(recorded.value.(state := Cancelled))
    else recorded
  }

  /** How the job has ended as far as this derivation can tell. */
  datatype Ending = NotEnded | EndedUnexplained | EndedAs(state: JobState)

  function EndingOf(recorded: Option<JobStatus>, job: Option<Job>, cancel: bool): Ending {
    if job.Some? then
      if job.value.failed > 0 then EndedAs(Failed)
      else if job.value.succeeded > 0 then EndedAs(Succeeded)
      else NotEnded
    else if recorded.None? then NotEnded
    else if cancel then EndedAs(Cancelled)
    else EndedUnexplained
  }

  /******* Cluster *******/

  predicate Active(s: ClusterState) {
    s == Running || s == Reconciling
  }

  predicate Winding(s: ClusterState) {
    s == Stopping || s == PartiallyStopped
  }

  /** Where a state stands on the way from creation to the end. */
  function Rank(s: ClusterState): nat {
    if Winding(s) then 2 else if s == Stopped then 3 else if Active(s) then 1 else 0
  }

  predicate CleansUp(spec: ClusterSpec, e: Ending) {
    && e.EndedAs?
    && Terminal(e.state)
    && spec.job.Some?
    && spec.job.value.cleanupPolicy.Some?
    && ActionAfter(spec.job.value.cleanupPolicy.value, e.state) != KeepCluster
  }

  function ClusterStateOf(recorded: ClusterState, running: nat, e: Ending, spec: ClusterSpec): ClusterState {
    if Active(recorded) then
      if CleansUp(spec, e) then Stopping
      else if e.NotEnded? && running < 3 then Reconciling
      else Running
    else if Winding(recorded) then
      if running == 0 then Stopped else if running < 3 then PartiallyStopped else Stopping
    else if recorded == Stopped then Stopped
    else if running < 3 then Creating
    else Running
  }

  /** Exactly when deriving reaches neither a nil pointer nor the unknown-state panic. */
  predicate DeriveSafe(recorded: ClusterStatus, o: Observation) {
    && o.cluster.Some?
    && !recorded.state.OtherState?
    && var spec := o.cluster.value.spec;
       var e := EndingOf(recorded.components.job, o.job, CancelRequested(spec));
       && (o.job.None? && recorded.components.job.Some? ==> spec.job.Some?)
       && (Active(recorded.state) && !e.NotEnded? ==> spec.job.Some?)
       && (Active(recorded.state) && e.EndedAs? ==> spec.job.Some? && spec.job.value.cleanupPolicy.Some?)
  }

  function ComponentsOf(recorded: ComponentsStatus, o: Observation): ComponentsStatus
    requires o.cluster.Some?
  {
    ComponentsStatus(
      ConfigMapOf(o.configMap, recorded.configMap),
      DeploymentOf(o.jmDeployment, recorded.jobManagerDeployment),
      ServiceOf(o.jmService, recorded.jobManagerService),
      IngressOf(o.jmIngress, recorded.jobManagerIngress),
      DeploymentOf(o.tmDeployment, recorded.taskManagerDeployment),
      JobStatusOf(recorded.job, o.job, o.flinkJobID, CancelRequested(o.cluster.value.spec)))
  }

  /** The status the derivation yields. */
  function StatusOf(recorded: ClusterStatus, o: Observation): ClusterStatus
    requires DeriveSafe(recorded, o)
  {
    var spec := o.cluster.value.spec;
    var components := ComponentsOf(recorded.components, o);
    var e := EndingOf(recorded.components.job, o.job, CancelRequested(spec));
    ClusterStatus(ClusterStateOf(recorded.state, RunningComponents(components), e, spec), components)
  }

  /** Exactly when comparing dereferences no nil ingress status. */
  predicate CompareSafe(before: ClusterStatus, after: ClusterStatus) {
    before.components.jobManagerIngress.Some? ==> after.components.jobManagerIngress.Some?
  }

  /** The comparison sees everything but the name and the URLs of the ingress. */
  predicate Changed(before: ClusterStatus, after: ClusterStatus)
    requires CompareSafe(before, after)
  {
    var beforeIngress, afterIngress := before.components.jobManagerIngress, after.components.jobManagerIngress;
    || (beforeIngress.None? && afterIngress.Some?)
    || (beforeIngress.Some? && beforeIngress.value.state != afterIngress.value.state)
    || before != after.(components := after.components.(jobManagerIngress := beforeIngress))
  }

  /******* The code *******/

  method DeriveServiceStatus(s: Service) returns (status: ServiceStatus, ready: bool)
    ensures status == ServiceStatusOf(s)
    ensures ready <==> status.state == Ready
  {
    var state := UnsetComponent;
    var nodePort := 0;
    ready := false;
    if s.serviceType == ClusterIP {
      if s.clusterIP != "" {
        state, ready := Ready, true;
      } else {
        state := NotReady;
      }
    } else if s.serviceType == LoadBalancer {
      if s.loadBalancerIngress > 0 {
        state, ready := Ready, true;
      } else {
        state := NotReady;
      }
    } else if s.serviceType == NodePortService {
      if |s.ports| > 0 {
        state, ready := Ready, true;
        for i := 0 to |s.ports|
          invariant nodePort == UINodePort(s.ports[..i])
        {
          assert s.ports[..i + 1][..i] == s.ports[..i];
          if s.ports[i].name == "ui" {
            nodePort := s.ports[i].nodePort;
          }
        }
        assert s.ports[..|s.ports|] == s.ports;
      } else {
        state := NotReady;
      }
    }
    status := ServiceStatus(s.name, state, nodePort);
  }

  method DeriveHostURLs(scheme: string, hosts: seq<string>, start: seq<string>) returns (urls: seq<string>)
    ensures urls == start + HostURLs(scheme, hosts)
  {
    urls := start;
    for i := 0 to |hosts|
      invariant urls == start + HostURLs(scheme, hosts[..i])
    {
      assert hosts[..i + 1][..i] == hosts[..i];
      if hosts[i] != "" {
        urls := urls + [scheme + hosts[i]];
      }
    }
    assert hosts[..|hosts|] == hosts;
  }

  method DeriveIngressStatus(ingress: Ingress) returns (status: IngressStatus)
    ensures status == IngressStatusOf(ingress)
  {
    var urls: seq<string> := [];
    var useTLS := |ingress.tls| > 0;
    var scheme := if useTLS then "https://" else "http://";
    if useTLS {
      for i := 0 to |ingress.tls|
        invariant urls == TLSURLs(ingress.tls[..i])
      {
        assert ingress.tls[..i + 1][..i] == ingress.tls[..i];
        urls := DeriveHostURLs("https://", ingress.tls[i], urls);
      }
      assert ingress.tls[..|ingress.tls|] == ingress.tls;
    } else {
      urls := DeriveHostURLs("http://", ingress.ruleHosts, urls);
    }
    assert urls == IngressHostURLs(ingress);
    var useHost := |urls| > 0;
    var lb := ingress.loadBalancer;
    var addr := "";
    for i := 0 to |lb|
      invariant addr == Address(lb[..i])
      invariant urls == if useHost then IngressHostURLs(ingress) else AddressURLs(scheme, lb[..i])
    {
      assert lb[..i + 1][..i] == lb[..i];
      if lb[i].hostname != "" {
        addr := lb[i].hostname;
      } else if lb[i].ip != "" {
        addr := lb[i].ip;
      }
      if !useHost && addr != "" {
        urls := urls + [scheme + addr];
      }
    }
    assert lb[..|lb|] == lb;
    status := IngressStatus(ingress.name, if addr != "" then Ready else NotReady, urls);
  }

  /** One deployment of deriveClusterStatus. */
  method DeriveDeploymentStatus(observed: Option<Deployment>, recorded: ComponentStatus)
    returns (status: ComponentStatus, ready: bool)
    ensures status == DeploymentOf(observed, recorded)
    ensures ready <==> status.state == Ready
  {
    status, ready := NO_COMPONENT, false;
    if observed.Some? {
      status := ComponentStatus(observed.value.name, DeploymentState(observed.value));
      if status.state == Ready {
        ready := true;
      }
    } else if recorded.name != "" {
      status := ComponentStatus(recorded.name, Deleted);
    }
  }

  /** The components before the job: fills a fresh status field by field and counts the running ones. */
  method DeriveComponents(recorded: ComponentsStatus, observed: Observation)
    returns (c: ComponentsStatus, runningComponents: nat)
    requires observed.cluster.Some?
    ensures c == ComponentsOf(recorded, observed).(job := None)
    ensures runningComponents == RunningComponents(c)
  {
    runningComponents := 0;
    c := NO_STATUS.components;

    if observed.configMap.Some? {
      c := c.(configMap := ComponentStatus(observed.configMap.value.name, Ready));
    } else if recorded.configMap.name != "" {
      c := c.(configMap := ComponentStatus(recorded.configMap.name, Deleted));
    }
    assert c == NO_STATUS.components.(configMap := ConfigMapOf(observed.configMap, recorded.configMap));

    var jm, jmReady := DeriveDeploymentStatus(observed.jmDeployment, recorded.jobManagerDeployment);
    c := c.(jobManagerDeployment := jm);
    if jmReady {
      runningComponents := runningComponents + 1;
    }

    if observed.jmService.Some? {
      var serviceStatus, ready := DeriveServiceStatus(observed.jmService.value);
      c := c.(jobManagerService := serviceStatus);
      if ready {
        runningComponents := runningComponents + 1;
      }
    } else if recorded.jobManagerService.name != "" {
      c := c.(jobManagerService := ServiceStatus(recorded.jobManagerService.name, Deleted, 0));
    }
    assert runningComponents == RunningComponents(c);

    if observed.jmIngress.Some? {
      var ingressStatus := DeriveIngressStatus(observed.jmIngress.value);
      c := c.(jobManagerIngress := Some(ingressStatus));
    } else if recorded.jobManagerIngress.Some? && recorded.jobManagerIngress.value.name != "" {
      c := c.(jobManagerIngress := Some(IngressStatus(recorded.jobManagerIngress.value.name, Deleted, [])));
    }

    var tm, tmReady := DeriveDeploymentStatus(observed.tmDeployment, recorded.taskManagerDeployment);
    c := c.(taskManagerDeployment := tm);
    if tmReady {
      runningComponents := runningComponents + 1;
    }
  }

  /** deriveClusterStatus. */
  method DeriveClusterStatus(recorded: ClusterStatus, observed: Observation)
    returns (status: ClusterStatus, runningComponents: nat)
    requires DeriveSafe(recorded, observed)
    ensures status == StatusOf(recorded, observed)
    ensures runningComponents == RunningComponents(status.components)
  {
    var spec := observed.cluster.value.spec;
    var totalComponents := 3;
    var c;
    c, runningComponents := DeriveComponents(recorded.components, observed);
    var jobStatus, jobStopped, jobSucceeded, jobFailed, jobCancelled := DeriveJobStatus(recorded, observed);
    c := c.(job := jobStatus);
    assert c == ComponentsOf(recorded.components, observed);

    var state;
    match recorded.state {
      case UnsetState | Creating =>
        state := if runningComponents < totalComponents then Creating else Running;
      case Running | Reconciling =>
        if jobStopped {
          var policy := spec.job.value.cleanupPolicy;
          if jobSucceeded && policy.value.afterJobSucceeds != KeepCluster {
            state := Stopping;
          } else if jobFailed && policy.value.afterJobFails != KeepCluster {
            state := Stopping;
          } else if jobCancelled && policy.value.afterJobCancelled != KeepCluster {
            state := Stopping;
          } else {
            state := Running;
          }
        } else if runningComponents < totalComponents {
          state := Reconciling;
        } else {
          state := Running;
        }
      case Stopping | PartiallyStopped =>
        if runningComponents == 0 {
          state := Stopped;
        } else if runningComponents < totalComponents {
          state := PartiallyStopped;
        } else {
          state := Stopping;
        }
      case Stopped =>
        state := Stopped;
    }
    status := ClusterStatus(state, c);
  }

  /** The job part of deriveClusterStatus. */
  method DeriveJobStatus(recorded: ClusterStatus, observed: Observation)
    returns (jobStatus: Option<JobStatus>, jobStopped: bool, jobSucceeded: bool, jobFailed: bool, jobCancelled: bool)
    requires DeriveSafe(recorded, observed)
    ensures jobStatus == ComponentsOf(recorded.components, observed).job
    ensures var e := EndingOf(recorded.components.job, observed.job, CancelRequested(observed.cluster.value.spec));
            && (jobStopped <==> !e.NotEnded?)
            && (jobSucceeded <==> e == EndedAs(Succeeded))
            && (jobFailed <==> e == EndedAs(Failed))
            && (jobCancelled <==> e == EndedAs(Cancelled))
  {
    var recordedJob := recorded.components.job;
    jobStopped, jobSucceeded, jobFailed, jobCancelled := false, false, false, false;
    jobStatus := None;
    if observed.job.Some? {
      var observedJob := observed.job.value;
      var js := if recordedJob.Some? then recordedJob.value else NO_JOB;
      js := js.(name := observedJob.name);
      var savepoint := GetFromSavepoint(observedJob.args);
      js := js.(fromSavepoint := savepoint);
      var flinkJobID := FlinkJobID(observed.flinkJobID, recordedJob);
      if flinkJobID.Some? {
        js := js.(id := flinkJobID.value);
      }
      if observedJob.failed > 0 {
        js := js.(state := Failed);
        jobStopped, jobFailed := true, true;
      } else if observedJob.succeeded > 0 {
        js := js.(state := Succeeded);
        jobStopped, jobSucceeded := true, true;
      } else {
        js := js.(state := if flinkJobID.None? then Pending else JobRunning);
        if recordedJob.Some? && (recordedJob.value.state == Failed || recordedJob.value.state == Cancelled) {
          js := js.(restartCount := Wrap32(js.restartCount + 1));
        }
      }
      jobStatus := Some(js);
    } else if recordedJob.Some? {
      var js := recordedJob.value;
      jobStopped := true;
      var cancelRequested := observed.cluster.value.spec.job.value.cancelRequested;
      if cancelRequested.Some? && cancelRequested.value {
        js := js.(state := Cancelled);
        jobCancelled := true;
      }
      jobStatus := Some(js);
    }
  }

  /** isStatusChanged: compares the parts one by one. */
  method IsStatusChanged(current: ClusterStatus, derived: ClusterStatus) returns (changed: bool)
    requires CompareSafe(current, derived)
    ensures changed <==> Changed(current, derived)
  {
    changed := false;
    var c, n := current.components, derived.components;
    if derived.state != current.state {
      changed := true;
    }
    if n.configMap != c.configMap {
      changed := true;
    }
    if n.jobManagerDeployment != c.jobManagerDeployment {
      changed := true;
    }
    if n.jobManagerService != c.jobManagerService {
      changed := true;
    }
    if c.jobManagerIngress.None? {
      if n.jobManagerIngress.Some? {
        changed := true;
      }
    } else {
      if n.jobManagerIngress.value.state != c.jobManagerIngress.value.state {
        changed := true;
      }
    }
    if n.taskManagerDeployment != c.taskManagerDeployment {
      changed := true;
    }
    if c.job.None? {
      if n.job.Some? {
        changed := true;
      }
    } else {
      if n.job.Some? {
        if n.job != c.job {
          changed := true;
        }
      } else {
        changed := true;
      }
    }
  }

  /** A status never differs from itself. */
  lemma UnchangedFromItself(s: ClusterStatus)
    ensures CompareSafe(s, s) && !Changed(s, s)
  {
    assert s.(components := s.components.(jobManagerIngress := s.components.jobManagerIngress)) == s;
  }
}
