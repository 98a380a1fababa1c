/** What a derived status says, in terms of what was observed and recorded. */
module Readings {
  import opened FlinkTypes
  import opened JobArguments
  import opened StatusUpdater
  import opened Converter
  import opened WorldModel
  import opened ControlLoop

  /** The entries of the JobManager deployment, its service and the TaskManager deployment are all Ready. */
  predicate AllReady(c: ComponentsStatus) {
    c.jobManagerDeployment.state == Ready && c.jobManagerService.state == Ready
    && c.taskManagerDeployment.state == Ready
  }

  predicate NoneReady(c: ComponentsStatus) {
    c.jobManagerDeployment.state != Ready && c.jobManagerService.state != Ready
    && c.taskManagerDeployment.state != Ready
  }

  /******* The cluster state *******/

  /** The job has not been seen to end: its Job has neither failed nor succeeded, or there never was one. */
  predicate Unended(recorded: ClusterStatus, o: Observation) {
    if o.job.Some? then o.job.value.failed == 0 && o.job.value.succeeded == 0 else recorded.components.job.None?
  }

  /** The job has ended in a way after which the policy does not keep the cluster. */
  predicate EndsCluster(recorded: ClusterStatus, o: Observation)
    requires o.cluster.Some?
  {
    var spec := o.cluster.value.spec;
    && spec.job.Some? && spec.job.value.cleanupPolicy.Some?
    && var p := spec.job.value.cleanupPolicy.value;
       || (o.job.Some? && o.job.value.failed > 0 && p.afterJobFails != KeepCluster)
       || (o.job.Some? && o.job.value.failed == 0 && o.job.value.succeeded > 0 && p.afterJobSucceeds != KeepCluster)
       || (&& o.job.None? && recorded.components.job.Some? && spec.job.value.cancelRequested == Some(true)
           && p.afterJobCancelled != KeepCluster)
  }

  /** A new cluster runs once all three are ready. */
  lemma CreatingMeans(recorded: ClusterStatus, o: Observation)
    requires DeriveSafe(recorded, o) && (recorded.state == UnsetState || recorded.state == Creating)
    ensures var s := StatusOf(recorded, o);
            (s.state == Running <==> AllReady(s.components)) && (s.state == Creating <==> !AllReady(s.components))
  {
  }

  /** While the job has not ended the state tells whether all three are ready; once it has, the policy
      decides whether the cluster stops. */
  lemma ActiveMeans(recorded: ClusterStatus, o: Observation)
    requires DeriveSafe(recorded, o) && (recorded.state == Running || recorded.state == Reconciling)
    ensures var s := StatusOf(recorded, o);
            && (Unended(recorded, o) ==>
                  && (s.state == Running <==> AllReady(s.components))
                  && (s.state == Reconciling <==> !AllReady(s.components)))
            && (!Unended(recorded, o) ==>
                  && (s.state == Stopping <==> EndsCluster(recorded, o))
                  && (s.state == Running <==> !EndsCluster(recorded, o)))
  {
  }

  /** A stopping cluster has stopped once none is ready. */
  lemma WindingMeans(recorded: ClusterStatus, o: Observation)
    requires DeriveSafe(recorded, o) && (recorded.state == Stopping || recorded.state == PartiallyStopped)
    ensures var s := StatusOf(recorded, o);
            && (s.state == Stopped <==> NoneReady(s.components))
            && (s.state == Stopping <==> AllReady(s.components))
            && (s.state == PartiallyStopped <==> !NoneReady(s.components) && !AllReady(s.components))
  {
  }

  /******* The entries *******/

  predicate DeploymentEntry(d: Option<Deployment>, recorded: ComponentStatus, entry: ComponentStatus) {
    if d.Some? then
      && entry.name == d.value.name
      && (d.value.availableReplicas >= d.value.replicas ==> entry.state == Ready)
      && (d.value.availableReplicas < d.value.replicas ==> entry.state == NotReady)
    else if recorded.name != "" then entry == ComponentStatus(recorded.name, Deleted)
    else entry == ComponentStatus("", UnsetComponent)
  }

  predicate ConfigMapEntry(c: Option<ConfigMap>, recorded: ComponentStatus, entry: ComponentStatus) {
    if c.Some? then entry == ComponentStatus(c.value.name, Ready)
    else if recorded.name != "" then entry == ComponentStatus(recorded.name, Deleted)
    else entry == ComponentStatus("", UnsetComponent)
  }

  /** A service is ready when it can be reached the way its type says. */
  predicate ServiceEntry(s: Option<Service>, recorded: ServiceStatus, entry: ServiceStatus) {
    if s.Some? then
      var svc := s.value;
      && entry.name == svc.name
      && (svc.serviceType == ClusterIP ==> entry.state == if svc.clusterIP != "" then Ready else NotReady)
      && (svc.serviceType == LoadBalancer ==> entry.state == if svc.loadBalancerIngress > 0 then Ready else NotReady)
      && (svc.serviceType == NodePortService ==> entry.state == if svc.ports != [] then Ready else NotReady)
      && (svc.serviceType == OtherServiceType ==> entry.state == UnsetComponent)
      && (svc.serviceType != NodePortService ==> entry.nodePort == 0)
      && (svc.serviceType == NodePortService ==> NodePortOfUI(svc.ports, entry.nodePort))
    else if recorded.name != "" then entry == ServiceStatus(recorded.name, Deleted, 0)
    else entry == ServiceStatus("", UnsetComponent, 0)
  }

  predicate LastUIPort(ports: seq<ServicePort>, k: int) {
    && 0 <= k < |ports| && ports[k].name == "ui"
    && forall j :: k < j < |ports| ==> ports[j].name != "ui"
  }

  /** The node port of the last port named ui, or 0. */
  predicate NodePortOfUI(ports: seq<ServicePort>, nodePort: int) {
    || (nodePort == 0 && forall j :: 0 <= j < |ports| ==> ports[j].name != "ui")
    || exists k :: 0 <= k < |ports| && LastUIPort(ports, k) && nodePort == ports[k].nodePort
  }

  lemma {:induction false} UINodePortIs(ports: seq<ServicePort>)
    ensures NodePortOfUI(ports, UINodePort(ports))
  {
    if ports != [] {
      var last, front := |ports| - 1, ports[..|ports| - 1];
      if ports[last].name == "ui" {
        assert LastUIPort(ports, last);
      } else {
        UINodePortIs(front);
        if k :| 0 <= k < |front| && LastUIPort(front, k) && UINodePort(front) == front[k].nodePort {
          forall j | k < j < |ports|
            ensures ports[j].name != "ui"
          {
            assert j < last ==> ports[j] == front[j];
          }
          assert LastUIPort(ports, k);
        } else {
          forall j | 0 <= j < |ports|
            ensures ports[j].name != "ui"
          {
            assert j < last ==> ports[j] == front[j];
          }
        }
      }
    }
  }

  /** Each derived entry says how its component was seen, or that it is gone. */
  lemma EntriesMean(recorded: ClusterStatus, o: Observation)
    requires DeriveSafe(recorded, o)
    ensures var before, now := recorded.components, StatusOf(recorded, o).components;
            && ConfigMapEntry(o.configMap, before.configMap, now.configMap)
            && DeploymentEntry(o.jmDeployment, before.jobManagerDeployment, now.jobManagerDeployment)
            && ServiceEntry(o.jmService, before.jobManagerService, now.jobManagerService)
            && DeploymentEntry(o.tmDeployment, before.taskManagerDeployment, now.taskManagerDeployment)
  {
    if o.jmService.Some? {
      UINodePortIs(o.jmService.value.ports);
    }
  }

  /******* The ingress *******/

  lemma {:induction false} HostURLsAre(scheme: string, hosts: seq<string>, url: string)
    ensures url in HostURLs(scheme, hosts) <==> exists h :: h in hosts && h != "" && url == scheme + h
  {
    if hosts != [] {
      var front, last := hosts[..|hosts| - 1], hosts[|hosts| - 1];
      HostURLsAre(scheme, front, url);
      assert hosts == front + [last];
    }
  }

  lemma {:induction false} TLSURLsAre(tls: seq<seq<string>>, url: string)
    ensures url in TLSURLs(tls) <==> exists k, h :: 0 <= k < |tls| && h in tls[k] && h != "" && url == "https://" + h
  {
    if tls != [] {
      var front, last := tls[..|tls| - 1], tls[|tls| - 1];
      TLSURLsAre(front, url);
      HostURLsAre("https://", last, url);
      assert forall k :: 0 <= k < |front| ==> front[k] == tls[k];
      if h :| h in last && h != "" && url == "https://" + h {
        assert h in tls[|tls| - 1];
      }
    }
  }

  /** A load balancer entry shows `addr`: its host name or else its IP. */
  predicate ShowsAddress(lb: LoadBalancerIngress, addr: string) {
    addr != "" && addr == if lb.hostname != "" then lb.hostname else lb.ip
  }

  lemma {:induction false} AddressIsShown(lb: seq<LoadBalancerIngress>)
    ensures Address(lb) != "" ==> exists k :: 0 <= k < |lb| && ShowsAddress(lb[k], Address(lb))
  {
    if lb != [] {
      var front, last := lb[..|lb| - 1], lb[|lb| - 1];
      AddressIsShown(front);
      if Address(lb) != "" {
        if last.hostname != "" || last.ip != "" {
          assert ShowsAddress(lb[|lb| - 1], Address(lb));
        } else {
          var k :| 0 <= k < |front| && ShowsAddress(front[k], Address(front));
          assert ShowsAddress(lb[k], Address(lb));
        }
      }
    }
  }

  /** `url` belongs to an entry of the load balancer. */
  predicate AddressURL(scheme: string, lb: seq<LoadBalancerIngress>, url: string) {
    exists k :: 0 <= k < |lb| && ShowsAddress(lb[k], if lb[k].hostname != "" then lb[k].hostname else lb[k].ip)
                && url == scheme + if lb[k].hostname != "" then lb[k].hostname else lb[k].ip
  }

  lemma {:induction false} AddressURLsAre(scheme: string, lb: seq<LoadBalancerIngress>, url: string)
    ensures url in AddressURLs(scheme, lb) <==> AddressURL(scheme, lb, url)
  {
    if lb != [] {
      var front, last := lb[..|lb| - 1], lb[|lb| - 1];
      AddressURLsAre(scheme, front, url);
      AddressIsShown(lb);
      assert forall k :: 0 <= k < |front| ==> front[k] == lb[k];
      if Address(lb) != "" && url == scheme + Address(lb) {
        var k :| 0 <= k < |lb| && ShowsAddress(lb[k], Address(lb));
        assert AddressURL(scheme, lb, url);
      }
      if AddressURL(scheme, lb, url) {
        var k :| 0 <= k < |lb| && ShowsAddress(lb[k], if lb[k].hostname != "" then lb[k].hostname else lb[k].ip)
                 && url == scheme + if lb[k].hostname != "" then lb[k].hostname else lb[k].ip;
        if k < |front| {
          assert AddressURL(scheme, front, url);
        }
      }
    }
  }

  /** `url` belongs to a host: of a TLS entry if there are any, else of a rule. */
  predicate HostURL(i: Ingress, url: string) {
    if i.tls != [] then exists k, h :: 0 <= k < |i.tls| && h in i.tls[k] && h != "" && url == "https://" + h
    else exists h :: h in i.ruleHosts && h != "" && url == "http://" + h
  }

  lemma HostURLsOf(i: Ingress, url: string)
    ensures url in IngressHostURLs(i) <==> HostURL(i, url)
  {
    TLSURLsAre(i.tls, url);
    HostURLsAre("http://", i.ruleHosts, url);
  }

  /** The URLs are those of the hosts if there are any, else those of the load balancer's addresses. */
  lemma IngressURLsMean(i: Ingress, url: string)
    ensures (exists u :: HostURL(i, u)) ==> (url in IngressStatusOf(i).urls <==> HostURL(i, url))
    ensures (forall u :: !HostURL(i, u)) ==>
              (url in IngressStatusOf(i).urls <==>
               AddressURL(if i.tls != [] then "https://" else "http://", i.loadBalancer, url))
  {
    HostURLsOf(i, url);
    if u :| HostURL(i, u) {
      HostURLsOf(i, u);
    } else {
      if IngressHostURLs(i) != [] {
        HostURLsOf(i, IngressHostURLs(i)[0]);
      }
      AddressURLsAre(if i.tls != [] then "https://" else "http://", i.loadBalancer, url);
    }
  }

  /******* The job *******/

  /** The derived job status: state, ID and savepoint as the Job and Flink show them, the rest as recorded. */
  lemma JobEntryMeans(recorded: ClusterStatus, o: Observation)
    requires DeriveSafe(recorded, o) && o.job.Some?
    ensures var job, before := o.job.value, recorded.components.job;
            var named := o.flinkJobID.Some? && o.flinkJobID.value != "";
            var known := named || (before.Some? && before.value.id != "");
            StatusOf(recorded, o).components.job.Some?
            && var now := StatusOf(recorded, o).components.job.value;
               && now.name == job.name && now.fromSavepoint == FromSavepointArg(job.args)
               && (job.failed > 0 ==> now.state == Failed)
               && (job.failed == 0 && job.succeeded > 0 ==> now.state == Succeeded)
               && (job.failed == 0 && job.succeeded == 0 ==> now.state == if known then JobRunning else Pending)
               && now.id == (if named then o.flinkJobID.value else if before.Some? then before.value.id else "")
               && (before.Some? ==>
                     && now.savepointGeneration == before.value.savepointGeneration
                     && now.savepointLocation == before.value.savepointLocation
                     && now.lastSavepointTriggerID == before.value.lastSavepointTriggerID
                     && now.lastSavepointTime == before.value.lastSavepointTime)
  {
  }

  /** Without its Job the job keeps its status, except that a requested cancellation is then complete. */
  lemma MissingJobMeans(recorded: ClusterStatus, o: Observation)
    requires DeriveSafe(recorded, o) && o.job.None?
    ensures var before, now := recorded.components.job, StatusOf(recorded, o).components.job;
            if before.Some? && CancelRequested(o.cluster.value.spec) then now == Some(before.value.(state := Cancelled))
            else now == before
  {
  }

  /** The ID read from Flink is that of the only running job, or of the only job if none runs. */
  lemma ObservedIDMeans(jobs: seq<FlinkJob>)
    ensures ObservedJobID(jobs).Some? <==>
            |RunningIDs(jobs)| == 1 || (RunningIDs(jobs) == [] && |jobs| == 1)
    ensures |RunningIDs(jobs)| == 1 ==> ObservedJobID(jobs) == Some(RunningIDs(jobs)[0])
    ensures RunningIDs(jobs) == [] && |jobs| == 1 ==> ObservedJobID(jobs) == Some(jobs[0].id)
  {
  }

  /******* Cleanup *******/

  /** What the policy removes after each end: with DeleteCluster everything, with DeleteTaskManager only the
      TaskManager deployment. */
  lemma CleanupMeans(c: Cluster, kind: ComponentKind)
    requires CleanupSafe(c)
    ensures var job := c.status.components.job;
            ShouldCleanup(c, kind) <==>
            && job.Some?
            && (|| (&& job.value.state == Succeeded
                    && (|| c.spec.job.value.cleanupPolicy.value.afterJobSucceeds == DeleteCluster
                        || (&& c.spec.job.value.cleanupPolicy.value.afterJobSucceeds == DeleteTaskManager
                            && kind == TaskManagerDeploymentKind)))
                || (&& job.value.state == Failed
                    && (|| c.spec.job.value.cleanupPolicy.value.afterJobFails == DeleteCluster
                        || (&& c.spec.job.value.cleanupPolicy.value.afterJobFails == DeleteTaskManager
                            && kind == TaskManagerDeploymentKind)))
                || (&& job.value.state == Cancelled
                    && (|| c.spec.job.value.cleanupPolicy.value.afterJobCancelled == DeleteCluster
                        || (&& c.spec.job.value.cleanupPolicy.value.afterJobCancelled == DeleteTaskManager
                            && kind == TaskManagerDeploymentKind))))
  {
  }
}
