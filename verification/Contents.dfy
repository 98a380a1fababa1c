/** What is in the components and Jobs that the operator creates. */
module Contents {
  import opened FlinkTypes
  import opened JobArguments
  import opened Mounts
  import opened FlinkConf
  import opened Converter
  import opened WorldModel
  import opened ControlLoop
  import opened Drifting
  import opened Preservation
  import opened Submission

  /******* In terms of the spec *******/

  /** The pod finds the account the user has named: the secret, mounted under a path that ends in a slash, and
      the key file under it. */
  predicate CarriesGCP(gcp: Option<GCPAccess>, config: Option<GCPConfig>) {
    && (gcp.Some? <==> config.Some?)
    && (config.Some? ==>
          && config.value.serviceAccount.Some?
          && var account := config.value.serviceAccount.value;
             && gcp.value.secretName == account.secretName
             && (gcp.value.mountPath == account.mountPath || gcp.value.mountPath == account.mountPath + "/")
             && gcp.value.mountPath != "" && gcp.value.mountPath[|gcp.value.mountPath| - 1] == '/'
             && gcp.value.credentials == gcp.value.mountPath + account.keyFile)
  }

  predicate CarriesJobManager(d: Deployment, name: string, spec: ClusterSpec) {
    var p := spec.jobManager.ports;
    && d.name == name + "-jobmanager"
    && (spec.jobManager.replicas.Some? ==> d.replicas == spec.jobManager.replicas.value)
    && p.rpc.Some? && p.blob.Some? && p.query.Some? && p.ui.Some?
    && d.ports == [p.rpc.value, p.blob.value, p.query.value, p.ui.value]
    && CarriesGCP(d.gcp, spec.gcpConfig)
  }

  predicate CarriesTaskManager(d: Deployment, name: string, spec: ClusterSpec) {
    var p := spec.taskManager.ports;
    && d.name == name + "-taskmanager"
    && d.replicas == spec.taskManager.replicas
    && p.data.Some? && p.rpc.Some? && p.query.Some?
    && d.ports == [p.data.value, p.rpc.value, p.query.value]
    && CarriesGCP(d.gcp, spec.gcpConfig)
  }

  predicate CarriesService(s: Service, name: string, spec: ClusterSpec) {
    var p := spec.jobManager.ports;
    && s.name == name + "-jobmanager"
    && (spec.jobManager.accessScope == ClusterScope ==> s.serviceType == ClusterIP)
    && (spec.jobManager.accessScope == VPC ==> s.serviceType == LoadBalancer)
    && (spec.jobManager.accessScope == External ==> s.serviceType == LoadBalancer)
    && (spec.jobManager.accessScope == NodePort ==> s.serviceType == NodePortService)
    && p.rpc.Some? && p.blob.Some? && p.query.Some? && p.ui.Some?
    && |s.ports| == 4
    && s.ports[0].name == "rpc" && s.ports[0].port == p.rpc.value
    && s.ports[1].name == "blob" && s.ports[1].port == p.blob.value
    && s.ports[2].name == "query" && s.ports[2].port == p.query.value
    && s.ports[3].name == "ui" && s.ports[3].port == p.ui.value
  }

  /** One rule for the host, and one TLS entry if TLS is used and there is a host or a secret for it. */
  predicate CarriesIngress(i: Ingress, name: string, spec: ClusterSpec) {
    && spec.jobManager.ingress.Some?
    && var wanted := spec.jobManager.ingress.value;
       var hosted := wanted.hostFormat.Some? && wanted.hostFormat.value != "";
       var secured := wanted.tlsSecretName.Some? && wanted.tlsSecretName.value != "";
       && i.name == name + "-jobmanager"
       && |i.ruleHosts| == 1
       && (hosted ==> i.ruleHosts[0] == wanted.hostFormat.value) && (!hosted ==> i.ruleHosts[0] == "")
       && (i.tls != [] <==> wanted.useTLS == Some(true) && (hosted || secured))
       && (i.tls != [] ==> |i.tls| == 1 && (hosted ==> i.tls[0] == [wanted.hostFormat.value])
                           && (!hosted ==> i.tls[0] == []))
  }

  /** The configuration says each property once, in key order, with its value. */
  ghost predicate CarriesConfig(c: ConfigMap, name: string, spec: ClusterSpec) {
    && c.name == name + "-configmap"
    && PropertiesSafe(spec)
    && (Readable(Properties(name, spec)) ==>
          && Read(c.flinkConf) == Pairs(SortedKeys(Properties(name, spec).Keys), Properties(name, spec))
          && Sorted(SortedKeys(Properties(name, spec).Keys)))
  }

  lemma DeploymentsCarry(c: Cluster)
    requires ConvertSafe(c)
    ensures var jm, tm := DesiredJobManagerDeployment(c), DesiredTaskManagerDeployment(c);
            && (jm.Some? ==> CarriesJobManager(jm.value, c.name, c.spec))
            && (tm.Some? ==> CarriesTaskManager(tm.value, c.name, c.spec))
  {
  }

  lemma ServiceCarries(c: Cluster)
    requires ConvertSafe(c)
    ensures var s := DesiredJobManagerService(c);
            s.Some? ==> CarriesService(s.value, c.name, c.spec)
  {
  }

  lemma IngressCarries(c: Cluster)
    requires ConvertSafe(c)
    ensures var i := DesiredJobManagerIngress(c);
            i.Some? ==> CarriesIngress(i.value, c.name, c.spec)
  {
  }

  lemma ConfigCarries(c: Cluster)
    requires ConvertSafe(c)
    ensures var m := DesiredConfigMap(c);
            m.Some? ==> CarriesConfig(m.value, c.name, c.spec)
  {
    if DesiredConfigMap(c).Some? && Readable(Properties(c.name, c.spec)) {
      ReadsBack(Properties(c.name, c.spec));
    }
  }

  /** The desired state carries the spec. */
  ghost predicate AllCarry(d: Desired, name: string, spec: ClusterSpec) {
    && (d.configMap.Some? ==> CarriesConfig(d.configMap.value, name, spec))
    && (d.jmDeployment.Some? ==> CarriesJobManager(d.jmDeployment.value, name, spec))
    && (d.jmService.Some? ==> CarriesService(d.jmService.value, name, spec))
    && (d.jmIngress.Some? ==> CarriesIngress(d.jmIngress.value, name, spec))
    && (d.tmDeployment.Some? ==> CarriesTaskManager(d.tmDeployment.value, name, spec))
  }

  lemma DesiredCarries(c: Cluster)
    requires ConvertSafe(c)
    ensures AllCarry(DesiredState(c), c.name, c.spec)
  {
    DeploymentsCarry(c);
    ServiceCarries(c);
    IngressCarries(c);
    ConfigCarries(c);
  }

  /******* In a pass *******/

  /** The world when a pass has reconciled the components. */
  ghost function Made(w: World, o: Conditions): World {
    if !o.failing.ComponentErr() && CanAskFlink(w) && !(ObservesJob(w) && o.failing.job) && Acts(View(w, o))
    then ReconcileComponents(AfterJob(w, o), View(w, o), DesiredState(w.Cluster()), o.calls).0
    else AfterJob(w, o)
  }

  /** Whatever is there now and was not there before carries the spec. */
  ghost predicate NewCarries(before: World, after: World, name: string, spec: ClusterSpec) {
    && (before.configMap.None? && after.configMap.Some? ==> CarriesConfig(after.configMap.value, name, spec))
    && (before.jmDeployment.None? && after.jmDeployment.Some? ==>
          CarriesJobManager(after.jmDeployment.value, name, spec))
    && (before.jmService.None? && after.jmService.Some? ==> CarriesService(after.jmService.value, name, spec))
    && (before.jmIngress.None? && after.jmIngress.Some? ==> CarriesIngress(after.jmIngress.value, name, spec))
    && (before.tmDeployment.None? && after.tmDeployment.Some? ==>
          CarriesTaskManager(after.tmDeployment.value, name, spec))
  }

  /** What is reconciled comes from the desired state. */
  lemma ReconciledCarries(now: World, seen: Observation, d: Desired, calls: Calls, name: string, spec: ClusterSpec)
    requires AllCarry(d, name, spec)
    ensures NewCarries(now, ReconcileComponents(now, seen, d, calls).0, name, spec)
  {
    ComponentsOnly(now, seen, d, calls);
  }

  lemma MadeCarries(w: World, o: Conditions)
    ensures NewCarries(AfterJob(w, o), Made(w, o), w.name, w.spec)
  {
    if !o.failing.ComponentErr() && CanAskFlink(w) && !(ObservesJob(w) && o.failing.job) && Acts(View(w, o)) {
      DesiredCarries(w.Cluster());
      ReconciledCarries(AfterJob(w, o), View(w, o), DesiredState(w.Cluster()), o.calls, w.name, w.spec);
    }
  }

  predicate SameComponents(a: World, b: World) {
    && a.configMap == b.configMap && a.jmDeployment == b.jmDeployment && a.jmService == b.jmService
    && a.jmIngress == b.jmIngress && a.tmDeployment == b.tmDeployment
  }

  lemma TakeSavepointLeaves(w: World, c: Cluster, trigger: Trigger, o: Conditions)
    requires c.status.components.job.Some? && o.duringSavepoint == []
    ensures SameComponents(w, TakeSavepointStep(w, c, trigger, o).0)
  {
  }

  lemma RestartOrSaveLeaves(w: World, seen: Observation, o: Conditions)
    requires seen.cluster.Some? && seen.cluster.value.spec.job.Some? && o.duringSavepoint == []
    ensures SameComponents(w, RestartOrSave(w, seen, o))
  {
    var c := seen.cluster.value;
    CancelRunningLeaves(w, seen.flinkRunningJobIDs, o.calls, 0);
    if JobID(c) != "" && SavepointDue(c, w.clock).Some? {
      TakeSavepointLeaves(w, c, SavepointDue(c, w.clock).value, o);
    }
  }

  lemma CancelAndDeleteLeaves(w: World, seen: Observation, o: Conditions)
    requires seen.cluster.Some? && o.duringSavepoint == []
    ensures SameComponents(w, CancelAndDelete(w, seen, o))
  {
    var c := seen.cluster.value;
    if JobID(c) != "" {
      TakeSavepointLeaves(w, c, BeforeCancel, o);
      assert SameComponents(w, CancelFlinkJob(w, c, JobID(c), o).0);
    }
  }

  lemma JobPartLeaves(w: World, seen: Observation, wanted: Option<Job>, o: Conditions)
    requires seen.cluster.Some? && (wanted.Some? ==> seen.cluster.value.spec.job.Some?)
    requires o.duringSavepoint == []
    ensures SameComponents(w, ReconcileJob(w, seen, wanted, o))
  {
    if wanted.Some? && seen.job.None? {
      CancelRunningLeaves(w, seen.flinkRunningJobIDs, o.calls, 0);
    } else if wanted.Some? {
      RestartOrSaveLeaves(w, seen, o);
    } else if seen.job.Some? {
      CancelAndDeleteLeaves(w, seen, o);
    }
  }

  lemma {:induction false} CancelRunningLeaves(w: World, ids: seq<string>, calls: Calls, i: nat)
    ensures SameComponents(w, CancelRunningJobs(w, ids, calls, i).0)
    decreases |ids|
  {
    if ids != [] && !calls.Stop(i).Errs() {
      CancelRunningLeaves(StopJob(w, ids[0], calls.Stop(i)), ids[1..], calls, i + 1);
    }
  }

  /** The later world has no component that was not there, and the same ones if nothing else happened. */
  predicate NoneAdded(before: World, after: World, o: Conditions) {
    ComponentsDrift(before, after) && (o.duringSavepoint == [] ==> SameComponents(before, after))
  }

  lemma ActAfterMade(now: World, seen: Observation, o: Conditions)
    requires seen.cluster.Some? && ConvertSafe(seen.cluster.value)
    ensures NoneAdded(ReconcileComponents(now, seen, DesiredState(seen.cluster.value), o.calls).0, Act(now, seen, o), o)
  {
    var d := DesiredState(seen.cluster.value);
    var (changed, err) := ReconcileComponents(now, seen, d, o.calls);
    if !err {
      JobPartAddsNone(changed, seen, d.job, o);
    }
  }

  lemma JobPartAddsNone(w: World, seen: Observation, wanted: Option<Job>, o: Conditions)
    requires seen.cluster.Some? && (wanted.Some? ==> seen.cluster.value.spec.job.Some?)
    ensures NoneAdded(w, ReconcileJob(w, seen, wanted, o), o)
  {
    ReconcileJobCreates(w, seen, wanted, o);
    if o.duringSavepoint == [] {
      JobPartLeaves(w, seen, wanted, o);
    }
  }

  /** The rest of the pass creates nothing, and changes nothing unless others do while a savepoint is taken. */
  lemma PassAfterMade(w: World, o: Conditions)
    requires !o.failing.ComponentErr() && CanAskFlink(w) && !(ObservesJob(w) && o.failing.job)
    ensures ComponentsDrift(Made(w, o), Pass(w, o))
    ensures o.duringSavepoint == [] ==> SameComponents(Made(w, o), Pass(w, o))
  {
    var now, seen := AfterJob(w, o), View(w, o);
    assert Pass(w, o) == Conclude(now, seen, o);
    if Acts(seen) {
      ActAfterMade(now, seen, o);
      assert Conclude(now, seen, o) == Act(now, seen, o);
    } else {
      OnlyActingActs(now, seen, o);
    }
  }

  /******* Jobs *******/

  /** The init container keeps its name and its own mounts, and has every mount path of the job. */
  ghost predicate CarriesMounts(own: Container, mounts: seq<VolumeMount>, now: Container) {
    && now.name == own.name && own.volumeMounts <= now.volumeMounts
    && (forall p :: HasPath(now.volumeMounts, p) <==> HasPath(own.volumeMounts, p) || HasPath(mounts, p))
  }

  ghost predicate CarriesJob(job: Job, name: string, spec: ClusterSpec, savepoint: Option<string>) {
    && spec.job.Some? && spec.jobManager.ports.ui.Some?
    && job.name == name + "-job"
    && LaidOut(job.args, name, spec.jobManager.ports.ui.value, spec.job.value, savepoint)
    && |job.initContainers| == |spec.job.value.initContainers|
    && (var own, mounts := spec.job.value.initContainers, spec.job.value.volumeMounts;
        forall k :: 0 <= k < |job.initContainers| ==> CarriesMounts(own[k], mounts, job.initContainers[k]))
    && CarriesGCP(job.gcp, spec.gcpConfig)
  }

  lemma MergedCarry(own: seq<Container>, mounts: seq<VolumeMount>, k: nat)
    requires k < |own|
    ensures CarriesMounts(own[k], mounts, MergeAll(own, mounts)[k])
  {
    MergeCovers(own[k].volumeMounts, mounts);
  }

  lemma CreatedCarries(now: World, i: nat, spec: ClusterSpec)
    requires i < |now.created| && ArgsMatch(now, i) && Core(now.spec) == Core(spec)
    ensures CarriesJob(now.created[i].job, now.name, spec, now.created[i].savepoint)
  {
    var c := now.created[i];
    CoreArgs(now.name, spec.jobManager.ports.ui.value, spec, c.savepoint);
    ArgsLaidOut(now.name, spec.jobManager.ports.ui.value, spec.job.value, c.savepoint);
    forall k | 0 <= k < |c.job.initContainers|
      ensures CarriesMounts(spec.job.value.initContainers[k], spec.job.value.volumeMounts, c.job.initContainers[k])
    {
      MergedCarry(spec.job.value.initContainers, spec.job.value.volumeMounts, k);
    }
  }
}
