/** The operator's objects: observer, status updater, reconciler and handler. Each method is proved to
    do to the world what the functions of ControlLoop say. */
module OperatorObjects {
  import opened FlinkTypes
  import opened StatusUpdater
  import opened Converter
  import opened FlinkClient
  import opened WorldModel
  import opened ControlLoop

  /** The Kubernetes and Flink APIs. */
  class Api {
    var world: World

    constructor (world: World)
      ensures this.world == world
    {
      this.world := world;
    }

    /** What others do in the meantime. */
    method Meanwhile(events: seq<Event>)
      modifies this
      ensures world == HappenAll(old(world), events)
    {
      for i := 0 to |events|
        invariant HappenAll(old(world), events) == HappenAll(world, events[i..])
      {
        assert events[i..][1..] == events[i + 1..];
        world := Happen(world, events[i]);
      }
    }

    method UpdateStatus(status: ClusterStatus, call: Call) returns (err: bool)
      modifies this
      ensures world == if call.Takes() then old(world).(status := status) else old(world)
      ensures err == call.Errs()
    {
      if call.Takes() {
        world := world.(status := status);
      }
      err := call.Errs();
    }

    method Stop(baseURL: string, id: string, call: Call) returns (err: bool)
      modifies this
      ensures world == StopJob(old(world), id, call) && err == call.Errs()
    {
      world := StopJob(world, id, call);
      err := call.Errs();
    }

    method Submit(job: Job, savepoint: Option<string>, recorded: Option<JobStatus>, call: Call)
      modifies this
      ensures world == CreateJob(old(world), job, savepoint, recorded, call)
    {
      world := CreateJob(world, job, savepoint, recorded, call);
    }

    method Remove(call: Call) returns (err: bool)
      modifies this
      ensures world == DeleteJob(old(world), call) && err == call.Errs()
    {
      world := DeleteJob(world, call);
      err := call.Errs();
    }
  }

  /** ObservedClusterState, filled in place. */
  class ObservedClusterState {
    var cluster: Option<Cluster>
    var configMap: Option<ConfigMap>
    var jmDeployment: Option<Deployment>
    var jmService: Option<Service>
    var jmIngress: Option<Ingress>
    var tmDeployment: Option<Deployment>
    var job: Option<Job>
    var flinkJobList: Option<seq<FlinkJob>>
    var flinkRunningJobIDs: seq<string>
    var flinkJobID: Option<string>

    constructor ()
      ensures Value() == NOTHING_OBSERVED
    {
      cluster, configMap, jmDeployment, jmService, jmIngress, tmDeployment := None, None, None, None, None, None;
      job, flinkJobList, flinkRunningJobIDs, flinkJobID := None, None, [], None;
    }

    function Value(): Observation
      reads this
    {
      Observation(cluster, configMap, jmDeployment, jmService, jmIngress, tmDeployment,
                  job, flinkJobList, flinkRunningJobIDs, flinkJobID)
    }
  }

  class ClusterStateObserver {
    const api: Api

    constructor (api: Api)
      ensures this.api == api
    {
      this.api := api;
    }

    /** observe. */
    method Observe(observed: ObservedClusterState, o: Conditions) returns (err: bool)
      requires observed.Value() == NOTHING_OBSERVED
      requires !o.failing.ComponentErr() ==> CanAskFlink(api.world)
      modifies api, observed
      ensures err <==> o.failing.ComponentErr() || (ObservesJob(old(api.world)) && o.failing.job)
      ensures !err ==> observed.Value() == View(old(api.world), o) && api.world == AfterJob(old(api.world), o)
      ensures err ==> api.world == if o.failing.ComponentErr() then old(api.world) else AfterFlink(old(api.world), o)
    {
      if o.failing.cluster {
        return true;
      }
      observed.cluster := if api.world.deleted then None else Some(api.world.Cluster());
      if o.failing.configMap {
        return true;
      }
      observed.configMap := api.world.configMap;
      if o.failing.jmDeployment {
        return true;
      }
      observed.jmDeployment := api.world.jmDeployment;
      if o.failing.jmService {
        return true;
      }
      observed.jmService := api.world.jmService;
      if o.failing.jmIngress {
        return true;
      }
      observed.jmIngress := api.world.jmIngress;
      if o.failing.tmDeployment {
        return true;
      }
      observed.tmDeployment := api.world.tmDeployment;
      assert observed.Value() == SeenComponents(old(api.world));
      err := ObserveJob(observed, o);
    }

    /** observeJob: the Flink job list first, the Job after it. */
    method ObserveJob(observed: ObservedClusterState, o: Conditions) returns (err: bool)
      requires observed.Value() == SeenComponents(api.world)
      requires CanAskFlink(api.world)
      modifies api, observed
      ensures err <==> ObservesJob(old(api.world)) && o.failing.job
      ensures !err ==> observed.Value() == View(old(api.world), o) && api.world == AfterJob(old(api.world), o)
      ensures err ==> api.world == AfterFlink(old(api.world), o)
    {
      ghost var w := api.world;
      api.Meanwhile(o.afterComponents);
      if observed.cluster.None? || observed.cluster.value.spec.job.None? {
        api.Meanwhile(o.afterFlink);
        api.Meanwhile(o.afterJob);
        return false;
      }
      ObserveFlinkJobs(observed, o.failing.flink);
      api.Meanwhile(o.afterFlink);
      if o.failing.job {
        return true;
      }
      observed.job := api.world.job;
      api.Meanwhile(o.afterJob);
      return false;
    }

    /** observeFlinkJobs: collects the running jobs and picks the job ID. */
    method ObserveFlinkJobs(observed: ObservedClusterState, flinkErr: bool)
      requires observed.cluster.Some? && observed.cluster.value.spec.job.Some?
      requires AsksFlink(observed.cluster.value) ==> AddressSafe(observed.cluster.value)
      requires observed.flinkJobList.None? && observed.flinkRunningJobIDs == [] && observed.flinkJobID.None?
      modifies observed
      ensures observed.Value() == SeenFlink(old(observed.Value()), api.world.flinkJobs, flinkErr)
    {
      if observed.cluster.value.status.state != Running {
        return;
      }
      var baseURL := FlinkAPIBaseURL(observed.cluster.value);
      if flinkErr {
        return;
      }
      var jobs := api.world.flinkJobs;
      observed.flinkJobList := Some(jobs);
      for i := 0 to |jobs|
        invariant observed.Value()
               == old(observed.Value()).(flinkJobList := Some(jobs), flinkRunningJobIDs := RunningIDs(jobs[..i]))
      {
        assert jobs[..i + 1][..i] == jobs[..i];
        if jobs[i].status == FLINK_RUNNING {
          observed.flinkRunningJobIDs := observed.flinkRunningJobIDs + [jobs[i].id];
        }
      }
      assert jobs[..|jobs|] == jobs;
      var flinkJobID := None;
      if |observed.flinkRunningJobIDs| > 1 {
      } else if |observed.flinkRunningJobIDs| == 1 {
        flinkJobID := Some(observed.flinkRunningJobIDs[0]);
      } else if |jobs| > 1 {
      } else if |jobs| == 1 {
        flinkJobID := Some(jobs[0].id);
      }
      observed.flinkJobID := flinkJobID;
    }
  }

  class ClusterStatusUpdater {
    const api: Api
    const observed: Observation

    constructor (api: Api, observed: Observation)
      ensures this.api == api && this.observed == observed
    {
      this.api, this.observed := api, observed;
    }

    /** updateStatusIfChanged. */
    method UpdateStatusIfChanged(call: Call) returns (changed: bool, err: bool)
      requires observed.cluster.Some? ==>
                 && DeriveSafe(observed.cluster.value.status, observed)
                 && CompareSafe(observed.cluster.value.status, StatusOf(observed.cluster.value.status, observed))
      modifies api
      ensures observed.cluster.None? ==> !changed && !err
      ensures observed.cluster.Some? ==>
                var recorded := observed.cluster.value.status;
                var derived := StatusOf(recorded, observed);
                && (changed <==> Changed(recorded, derived))
                && (changed ==> api.world == WriteStatus(old(api.world), observed, derived, call) && err == call.Errs())
      ensures !changed ==> api.world == old(api.world) && !err
    {
      if observed.cluster.None? {
        return false, false;
      }
      var recorded := observed.cluster.value.status;
      var derived, _ := DeriveClusterStatus(recorded, observed);
      changed := IsStatusChanged(recorded, derived);
      err := false;
      if changed {
        err := api.UpdateStatus(derived, call);
        if call.Takes() {
          api.world := api.world.(noted := Noted(api.world, observed));
        }
      }
    }
  }

  class ClusterReconciler {
    const api: Api
    var observed: Observation
    const desired: Desired

    constructor (api: Api, observed: Observation, desired: Desired)
      ensures this.api == api && this.observed == observed && this.desired == desired
    {
      this.api, this.observed, this.desired := api, observed, desired;
    }

    /** The desired state is that of the observed cluster. */
    ghost predicate Ready()
      reads this
    {
      && observed.cluster.Some?
      && ConvertSafe(observed.cluster.value)
      && desired == DesiredState(observed.cluster.value)
    }

    /** reconcile. The error of the job part is dropped. */
    method Reconcile(o: Conditions)
      requires observed.cluster.Some? ==> Ready() && ActSafe(api.world, observed, o)
      modifies api, this
      ensures old(observed).cluster.None? ==> api.world == old(api.world)
      ensures old(observed).cluster.Some? ==> api.world == Act(old(api.world), old(observed), o)
    {
      if observed.cluster.None? {
        return;
      }
      var err := ReconcileConfigMap(o.calls.configMap);
      if err {
        return;
      }
      err := ReconcileJobManagerDeployment(o.calls.jmDeployment);
      if err {
        return;
      }
      err := ReconcileJobManagerService(o.calls.jmService);
      if err {
        return;
      }
      err := ReconcileJobManagerIngress(o.calls.jmIngress);
      if err {
        return;
      }
      err := ReconcileTaskManagerDeployment(o.calls.tmDeployment);
      if err {
        return;
      }
      assert (api.world, false) == ReconcileComponents(old(api.world), observed, desired, o.calls);
      ReconcileTheJob(o);
    }

    method ReconcileConfigMap(call: Call) returns (err: bool)
      modifies api
      ensures var r := Reconciled(desired.configMap, observed.configMap, old(api.world).configMap, call);
              api.world == old(api.world).(configMap := r.0) && err == r.1
    {
      var w := api.world;
      err := false;
      if desired.configMap.Some? && observed.configMap.None? {
        err := call.Errs() || w.configMap.Some?;
        if call.Takes() && w.configMap.None? {
          api.world := w.(configMap := desired.configMap);
        }
      } else if desired.configMap.None? && observed.configMap.Some? {
        err := call.Errs();
        if call.Takes() {
          api.world := w.(configMap := None);
        }
      }
    }

    method ReconcileJobManagerDeployment(call: Call) returns (err: bool)
      modifies api
      ensures var r := Reconciled(desired.jmDeployment, observed.jmDeployment, old(api.world).jmDeployment, call);
              api.world == old(api.world).(jmDeployment := r.0) && err == r.1
    {
      var current;
      current, err := ReconcileDeployment(desired.jmDeployment, observed.jmDeployment, api.world.jmDeployment, call);
      api.world := api.world.(jmDeployment := current);
    }

    method ReconcileTaskManagerDeployment(call: Call) returns (err: bool)
      modifies api
      ensures var r := Reconciled(desired.tmDeployment, observed.tmDeployment, old(api.world).tmDeployment, call);
              api.world == old(api.world).(tmDeployment := r.0) && err == r.1
    {
      var current;
      current, err := ReconcileDeployment(desired.tmDeployment, observed.tmDeployment, api.world.tmDeployment, call);
      api.world := api.world.(tmDeployment := current);
    }

    /** reconcileDeployment; yields the deployment afterwards. */
    static method ReconcileDeployment(desired: Option<Deployment>, observed: Option<Deployment>,
                                      before: Option<Deployment>, call: Call)
      returns (after: Option<Deployment>, err: bool)
      ensures (after, err) == Reconciled(desired, observed, before, call)
    {
      after, err := before, false;
      if desired.Some? && observed.None? {
        err := call.Errs() || before.Some?;
        if call.Takes() && before.None? {
          after := desired;
        }
      } else if desired.Some? && observed.Some? {
      } else if desired.None? && observed.Some? {
        err := call.Errs();
        if call.Takes() {
          after := None;
        }
      }
    }

    method ReconcileJobManagerService(call: Call) returns (err: bool)
      modifies api
      ensures var r := Reconciled(desired.jmService, observed.jmService, old(api.world).jmService, call);
              api.world == old(api.world).(jmService := r.0) && err == r.1
    {
      var w := api.world;
      err := false;
      if desired.jmService.Some? && observed.jmService.None? {
        err := call.Errs() || w.jmService.Some?;
        if call.Takes() && w.jmService.None? {
          api.world := w.(jmService := desired.jmService);
        }
      } else if desired.jmService.None? && observed.jmService.Some? {
        err := call.Errs();
        if call.Takes() {
          api.world := w.(jmService := None);
        }
      }
    }

    method ReconcileJobManagerIngress(call: Call) returns (err: bool)
      modifies api
      ensures var r := Reconciled(desired.jmIngress, observed.jmIngress, old(api.world).jmIngress, call);
              api.world == old(api.world).(jmIngress := r.0) && err == r.1
    {
      var w := api.world;
      err := false;
      if desired.jmIngress.Some? && observed.jmIngress.None? {
        err := call.Errs() || w.jmIngress.Some?;
        if call.Takes() && w.jmIngress.None? {
          api.world := w.(jmIngress := desired.jmIngress);
        }
      } else if desired.jmIngress.None? && observed.jmIngress.Some? {
        err := call.Errs();
        if call.Takes() {
          api.world := w.(jmIngress := None);
        }
      }
    }

    /** reconcileJob. */
    method ReconcileTheJob(o: Conditions)
      requires Ready() && (StopsUnwanted(observed) ==> AddressSafe(observed.cluster.value))
      modifies api, this
      ensures api.world == ReconcileJob(old(api.world), old(observed), desired.job, o)
    {
      var c := observed.cluster.value;
      if desired.job.Some? && observed.job.None? {
        if observed.flinkJobList.None? {
          return;
        }
        if |observed.flinkRunningJobIDs| > 0 {
          var _ := CancelRunning(o);
          return;
        }
        var savepoint := ConvertFromSavepoint(c.spec.job.value, c.status.components.job);
        api.Submit(desired.job.value, savepoint, c.status.components.job, o.calls.job);
        return;
      }
      var jobID := JobID(c);
      if desired.job.Some? && observed.job.Some? {
        var restartPolicy := c.spec.job.value.restartPolicy;
        if ShouldRestart(restartPolicy, c.status.components.job) {
          RestartJob(o);
          return;
        }
        if |jobID| > 0 {
          var due := ShouldTakeSavepoint();
          if due.Some? {
            var _ := TakeSavepoint(due.value, o);
          }
        }
        return;
      }
      if desired.job.None? && observed.job.Some? {
        if |jobID| > 0 {
          var err := CancelJobWithSavepoint(jobID, o);
          if err {
            return;
          }
        }
        var _ := api.Remove(o.calls.job);
      }
    }

    /** restartJob: the new Job is left to a later pass. */
    method RestartJob(o: Conditions)
      requires observed.cluster.Some? && AddressSafe(observed.cluster.value)
      modifies api
      ensures var (stopped, err) := CancelRunningJobs(old(api.world), observed.flinkRunningJobIDs, o.calls, 0);
              api.world == if err then stopped else DeleteJob(stopped, o.calls.job)
    {
      var err := CancelRunning(o);
      if err {
        return;
      }
      var _ := api.Remove(o.calls.job);
    }

    /** cancelRunningJobs without savepoints. */
    method CancelRunning(o: Conditions) returns (err: bool)
      requires observed.cluster.Some? && AddressSafe(observed.cluster.value)
      modifies api
      ensures (api.world, err) == CancelRunningJobs(old(api.world), observed.flinkRunningJobIDs, o.calls, 0)
    {
      var ids := observed.flinkRunningJobIDs;
      for i := 0 to |ids|
        invariant CancelRunningJobs(old(api.world), ids, o.calls, 0)
               == CancelRunningJobs(api.world, ids[i..], o.calls, i)
      {
        assert ids[i..][1..] == ids[i + 1..];
        err := api.Stop(FlinkAPIBaseURL(observed.cluster.value), ids[i], o.calls.Stop(i));
        if err {
          return true;
        }
      }
      return false;
    }

    /** shouldTakeSavepoint, with the rule that applied. */
    method ShouldTakeSavepoint() returns (due: Option<Trigger>)
      requires observed.cluster.Some? && observed.cluster.value.status.components.job.Some?
      ensures due == SavepointDue(observed.cluster.value, api.world.clock)
    {
      var c := observed.cluster.value;
      if !CanTakeSavepoint(c) {
        return None;
      }
      var jobSpec, jobStatus := c.spec.job.value, c.status.components.job.value;
      if jobSpec.savepointGeneration > jobStatus.savepointGeneration {
        return Some(Requested);
      }
      if jobSpec.autoSavepointSeconds.None? {
        return None;
      }
      if jobStatus.lastSavepointTime.None? {
        return Some(FirstTime);
      }
      var nextTime := (jobStatus.lastSavepointTime.value + jobSpec.autoSavepointSeconds.value) * SECOND;
      if api.world.clock > nextTime {
        return Some(Interval);
      }
      return None;
    }

    /** cancelFlinkJob with a savepoint first, if one can be taken. */
    method CancelJobWithSavepoint(jobID: string, o: Conditions) returns (err: bool)
      requires Ready() && AddressSafe(observed.cluster.value)
      requires observed.cluster.value.status.components.job.Some?
      modifies api, this
      ensures (api.world, err) == CancelFlinkJob(old(api.world), old(observed).cluster.value, jobID, o)
    {
      if CanTakeSavepoint(observed.cluster.value) {
        err := TakeSavepoint(BeforeCancel, o);
        if err {
          return;
        }
      }
      err := api.Stop(FlinkAPIBaseURL(observed.cluster.value), jobID, o.calls.Stop(0));
    }

    /** takeSavepoint. */
    method TakeSavepoint(trigger: Trigger, o: Conditions) returns (err: bool)
      requires Ready() && AddressSafe(observed.cluster.value) && CanTakeSavepoint(observed.cluster.value)
      requires observed.cluster.value.status.components.job.Some?
      modifies api, this
      ensures (api.world, err) == TakeSavepointStep(old(api.world), old(observed).cluster.value, trigger, o)
      ensures observed.cluster.Some? && observed.cluster.value.spec == old(observed).cluster.value.spec
    {
      var baseURL := FlinkAPIBaseURL(observed.cluster.value);
      var status;
      status, err := FlinkClient.TakeSavepoint(o.answers);
      api.Meanwhile(o.duringSavepoint);
      if !err && status.stackTrace != "" {
        err := true;
      }
      if status.completed && !err {
        err := UpdateSavepointStatus(status, trigger, o.calls.savepoint);
      }
    }

    /** updateSavepointStatus: the copied cluster shares the job status with the observed one, so the
        observed status changes even when the write fails. */
    method UpdateSavepointStatus(savepoint: SavepointStatus, trigger: Trigger, call: Call) returns (err: bool)
      requires observed.cluster.Some? && observed.cluster.value.status.components.job.Some?
      modifies api, this
      ensures api.world == RecordSavepoint(old(api.world), old(observed).cluster.value, savepoint, trigger, call)
      ensures err == call.Errs()
      ensures observed.cluster.Some? && observed.cluster.value.spec == old(observed).cluster.value.spec
      ensures var before := old(observed).cluster.value.status.components.job.value;
              var after := WithSavepoint(before, savepoint, old(api.world).clock);
              observed.cluster.value.status.components.job == Some(after)
    {
      var c := observed.cluster.value;
      var jobStatus := c.status.components.job.value;
      jobStatus := jobStatus.(savepointGeneration := Wrap32(jobStatus.savepointGeneration + 1));
      jobStatus := jobStatus.(lastSavepointTriggerID := savepoint.triggerID);
      jobStatus := jobStatus.(savepointLocation := savepoint.location);
      jobStatus := jobStatus.(lastSavepointTime := Some(Seconds(api.world.clock)));
      var status := WithJobStatus(c.status, jobStatus);
      observed := observed.(cluster := Some(c.(status := status)));
      err := api.UpdateStatus(status, call);
      if call.Takes() {
        var record := Savepoint(savepoint.location, Seconds(api.world.clock), trigger);
        api.world := api.world.(savepoints := api.world.savepoints + [record]);
      }
    }
  }

  /** FlinkClusterHandler: the state of one reconcile request. */
  class FlinkClusterHandler {
    const api: Api
    const observed: ObservedClusterState
    var desired: Desired

    constructor (api: Api)
      ensures this.api == api && fresh(observed) && observed.Value() == NOTHING_OBSERVED
    {
      this.api := api;
      this.observed := new ObservedClusterState();
      this.desired := Desired(None, None, None, None, None, None);
    }

    /** reconcile: observe, then write the status if it changed, else compute the desired state and act. */
    method Reconcile(o: Conditions)
      requires PassSafe(api.world, o) && observed.Value() == NOTHING_OBSERVED
      modifies api, observed, this
      ensures api.world == Pass(old(api.world), o)
    {
      ghost var w := api.world;
      var observer := new ClusterStateObserver(api);
      var err := observer.Observe(observed, o);
      if err {
        return;
      }
      var seen := observed.Value();
      assert Pass(w, o) == Conclude(api.world, seen, o);
      var updater := new ClusterStatusUpdater(api, seen);
      var statusChanged;
      statusChanged, err := updater.UpdateStatusIfChanged(o.calls.status);
      if err || statusChanged {
        return;
      }
      desired := GetDesiredClusterState(observed.cluster);
      var reconciler := new ClusterReconciler(api, seen, desired);
      reconciler.Reconcile(o);
    }
  }
}
