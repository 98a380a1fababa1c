/** Defaulting of unspecified properties (api/v1beta1/flinkcluster_default.go). */
module Defaults {
  import opened FlinkTypes

  function Or<T>(o: Option<T>, default: T): Option<T> {
    if o.Some? then o else Some(default)
  }

  function ImageDefault(i: ImageSpec): ImageSpec {
    if i.pullPolicy == UnsetPullPolicy then i.(pullPolicy := Always) else i
  }

  function JobManagerDefault(jm: JobManagerSpec): JobManagerSpec {
    jm.(replicas := Or(jm.replicas, 1),
        accessScope := if jm.accessScope == UnsetScope then ClusterScope else jm.accessScope,
        ingress := if jm.ingress.None? then None
                   else Some(jm.ingress.value.(useTLS := Or(jm.ingress.value.useTLS, false))),
        ports := JobManagerPorts(Or(jm.ports.rpc, 6123), Or(jm.ports.blob, 6124),
                                 Or(jm.ports.query, 6125), Or(jm.ports.ui, 8081)),
        memoryOffHeapMin := Or(jm.memoryOffHeapMin, 600_000_000),
        memoryOffHeapRatio := Or(jm.memoryOffHeapRatio, 25))
  }

  function TaskManagerDefault(tm: TaskManagerSpec): TaskManagerSpec {
    tm.(ports := TaskManagerPorts(Or(tm.ports.data, 6121), Or(tm.ports.rpc, 6122), Or(tm.ports.query, 6125)),
        memoryOffHeapMin := Or(tm.memoryOffHeapMin, 600_000_000),
        memoryOffHeapRatio := Or(tm.memoryOffHeapRatio, 25))
  }

  function JobDefault(j: JobSpec): JobSpec {
    j.(allowNonRestoredState := Or(j.allowNonRestoredState, false),
       parallelism := Or(j.parallelism, 1),
       noLoggingToStdout := Or(j.noLoggingToStdout, false),
       restartPolicy := Or(j.restartPolicy, Never),
       cleanupPolicy := Or(j.cleanupPolicy, CleanupPolicy(DeleteCluster, KeepCluster, DeleteCluster)))
  }

  function HadoopDefault(h: HadoopConfig): HadoopConfig {
    if h.mountPath == "" then h.(mountPath := "/etc/hadoop/conf") else h
  }

  function SpecDefault(s: ClusterSpec): ClusterSpec {
    s.(image := ImageDefault(s.image),
       jobManager := JobManagerDefault(s.jobManager),
       taskManager := TaskManagerDefault(s.taskManager),
       job := if s.job.None? then None else Some(JobDefault(s.job.value)),
       hadoopConfig := if s.hadoopConfig.None? then None else Some(HadoopDefault(s.hadoopConfig.value)))
  }

  /** The resource under admission, changed in place. */
  class ClusterObject {
    var spec: ClusterSpec

    constructor (spec: ClusterSpec)
      ensures this.spec == spec
    {
      this.spec := spec;
    }

    /** _SetDefault. */
    method SetDefault()
      modifies this
      ensures spec == SpecDefault(old(spec))
    {
      SetImageDefault();
      SetJobManagerDefault();
      SetTaskManagerDefault();
      SetJobDefault();
      SetHadoopConfigDefault();
    }

    method SetImageDefault()
      modifies this
      ensures spec == old(spec).(image := ImageDefault(old(spec).image))
    {
      if spec.image.pullPolicy == UnsetPullPolicy {
        spec := spec.(image := spec.image.(pullPolicy := Always));
      }
    }

    method SetJobManagerDefault()
      modifies this
      ensures spec == old(spec).(jobManager := JobManagerDefault(old(spec).jobManager))
    {
      var jm := spec.jobManager;
      if jm.replicas.None? {
        jm := jm.(replicas := Some(1));
      }
      if jm.accessScope == UnsetScope {
        jm := jm.(accessScope := ClusterScope);
      }
      if jm.ingress.Some? {
        if jm.ingress.value.useTLS.None? {
          jm := jm.(ingress := Some(jm.ingress.value.(useTLS := Some(false))));
        }
      }
      jm := jm.(ports := JobManagerPorts(Or(jm.ports.rpc, 6123), Or(jm.ports.blob, 6124),
                                         Or(jm.ports.query, 6125), Or(jm.ports.ui, 8081)));
      if jm.memoryOffHeapMin.None? {
        jm := jm.(memoryOffHeapMin := Some(600_000_000));
      }
      if jm.memoryOffHeapRatio.None? {
        jm := jm.(memoryOffHeapRatio := Some(25));
      }
      spec := spec.(jobManager := jm);
    }

    method SetTaskManagerDefault()
      modifies this
      ensures spec == old(spec).(taskManager := TaskManagerDefault(old(spec).taskManager))
    {
      var tm := spec.taskManager;
      tm := tm.(ports := TaskManagerPorts(Or(tm.ports.data, 6121), Or(tm.ports.rpc, 6122), Or(tm.ports.query, 6125)));
      if tm.memoryOffHeapMin.None? {
        tm := tm.(memoryOffHeapMin := Some(600_000_000));
      }
      if tm.memoryOffHeapRatio.None? {
        tm := tm.(memoryOffHeapRatio := Some(25));
      }
      spec := spec.(taskManager := tm);
    }

    method SetJobDefault()
      modifies this
      ensures spec == old(spec).(job := if old(spec).job.None? then None else Some(JobDefault(old(spec).job.value)))
    {
      if spec.job.None? {
        return;
      }
      var job := spec.job.value;
      if job.allowNonRestoredState.None? {
        job := job.(allowNonRestoredState := Some(false));
      }
      if job.parallelism.None? {
        job := job.(parallelism := Some(1));
      }
      if job.noLoggingToStdout.None? {
        job := job.(noLoggingToStdout := Some(false));
      }
      if job.restartPolicy.None? {
        job := job.(restartPolicy := Some(Never));
      }
      if job.cleanupPolicy.None? {
        job := job.(cleanupPolicy := Some(CleanupPolicy(DeleteCluster, KeepCluster, DeleteCluster)));
      }
      spec := spec.(job := Some(job));
    }

    method SetHadoopConfigDefault()
      modifies this
      ensures spec == old(spec).(hadoopConfig := if old(spec).hadoopConfig.None? then None
                                                 else Some(HadoopDefault(old(spec).hadoopConfig.value)))
    {
      if spec.hadoopConfig.None? {
        return;
      }
      if spec.hadoopConfig.value.mountPath == "" {
        spec := spec.(hadoopConfig := Some(spec.hadoopConfig.value.(mountPath := "/etc/hadoop/conf")));
      }
    }
  }

  /** Defaulting a defaulted spec changes nothing: an update that leaves a property out is compared
      with the value the property got at creation. */
  lemma DefaultIdempotent(s: ClusterSpec)
    ensures SpecDefault(SpecDefault(s)) == SpecDefault(s)
  {
    assert JobManagerDefault(JobManagerDefault(s.jobManager)) == JobManagerDefault(s.jobManager);
    assert TaskManagerDefault(TaskManagerDefault(s.taskManager)) == TaskManagerDefault(s.taskManager);
  }

  /** A given value stays, a missing one becomes the default. */
  predicate Defaulted<T(==)>(given: Option<T>, now: Option<T>, default: T) {
    (given.Some? ==> now == given) && (given.None? ==> now == Some(default))
  }

  /** The documented default of every property that has one; everything else stays as the user gave it. */
  lemma DefaultsAre(s: ClusterSpec)
    ensures var d := SpecDefault(s);
            var jm, tm := s.jobManager, s.taskManager;
            && d.image.pullPolicy == (if s.image.pullPolicy == UnsetPullPolicy then Always else s.image.pullPolicy)
            && Defaulted(jm.replicas, d.jobManager.replicas, 1)
            && d.jobManager.accessScope == (if jm.accessScope == UnsetScope then ClusterScope else jm.accessScope)
            && Defaulted(jm.ports.rpc, d.jobManager.ports.rpc, 6123)
            && Defaulted(jm.ports.blob, d.jobManager.ports.blob, 6124)
            && Defaulted(jm.ports.query, d.jobManager.ports.query, 6125)
            && Defaulted(jm.ports.ui, d.jobManager.ports.ui, 8081)
            && Defaulted(jm.memoryOffHeapMin, d.jobManager.memoryOffHeapMin, 600_000_000)
            && Defaulted(jm.memoryOffHeapRatio, d.jobManager.memoryOffHeapRatio, 25)
            && (jm.ingress.Some? <==> d.jobManager.ingress.Some?)
            && (jm.ingress.Some? ==> Defaulted(jm.ingress.value.useTLS, d.jobManager.ingress.value.useTLS, false))
            && Defaulted(tm.ports.data, d.taskManager.ports.data, 6121)
            && Defaulted(tm.ports.rpc, d.taskManager.ports.rpc, 6122)
            && Defaulted(tm.ports.query, d.taskManager.ports.query, 6125)
            && Defaulted(tm.memoryOffHeapMin, d.taskManager.memoryOffHeapMin, 600_000_000)
            && Defaulted(tm.memoryOffHeapRatio, d.taskManager.memoryOffHeapRatio, 25)
            && (s.hadoopConfig.Some? <==> d.hadoopConfig.Some?)
            && (s.hadoopConfig.Some? ==>
                  var path := s.hadoopConfig.value.mountPath;
                  d.hadoopConfig.value.mountPath == if path == "" then "/etc/hadoop/conf" else path)
            && (s.job.Some? <==> d.job.Some?)
            && (s.job.Some? ==>
                  var given, now := s.job.value, d.job.value;
                  && Defaulted(given.allowNonRestoredState, now.allowNonRestoredState, false)
                  && Defaulted(given.parallelism, now.parallelism, 1)
                  && Defaulted(given.noLoggingToStdout, now.noLoggingToStdout, false)
                  && Defaulted(given.restartPolicy, now.restartPolicy, Never)
                  && Defaulted(given.cleanupPolicy, now.cleanupPolicy,
                               CleanupPolicy(DeleteCluster, KeepCluster, DeleteCluster)))
    ensures Undefaulted(SpecDefault(s)) == Undefaulted(s)
  {
  }

  /** The spec without the properties that have a default. */
  function Undefaulted(s: ClusterSpec): ClusterSpec {
    s.(image := s.image.(pullPolicy := UnsetPullPolicy),
       jobManager := s.jobManager.(replicas := None, accessScope := UnsetScope, memoryOffHeapRatio := None,
                                   memoryOffHeapMin := None, ports := JobManagerPorts(None, None, None, None),
                                   ingress := if s.jobManager.ingress.None? then None
                                              else Some(s.jobManager.ingress.value.(useTLS := None))),
       taskManager := s.taskManager.(ports := TaskManagerPorts(None, None, None), memoryOffHeapRatio := None,
                                     memoryOffHeapMin := None),
       hadoopConfig := if s.hadoopConfig.None? then None else Some(s.hadoopConfig.value.(mountPath := "")),
       job := if s.job.None? then None
              else Some(s.job.value.(allowNonRestoredState := None, parallelism := None, noLoggingToStdout := None,
                                     restartPolicy := None, cleanupPolicy := None)))
  }
}
