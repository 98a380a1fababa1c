/** What any number of events leaves alone. */
module Drifting {
  import opened FlinkTypes
  import opened Defaults
  import opened Validation
  import opened WorldModel

  /** The spec without the two properties a user may still change. */
  function Core(spec: ClusterSpec): ClusterSpec {
    if spec.job.None? then spec
    else spec.(job := Some(spec.job.value.(cancelRequested := None, savepointGeneration := 0)))
  }

  function Generation(spec: ClusterSpec): int {
    if spec.job.Some? then spec.job.value.savepointGeneration else 0
  }

  /** Only the cancellation, once, and the next savepoint can be asked for. */
  predicate SpecDrift(before: ClusterSpec, after: ClusterSpec, status: ClusterStatus) {
    && Core(after) == Core(before)
    && (before.job.Some? ==>
          || after.job.value.cancelRequested == before.job.value.cancelRequested
          || after.job.value.cancelRequested == Some(true))
    && (Generation(after) == Generation(before) || Generation(after) == Wrap32(StatusGeneration(status) + 1))
  }

  /** A Job incarnation keeps its arguments, and its counters never go back. */
  predicate JobDrift(before: Option<Job>, after: Option<Job>) {
    && (before.None? ==> after.None?)
    && (before.Some? ==>
          && after.Some?
          && after.value.name == before.value.name && after.value.args == before.value.args
          && after.value.failed >= before.value.failed && after.value.succeeded >= before.value.succeeded)
  }

  predicate ComponentsDrift(before: World, after: World) {
    && (after.configMap.Some? ==> before.configMap.Some?)
    && (after.jmDeployment.Some? ==> before.jmDeployment.Some?)
    && (after.jmService.Some? ==> before.jmService.Some?)
    && (after.tmDeployment.Some? ==> before.tmDeployment.Some?)
    && (after.jmIngress.Some? ==> before.jmIngress.Some? && before.jmIngress.value.name == after.jmIngress.value.name)
  }

  /** Everything but the components. */
  predicate Undisturbed(before: World, after: World) {
    && after.name == before.name && after.namespace == before.namespace
    && after.status == before.status
    && after.created == before.created && after.noted == before.noted
    && after.savepoints == before.savepoints && after.panicked == before.panicked
    && after.clock >= before.clock
    && (before.deleted ==> after.deleted)
    && SpecDrift(before.spec, after.spec, before.status)
    && JobDrift(before.job, after.job)
    && (before.job.None? ==> Load(after) <= Load(before))
    && (Load(before) <= 1 ==> Load(after) <= 1)
  }

  predicate Drift(before: World, after: World) {
    Undisturbed(before, after) && ComponentsDrift(before, after)
  }

  lemma UndisturbedTransitive(a: World, b: World, c: World)
    requires Undisturbed(a, b) && Undisturbed(b, c)
    ensures Undisturbed(a, c)
  {
  }

  lemma DriftTransitive(a: World, b: World, c: World)
    requires Drift(a, b) && Drift(b, c)
    ensures Drift(a, c)
  {
  }

  /******* Flink jobs *******/

  lemma {:induction false} RunningOfConcat(a: seq<FlinkJob>, b: seq<FlinkJob>)
    ensures RunningIDs(a + b) == RunningIDs(a) + RunningIDs(b)
  {
    if b == [] {
      assert a + b == a;
    } else {
      var front, last := b[..|b| - 1], b[|b| - 1];
      RunningOfConcat(a, front);
      assert (a + b)[..|a + b| - 1] == a + front;
    }
  }

  /** Jobs that stop running lower the count. */
  lemma {:induction false} RunningShrinks(before: seq<FlinkJob>, after: seq<FlinkJob>)
    requires |before| == |after|
    requires forall i :: 0 <= i < |before| && after[i].status == FLINK_RUNNING ==> before[i].status == FLINK_RUNNING
    ensures |RunningIDs(after)| <= |RunningIDs(before)|
  {
    if before != [] {
      RunningShrinks(before[..|before| - 1], after[..|after| - 1]);
    }
  }

  lemma ForgettingShrinks(jobs: seq<FlinkJob>, i: nat)
    requires i < |jobs|
    ensures |RunningIDs(jobs[..i] + jobs[i + 1..])| <= |RunningIDs(jobs)|
  {
    RunningOfConcat(jobs[..i], jobs[i + 1..]);
    RunningOfConcat(jobs[..i], jobs[i..]);
    RunningOfConcat([jobs[i]], jobs[i + 1..]);
    assert jobs[i..] == [jobs[i]] + jobs[i + 1..];
    assert jobs == jobs[..i] + jobs[i..];
  }

  lemma SubmittingAddsOne(jobs: seq<FlinkJob>, id: FlinkID)
    ensures |RunningIDs(jobs + [FlinkJob(id, FLINK_RUNNING)])| == |RunningIDs(jobs)| + 1
  {
    assert (jobs + [FlinkJob(id, FLINK_RUNNING)])[..|jobs|] == jobs;
  }

  /******* Events *******/

  lemma UpdateDrifts(w: World, spec: ClusterSpec)
    ensures Drift(w, UpdateSpec(w, spec))
  {
    UpdateAdmittedIff(w.Cluster(), w.Cluster().(spec := SpecDefault(spec)));
  }

  lemma ComponentsChangeDrifts(w: World, cm: Option<ConfigMap>, jm: Option<Deployment>, svc: Option<Service>,
                               ing: Option<Ingress>, tm: Option<Deployment>)
    ensures Drift(w, ChangeComponents(w, cm, jm, svc, ing, tm))
  {
  }

  lemma ResumingAddsOne(jobs: seq<FlinkJob>, i: nat)
    requires i < |jobs| && RunningIDs(jobs) == []
    ensures |RunningIDs(jobs[i := jobs[i].(status := FLINK_RUNNING)])| <= 1
  {
    var resumed := jobs[i].(status := FLINK_RUNNING);
    assert jobs == jobs[..i] + [jobs[i]] + jobs[i + 1..];
    assert jobs[i := resumed] == jobs[..i] + [resumed] + jobs[i + 1..];
    RunningOfConcat(jobs[..i] + [jobs[i]], jobs[i + 1..]);
    RunningOfConcat(jobs[..i], [jobs[i]]);
    RunningOfConcat(jobs[..i] + [resumed], jobs[i + 1..]);
    RunningOfConcat(jobs[..i], [resumed]);
  }

  /** Only a job that resumes raises the load, and only from zero and while there is a Job. */
  lemma FlinkJobsDrift(w: World, e: Event)
    ensures Load(Happen(w, e)) <= Load(w) || (e.FlinkJobResumes? && w.job.Some? && Load(Happen(w, e)) <= 1)
  {
    match e {
      case Submit(id) =>
        if id != "" {
          SubmittingAddsOne(w.flinkJobs, id);
        }
      case FlinkJobEnds(i, status) =>
        if i < |w.flinkJobs| && status != FLINK_RUNNING {
          RunningShrinks(w.flinkJobs, w.flinkJobs[i := w.flinkJobs[i].(status := status)]);
        }
      case FlinkJobResumes(i) =>
        if i < |w.flinkJobs| && RunningIDs(w.flinkJobs) == [] {
          ResumingAddsOne(w.flinkJobs, i);
        }
      case FlinkJobForgotten(i) =>
        if i < |w.flinkJobs| {
          ForgettingShrinks(w.flinkJobs, i);
        }
      case _ =>
    }
  }

  lemma JobEventDrifts(w: World, e: Event)
    requires e.JobCounters? || e.Submit?
    ensures Drift(w, Happen(w, e))
  {
    FlinkJobsDrift(w, e);
  }

  lemma ResumingDrifts(w: World, i: nat)
    ensures Drift(w, Happen(w, FlinkJobResumes(i)))
  {
    FlinkJobsDrift(w, FlinkJobResumes(i));
  }

  lemma EndingDrifts(w: World, i: nat, status: string)
    ensures Drift(w, Happen(w, FlinkJobEnds(i, status)))
  {
    FlinkJobsDrift(w, FlinkJobEnds(i, status));
  }

  lemma ForgettingDrifts(w: World, i: nat)
    ensures Drift(w, Happen(w, FlinkJobForgotten(i)))
  {
    FlinkJobsDrift(w, FlinkJobForgotten(i));
  }

  lemma HappenDrifts(w: World, e: Event)
    ensures Drift(w, Happen(w, e))
  {
    match e {
      case Update(spec) => UpdateDrifts(w, spec);
      case ComponentsChange(cm, jm, svc, ing, tm) => ComponentsChangeDrifts(w, cm, jm, svc, ing, tm);
      case JobCounters(_, _) => JobEventDrifts(w, e);
      case Submit(_) => JobEventDrifts(w, e);
      case FlinkJobEnds(i, status) => EndingDrifts(w, i, status);
      case FlinkJobForgotten(i) => ForgettingDrifts(w, i);
      case FlinkJobResumes(i) => ResumingDrifts(w, i);
      case Tick(_) =>
      case Delete =>
    }
  }

  lemma {:induction false} HappenAllDrifts(w: World, events: seq<Event>)
    ensures Drift(w, HappenAll(w, events))
    decreases |events|
  {
    if events != [] {
      var next := Happen(w, events[0]);
      HappenDrifts(w, events[0]);
      HappenAllDrifts(next, events[1..]);
      DriftTransitive(w, next, HappenAll(next, events[1..]));
    }
  }
}
