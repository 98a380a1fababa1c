# A verified model of the FlinkCluster operator

The Flink operator keeps a `FlinkCluster` custom resource running on Kubernetes. Each pass of its control
loop observes Kubernetes and Flink, derives a new cluster status and, if that changed, writes it and stops;
otherwise it computes the desired state and acts on it: five components (config map, JobManager
deployment, service and ingress, TaskManager deployment) and the Kubernetes Job that submits the Flink job.
Users change the spec in between, as far as the webhooks let them.

This project models that loop with everything around it and proves what holds in every run. It also models
the algorithms the loop relies on: the arguments of the job and the savepoint read back from them, the
rendering of `flink-conf.yaml`, the merging of volume mounts, heap sizes, defaulting, validation and the
savepoint polling loop.

    dafny verify dfyconfig.toml

## How the model is built

* `Types.dfy` has the entities, `World.dfy` the world around the operator (the custom resource, its
  children, the Flink jobs, the clock) and the events by which others change it. Histories are part of the
  world although nobody reads them: the Jobs created, which of them the status has noted unfinished, and the
  savepoints recorded.
* `StatusUpdater.dfy`, `Converter.dfy`, `JobArguments.dfy`, `FlinkConf.dfy`, `Mounts.dfy`, `HeapSize.dfy`,
  `FlinkClient.dfy`, `Defaults.dfy` and `Validation.dfy` follow the source files of those names.
* `ControlLoop.dfy` says what one pass does, as a function of the world and of the *conditions* of the
  pass: which reads fail, how each request ends, what Flink answers, and which events happen after the
  components are read, after the Flink job list is read, after the Job is read and while a savepoint is
  taken. A request may fail without effect or fail after its effect. A nil pointer or a panic sets a flag.
* `Operator.dfy` has the operator's objects (observer, status updater, reconciler, handler). Their methods
  follow the code step by step and are proved to do exactly what `ControlLoop.dfy` says.
* `Drift.dfy`, `Invariant.dfy`, `Preservation.dfy`, `Onward.dfy`, `Submission.dfy`, `Settling.dfy`,
  `Cleanup.dfy`, `Recovery.dfy`, `Restarting.dfy`, `Cancellation.dfy`, `Counting.dfy`, `Requests.dfy`,
  `Standing.dfy`, `Readings.dfy`, `Statuses.dfy`, `Saving.dfy` and `Contents.dfy` hold the proofs, and `Guarantees.dfy` the results about runs. A run is any sequence of passes, under any
  conditions, and events, starting from a cluster that the webhooks have defaulted and admitted.
* `Witnesses.dfy` has runs, given step by step, of admitted clusters in which what the documentation says
  does not come about.

## What is assumed of the surroundings

* One pass at a time works on a cluster, its reads are not stale, and a status write is atomic. A write
  replaces the status whatever happened since it was read; conflicts are a case of a failing request.
* The custom resource and the five components are read in one instant, and nothing happens between the
  requests of the acting phase except while a savepoint is taken.
* Only the operator writes the status and creates or deletes the Job of the cluster.
* Others change and delete components but do not create them, and do not rename them.
* The failed and succeeded counters of a Job never go back. A Job submits at most one Flink job, and none
  once it has finished or is deleted (it is created with restart policy Never and backoff limit 0).
* Nobody else submits Flink jobs. Flink gives every job an ID that is not empty. A Flink job runs from its submission on; a stop request that takes effect
  ends it. A job that has left the state RUNNING, for example to restart inside Flink, may come back to it,
  but only while the Job exists, can submit nothing more, and no other job runs. The operator looks for
  RUNNING jobs only, so a job that came back after its Job was deleted could run beside a new one.
* The clock does not go back.

## Where code and documentation differ

* The policy `FromSavepointOnFailure` is documented to restart a failed job from the recorded savepoint if
  there is one, and to leave it failed otherwise. The second half holds (`StaysFailedWithoutSavepoint`). The
  first does not if `afterJobFails` is anything but `KeepCluster`: then no run ever creates a second Job
  (`NeverRestartedUnlessKept`). Once the job has failed, six calm passes restart it if and only if the cluster
  is up and kept, the policy says so, a savepoint is recorded and no cancellation is requested
  (`RestartedIff`). Runs of both kinds are `Witnesses.NotRestarted` and `Witnesses.Restarted`.
* A requested cancellation is documented to take a savepoint before it stops the job. The Job is deleted
  without one exactly if there is no savepoint directory, the recorded job has ended, no job ID is recorded,
  or none of the twelve status queries finds an accepted savepoint completed and the last is no failure
  (`CancelledUnsavedIff`, run: `Witnesses.StoppedUnsaved`). A job that runs under another ID than the recorded
  one, or before an ID is recorded, is not even stopped (`CancelledStopsAllIff`); if nothing else happens in
  the pass, that is so exactly if Flink was not asked or did not answer (`CancelledLeavesRunningIff`, run:
  `Witnesses.CancelledWhileRunning`).
* `restartCount` is documented as the number of restarts. It is the number of Jobs after the first that some
  pass read unfinished before its status write took effect, so it falls short exactly if some restarted Job
  was never read so (`RestartCountExact`, run: `Witnesses.UncountedRestart`).
* A `gcpConfig` without `serviceAccount` is admitted, and the second pass panics (`PanicFreeIff`).

## Model

| member | source | states |
|---|---|---|
| `Guarantees.AtMostOneJobRuns` | controllers/flinkcluster_reconciler.go:338-407 | In every state of every run at most one Flink job runs, and none while a Job may still submit one |
| `Guarantees.JobsStartFromTheirSavepoint` | controllers/flinkcluster_converter.go:580-620 | The first Job ever created starts from the savepoint of the spec; each later one follows a recorded failure under FromSavepointOnFailure and starts from the savepoint recorded last before it; its arguments are those of the admitted spec with that savepoint, and reading them back yields it |
| `Guarantees.JobsCarrySpec` | controllers/flinkcluster_converter.go:555-695 | Every Job ever created has the admitted cluster's name, a command line that reads, position by position, as command, JobManager address, class, savepoint, options, JAR and the user's arguments, the init containers with the job's mounts, and the GCP account |
| `Guarantees.FirstJobNeedsAllReady` | controllers/flinkcluster_observer.go:199-211 | The first Job is created only with the JobManager deployment, its service and the TaskManager deployment recorded as Ready |
| `Guarantees.NothingSavedWithoutJob` | controllers/flinkcluster_reconciler.go:345-377 | From the deletion of a Job until the next one is created no savepoint is recorded, so the recorded location cannot change in between |
| `Guarantees.NoJobAfterStopping` | controllers/flinkcluster_updater.go:415-457 | Once the state is Stopping, PartiallyStopped or Stopped, no later step creates a Job |
| `Guarantees.NeverRestartedUnlessKept` | controllers/flinkcluster_util.go:92-100 | Without FromSavepointOnFailure, or with afterJobFails other than KeepCluster, no run ever creates a second Job |
| `Guarantees.RestartedIfKept` | controllers/flinkcluster_reconciler.go:345-377 | From every reachable state of a cluster that is up, kept after failures and not to be cancelled, whose job has failed with a savepoint recorded, six passes in which nothing fails create one more Job from the savepoint recorded last, whatever components are missing, however old the status is and whether or not the failed Job is deleted yet |
| `Guarantees.StaysFailedWithoutSavepoint` | api/v1beta1/flinkcluster_types.go:286-289 | A Job that has failed with no savepoint recorded is never followed by another, and stays recorded as failed unless cancellation is requested |
| `Guarantees.RestartedIff` | controllers/flinkcluster_util.go:92-100 | From every reachable state with a failed job, six calm passes create another Job if and only if the cluster is up and kept, the policy is to restart, a savepoint is recorded and no cancellation is requested |
| `Guarantees.CancelledForGood` | controllers/flinkcluster_updater.go:404-413 | Once Cancelled is recorded it stays recorded, cancellation stays requested, no Job exists or is created, and no more Flink jobs run than then |
| `Guarantees.CancelledUnsavedIff` | controllers/flinkcluster_reconciler.go:392-404 | In every run and under all conditions, a pass that deletes the Job on request records no savepoint if and only if no directory is given, the recorded job has ended, no ID is recorded, or the accepted savepoint was not completed in twelve answers of which the last was no failure |
| `Guarantees.CancelledStopsAllIff` | controllers/flinkcluster_reconciler.go:501-515 | Such a pass leaves no Flink job running if and only if every job running when it was to be stopped had the recorded ID |
| `Guarantees.CancelledLeavesRunningIff` | controllers/flinkcluster_observer.go:199-264 | If nothing else happens during such a pass, a Flink job is left running if and only if the state is not Running or Flink did not answer, and the running job is not the recorded one |
| `Guarantees.RestartCountExact` | controllers/flinkcluster_updater.go:387-403 | In every run the recorded restart count is the number of Jobs after the first that a pass read unfinished before a status write of its own took effect, and equals the number of restarts if and only if that holds of each |
| `Guarantees.RestartCountBounded` | controllers/flinkcluster_updater.go:387-403 | The recorded restart count never exceeds the Jobs created after the first and, up to 2^31 Jobs, never decreases |
| `Guarantees.SavepointsConserved` | controllers/flinkcluster_reconciler.go:561-601 | Recorded savepoints are never lost; the generation is their number (as an int32), and location and time are those of the last |
| `Guarantees.SavesWhenCalledFor` | controllers/flinkcluster_reconciler.go:517-551 | In every reachable steady state whose job can be saved, a pass whose savepoint completes records one more if and only if the spec asks for a later generation, none was recorded and savepoints are automatic, or the interval has passed; the trigger, location, time, generation and ID recorded are those of the savepoint, and otherwise nothing changes |
| `Guarantees.SavesOnlyWhenCalledFor` | controllers/flinkcluster_reconciler.go:378-380 | Under all conditions every savepoint a pass records satisfies the rule its trigger names, or is taken because cancellation is requested |
| `Guarantees.RequestIsMet` | controllers/flinkcluster_reconciler.go:527-534 | In every reachable steady state a user's request for the next savepoint is admitted, and the next pass whose savepoint completes records it as requested |
| `Guarantees.SavepointsKeepInterval` | controllers/flinkcluster_reconciler.go:536-551 | A savepoint triggered by the interval is recorded at least autoSavepointSeconds after the one before it, although times are cut to seconds |
| `Guarantees.SpecStaysTheSame` | api/v1beta1/flinkcluster_validate.go:68-142 | Along every run the spec differs from the admitted one only in cancelRequested, which only becomes true, and in the savepoint generation, which is the admitted one or at most one ahead of the recorded one |
| `Guarantees.OneSavepointSatisfies` | controllers/flinkcluster_reconciler.go:527-534 | After any pass that records a savepoint, none is due on request any more unless the spec still has the generation it was admitted with |
| `Guarantees.StateMovesForward` | controllers/flinkcluster_updater.go:415-457 | The cluster state never falls back in the order Creating, Running or Reconciling, Stopping or PartiallyStopped, Stopped; Stopped is final |
| `Guarantees.StateSaysWhatIsReady` | controllers/flinkcluster_updater.go:415-442 | In every run Creating and Reconciling are recorded only with one of the three counted entries not Ready, and a cluster that was not up becomes Running with all three Ready |
| `Guarantees.BeginsToStopIff` | controllers/flinkcluster_updater.go:423-437 | A cluster that is up begins to stop in a pass if and only if the pass writes the status and has seen the job end in a way after which the policy does not keep it |
| `Guarantees.KeptByDefault` | api/v1beta1/flinkcluster_default.go:119-126 | A cluster submitted without a cleanup policy stays Running or Reconciling in every pass that has read its job's failure |
| `Guarantees.ComponentsCarrySpec` | controllers/flinkcluster_converter.go:87-490 | Every component a pass creates carries the admitted spec: names, replicas, container ports in order, service type by scope and named ports, ingress host and TLS list, the rendered configuration, the GCP account; the rest of the pass creates none |
| `Guarantees.SessionClusterRuns` | controllers/flinkcluster_observer.go:161-169 | A cluster without a job spec never goes beyond Running or Reconciling and never has a Job or a job status |
| `Guarantees.SessionClusterStays` | controllers/flinkcluster_converter.go:766-773 | No pass deletes a component of a session cluster |
| `Guarantees.CleanedUpForGood` | controllers/flinkcluster_converter.go:766-795 | Once the cluster is stopping its recorded job state stays terminal, and a component that the policy removes after every end is never created again |
| `Guarantees.CalmPassesCleanUp` | controllers/flinkcluster_reconciler.go:50-87 | A stopping cluster that the policy deletes is Stopped with all five components gone after three or more passes in which nothing fails or changes |
| `Guarantees.StatusSettles` | controllers/flinkcluster_controller.go:149-162 | From every reachable state, while nothing else moves, at most two status writes in a row happen |
| `Guarantees.PanicFreeIff` | controllers/flinkcluster_converter.go:898-927 | No run of an admitted cluster reaches a nil pointer or a panic, if and only if the GCP configuration, if any, names a service account |
| `OperatorObjects.FlinkClusterHandler.Reconcile` | controllers/flinkcluster_controller.go:106-217 | A pass changes the world exactly as the function Pass says: status written or action taken, never both |
| `OperatorObjects.ClusterStateObserver.Observe` | controllers/flinkcluster_observer.go:60-159 | What is seen, in which order, with the events in between, and when the pass ends with an error |
| `OperatorObjects.ClusterStateObserver.ObserveJob` | controllers/flinkcluster_observer.go:161-197 | The Flink job list is read before the Job; without a job spec neither is read |
| `OperatorObjects.ClusterStateObserver.ObserveFlinkJobs` | controllers/flinkcluster_observer.go:199-264 | Flink is asked only in Running; the loop collects exactly the running IDs, and the job ID is the only running one, or that of the only job |
| `OperatorObjects.ClusterStatusUpdater.UpdateStatusIfChanged` | controllers/flinkcluster_updater.go:48-82 | The derived status is written if and only if it differs from the recorded one |
| `OperatorObjects.ClusterReconciler.Reconcile` | controllers/flinkcluster_reconciler.go:50-87 | The components in order until one fails, then the job |
| `OperatorObjects.ClusterReconciler.ReconcileDeployment` | controllers/flinkcluster_reconciler.go:103-124 | Created if wanted and not seen, deleted if seen and not wanted, else left alone, with the error of the request |
| `OperatorObjects.ClusterReconciler.ReconcileConfigMap` | controllers/flinkcluster_reconciler.go:284-303 | The same for the config map, and nothing else changes |
| `OperatorObjects.ClusterReconciler.ReconcileJobManagerService` | controllers/flinkcluster_reconciler.go:175-195 | The same for the service, and nothing else changes |
| `OperatorObjects.ClusterReconciler.ReconcileJobManagerIngress` | controllers/flinkcluster_reconciler.go:230-249 | The same for the ingress, and nothing else changes |
| `OperatorObjects.ClusterReconciler.ReconcileTheJob` | controllers/flinkcluster_reconciler.go:338-407 | Submit, wait, stop unexpected jobs, restart, take a savepoint, or cancel and delete, as the desired and the observed Job say |
| `OperatorObjects.ClusterReconciler.RestartJob` | controllers/flinkcluster_reconciler.go:456-482 | Running jobs are stopped first; the Job is deleted only if all those requests succeed |
| `OperatorObjects.ClusterReconciler.CancelRunning` | controllers/flinkcluster_reconciler.go:485-498 | The listed jobs are stopped one by one until a request fails |
| `OperatorObjects.ClusterReconciler.CancelJobWithSavepoint` | controllers/flinkcluster_reconciler.go:501-515 | A savepoint first, if one can be taken; the job is not stopped if that reports an error |
| `OperatorObjects.ClusterReconciler.ShouldTakeSavepoint` | controllers/flinkcluster_reconciler.go:517-558 | Whether a savepoint is due, and by which rule |
| `OperatorObjects.ClusterReconciler.TakeSavepoint` | controllers/flinkcluster_reconciler.go:561-587 | A completed savepoint without a failure cause is recorded; running out of queries is no error |
| `OperatorObjects.ClusterReconciler.UpdateSavepointStatus` | controllers/flinkcluster_reconciler.go:589-601 | One more savepoint in status and history, and the shared observed status changed even if the write fails |
| `Preservation.RunKeeps` | controllers/flinkcluster_controller.go:106-217 | Every run keeps the invariant: single Flink job, savepoints accounted for and spaced, cancellation final, deletions with a reason, every Job started from the right savepoint, restarts counted at most once, job ended once the cluster winds down |
| `Preservation.PassKeeps` | controllers/flinkcluster_controller.go:106-217 | One pass keeps it, whatever fails and whatever happens during the pass |
| `Preservation.ViewIsSighting` | controllers/flinkcluster_observer.go:161-264 | Although the Flink list is older than the Job, an empty list and no Job mean that nothing runs and nothing can be submitted when the pass acts |
| `Preservation.AdmittedStartsWell` | api/v1beta1/flinkcluster_validate.go:34-65 | An admitted cluster starts in the invariant |
| `Onwards.RunOnward` | controllers/flinkcluster_updater.go:415-457 | Along every run the state rank, the histories, the recorded job, the cancellation and the restart count only move in one direction |
| `Submission.PanicsIffUnsafe` | controllers/flinkcluster_updater.go:173-460 | A pass panics exactly when one of the listed nil pointers, unknown states or unknown scopes is reached; the UI port counts only where a Flink request is made |
| `Submission.PassCreates` | controllers/flinkcluster_reconciler.go:345-363 | A pass creates at most one Job, the desired one, and only if it saw no Job and Flink answered that nothing runs |
| `Submission.RunNeverPanics` | controllers/flinkcluster_converter.go:492-552 | No run from a well-kept world panics if the GCP configuration, if any, names a service account |
| `Submission.GCPPanics` | controllers/flinkcluster_converter.go:903-914 | Without one, two undisturbed passes over a new cluster panic |
| `Settling.ThirdDerivationChangesNothing` | controllers/flinkcluster_updater.go:173-460 | With Kubernetes, Flink and the spec fixed, deriving the status three times gives what deriving it twice gives |
| `Settling.AtMostTwoWrites` | controllers/flinkcluster_controller.go:149-162 | After two writes in a row the third pass writes nothing |
| `Settling.TwoWritesToStop` | controllers/flinkcluster_updater.go:423-451 | Two in a row are needed when the job's end is seen with no component left: Stopping, then Stopped |
| `Cleanup.NeverCreatedAgain` | controllers/flinkcluster_converter.go:766-795 | In a cluster that winds down, an absent component that is removed after every end stays absent in every run |
| `Cleanup.CalmPassDescends` | controllers/flinkcluster_reconciler.go:50-124 | Each calm pass lowers the measure of what is left to write and delete, and zero stays zero |
| `Cleanup.CalmRunEnds` | controllers/flinkcluster_updater.go:443-454 | As many calm passes as the measure says end in Stopped with all components gone |
| `Cleanup.SessionKeepsComponents` | controllers/flinkcluster_converter.go:766-773 | What exists of a session cluster when a pass is done reading exists after it |
| `Recovery.SubmitsInOnePass` | controllers/flinkcluster_reconciler.go:345-363 | With no Job and nothing running, one pass over a steady cluster creates the desired Job and changes nothing else |
| `Recovery.StopsAll` | controllers/flinkcluster_reconciler.go:485-498 | If every stop request succeeds, no listed job runs afterwards |
| `Recovery.RestartsInTwoPasses` | controllers/flinkcluster_reconciler.go:456-482 | A failed job is cleared away by one pass and created again by the next, from the recorded savepoint, even if its Flink job was still running |
| `Restarting.RunRestarts` | controllers/flinkcluster_reconciler.go:456-482 | As many calm passes as the measure of writes, clearing and creating says end with a Job from the recorded savepoint |
| `Cancellation.UnsavedIff` | controllers/flinkcluster_reconciler.go:392-404 | For every world and all conditions, a pass that deletes the Job on request records no savepoint exactly if no ID is recorded, none can be taken, or it ran out of queries |
| `Cancellation.NothingLeftIff` | controllers/flinkcluster_reconciler.go:501-515 | It leaves nothing running exactly if all that ran had the recorded ID |
| `Cancellation.LeftRunningIff` | controllers/flinkcluster_updater.go:466-480 | The same for any world with at most one running job: an answer from Flink makes the pass record the running ID before it acts |
| `Cancellation.CancelsInOnePass` | controllers/flinkcluster_reconciler.go:392-404 | A calm pass over a steady cluster: deleted without a stop if no ID is recorded; else saved, stopped and deleted; nothing done after an error; or stopped and deleted unsaved |
| `Cancellation.RunRunsNothingNew` | controllers/flinkcluster_converter.go:563-565 | With the Job deleted on request, no run brings back a Job or another running Flink job |
| `Counting.RunKeepsCounted` | controllers/flinkcluster_updater.go:366-412 | Every run keeps the count equal to the noted Jobs, with an unfinished Job noted exactly if the status is not that of the failed one before it |
| `Counting.RunNotes` | controllers/flinkcluster_updater.go:48-82 | The noted Jobs are those read unfinished by the passes of the run whose status write took effect |
| `Requests.PassAsks` | api/v1beta1/flinkcluster_validate.go:116-142 | Within one pass the spec can only come to ask for the savepoint after the one recorded before it, and at most one savepoint is recorded |
| `Standing.RunWithoutJob` | controllers/flinkcluster_reconciler.go:345-363 | While there is no Job and none is created, no run records a savepoint |
| `Standing.RunLeavesFailed` | controllers/flinkcluster_reconciler.go:365-390 | With a failed Job and no savepoint, or once cancellation is requested, no run creates a Job |
| `Witnesses.StoppedUnsaved` | controllers/flinkclient/flink_client.go:189-197 | A run in which the job runs, is cancelled and, after a minute of polling, is stopped without its savepoint |
| `Witnesses.CancelledWhileRunning` | controllers/flinkcluster_reconciler.go:392-404 | A run in which Cancelled is recorded without a savepoint while the Flink job still runs |
| `Witnesses.NotRestarted` | controllers/flinkcluster_updater.go:425-437 | A run in which a job fails with a savepoint recorded and is never restarted |
| `Witnesses.Restarted` | controllers/flinkcluster_reconciler.go:456-482 | A run in which it is restarted from that savepoint |
| `Witnesses.UncountedRestart` | controllers/flinkcluster_updater.go:387-403 | A run with two Jobs and a restart count of zero |
| `Witnesses.ExampleRuns` | api/v1beta1/flinkcluster_validate.go:34-65 | These runs exist for one concrete spec that passes both webhooks |
| `Readings.CreatingMeans` | controllers/flinkcluster_updater.go:416-422 | From no state or Creating: Running if and only if all three counted entries are Ready, else Creating |
| `Readings.ActiveMeans` | controllers/flinkcluster_updater.go:423-442 | From Running or Reconciling: with the job not ended, Running if and only if all three are Ready, else Reconciling; with the job ended, Stopping if and only if the policy does not keep the cluster after that end, else Running |
| `Readings.WindingMeans` | controllers/flinkcluster_updater.go:443-451 | From Stopping or PartiallyStopped: Stopped if none is Ready, Stopping if all are, PartiallyStopped otherwise |
| `Readings.EntriesMean` | controllers/flinkcluster_updater.go:181-261 | Each entry is Ready or not by replicas, address or ports as seen, Deleted if gone, unset if never seen |
| `Readings.IngressURLsMean` | controllers/flinkcluster_updater.go:270-318 | The URLs are exactly those of the TLS hosts or rule hosts if there are any, else those of the load balancer's addresses |
| `Readings.JobEntryMeans` | controllers/flinkcluster_updater.go:369-403 | State, ID and savepoint come from the Job and Flink as said, savepoint fields stay as recorded |
| `Readings.MissingJobMeans` | controllers/flinkcluster_updater.go:404-412 | Without its Job the job keeps its status, but becomes Cancelled if that was requested |
| `Readings.ObservedIDMeans` | controllers/flinkcluster_observer.go:238-263 | The ID is that of the only running job, or of the only job if none runs |
| `Readings.CleanupMeans` | controllers/flinkcluster_converter.go:766-795 | Which component is removed after which end under which action |
| `Statuses.PassStatus` | controllers/flinkcluster_updater.go:48-82 | A pass writes the status derived from what it saw, or leaves it but for a savepoint of the job |
| `Saving.PassSaves` | controllers/flinkcluster_reconciler.go:517-601 | What a pass over a steady cluster records, rule by rule |
| `Contents.PassAfterMade` | controllers/flinkcluster_reconciler.go:50-87 | After its components are reconciled a pass adds none |
| `Preservation.FailureEndsReconciling` | controllers/flinkcluster_reconciler.go:50-83 | The order of the components: a failed request leaves all that come later alone |
| `Preservation.FailureEndsActing` | controllers/flinkcluster_reconciler.go:50-86 | After a failed request for a component the job is not touched |
| `StatusUpdater.DeriveClusterStatus` | controllers/flinkcluster_updater.go:173-460 | The derivation, with its counters and flags, yields the status the specification says, and its running counter is the number of Ready entries among the three counted components |
| `StatusUpdater.DeriveComponents` | controllers/flinkcluster_updater.go:181-359 | Status of each component, Deleted for one that is gone, and the count of the Ready ones |
| `StatusUpdater.DeriveJobStatus` | controllers/flinkcluster_updater.go:361-413 | Job state, ID, savepoint, restart count and how the job has ended |
| `StatusUpdater.DeriveServiceStatus` | controllers/flinkcluster_updater.go:215-261 | Ready by service type, and the node port of the last port named ui |
| `StatusUpdater.DeriveIngressStatus` | controllers/flinkcluster_updater.go:263-340 | URLs from TLS hosts or rules, or else from the load balancer, and readiness |
| `StatusUpdater.IngressReadyIffAddressed` | controllers/flinkcluster_updater.go:300-325 | An ingress is ready exactly when some load balancer entry has a hostname or an IP |
| `StatusUpdater.IsStatusChanged` | controllers/flinkcluster_updater.go:482-581 | Everything is compared but the name and the URLs of the ingress |
| `Converter.GetDesiredClusterState` | controllers/flinkcluster_converter.go:69-84 | The desired resources of a cluster, and none for a deleted one |
| `Converter.GetDesiredConfigMap` | controllers/flinkcluster_converter.go:492-552 | The text rendered from the operator's properties overlaid by the user's |
| `Converter.GetDesiredJob` | controllers/flinkcluster_converter.go:555-695 | No Job for a session cluster or once cancellation is requested; else arguments with the chosen savepoint and merged init containers |
| `Converter.ConvertGCPConfig` | controllers/flinkcluster_converter.go:898-927 | The secret is the configured one, the mount path the configured one with a slash at its end, and the credentials variable the key file under it |
| `Converter.RestartsFromRecordedSavepoint` | controllers/flinkcluster_converter.go:586-590 | In the restart case the arguments read back as the recorded savepoint |
| `JobArguments.BuildJobArgs` | controllers/flinkcluster_converter.go:580-620 | The appends and loops build the specified argument list |
| `JobArguments.GetFromSavepoint` | controllers/flinkcluster_util.go:102-110 | The loop returns what follows the first flag that something follows |
| `JobArguments.ReadsChosenSavepoint` | controllers/flinkcluster_converter.go:586-594 | Reading the built arguments yields the chosen savepoint if and only if the class name is not the flag itself (or the savepoint is spelled like it) |
| `JobArguments.ReadsNothingUnlessUserArgs` | controllers/flinkcluster_util.go:102-110 | With none chosen the reader finds nothing if and only if the class name is not the flag and the JAR path and user arguments hold no savepoint |
| `JobArguments.ArgsLaidOut` | controllers/flinkcluster_converter.go:580-620 | The built list starts with the command and the address, has each option at its position exactly if it is given, then the JAR (under /opt/flink/job/ if remote) and ends with the user's arguments |
| `JobArguments.DecimalReads` | controllers/flinkcluster_converter.go:599-602 | A printed number reads back as itself |
| `FlinkConf.OtherKeysAre` | controllers/flinkcluster_converter.go:511-523 | Beside system and user keys there are only the TaskManager RPC port and the heap sizes, each shown exactly if some heap remains |
| `FlinkConf.LessIff` | controllers/flinkcluster_converter.go:742-747 | The order of the keys is that of their texts, character by character |
| `FlinkConf.AddUserProperties` | controllers/flinkcluster_converter.go:524-532 | Whatever the iteration order, the result is the overlay that skips system keys |
| `FlinkConf.SystemKeysWin` | controllers/flinkcluster_converter.go:511-532 | Whatever the user sets, the five system keys show the service name and the ports of the deployment; any other key shows the user's value if there is one |
| `FlinkConf.GetFlinkProperties` | controllers/flinkcluster_converter.go:742-755 | Whatever order the keys come in, the text is that of the keys in strictly increasing order |
| `FlinkConf.SortStrings` | controllers/flinkcluster_converter.go:742-747 | The same keys, sorted |
| `FlinkConf.SortedUnique` | controllers/flinkcluster_converter.go:742-747 | A set of keys has only one strictly increasing order |
| `FlinkConf.ReadsBack` | controllers/flinkcluster_converter.go:748-755 | Parsing the text line by line yields each key once, in order, with its value |
| `FlinkConf.RenderingInjective` | controllers/flinkcluster_converter.go:742-755 | Different property maps give different texts if keys have no colon or newline and values no newline |
| `Mounts.ConvertJobInitContainers` | controllers/flinkcluster_converter.go:705-726 | Each init container gets its own mounts and the job's, merged |
| `Mounts.MergeCovers` | controllers/flinkcluster_converter.go:705-726 | Own mounts come first and unchanged, exactly the paths of both are covered, only job mounts are added, and paths stay distinct if they were |
| `Mounts.MergeAddsFirstOfEachPath` | controllers/flinkcluster_converter.go:705-726 | What is added is exactly the first job mount of each path not mounted before |
| `Mounts.MergeKeepsOrder` | controllers/flinkcluster_converter.go:705-726 | Added mounts keep the order they have in the job |
| `Mounts.MergeIdempotent` | controllers/flinkcluster_converter.go:705-726 | Merging again changes nothing |
| `HeapSize.FloatsAgreeWithIntegers` | controllers/flinkcluster_converter.go:835-848 | Below 2^53 the floating-point computation gives the integer result, for any correctly rounded division |
| `HeapSize.HeapBounds` | controllers/flinkcluster_converter.go:835-848 | A positive result is the remaining memory in megabytes rounded up; zero means none remains |
| `HeapSize.HeapMonotone` | controllers/flinkcluster_converter.go:835-848 | More memory gives no less heap, a higher ratio or minimum no more |
| `FlinkClient.TakeSavepoint` | controllers/flinkclient/flink_client.go:178-198 | The polling loop returns the first completed answer of twelve, or the last answer |
| `FlinkClient.OutcomeExactly` | controllers/flinkcluster_reconciler.go:573-586 | When a savepoint is done, which answer it is, and when the loop runs out silently |
| `Validation.AdmittedIsReady` | api/v1beta1/flinkcluster_validate.go:203-336 | An admitted spec has every port, policy and known scope the controllers dereference or switch on, and no cancellation |
| `Validation.AdmittedIff` | api/v1beta1/flinkcluster_validate.go:34-65 | A cluster is admitted if and only if every field is as listed: names, image, pull policy, replicas, scope, ports above 1024, ratios, memory, Hadoop and GCP fields, job fields |
| `Validation.RejectedForAReason` | api/v1beta1/flinkcluster_validate.go:144-383 | The reason a cluster is rejected for holds of it |
| `Validation.UpdateRejectedBecause` | api/v1beta1/flinkcluster_validate.go:68-142 | An update is rejected for withdrawing a cancellation, for asking for another savepoint than the next, or for changing something else |
| `Validation.DefaultsSuffice` | api/v1beta1/flinkcluster_default.go:25-136 | A spec that leaves out all it may is admitted after defaulting if and only if its names, replicas and JAR file are given |
| `Validation.UpdateAdmittedIff` | api/v1beta1/flinkcluster_validate.go:68-142 | An update is admitted if and only if it changes nothing, only requests a cancellation not yet requested, or only asks for the savepoint after the recorded one |
| `Defaults.ClusterObject.SetDefault` | api/v1beta1/flinkcluster_default.go:25-31 | Setting defaults in place gives the specified spec |
| `Defaults.DefaultsAre` | api/v1beta1/flinkcluster_default.go:25-136 | Every property left out gets its documented default, every one given stays, and nothing else changes |
| `Defaults.DefaultIdempotent` | api/v1beta1/flinkcluster_default.go:25-136 | Setting defaults twice is setting them once |

## Left out

- `OperatorObjects.FlinkClusterHandler.Reconcile`: the watched-namespace filter, the requeue result and the returned error, and so progress while requests fail.
- `OperatorObjects.ClusterStateObserver.Observe`: events between the reads of the single components.
- `OperatorObjects.ClusterReconciler.Reconcile`: the requeue result and the returned error; the code drops the error of the job part.
- `OperatorObjects.ClusterReconciler.ReconcileTheJob`: the requeue result and the returned error, which its caller drops.
- `OperatorObjects.ClusterReconciler.RestartJob`: the returned error, which only decides the requeue result.
- `Converter.GetDesiredClusterState`: volumes, labels, owner references, probes and the other environment variables of the desired pods, which only add record fields.
- `Converter.GetDesiredJob`: the volumes, the Hadoop part and the other environment variables of the pod.
- `Converter.GetDesiredConfigMap`: uses the integer heap size, so memory times ratio beyond 2^53 is not modelled there; `HeapSize.CalHeapSize` has the floating-point form. The logging configuration of the map is not modelled.
- `StatusUpdater.IsStatusChanged`: LastUpdateTime, and the difference between a nil and an empty list of URLs.
- `Guarantees.RestartCountBounded`: states a bound and that the count never falls; the exact count is `Guarantees.RestartCountExact`.
- `Guarantees.CleanedUpForGood`: asks that the policy removes the component after every end, because the counters of a Job, a later cancellation and so the end recorded may still change; `Guarantees.CalmPassesCleanUp` needs only the end at hand.
- The job state Unknown, which the code never sets.
- The pattern in the ingress host format: the format is used as it is.
- HTTP requests and JSON decoding in the Flink client: each call is one outcome.
- Kubernetes conflict detection beyond a failing request, and garbage collection of children after deletion.
- The v1alpha1 API, generated deep copies, webhook registration, events, logging and deployment files.
