# CPodJob operator: a verified model

The operator keeps training jobs (CPodJobs) of one computing pod in step with a
portal. Two programs share the work.

* The **reconciler** drives each job's status, a list of typed conditions, against
  the training job it creates (an MPIJob or a PyTorchJob), the claims and artifacts
  the job needs, and a job that uploads the trained model.
* The **synchroniser** runs three goroutines: one creates and deletes CPodJobs to
  match the portal's list and remembers failed creations in a locked buffer, one
  observes the cluster and builds payloads, one uploads them as heartbeats.

## How the model is built

`Conditions` holds the condition list, its editing routine as a method on a class,
and two references for it: a map, and the history of updates.

`ReconcileMachine` is one call of `Reconcile` cut at every call to the API server:
a phase says which call comes next, `Advance` what the code does with the reply.
`Reconciler` holds the methods of the source. Their client only lets them make the
machine's next call, so each method is proved to follow the machine to its end.
`ReconcileLaws` and `ReconcileOutcomes` state what one call guarantees, for every
starting status and every reply, `ReconcileFailures` when it panics or fails the job,
`ReconcileReads` when it asks the API server the same thing twice, `ReconcileRepeats`
what a second call does after it. `Requirements` and `RequestedCalls` say what a call
owes in the fields of the spec, of the stored status and of the replies alone: when it
may stop, what it records, which calls it makes, what the training job it requests
looks like and how it ends. Calls are tagged with their place in the code, so two reads
of one claim may be answered differently.

`Lifecycle` puts any number of such reconciles side by side, each started from any
stored version of the status (with or without the Created condition the create
handler adds to a cached object), interleaved call by call, crashing and restarting
anywhere, with arbitrary replies. Training job, claims and upload job may do
anything, including change their minds; their success is not assumed to last. A write
may also be applied with its acknowledgement lost. The assumptions are:

* the API server's optimistic concurrency: a status write goes through only against
  the version it was read at;
* only reconciles write the status;
* the job keeps its spec, and is not deleted and created anew under its name.

`LifecycleCauses` says which observations lie behind every conclusion and request of
a run. `StatusShape` and `LifecycleHistory` add what holds when the job starts with an
empty or Created-only status.

`FailureBuffer`, `SyncPass` and `SyncJob` are the synchroniser's pass, as a function
with its laws and as the methods with their loops. `SyncProtocol` is the same pass
cut into steps and interleaved with lock-taking readers, status changes and
deletions by users. `SyncSolo` shows that undisturbed it computes the function.
`SyncDisjoint` says when a job is both in the cluster and remembered as failed, and
`Payloads` what a heartbeat then says of it. Throughout, a request of the
synchroniser may be refused, or take effect without being acknowledged; nobody else
creates jobs with the source label. `Heartbeat` is the channel and the uploader.
`Observer` reads statuses and sums GPUs, `Sizing` is the arithmetic. `Agreement` and
`PortalRequests` tie the two programs together.

Some places differ from what the code's own comments, or its users, would expect; the
model follows the code and says exactly when they do.

* The last transition time of Running is not moved when Failed or Succeeded turns
  it False. `RunningTimeExactly` says exactly when it is right.
* A failed lookup of the pretrained model's claim, other than NotFound, is ignored
  and the job is created with a volume naming no claim. `MountsFoundClaimsExactly`
  says exactly when.
* `GetCKPTPVC` reports neither claim nor error after creating the claim, and the
  caller dereferences it: a panic, with no status write. `PanicsExactly` says when; a
  reconcile that finds the claim does not panic.
* A PyTorch job with several workers mounts a volume it does not have
  (`MountsHaveVolumesExactly`).
* A portal list that repeats the name of a job of a known type leaves a created job
  remembered as failed (`DisjointExactly`), and so does a creation that is not
  acknowledged (`TwoFacedExactly`).
* A heartbeat lists the cluster before it copies the buffer, so one payload can name a
  job twice or not at all (`MentionsExactly`).
* Past its time limit a job that succeeded is reported failed (`ReportAgreesExactly`).
* Portal sizes and GPU counts too large for an int32 product reach the cluster changed
  (`PortalVolumesExactly`, `PortalGpusExactly`).

## Model

| member | source | states |
|---|---|---|
| ReconcileLaws.NoLostWakeup | internal/controller/cpodjob_controller.go:94-182 | For every starting status and every pattern of replies, a reconcile that ends without error and without a requeue read a terminal status or had a terminal one accepted by the API server. |
| Reconciler.CPodJobReconciler.Reconcile | internal/controller/cpodjob_controller.go:94-154 | The method makes exactly the machine's calls and returns its result, on every exit and through the deferred write; ending quietly it leaves a terminal status. |
| Lifecycle.NoLostWakeupInRuns | internal/controller/cpodjob_controller.go:94-182 | At every moment of every run, from any status, with stale snapshots, concurrent reconciles, crashes and lost writes: once some reconcile has asked for nothing more, the stored status is terminal. |
| Requirements.QuietLeavesWorkOver | internal/controller/cpodjob_controller.go:94-182 | A reconcile that asks for nothing more leaves in store, as read or as accepted by the API server, a status with Failed True, or with Succeeded True and, if the spec says uploadModel and gives a save path, with a ModelUploaded condition. |
| Requirements.TakenUpExactly | internal/controller/cpodjob_controller.go:103-116 | A second call is made if and only if the job was found and its status is not like that. |
| Requirements.StoredWorkIsOver | internal/controller/cpodjob_controller.go:94-182 | In every run: once some reconcile has asked for nothing more the stored status is like that. |
| Cluster.NeedReconcileExactly | internal/controller/cpodjob_controller.go:167-182 | The guard lets through exactly the jobs whose status is not like that. |
| Requirements.RecordsTrainingJob | internal/controller/cpodjob_controller.go:454-475 | In the training job's own words, MPI or PyTorch: with some Failed condition True any status sent has Failed True, reason BaseJobFailed and the first such condition's message; else with some Succeeded condition True, Succeeded True with the first one's reason and message and the completion time; else Running, and an error. The first two are always sent; the start time is set once. |
| Cluster.VerdictSpelledOut | internal/controller/cpodjob_controller.go:460-470 | The same of the verdict alone. |
| Requirements.RecordsUploadJob | internal/controller/cpodjob_controller.go:733-745 | Of a due upload any status sent records success, the end of the retries, or work in progress, with their texts, as the upload job says; the first two are always sent. |
| RequestedCalls.RequestedJobSpelledOut | internal/controller/cpodjob_controller.go:197-449 | A requested training job has the spec's name, type, GPUs and replicas (none standing for one) and mounts exactly the claims the spec asks for, in order, each under its own path, and shared memory when a PyTorch job has several workers. |
| RequestedCalls.MountedExactly | internal/controller/cpodjob_controller.go:214-285 | Each of checkpoint, saved model, dataset and pretrained model is mounted, its claim under its path, if and only if the spec asks for it. |
| RequestedCalls.CallsExactly | internal/controller/cpodjob_controller.go:94-746 | Which calls a reconcile makes, with which names and sizes: each if and only if it is due by the spec and the replies (of status writes and the training job's content, only if). |
| RequestedCalls.EndsExactly | internal/controller/cpodjob_controller.go:94-154 | Without a panic a reconcile asks for another round if and only if the training job's creation went through or found it there, or an artifact is missing; it then errs if and only if a write was refused; else it errs unless the work is over and the write accepted. |
| Lifecycle.TerminalIsFinal | internal/controller/cpodjob_controller.go:103-116 | Once the stored status is terminal no continuation of the run changes what is stored. |
| LifecycleHistory.StoredStatusInvariant | internal/controller/cpodjob_controller.go:103-151 | Every version ever stored has distinct types, never Failed and Succeeded both True, no True Running once finished, an upload only of a succeeded job, and never both ModelUploading and ModelUploaded. |
| LifecycleHistory.AtMostFourWrites | internal/controller/cpodjob_controller.go:107-116 | Each stored version ranks strictly above the ones before (nothing, running, finished, uploading, uploaded or given up), so a run of any length stores at most four updates. |
| LifecycleCauses.ConclusionsHaveCauses | internal/controller/cpodjob_controller.go:118-151 | In every run from any status, unless it began so: a stored success, and every request for the upload job, come after the training job was read as succeeded; a stored failure after it was read as failed or an artifact or its claim as missing or unusable; ModelUploaded=True after the upload job was read with one success, and False after it was read with its retries used up. |
| LifecycleCauses.CreationsAreGated | internal/controller/cpodjob_controller.go:185-451 | In every run, before any request for the training job it was read as absent, every claim of the job's own as bound, and every artifact asked for as done with its claim there (a failed lookup of the model's claim passing); and it mounts those claims. |
| ReconcileOutcomes.CreatesBaseJobExactly | internal/controller/cpodjob_controller.go:185-452 | A training job is requested if and only if the job had not started, the requested claims were bound and the requested artifacts done with their claims (a failed lookup of the model's claim passing); the request is the one built from those claims. |
| ReconcileOutcomes.MountsFoundClaimsExactly | internal/controller/cpodjob_controller.go:213-284 | Since no claim has an empty name, every volume of a requested training job names a claim that was found if and only if the lookup of the model's claim did not end in an error other than NotFound; otherwise the last volume names no claim. |
| ReconcileOutcomes.LookupFailureMountsNothing | internal/controller/cpodjob_controller.go:277-284 | A concrete spec and replies for which a job with such a volume is requested. |
| ReconcileFailures.FailsJobExactly | internal/controller/cpodjob_controller.go:118-151 | A status with Failed=True is sent to be stored if and only if the training job was read as failed, or the job had not started, its own claims were bound and the first artifact not ready is missing or unusable; it is always sent over the snapshot read. |
| ReconcileFailures.MissingArtifactFailsJob | internal/controller/cpodjob_controller.go:232-285 | In the second case the status sent has the reason and the message of what is missing and a start time, no training job is requested, and the call asks to be repeated even if the write is refused. |
| ReconcileFailures.PanicsExactly | internal/controller/cpodjob_controller.go:536-579 | A reconcile panics if and only if the job had not started and asks for checkpoints, their claim was not found and its creation was accepted; it has then sent no status write. |
| ReconcileFailures.FirstCheckpointPanics | internal/controller/cpodjob_controller.go:214-221 | A concrete spec and replies for which it does. |
| ReconcileOutcomes.MountsHaveVolumesExactly | internal/controller/cpodjob_controller.go:309-449 | Every mount of a training job that is requested has a volume of its name if and only if it is not a PyTorch job with more than one worker. |
| ReconcileOutcomes.MountWithoutVolume | internal/controller/cpodjob_controller.go:417-447 | Such a job is requested: two PyTorch workers, a shared-memory mount and no volume at all. |
| ReconcileOutcomes.ContentExactly | internal/controller/cpodjob_controller.go:103-154 | A reconcile asks for nothing more if and only if the snapshot was terminal or the training job has finished and, where an upload is wanted, so has the upload; and the status write, if one was sent, was accepted. |
| ReconcileRepeats.RepeatStoresNothing | internal/controller/cpodjob_controller.go:107-144 | With every other reply unchanged and at whatever times: after a stored status the next reconcile writes nothing, and a reconcile of the same status writes again if and only if the first one wrote. |
| ReconcileOutcomes.NineCallsSuffice | internal/controller/cpodjob_controller.go:94-154 | A reconcile makes at most nine calls (the node listing before a creation, left out, is the tenth) and then is over. |
| ReconcileOutcomes.NineCallsHappen | internal/controller/cpodjob_controller.go:213-451 | A concrete spec and replies for which it makes nine. |
| ReconcileOutcomes.NoCallSiteIsReachedTwice | internal/controller/cpodjob_controller.go:94-154 | No call site is reached twice in one reconcile. |
| ReconcileReads.AsksTwiceExactly | internal/controller/cpodjob_controller.go:213-285 | As the API server sees them two calls of a reconcile are the same if and only if it reads the claim of a dataset or a model under a name it has read before: one of the job's own claims, or, for the model, the dataset's. |
| ReconcileReads.SharedClaimIsReadTwice | internal/controller/cpodjob_controller.go:249-277 | A concrete spec and replies for which one claim is read as the dataset's and as the model's. |
| ReconcileLaws.SoundStep | internal/controller/cpodjob_controller.go:94-182 | What each phase may rely on survives every reply, and a quiet end comes only from a terminal snapshot or an accepted terminal write. |
| ReconcileLaws.RecordedFlags | internal/controller/cpodjob_controller.go:460-472 | After recording a verdict an unfinished job is failed or succeeded exactly when the verdict says so, and the upload conditions are untouched. |
| ReconcileLaws.UploadFlags | internal/controller/cpodjob_controller.go:733-743 | The three upload edits leave success and failure as they were; the two final ones record ModelUploaded. |
| Reconciler.CPodJobReconciler.Drive | internal/controller/cpodjob_controller.go:118-153 | The body guarded by the deferred write follows the machine and leaves in memory the status the machine is about to store. |
| Reconciler.CPodJobReconciler.UpdateStatus | internal/controller/cpodjob_controller.go:454-475 | Sets the start time once and records the verdict; the error is returned exactly while the training job is in progress. |
| Reconciler.CPodJobReconciler.GetBaseJobStatus | internal/controller/cpodjob_controller.go:491-508 | Returns the training job's status in the common form for both job types. |
| Reconciler.CPodJobReconciler.ConvertMPIJobConditions | internal/controller/cpodjob_controller.go:511-524 | The array filled by the loop is the pointwise conversion. |
| Cluster.ConversionKeepsVerdict | internal/controller/cpodjob_controller.go:511-524 | A type is True in an MPI job's own conditions exactly when it is after conversion, and the first condition of a type is the same one. |
| Cluster.ConversionKeepsAll | internal/controller/cpodjob_controller.go:491-524 | Every field of every condition, and the three times, are the same before and after. |
| Reconciler.CPodJobReconciler.CreateBaseJob | internal/controller/cpodjob_controller.go:185-230 | Follows the machine through both claims and hands back no error, an error, or a panic, with the status it left in memory. |
| Reconciler.CPodJobReconciler.AddArtifacts | internal/controller/cpodjob_controller.go:232-258 | The same for the dataset and its claim. |
| Reconciler.CPodJobReconciler.AddModel | internal/controller/cpodjob_controller.go:260-451 | The same for the pretrained model, its claim and the creation itself, an existing job counting as created. |
| Reconciler.CPodJobReconciler.FailJob | internal/controller/cpodjob_controller.go:236-238 | Marks the job failed in memory, sets the start time and reports no error. |
| Reconciler.CPodJobReconciler.GetCKPTPVC | internal/controller/cpodjob_controller.go:536-579 | A bound claim, an error, or neither just after creating the claim. |
| Reconciler.CPodJobReconciler.GetModelSavePVC | internal/controller/cpodjob_controller.go:581-622 | A bound claim or an error, also just after creating the claim. |
| Reconciler.CPodJobReconciler.UploadSavedModel | internal/controller/cpodjob_controller.go:654-746 | Follows the machine through the upload job; no error exactly when the upload has succeeded or used up its retries. |
| Lifecycle.SafeRun | internal/controller/cpodjob_controller.go:94-182 | In every run no version before the last is terminal and every reconcile in flight is sound with respect to the store. |
| Lifecycle.SeenKeepsVerdict | internal/controller/cpodjob_controller.go:625-637 | The Created condition added to a cached object never changes whether a status is terminal or succeeded. |
| StatusShape.RecordedShape | internal/controller/cpodjob_controller.go:460-472 | Recording a verdict keeps the status well formed and either changes nothing or raises its rank. |
| StatusShape.MissingShape | internal/controller/cpodjob_controller.go:235-283 | So does failing a job for a missing artifact, always raising the rank. |
| StatusShape.UploadingShape | internal/controller/cpodjob_controller.go:733-743 | So does recording that the upload is running. |
| StatusShape.UploadedShape | internal/controller/cpodjob_controller.go:737-740 | So does recording its end, always raising the rank. |
| StatusShape.CreatedShape | internal/controller/cpodjob_controller.go:625-637 | The Created condition keeps the status well formed and at its rank. |
| Conditions.SetConditionRefinesMap | pkg/util/status.go:63-114 | For every list, duplicates or not, one update of the list is one update of the map of first conditions under the freezing, calming and pruning rules. |
| Conditions.UpdatesRefineMap | pkg/util/status.go:51-114 | The same over any sequence of updates; distinct types stay distinct. |
| Conditions.UpdateEffects | pkg/util/status.go:63-114 | After an update of a list that has not failed the written status, reason and message are found; finishing turns Running False and nothing else of it; ModelUploaded removes ModelUploading; other types are untouched; writing what is there changes nothing. |
| Conditions.FailedFreezes | pkg/util/status.go:63-67 | Once Failed is True no sequence of updates changes the list. |
| Conditions.TransitionTime | pkg/util/status.go:69-113 | After any history the recorded time is that of the update that began the type's current stretch of one status, except for Running turned False on the side, which keeps the earlier stretch's time. |
| Conditions.TransitionTimeIsStretchStart | api/v1beta1/cpodjob_types.go:251-253 | For every type but Running the recorded time is when the status last changed. |
| Conditions.RunningTimeExactly | pkg/util/status.go:102-105 | With a moving clock, Running's time is when its status last changed if and only if that change was a write of Running itself. |
| Conditions.RunningTimeCanLag | pkg/util/status.go:102-105 | A two-update history in which it is not. |
| Conditions.GetAfterSet | pkg/util/status.go:63-114 | What any lookup finds after one update, in terms of what it found before. |
| Conditions.GetFiltered | pkg/util/status.go:96-114 | Filtering commutes with lookup. |
| Conditions.SetKeepsDistinct | pkg/util/status.go:81-82 | An update keeps types distinct. |
| Conditions.FilterOutCondition | pkg/util/status.go:96-114 | The loop computes the filter on the whole list. |
| Conditions.JobStatus.SetJobCondition | pkg/util/status.go:63-84 | The method leaves the list that the update function gives. |
| Conditions.JobStatus.UpdateJobConditions | pkg/util/status.go:51-59 | The same, with the current time in the new condition. |
| Conditions.GetCondition | pkg/util/status.go:86-93 | Finds a condition of the type exactly when there is one. |
| Conditions.GetIsFirst | pkg/util/status.go:86-93 | It is the first one. |
| Conditions.IsStatusConditionTrue | pkg/util/status.go:27-34 | Is the verdict of the first condition of the type. |
| Cluster.GetBaseJobCondition | pkg/util/status.go:117-124 | Finds a condition of the training job of the type exactly when there is one. |
| FailureBuffer.BufferTellsHistory | internal/synchronizer/syncjob.go:175-192 | After any history of attempts a name is remembered if and only if the last attempt for it failed, with the job of the first failure of the unbroken streak. |
| FailureBuffer.StreakBeginsOnce | internal/synchronizer/syncjob.go:175-182 | That streak has one beginning, so the remembered job is determined. |
| SyncJob.SyncJob.Start | internal/synchronizer/syncjob.go:50-163 | The nested loops compute the pass on cluster and buffer, the history grows by exactly the pass's attempts, and a failed listing changes nothing. |
| SyncJob.SyncJob.CreateLoop | internal/synchronizer/syncjob.go:69-139 | The create loop computes its half of the pass and keeps the buffer in step with the history. |
| SyncJob.SyncJob.DeleteLoop | internal/synchronizer/syncjob.go:141-161 | The delete loop computes its half, stopping at the first failed delete. |
| SyncJob.SyncJob.AddCreateFailedJob | internal/synchronizer/syncjob.go:175-182 | Adds a job unless its name is there already. |
| SyncJob.SyncJob.DeleteCreateFailedJob | internal/synchronizer/syncjob.go:185-192 | Removes a name and nothing else. |
| SyncJob.SyncJob.GetCreateFailedJobs | internal/synchronizer/syncjob.go:165-173 | Returns every remembered job once, whatever the map's order. |
| SyncJob.SyncJob.IsListed | internal/synchronizer/syncjob.go:70-75 | The inner loop of the create loop finds whether a name was listed. |
| SyncJob.SyncJob.IsAssigned | internal/synchronizer/syncjob.go:148-153 | The inner loop of the delete loop finds whether the portal names a job. |
| SyncPass.CreateAllExtendsHistory | internal/synchronizer/syncjob.go:69-139 | The create loop takes the buffer of a history to the buffer of that history with the loop's attempts appended, duplicates included. |
| SyncPass.PassClosesGap | internal/synchronizer/syncjob.go:50-163 | Wanted jobs missing plus unfinished jobs unwanted drop by exactly one for every request that takes effect, acknowledged or not, and never grow. |
| SyncPass.CleanPassConverges | internal/synchronizer/syncjob.go:50-163 | After a pass whose requests all went through nothing wanted is missing and nothing unwanted and unfinished is left. |
| SyncPass.ClosedGapPassIsSilent | internal/synchronizer/syncjob.go:50-163 | A pass that starts there sends no request and leaves the cluster as it is. |
| SyncPass.PassTouchesOnly | internal/synchronizer/syncjob.go:69-161 | A pass never removes or changes a job that is wanted or whose work is over, and creates only wanted jobs. |
| SyncPass.FailedDeleteEndsPass | internal/synchronizer/syncjob.go:155-158 | Of the deletes a pass requests only the last may not have gone through, and then it ends the pass. |
| SyncDisjoint.TwoFacedExactly | internal/synchronizer/syncjob.go:131-137 | When in no list a job of a known type is followed by another of its name, at every step of every interleaving a job whose failure is not just being put down is both in the cluster and in the buffer, the one just created and not yet removed aside, if and only if it was created without an acknowledgement and is still there. |
| SyncDisjoint.BufferAndClusterDisjoint | internal/synchronizer/syncjob.go:69-139 | So with every request acknowledged or refused no job is in both, except the one just created and not yet removed from the buffer. |
| SyncDisjoint.LostCreateBreaksIt | internal/synchronizer/syncjob.go:131-137 | For every list with a job of a known type, one such job alone included, a run with unacknowledged creations after which it is in both. |
| SyncDisjoint.DisjointExactly | internal/synchronizer/syncjob.go:69-139 | For a list the portal keeps sending they stay disjoint in every acknowledged interleaving if and only if no job of a known type is followed in it by another of its name, and in every interleaving whatever if and only if it asks for no job of a known type. |
| SyncDisjoint.NamedTwiceBreaksIt | internal/synchronizer/syncjob.go:131-137 | For every list in which one is, an acknowledged run after which that job is created and still remembered as failed. |
| SyncProtocol.RemovedWasUnsettled | internal/synchronizer/syncjob.go:141-161 | In every interleaving a job the synchroniser removes was there, its work not over, when the pass in progress listed it, and the pass's portal list does not name it. |
| SyncProtocol.LockDiscipline | internal/synchronizer/syncjob.go:165-192 | In every interleaving no write overlaps a read, readers copy the buffer of one moment, and what was tested without the lock still holds when writing. |
| SyncSolo.SoloRunIsPass | internal/synchronizer/syncjob.go:50-163 | Left alone, every run of the step-by-step synchroniser from its two lists until it is idle ends with the cluster and buffer of the pass in which each request fares as it did in the run. |
| SyncSolo.PassIsSoloRun | internal/synchronizer/syncjob.go:50-163 | Conversely, whatever becomes of the requests, some such run ends as the pass does. |
| SyncSolo.SoloRunConverges | internal/synchronizer/syncjob.go:50-163 | When every request goes through, such a run leaves no wanted job missing and no unwanted unfinished one. |
| Payloads.MentionsExactly | internal/synchronizer/cpodobserver.go:35-51 | In every interleaving a payload names a job twice if and only if it was listed and, nothing being written for it until the copy, was created without an acknowledgement or not yet struck off the buffer, or else the last thing written was a failure; and not at all if and only if it was not listed and, nothing being written, not remembered, or else the last thing written was the end of its failures. |
| Payloads.BothHappen | internal/synchronizer/cpodobserver.go:35-51 | One acknowledged run, with a payload that names a job twice and one that does not name it. |
| Payloads.CollectStates | internal/synchronizer/cpodobserver.go:35-51 | The states sent are those of the listed jobs in order, followed by the failed creations. |
| Payloads.MentionsAreCounted | internal/synchronizer/cpodobserver.go:35-51 | Whatever the orders of listing and copy, the states sent name a job as often as the two maps do together. |
| Payloads.FailedReportStandsOut | internal/synchronizer/cpodobserver.go:49-49 | The state of a failed creation is that of no job. |
| Observer.ParseStatus | internal/synchronizer/cpodobserver.go:67-85 | The map-filling loop and the scan give the first type of the fixed order whose last condition is True, with its message, or the two defaults. |
| Observer.ReadersAgreeExactly | internal/synchronizer/cpodobserver.go:67-85 | With distinct types, observer and reconciler agree that a job is over if and only if no True upload condition stands in an unfinished status. |
| Observer.GetJobStates | internal/synchronizer/cpodobserver.go:97-123 | One report for each job, in order: the parsed state, or the one an exceeded time limit puts in its place, in lower case. |
| Observer.ReportTellsState | internal/synchronizer/cpodobserver.go:115-121 | Two reports carry the same lower-cased state if and only if the states are the same. |
| Observer.ReportSpelledOut | internal/synchronizer/cpodobserver.go:98-121 | A report carries its job's name, its state's name in lower case, and the parsed remark or that of the time limit. |
| Observer.ParsedSpelledOut | internal/synchronizer/cpodobserver.go:67-85 | A parsed state is that of a condition which is True and the last of its type, with its message, or Created with one of two remarks; it is of the first kind whenever one of the six types is True. |
| Agreement.ReportAgreesExactly | internal/synchronizer/cpodobserver.go:98-112 | Of a well-formed stored status the portal is told truly whether the job is over and whether it failed if and only if the job is within its time limit or has failed; past the limit exactly the running jobs are reported succeeded. |
| Agreement.ReportsAgreeInRuns | internal/synchronizer/cpodobserver.go:98-112 | The same of every version ever stored in any run. |
| Agreement.SucceededReportedFailed | internal/synchronizer/cpodobserver.go:100-111 | A run that stores a success which, past the limit, is reported as failed. |
| Agreement.ReadersAgreeInRuns | internal/synchronizer/cpodobserver.go:67-85 | They agree on every version ever stored in any run. |
| Agreement.FinishedJobsAreKept | internal/synchronizer/syncjob.go:141-157 | No pass deletes a job whose listed status, any version ever stored, had finished. |
| Agreement.RemovedWasUnfinished | internal/synchronizer/syncjob.go:141-157 | Step by step too, with readers, users and status changes in between: a removed job had not finished, by the reconciler's test, when the pass in progress listed it. |
| Observer.SummariseGPUs | internal/synchronizer/cpodobserver.go:173-187 | Whatever the map's order, the summaries have distinct keys, exactly those of the nodes, each with its key's sums, and they add up to the nodes overall. |
| Observer.SummariesConserve | internal/synchronizer/cpodobserver.go:176-187 | Any such list of summaries adds up to the nodes. |
| Observer.GetResourceInfo | internal/synchronizer/cpodobserver.go:126-187 | From the labels: a summary for each product some node has, its Total the sum of those nodes' counts and its Allocatable the sum of their quantities; and over all the sums over all nodes with a product. |
| Observer.SummariesAreOfLabels | internal/synchronizer/cpodobserver.go:161-187 | The same of any such list of summaries. |
| Observer.PlainNodesUnderEmptyKey | internal/synchronizer/cpodobserver.go:145-187 | The empty key is summarised if and only if some node has no GPU label, and counts nothing. |
| Heartbeat.NothingLost | internal/synchronizer/manager.go:27-50 | In every interleaving the payloads built are those taken, then at most one in the channel, then at most one being sent. |
| Heartbeat.HeartbeatsStutter | internal/synchronizer/uploader.go:28-50 | The portal sees the taken payloads in order, each repeated, with a pod id each at least once before the next is taken, and nothing without one. |
| Heartbeat.EveryCallReports | internal/synchronizer/uploader.go:28-50 | In every run each call not cancelled, with a pod id, hands the portal one payload, the one waiting or else the last one again, and none only while none was ever taken. |
| Heartbeat.BuiltPayloadArrives | internal/synchronizer/cpodobserver.go:58-63 | A payload built with none before it on its way is the next one the portal gets. |
| Heartbeat.Uploader.Start | internal/synchronizer/uploader.go:28-50 | One call takes a waiting payload or keeps the cached one and reports it, unless the context is done or there is no pod id. |
| Heartbeat.RoundIsPollAndReport | internal/synchronizer/uploader.go:28-50 | That call is the two steps of the interleaved uploader in a row. |
| PortalRequests.PortalVolumesExactly | internal/synchronizer/syncjob.go:120-122 | Whatever the replies, a claim created for a portal job asks for the portal's size in MiB if and only if that size is between -2048 and 2047. |
| PortalRequests.PortalGpusExactly | internal/synchronizer/syncjob.go:90-128 | Whatever the replies, a training job created for a portal job has its name, is an MPI job, or a PyTorch job, if and only if the portal spells it so in letters of either case, has as many GPUs as asked for, short by less than eight and never more, if and only if the request fits an int32 and is not zero, and is one worker below eight GPUs and workers of eight from there on. |
| PortalRequests.TypeDecides | internal/synchronizer/syncjob.go:37-45 | A job of any other type is not requested and is remembered as failed; one of the two types is requested, and created of that type when the name is free and the request goes through. |
| PortalRequests.TypeSpelledOut | internal/synchronizer/syncjob.go:37-45 | The check itself, by letters. |
| PortalRequests.CreatedJobSpelledOut | internal/synchronizer/syncjob.go:102-129 | The CPodJob made of a portal job, field by field. |
| PortalRequests.PortalCallsExactly | internal/synchronizer/syncjob.go:113-128 | Its claims are created, and its dataset and model looked up, if and only if it comes to that and the portal job gives the path. |
| PortalRequests.PortalUploadExactly | internal/synchronizer/syncjob.go:119-125 | Once it has succeeded, its upload is looked up if and only if the portal gives a path for the model, and created if it is not there. |
| PortalRequests.PortalArtifactsAsked | internal/synchronizer/syncjob.go:106-128 | Only the dataset and model the portal job names, under a path it gives, are looked up, and an upload is requested only of its own model volume when it gives a model path. |
| Sizing.RequestedBytesExactly | internal/controller/cpodjob_controller.go:556-556 | A claim asks for v MiB for a portal size v if and only if v is between -2048 and 2047. |
| Sizing.RequestedBytesModulo | internal/controller/cpodjob_controller.go:601-601 | The bytes depend only on the size modulo 4096. |
| Sizing.GrantedGpusIs | internal/synchronizer/syncjob.go:90-96 | For a request from 1 to the int32 limit: at least one worker, and all of it granted below eight, else the largest multiple of eight within it. |
| Sizing.GrantedGpusCloseExactly | internal/controller/cpodjob_controller.go:287-299 | A request is never exceeded and never short by eight or more if and only if it fits an int32 and is not zero. |

## Left out

- Payloads.CollectStates: namespace and job type of a report are not kept, nor the resource numbers beside the states; `Heartbeat` treats a payload's content as a number.
- Reconciler.CPodJobReconciler.Reconcile: a CPodJob that no longer exists, where the source goes on with an empty object of no type and asks the client to fill a nil one; the model requires the job to be found, or the read to fail otherwise, and its type to be mpi or pytorch.
- The clock is read once between two calls to the API server, where the code reads it up to twice.
- Pod templates: images, commands, environment, node selectors, owner references, the RDMA request and the node listing behind it, the elastic policy; only replicas, GPUs, volumes and mounts are kept.
- Splitting the portal's command line and environment variables; the clock behind a job's time limit is a yes or no supplied with the job.
- FailureBuffer.LowerChar: of the non-ASCII letters only the two that lower to ASCII ones are mapped, which is all the comparison can see.
- Machine integers outside `Sizing`: GPU totals of nodes are added without wrap-around.
- HTTP and JSON of the portal client, the informer cache and work queue, leader election, metrics, logging, events, the model storage controller and the model hub.
