/** One call of Reconcile (internal/controller/cpodjob_controller.go) as a machine
    that stops at every call to the API server.  Module Reconciler shows that the
    methods of the source make exactly these calls. */
module ReconcileMachine {
  import opened Wrappers
  import opened Conditions
  import opened Cluster
  import Sizing

  // The object in memory: the version it was read at, what was read, and what
  // it holds now.
  datatype Draft = Draft(version: nat, read: Status, cur: Status)

  // The call a reconcile is about to make.
  datatype Phase =
    | FetchJob
    | FetchBaseJob(d: Draft)
    | FetchCheckpoint(d: Draft)
    | MakeCheckpoint(d: Draft)
    | FetchModelSave(d: Draft, pod: Pod)
    | MakeModelSave(d: Draft)
    | FetchDataset(d: Draft, pod: Pod)
    | FetchDatasetClaim(d: Draft, pod: Pod, claim: string)
    | FetchModel(d: Draft, pod: Pod)
    | FetchModelClaim(d: Draft, pod: Pod, claim: string)
    | MakeBaseJob(d: Draft, pod: Pod)
    | FetchUpload(d: Draft)
    | MakeUpload(d: Draft)
    | StoreStatus(d: Draft, result: Result)
    | Finished(result: Result)

  function CallOf(c: Config, p: Phase): Call
    requires !p.Finished?
  {
    var s := c.spec;
    match p
    case FetchJob => GetJob
    case FetchBaseJob(_) => GetBaseJob(s.name, s.jobType)
    case FetchCheckpoint(_) => GetClaim(Checkpoint, CheckpointClaimName(s))
    case MakeCheckpoint(_) => CreateClaim(Checkpoint, CheckpointClaimName(s), Sizing.ClaimBytes(s.ckptVolumeSize))
    case FetchModelSave(_, _) => GetClaim(ModelSave, ModelSaveClaimName(s))
    case MakeModelSave(_) => CreateClaim(ModelSave, ModelSaveClaimName(s), Sizing.ClaimBytes(s.modelSaveVolumeSize))
    case FetchDataset(_, _) => Call.GetDataset(s.datasetName)
    case FetchDatasetClaim(_, _, claim) => GetClaim(DatasetClaim, claim)
    case FetchModel(_, _) => Call.GetModel(s.pretrainModelName)
    case FetchModelClaim(_, _, claim) => GetClaim(ModelClaim, claim)
    case MakeBaseJob(_, pod) => Call.CreateBaseJob(BuildBaseJob(s, pod))
    case FetchUpload(_) => GetUploadJob(UploadJobName(s))
    case MakeUpload(_) => CreateUploadJob(UploadJobName(s), ModelSaveClaimName(s))
    case StoreStatus(d, _) => Call.UpdateStatus(d.version, d.cur)
  }

  // ------------------------------------------------------- status edits

  function Edit(s: Status, k: Kind, status: Truth, reason: string, message: string, now: Time): Status {
    s.(conditions := SetCondition(s.conditions, Condition(k, status, reason, message, now)))
  }

  function Started(s: Status, now: Time): Status {
    if s.startTime.None? then s.(startTime := Some(now)) else s
  }

  function Recorded(s: Status, v: Verdict, now: Time): Status {
    var s := Started(s, now);
    match v
    case JobFailed(message) => Edit(s, Failed, True, "BaseJobFailed", message, now)
    case JobSucceeded(reason, message, completion) =>
      Edit(s, Succeeded, True, reason, message, now).(completionTime := completion)
    case InProgress => Edit(s, Running, True, "BaseJobRunning", "BaseJob is running", now)
  }

  function Uploading(s: Status, now: Time): Status {
    Edit(s, ModelUploading, True, "UploadingModel", "modelupload job is running", now)
  }

  function UploadDone(s: Status, now: Time): Status {
    Edit(s, ModelUploaded, True, "UploadModelSucceed", "Upload model succeed", now)
  }

  function UploadGivenUp(s: Status, now: Time): Status {
    Edit(s, ModelUploaded, False, "UploadModelSucceed", "modelupload backofflimit exceed", now)
  }

  // -------------------------------------------------------- the machine

  // Every return after the snapshot passes through the deferred status write.
  function Exit(d: Draft, r: Result): Phase {
    if d.cur == d.read then Finished(r) else StoreStatus(d, r)
  }

  function WithError(r: Result): Result {
    if r.Return? then r.(err := true) else r
  }

  function Entered(c: Config, d: Draft): Phase {
    if !NeedReconcile(c.spec, d.cur.conditions) then Finished(QUIET)
    else if !IsFinished(d.cur.conditions) then FetchBaseJob(d)
    else AfterBaseJob(c, d)
  }

  function AfterBaseJob(c: Config, d: Draft): Phase {
    if IsSucceeded(d.cur.conditions) && WantsUpload(c.spec) then FetchUpload(d) else Exit(d, QUIET)
  }

  function NoBaseJob(c: Config, d: Draft): Phase {
    if c.spec.ckptPath != "" then FetchCheckpoint(d) else AfterCheckpoint(c, d, NO_VOLUMES)
  }

  function AfterCheckpoint(c: Config, d: Draft, p: Pod): Phase {
    if WantsModelSave(c.spec) then FetchModelSave(d, p) else AfterModelSave(c, d, p)
  }

  function AfterModelSave(c: Config, d: Draft, p: Pod): Phase {
    if WantsDataset(c.spec) then FetchDataset(d, p) else AfterDataset(c, d, p)
  }

  function AfterDataset(c: Config, d: Draft, p: Pod): Phase {
    if WantsModel(c.spec) then FetchModel(d, p) else MakeBaseJob(d, p)
  }

  // A missing artifact fails the job; CreateBaseJob itself reports no error.
  function Missing(d: Draft, reason: string, message: string, now: Time): Phase {
    Exit(d.(cur := Started(Edit(d.cur, Failed, True, reason, message, now), now)), RETRY)
  }

  function Advance(c: Config, p: Phase, r: Reply, now: Time): Phase {
    match p
    case FetchJob =>
      if r.JobFound? then Entered(c, Draft(r.version, r.status, r.status)) else Finished(FAILURE)
    case FetchBaseJob(d) => AdvanceBaseJob(c, d, r, now)
    case FetchCheckpoint(d) =>
      if r.NotFound? then MakeCheckpoint(d)
      else if r == ClaimFound(true) then
        AfterCheckpoint(c, d, AddVolume(NO_VOLUMES, "ckpt", CheckpointClaimName(c.spec), c.spec.ckptPath))
      else Exit(d, FAILURE)
    case MakeCheckpoint(d) => Exit(d, if r.Accepted? then Panic else FAILURE)
    case FetchModelSave(d, pod) =>
      if r.NotFound? then MakeModelSave(d)
      else if r == ClaimFound(true) then
        AfterModelSave(c, d, AddVolume(pod, "modelsave", ModelSaveClaimName(c.spec), c.spec.modelSavePath))
      else Exit(d, FAILURE)
    case MakeModelSave(d) => Exit(d, FAILURE)
    case FetchDataset(d, pod) => AdvanceDataset(d, pod, r, now)
    case FetchDatasetClaim(d, pod, claim) => AdvanceDatasetClaim(c, d, pod, claim, r, now)
    case FetchModel(d, pod) => AdvanceModel(d, pod, r, now)
    case FetchModelClaim(d, pod, claim) => AdvanceModelClaim(c, d, pod, claim, r, now)
    case MakeBaseJob(d, _) => Exit(d, if r.Accepted? || r.AlreadyExists? then RETRY else FAILURE)
    case FetchUpload(d) => AdvanceUpload(c, d, r, now)
    case MakeUpload(d) => Exit(if r.Accepted? then d.(cur := Uploading(d.cur, now)) else d, FAILURE)
    case StoreStatus(_, result) => Finished(if r.Accepted? then result else WithError(result))
    case Finished(_) => p
  }

  function AdvanceDataset(d: Draft, pod: Pod, r: Reply, now: Time): Phase {
    if r.NotFound? then Missing(d, "GetDatasetFailed", "Dataset not found", now)
    else if !r.ArtifactFound? then Exit(d, FAILURE)
    else if r.phase != "done" then Missing(d, "GetPretrainModelFailed", "Pretrain model downloader failed", now)
    else FetchDatasetClaim(d, pod, r.claim)
  }

  function AdvanceDatasetClaim(c: Config, d: Draft, pod: Pod, claim: string, r: Reply, now: Time): Phase {
    if r.NotFound? then Missing(d, "GetDatasetPVCFailed", "Dataset PVC not found", now)
    else if !r.ClaimFound? then Exit(d, FAILURE)
    else AfterDataset(c, d, AddVolume(pod, "dataset", claim, c.spec.datasetPath))
  }

  function AdvanceModel(d: Draft, pod: Pod, r: Reply, now: Time): Phase {
    if r.NotFound? then Missing(d, "GetPretrainModelFailed", "Pretrain model not found", now)
    else if !r.ArtifactFound? then Exit(d, FAILURE)
    else if r.phase != "done" then Missing(d, "GetPretrainModelFailed", "Pretrain model downloader failed", now)
    else FetchModelClaim(d, pod, r.claim)
  }

  function AdvanceModelClaim(c: Config, d: Draft, pod: Pod, claim: string, r: Reply, now: Time): Phase {
    if r.NotFound? then Missing(d, "GetPretrainModelPVCFailed", "Pretrain model PVC not found", now)
    else MakeBaseJob(d, AddVolume(pod, "pretrain-model", if r.ClaimFound? then claim else "", c.spec.pretrainModelPath))
  }

  function AdvanceBaseJob(c: Config, d: Draft, r: Reply, now: Time): Phase {
    var seen := Observed(c.spec, r);
    if r.NotFound? then NoBaseJob(c, d)
    else if seen.None? then Exit(d, FAILURE)
    else
      var d' := d.(cur := Recorded(d.cur, seen.value, now));
      if seen.value.InProgress? then Exit(d', FAILURE) else AfterBaseJob(c, d')
  }

  function AdvanceUpload(c: Config, d: Draft, r: Reply, now: Time): Phase {
    if r.NotFound? then MakeUpload(d)
    else if !r.UploadJobFound? then Exit(d, FAILURE)
    else if r.succeeded == 1 then Exit(d.(cur := UploadDone(d.cur, now)), QUIET)
    else if r.failed >= c.backoffLimit then Exit(d.(cur := UploadGivenUp(d.cur, now)), QUIET)
    else Exit(d.(cur := Uploading(d.cur, now)), FAILURE)
  }

  /** The phase after `n` replies, when the API server answers every call as
      `answers` says and the clock reads `clock(i)` after the i-th reply. */
  function PhaseAfter(c: Config, answers: Call -> Reply, clock: nat -> Time, n: nat): Phase {
    if n == 0 then FetchJob
    else
      var p := PhaseAfter(c, answers, clock, n - 1);
      if p.Finished? then p else Advance(c, p, answers(CallOf(c, p)), clock(n - 1))
  }

  // The calls sent by then.
  function Sent(c: Config, answers: Call -> Reply, clock: nat -> Time, n: nat): seq<Call> {
    if n == 0 then []
    else
      var p := PhaseAfter(c, answers, clock, n - 1);
      if p.Finished? then Sent(c, answers, clock, n - 1) else Sent(c, answers, clock, n - 1) + [CallOf(c, p)]
  }

  lemma OneMore(c: Config, answers: Call -> Reply, clock: nat -> Time, n: nat)
    requires !PhaseAfter(c, answers, clock, n).Finished?
    ensures var p := PhaseAfter(c, answers, clock, n);
            && PhaseAfter(c, answers, clock, n + 1) == Advance(c, p, answers(CallOf(c, p)), clock(n))
            && Sent(c, answers, clock, n + 1) == Sent(c, answers, clock, n) + [CallOf(c, p)]
  {
  }
}
