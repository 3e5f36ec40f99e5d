/** The objects a reconcile reads and writes, and the calls it makes to the API
    server (api/v1beta1/cpodjob_types.go, internal/controller/cpodjob_controller.go). */
module Cluster {
  import opened Wrappers
  import opened Conditions
  import Sizing

  datatype JobType = MPI | PyTorch

  datatype Spec = Spec(
    name: string, jobType: JobType,
    ckptPath: string, ckptVolumeSize: int,
    modelSavePath: string, modelSaveVolumeSize: int,
    datasetPath: string, datasetName: string,
    pretrainModelPath: string, pretrainModelName: string,
    uploadModel: bool, workerReplicas: int, gpusPerReplica: int)

  // The job's spec never changes; the limit is an option of the operator.
  datatype Config = Config(spec: Spec, backoffLimit: int)

  // Conditions of a training job, in the training operator's type and in the
  // MPI operator's own type.
  datatype BaseCondition = BaseCondition(kind: string, status: Truth, reason: string, message: string,
                                         lastUpdate: Time, transition: Time)
  datatype MPICondition = MPICondition(kind: string, status: Truth, reason: string, message: string,
                                       lastUpdate: Time, transition: Time)

  datatype BaseStatus = BaseStatus(conditions: seq<BaseCondition>, startTime: Option<Time>,
                                   lastReconcileTime: Option<Time>, completionTime: Option<Time>)

  datatype BaseJob =
    | MPIJob(conditions: seq<MPICondition>, startTime: Option<Time>,
             lastReconcileTime: Option<Time>, completionTime: Option<Time>)
    | PyTorchJob(status: BaseStatus)

  datatype Volume = Volume(name: string, claim: string)
  datatype Mount = Mount(name: string, path: string)
  datatype Pod = Pod(volumes: seq<Volume>, mounts: seq<Mount>)

  datatype BaseJobSpec = BaseJobSpec(name: string, jobType: JobType, replicas: int, gpus: int, pod: Pod)

  datatype Role = Checkpoint | ModelSave | DatasetClaim | ModelClaim

  datatype Call =
    | GetJob
    | GetBaseJob(name: string, jobType: JobType)
    | GetClaim(role: Role, name: string)
    | CreateClaim(role: Role, name: string, bytes: int)
    | GetDataset(name: string)
    | GetModel(name: string)
    | CreateBaseJob(job: BaseJobSpec)
    | GetUploadJob(name: string)
    | CreateUploadJob(name: string, claim: string)
    | UpdateStatus(version: nat, status: Status)

  // A reply of the wrong shape for its call counts as Error, the catch-all for
  // every error other than NotFound and AlreadyExists.
  datatype Reply =
    | Error
    | NotFound
    | AlreadyExists
    | Accepted
    | JobFound(version: nat, status: Status)
    | BaseJobFound(job: BaseJob)
    | ClaimFound(bound: bool)
    | ArtifactFound(phase: string, claim: string)
    | UploadJobFound(succeeded: int, failed: int)

  // How a call of Reconcile ends.
  datatype Result =
    | Return(requeue: bool, err: bool)
    | Panic

  const QUIET := Return(false, false)
  const RETRY := Return(true, false)
  const FAILURE := Return(false, true)

  function CheckpointClaimName(s: Spec): string { s.name + "-ckpt" }

  function ModelSaveClaimName(s: Spec): string { s.name + "-modelsave-pvc" }

  function UploadJobName(s: Spec): string { s.name + "-upload" }

  predicate WantsUpload(s: Spec) {
    s.uploadModel && s.modelSavePath != ""
  }

  predicate WantsModelSave(s: Spec) {
    s.modelSavePath != "" && s.modelSaveVolumeSize != 0
  }

  predicate WantsDataset(s: Spec) {
    s.datasetPath != "" && s.datasetName != ""
  }

  predicate WantsModel(s: Spec) {
    s.pretrainModelName != "" && s.pretrainModelPath != ""
  }

  predicate NeedReconcile(s: Spec, cs: seq<Condition>) {
    if IsFailed(cs) then false
    else if IsSucceeded(cs) then
      WantsUpload(s) && GetCondition(cs, ModelUploaded).None?
    else true
  }

  // The work on a job is over: it has failed, or it has succeeded and, if its
  // model is to be uploaded, the end of the upload is recorded.
  predicate Terminal(c: Config, s: Status) {
    || IsStatusConditionTrue(s.conditions, Failed)
    || (&& IsStatusConditionTrue(s.conditions, Succeeded)
        && (c.spec.uploadModel && c.spec.modelSavePath != "" ==> GetCondition(s.conditions, ModelUploaded).Some?))
  }

  /** The guard of a reconcile lets through exactly the jobs whose work is not over. */
  lemma NeedReconcileExactly(c: Config, s: Status)
    ensures NeedReconcile(c.spec, s.conditions) <==> !Terminal(c, s)
  {
  }

  function AddVolume(p: Pod, name: string, claim: string, path: string): Pod {
    Pod(p.volumes + [Volume(name, claim)], p.mounts + [Mount(name, path)])
  }

  const NO_VOLUMES := Pod([], [])

  // The training job created from a spec and its volumes.  A distributed
  // PyTorch job gets a shared-memory mount; the volume meant for it is appended
  // to a copy of the pod template and lost.
  function BuildBaseJob(s: Spec, p: Pod): BaseJobSpec {
    var distributed := s.jobType.PyTorch? && s.workerReplicas > 1;
    var mounts := if distributed then p.mounts + [Mount("shm", "/dev/shm")] else p.mounts;
    BaseJobSpec(s.name, s.jobType, Sizing.Workers(s.workerReplicas), s.gpusPerReplica, Pod(p.volumes, mounts))
  }

  // ------------------------------------------------ reading a training job

  function GetBaseJobCondition(cs: seq<BaseCondition>, kind: string): (r: Option<BaseCondition>)
    ensures r.Some? ==> r.value in cs && r.value.kind == kind
    ensures r.None? ==> forall c :: c in cs ==> c.kind != kind
  {
    if cs == [] then None
    else if cs[0].kind == kind then Some(cs[0])
    else GetBaseJobCondition(cs[1..], kind)
  }

  // The training operator's own test: some condition of that type is True.
  predicate BaseJobIs(cs: seq<BaseCondition>, kind: string) {
    exists c | c in cs :: c.kind == kind && c.status.True?
  }

  function ToCommon(m: MPICondition): BaseCondition {
    BaseCondition(m.kind, m.status, m.reason, m.message, m.lastUpdate, m.transition)
  }

  function StatusOf(j: BaseJob): BaseStatus {
    match j
    case PyTorchJob(status) => status
    case MPIJob(conditions, start, last, completion) =>
      BaseStatus(Convert(conditions), start, last, completion)
  }

  function Convert(cs: seq<MPICondition>): seq<BaseCondition> {
    seq(|cs|, i requires 0 <= i < |cs| => ToCommon(cs[i]))
  }

  datatype Verdict =
    | InProgress
    | JobFailed(message: string)
    | JobSucceeded(reason: string, message: string, completion: Option<Time>)

  function VerdictOf(b: BaseStatus): Verdict {
    if BaseJobIs(b.conditions, "Failed") then JobFailed(GetBaseJobCondition(b.conditions, "Failed").value.message)
    else if BaseJobIs(b.conditions, "Succeeded") then
      var c := GetBaseJobCondition(b.conditions, "Succeeded").value;
      JobSucceeded(c.reason, c.message, b.completionTime)
    else InProgress
  }

  predicate Fits(s: Spec, j: BaseJob) {
    s.jobType.MPI? <==> j.MPIJob?
  }

  // The reply to a read of the training job, when it tells something.
  function Observed(s: Spec, r: Reply): Option<Verdict> {
    if r.BaseJobFound? && Fits(s, r.job) then Some(VerdictOf(StatusOf(r.job))) else None
  }

  // ---------------------------------- the same, in the training job's own words

  // Some condition of that type of the training job, as it stands in the cluster,
  // is True.
  ghost predicate HasTrue(job: BaseJob, kind: string) {
    match job
    case MPIJob(cs, _, _, _) => exists m :: m in cs && m.kind == kind && m.status.True?
    case PyTorchJob(status) => exists b :: b in status.conditions && b.kind == kind && b.status.True?
  }

  // Its first condition of that type gives this reason and this message.
  ghost predicate FirstSays(job: BaseJob, kind: string, reason: string, message: string) {
    match job
    case MPIJob(cs, _, _, _) =>
      exists i :: 0 <= i < |cs| && cs[i].kind == kind && cs[i].reason == reason && cs[i].message == message
                  && forall h :: 0 <= h < i ==> cs[h].kind != kind
    case PyTorchJob(status) =>
      var cs := status.conditions;
      exists i :: 0 <= i < |cs| && cs[i].kind == kind && cs[i].reason == reason && cs[i].message == message
                  && forall h :: 0 <= h < i ==> cs[h].kind != kind
  }

  function CompletionOf(job: BaseJob): Option<Time> {
    match job
    case MPIJob(_, _, _, completion) => completion
    case PyTorchJob(status) => status.completionTime
  }

  // A reply that shows a training job of the type asked for.
  predicate ShowsJob(s: Spec, r: Reply) {
    r.BaseJobFound? && (s.jobType.MPI? <==> r.job.MPIJob?)
  }

  ghost predicate ReportsFailed(s: Spec, r: Reply) {
    ShowsJob(s, r) && HasTrue(r.job, "Failed")
  }

  ghost predicate ReportsSucceeded(s: Spec, r: Reply) {
    ShowsJob(s, r) && !HasTrue(r.job, "Failed") && HasTrue(r.job, "Succeeded")
  }

  // The same two questions, put to the MPI job's own conditions.
  function GetMPICondition(cs: seq<MPICondition>, kind: string): Option<MPICondition> {
    if cs == [] then None
    else if cs[0].kind == kind then Some(cs[0])
    else GetMPICondition(cs[1..], kind)
  }

  /** Conversion loses nothing the verdict is read from: a type is True in the
      MPI job's own conditions exactly when it is in the converted ones, and the
      first condition of the type is the same one. */
  lemma {:induction false} ConversionKeepsVerdict(cs: seq<MPICondition>, kind: string)
    ensures BaseJobIs(Convert(cs), kind) <==> exists c :: c in cs && c.kind == kind && c.status.True?
    ensures var first := GetMPICondition(cs, kind);
            GetBaseJobCondition(Convert(cs), kind) == if first.None? then None else Some(ToCommon(first.value))
  {
    if cs != [] {
      var rest := cs[1..];
      ConversionKeepsVerdict(rest, kind);
      assert Convert(cs) == [ToCommon(cs[0])] + Convert(rest);
      assert Convert(cs)[1..] == Convert(rest);
      assert cs == [cs[0]] + rest;
    }
  }

  /** Nothing of an MPI job's status is lost or moved in conversion, and nothing of
      a PyTorch job's is touched. */
  lemma ConversionKeepsAll(job: BaseJob)
    ensures job.PyTorchJob? ==> StatusOf(job) == job.status
    ensures job.MPIJob? ==>
              var s := StatusOf(job);
              && s.startTime == job.startTime && s.lastReconcileTime == job.lastReconcileTime
              && s.completionTime == job.completionTime && |s.conditions| == |job.conditions|
              && forall i :: 0 <= i < |job.conditions| ==>
                   var m, b := job.conditions[i], s.conditions[i];
                   && b.kind == m.kind && b.status == m.status && b.reason == m.reason && b.message == m.message
                   && b.lastUpdate == m.lastUpdate && b.transition == m.transition
  {
  }

  lemma {:induction false} FirstIndex(cs: seq<BaseCondition>, kind: string) returns (i: nat)
    requires GetBaseJobCondition(cs, kind).Some?
    ensures i < |cs| && cs[i].kind == kind && Some(cs[i]) == GetBaseJobCondition(cs, kind)
    ensures forall h :: 0 <= h < i ==> cs[h].kind != kind
  {
    if cs[0].kind == kind {
      i := 0;
    } else {
      i := FirstIndex(cs[1..], kind);
      i := i + 1;
    }
  }

  lemma OwnWords(job: BaseJob, kind: string)
    ensures BaseJobIs(StatusOf(job).conditions, kind) <==> HasTrue(job, kind)
    ensures var c := GetBaseJobCondition(StatusOf(job).conditions, kind);
            && (HasTrue(job, kind) ==> c.Some?)
            && (c.Some? ==> FirstSays(job, kind, c.value.reason, c.value.message))
    ensures StatusOf(job).completionTime == CompletionOf(job)
  {
    var cs := StatusOf(job).conditions;
    if job.MPIJob? {
      ConversionKeepsVerdict(job.conditions, kind);
    }
    if GetBaseJobCondition(cs, kind).Some? {
      var i := FirstIndex(cs, kind);
      if job.MPIJob? {
        assert forall h :: 0 <= h <= i ==> cs[h] == ToCommon(job.conditions[h]);
      }
    }
  }

  /** What a reconcile makes of a training job, in the job's own words: failed when
      some Failed condition is True, else succeeded when some Succeeded condition
      is, else in progress; with the text of the first condition of the type. */
  lemma VerdictSpelledOut(job: BaseJob)
    ensures var v := VerdictOf(StatusOf(job));
            && (v.JobFailed? <==> HasTrue(job, "Failed"))
            && (v.JobSucceeded? <==> !HasTrue(job, "Failed") && HasTrue(job, "Succeeded"))
            && (v.JobFailed? ==> exists reason :: FirstSays(job, "Failed", reason, v.message))
            && (v.JobSucceeded? ==>
                  FirstSays(job, "Succeeded", v.reason, v.message) && v.completion == CompletionOf(job))
  {
    hide StatusOf, FirstSays, HasTrue, BaseJobIs, CompletionOf;
    OwnWords(job, "Failed");
    OwnWords(job, "Succeeded");
  }

  lemma ObservedSpelledOut(s: Spec, r: Reply)
    ensures Observed(s, r).Some? <==> ShowsJob(s, r)
    ensures Observed(s, r).Some? && Observed(s, r).value.JobFailed? <==> ReportsFailed(s, r)
    ensures Observed(s, r).Some? && Observed(s, r).value.JobSucceeded? <==> ReportsSucceeded(s, r)
  {
    hide VerdictOf, StatusOf, HasTrue;
    if ShowsJob(s, r) {
      VerdictSpelledOut(r.job);
    }
  }
}
