/** What one call of Reconcile guarantees, whatever the status it starts from and
    whatever the API server answers. */
module ReconcileLaws {
  import opened Conditions
  import opened Cluster
  import opened ReconcileMachine

  // ------------------------------------------------ edits, seen by lookups

  /** One edit of a status that has not failed. */
  lemma SetLookups(cs: seq<Condition>, c: Condition)
    requires !IsFailed(cs)
    ensures var now := SetCondition(cs, c);
            && Has(now, c.kind) && SameContent(GetCondition(now, c.kind).value, c)
            && (c.kind != Failed ==> GetCondition(now, Failed) == GetCondition(cs, Failed))
            && (c.kind != Succeeded ==> GetCondition(now, Succeeded) == GetCondition(cs, Succeeded))
            && (c.kind != ModelUploaded ==> GetCondition(now, ModelUploaded) == GetCondition(cs, ModelUploaded))
  {
    hide SetCondition, FilterOut;
    GetAfterSet(cs, c, c.kind);
    GetAfterSet(cs, c, Failed);
    GetAfterSet(cs, c, Succeeded);
    GetAfterSet(cs, c, ModelUploaded);
  }

  /** Recording a verdict in a job that had not finished. */
  lemma RecordedFlags(s: Status, v: Verdict, now: Time)
    requires !IsFinished(s.conditions)
    ensures IsFailed(Recorded(s, v, now).conditions) <==> v.JobFailed?
    ensures IsSucceeded(Recorded(s, v, now).conditions) <==> v.JobSucceeded?
    ensures GetCondition(Recorded(s, v, now).conditions, ModelUploaded) == GetCondition(s.conditions, ModelUploaded)
  {
    match v
    case JobFailed(message) => SetLookups(s.conditions, Condition(Failed, True, "BaseJobFailed", message, now));
    case JobSucceeded(reason, message, _) => SetLookups(s.conditions, Condition(Succeeded, True, reason, message, now));
    case InProgress => SetLookups(s.conditions, Condition(Running, True, "BaseJobRunning", "BaseJob is running", now));
  }

  lemma UploadFlags(s: Status, now: Time)
    requires !IsFailed(s.conditions)
    ensures var a, b := UploadDone(s, now).conditions, UploadGivenUp(s, now).conditions;
            var u := Uploading(s, now).conditions;
            && Has(a, ModelUploaded) && Has(b, ModelUploaded)
            && !IsFailed(a) && !IsFailed(b) && !IsFailed(u)
            && (IsSucceeded(a) <==> IsSucceeded(s.conditions))
            && (IsSucceeded(b) <==> IsSucceeded(s.conditions))
            && (IsSucceeded(u) <==> IsSucceeded(s.conditions))
            && GetCondition(u, ModelUploaded) == GetCondition(s.conditions, ModelUploaded)
  {
    SetLookups(s.conditions, Condition(ModelUploaded, True, "UploadModelSucceed", "Upload model succeed", now));
    SetLookups(s.conditions, Condition(ModelUploaded, False, "UploadModelSucceed", "modelupload backofflimit exceed",
                                       now));
    SetLookups(s.conditions, Condition(ModelUploading, True, "UploadingModel", "modelupload job is running", now));
  }

  // ------------------------------------------------- the artifact phases

  predicate AtArtifact(p: Phase) {
    p.FetchDataset? || p.FetchDatasetClaim? || p.FetchModel? || p.FetchModelClaim?
  }

  // While artifacts are looked up the draft changes only by failing the job.
  ghost predicate ArtifactNext(d: Draft, q: Phase, now: Time) {
    || (exists reason, message :: q == Missing(d, reason, message, now))
    || q == Exit(d, FAILURE)
    || ((AtArtifact(q) || q.MakeBaseJob?) && q.d == d)
  }

  lemma MissingIsNext(d: Draft, now: Time)
    ensures forall reason, message {:trigger Missing(d, reason, message, now)} ::
              ArtifactNext(d, Missing(d, reason, message, now), now)
  {
    hide Missing;
  }

  lemma NextWithoutMissing(d: Draft, now: Time)
    ensures ArtifactNext(d, Exit(d, FAILURE), now)
    ensures forall pod :: ArtifactNext(d, MakeBaseJob(d, pod), now) && ArtifactNext(d, FetchModel(d, pod), now)
    ensures forall pod, claim ::
              ArtifactNext(d, FetchDatasetClaim(d, pod, claim), now)
                && ArtifactNext(d, FetchModelClaim(d, pod, claim), now)
  {
  }

  lemma ArtifactStep(c: Config, p: Phase, r: Reply, now: Time)
    requires AtArtifact(p)
    ensures ArtifactNext(p.d, Advance(c, p, r, now), now)
  {
    hide AdvanceDataset, AdvanceDatasetClaim, AdvanceModel, AdvanceModelClaim, ArtifactNext;
    match p
    case FetchDataset(d, pod) => DatasetNext(d, pod, r, now);
    case FetchDatasetClaim(d, pod, claim) => DatasetClaimNext(c, d, pod, claim, r, now);
    case FetchModel(d, pod) => ModelNext(d, pod, r, now);
    case FetchModelClaim(d, pod, claim) => ModelClaimNext(c, d, pod, claim, r, now);
  }

  lemma DatasetNext(d: Draft, pod: Pod, r: Reply, now: Time)
    ensures ArtifactNext(d, AdvanceDataset(d, pod, r, now), now)
  {
    hide Missing, Exit, ArtifactNext;
    MissingIsNext(d, now);
    NextWithoutMissing(d, now);
  }

  lemma DatasetClaimNext(c: Config, d: Draft, pod: Pod, claim: string, r: Reply, now: Time)
    ensures ArtifactNext(d, AdvanceDatasetClaim(c, d, pod, claim, r, now), now)
  {
    hide Missing, Exit, ArtifactNext, AddVolume;
    MissingIsNext(d, now);
    NextWithoutMissing(d, now);
  }

  lemma ModelNext(d: Draft, pod: Pod, r: Reply, now: Time)
    ensures ArtifactNext(d, AdvanceModel(d, pod, r, now), now)
  {
    hide Missing, Exit, ArtifactNext;
    MissingIsNext(d, now);
    NextWithoutMissing(d, now);
  }

  lemma ModelClaimNext(c: Config, d: Draft, pod: Pod, claim: string, r: Reply, now: Time)
    ensures ArtifactNext(d, AdvanceModelClaim(c, d, pod, claim, r, now), now)
  {
    hide Missing, Exit, ArtifactNext, AddVolume;
    MissingIsNext(d, now);
    NextWithoutMissing(d, now);
  }

  // ------------------------------------------------------- no lost wake-up

  // What holds whenever a reconcile is about to make a call.
  ghost predicate Sound(c: Config, p: Phase) {
    match p
    case FetchJob => true
    case Finished(_) => true
    case StoreStatus(d, r) =>
      !Terminal(c, d.read) && d.cur != d.read && (r == QUIET ==> Terminal(c, d.cur))
    case FetchUpload(d) => Uploadable(c, d)
    case MakeUpload(d) => Uploadable(c, d)
    case _ => p.d.cur == p.d.read && !IsFinished(p.d.cur.conditions)
  }

  ghost predicate Uploadable(c: Config, d: Draft) {
    && !Terminal(c, d.read) && WantsUpload(c.spec)
    && IsSucceeded(d.cur.conditions) && !IsFailed(d.cur.conditions)
  }

  lemma SoundExit(c: Config, d: Draft, r: Result)
    requires !Terminal(c, d.read)
    requires r == QUIET ==> Terminal(c, d.cur)
    ensures Sound(c, Exit(d, r)) && Exit(d, r) != Finished(QUIET)
  {
  }

  lemma SoundBaseJob(c: Config, d: Draft, r: Reply, now: Time)
    requires d.cur == d.read && !IsFinished(d.cur.conditions)
    ensures Sound(c, AdvanceBaseJob(c, d, r, now)) && AdvanceBaseJob(c, d, r, now) != Finished(QUIET)
  {
    var seen := Observed(c.spec, r);
    if seen.Some? {
      RecordedFlags(d.cur, seen.value, now);
      assert !Terminal(c, d.read);
    }
  }

  lemma SoundMakeUpload(c: Config, d: Draft)
    requires Uploadable(c, d)
    ensures Sound(c, MakeUpload(d)) && !Terminal(c, d.read)
  {
  }

  lemma TerminalByUpload(c: Config, s: Status)
    requires Has(s.conditions, ModelUploaded) && IsSucceeded(s.conditions)
    ensures Terminal(c, s)
  {
  }

  lemma UnfinishedIsNotTerminal(c: Config, s: Status)
    requires !IsFinished(s.conditions)
    ensures !Terminal(c, s)
  {
  }

  lemma SoundUpload(c: Config, d: Draft, r: Reply, now: Time)
    requires Uploadable(c, d)
    ensures Sound(c, AdvanceUpload(c, d, r, now)) && AdvanceUpload(c, d, r, now) != Finished(QUIET)
  {
    hide UploadDone, UploadGivenUp, Uploading, IsSucceeded, IsFailed, Sound, Exit, Terminal, UploadJobName;
    SoundMakeUpload(c, d);
    SoundExit(c, d, FAILURE);
    if r.UploadJobFound? {
      UploadFlags(d.cur, now);
      var done := d.(cur := UploadDone(d.cur, now));
      var givenUp := d.(cur := UploadGivenUp(d.cur, now));
      TerminalByUpload(c, done.cur);
      TerminalByUpload(c, givenUp.cur);
      SoundExit(c, done, QUIET);
      SoundExit(c, givenUp, QUIET);
      SoundExit(c, d.(cur := Uploading(d.cur, now)), FAILURE);
    }
  }

  lemma SoundEntered(c: Config, d: Draft)
    requires d.cur == d.read
    ensures Sound(c, Entered(c, d))
    ensures Entered(c, d) == Finished(QUIET) ==> Terminal(c, d.read)
  {
  }

  lemma SoundStep(c: Config, p: Phase, r: Reply, now: Time)
    requires Sound(c, p) && !p.Finished?
    ensures Sound(c, Advance(c, p, r, now))
    ensures Advance(c, p, r, now) == Finished(QUIET) ==>
              || (p.FetchJob? && r.JobFound? && Terminal(c, r.status))
              || (p.StoreStatus? && r.Accepted? && Terminal(c, p.d.cur))
  {
    hide AdvanceBaseJob, AdvanceUpload, AddVolume, Edit, IsSucceeded, IsFailed, Uploading;
    if AtArtifact(p) {
      SoundArtifact(c, p, r, now);
    } else {
      match p
      case FetchJob =>
        if r.JobFound? {
          SoundEntered(c, Draft(r.version, r.status, r.status));
        }
      case FetchBaseJob(d) => SoundBaseJob(c, d, r, now);
      case FetchUpload(d) => SoundUpload(c, d, r, now);
      case _ =>
    }
  }

  lemma SoundArtifact(c: Config, p: Phase, r: Reply, now: Time)
    requires AtArtifact(p) && Sound(c, p)
    ensures Sound(c, Advance(c, p, r, now)) && Advance(c, p, r, now) != Finished(QUIET)
  {
    hide Advance, Edit, Started, IsFinished, Terminal;
    UnfinishedIsNotTerminal(c, p.d.read);
    ArtifactStep(c, p, r, now);
  }

  // The draft belongs to the snapshot that GetJob returned.
  ghost predicate Tracks(answers: Call -> Reply, p: Phase) {
    p.FetchJob? || p.Finished?
    || (answers(GetJob).JobFound? && p.d.version == answers(GetJob).version && p.d.read == answers(GetJob).status)
  }

  lemma TracksStep(c: Config, answers: Call -> Reply, p: Phase, now: Time)
    requires Tracks(answers, p) && !p.Finished?
    ensures Tracks(answers, Advance(c, p, answers(CallOf(c, p)), now))
  {
    hide UploadDone, UploadGivenUp, Uploading, Recorded, Edit, AddVolume, NeedReconcile, Observed, IsFinished;
    hide IsSucceeded;
  }

  lemma SoundAtStart(c: Config)
    ensures Sound(c, FetchJob)
  {
  }

  lemma {:induction false} SoundAlways(c: Config, answers: Call -> Reply, clock: nat -> Time, n: nat)
    ensures Sound(c, PhaseAfter(c, answers, clock, n)) && Tracks(answers, PhaseAfter(c, answers, clock, n))
  {
    hide Advance, CallOf, Sound;
    if n == 0 {
      SoundAtStart(c);
    } else {
      var p := PhaseAfter(c, answers, clock, n - 1);
      SoundAlways(c, answers, clock, n - 1);
      if !p.Finished? {
        SoundStep(c, p, answers(CallOf(c, p)), clock(n - 1));
        TracksStep(c, answers, p, clock(n - 1));
      }
    }
  }

  // The snapshot was terminal, or a terminal status was stored over it.
  ghost predicate LeftTerminal(c: Config, answers: Call -> Reply, calls: seq<Call>) {
    && answers(GetJob).JobFound?
    && (Terminal(c, answers(GetJob).status)
        || exists s :: Terminal(c, s) && Call.UpdateStatus(answers(GetJob).version, s) in calls
                       && answers(Call.UpdateStatus(answers(GetJob).version, s)).Accepted?)
  }

  /** No lost wake-up: whatever the starting status and whatever the API server
      answers, a reconcile that asks for nothing more leaves a terminal status. */
  lemma {:induction false} NoLostWakeup(c: Config, answers: Call -> Reply, clock: nat -> Time, n: nat)
    requires PhaseAfter(c, answers, clock, n) == Finished(QUIET)
    ensures LeftTerminal(c, answers, Sent(c, answers, clock, n))
  {
    hide Advance, Terminal;
    var p := PhaseAfter(c, answers, clock, n - 1);
    if p.Finished? {
      NoLostWakeup(c, answers, clock, n - 1);
    } else {
      SoundAlways(c, answers, clock, n - 1);
      SoundStep(c, p, answers(CallOf(c, p)), clock(n - 1));
      assert CallOf(c, p) in Sent(c, answers, clock, n);
    }
  }

  // ------------------------------------------- gating of the training job

  ghost predicate CheckpointReady(c: Config, answers: Call -> Reply) {
    c.spec.ckptPath != "" ==> answers(GetClaim(Checkpoint, c.spec.name + "-ckpt")) == ClaimFound(true)
  }

  ghost predicate ModelSaveReady(c: Config, answers: Call -> Reply) {
    c.spec.modelSavePath != "" && c.spec.modelSaveVolumeSize != 0 ==>
      answers(GetClaim(ModelSave, c.spec.name + "-modelsave-pvc")) == ClaimFound(true)
  }

  ghost predicate Done(r: Reply) {
    r.ArtifactFound? && r.phase == "done"
  }

  ghost predicate DatasetReady(c: Config, answers: Call -> Reply) {
    c.spec.datasetPath != "" && c.spec.datasetName != "" ==>
      var r := answers(Call.GetDataset(c.spec.datasetName));
      Done(r) && answers(GetClaim(DatasetClaim, r.claim)).ClaimFound?
  }

  // The claim of a pretrained model may also be one whose lookup failed.
  ghost predicate ModelPassed(c: Config, answers: Call -> Reply) {
    c.spec.pretrainModelPath != "" && c.spec.pretrainModelName != "" ==>
      var r := answers(Call.GetModel(c.spec.pretrainModelName));
      Done(r) && !answers(GetClaim(ModelClaim, r.claim)).NotFound?
  }

  ghost predicate ModelReady(c: Config, answers: Call -> Reply) {
    c.spec.pretrainModelPath != "" && c.spec.pretrainModelName != "" ==>
      var r := answers(Call.GetModel(c.spec.pretrainModelName));
      Done(r) && answers(GetClaim(ModelClaim, r.claim)).ClaimFound?
  }

  function PodAfterCheckpoint(c: Config): Pod {
    if c.spec.ckptPath != "" then AddVolume(NO_VOLUMES, "ckpt", CheckpointClaimName(c.spec), c.spec.ckptPath)
    else NO_VOLUMES
  }

  function PodAfterModelSave(c: Config): Pod {
    var p := PodAfterCheckpoint(c);
    if WantsModelSave(c.spec) then AddVolume(p, "modelsave", ModelSaveClaimName(c.spec), c.spec.modelSavePath) else p
  }

  function ClaimOf(r: Reply): string {
    if r.ArtifactFound? then r.claim else ""
  }

  function PodWithDataset(c: Config, claim: string): Pod {
    var p := PodAfterModelSave(c);
    if WantsDataset(c.spec) then AddVolume(p, "dataset", claim, c.spec.datasetPath) else p
  }

  function PodWithModel(c: Config, dataset: string, claim: string): Pod {
    var p := PodWithDataset(c, dataset);
    if WantsModel(c.spec) then AddVolume(p, "pretrain-model", claim, c.spec.pretrainModelPath) else p
  }

  function PodAfterDataset(c: Config, answers: Call -> Reply): Pod {
    PodWithDataset(c, ClaimOf(answers(Call.GetDataset(c.spec.datasetName))))
  }

  function ModelClaimMounted(c: Config, answers: Call -> Reply): string {
    var claim := ClaimOf(answers(Call.GetModel(c.spec.pretrainModelName)));
    if answers(GetClaim(ModelClaim, claim)).ClaimFound? then claim else ""
  }

  function FinalPod(c: Config, answers: Call -> Reply): Pod {
    PodWithModel(c, ClaimOf(answers(Call.GetDataset(c.spec.datasetName))), ModelClaimMounted(c, answers))
  }

  // What the replies so far must have been.
  ghost predicate Gated(c: Config, answers: Call -> Reply, p: Phase) {
    var absent := answers(GetBaseJob(c.spec.name, c.spec.jobType)).NotFound?;
    match p
    case FetchModelSave(_, pod) =>
      absent && CheckpointReady(c, answers) && WantsModelSave(c.spec) && pod == PodAfterCheckpoint(c)
    case FetchDataset(_, pod) =>
      && absent && CheckpointReady(c, answers) && ModelSaveReady(c, answers)
      && WantsDataset(c.spec) && pod == PodAfterModelSave(c)
    case FetchDatasetClaim(_, pod, claim) =>
      && absent && CheckpointReady(c, answers) && ModelSaveReady(c, answers) && pod == PodAfterModelSave(c)
      && WantsDataset(c.spec) && answers(Call.GetDataset(c.spec.datasetName)) == ArtifactFound("done", claim)
    case FetchModel(_, pod) =>
      && absent && CheckpointReady(c, answers) && ModelSaveReady(c, answers) && DatasetReady(c, answers)
      && WantsModel(c.spec) && pod == PodAfterDataset(c, answers)
    case FetchModelClaim(_, pod, claim) =>
      && absent && CheckpointReady(c, answers) && ModelSaveReady(c, answers) && DatasetReady(c, answers)
      && WantsModel(c.spec) && pod == PodAfterDataset(c, answers)
      && answers(Call.GetModel(c.spec.pretrainModelName)) == ArtifactFound("done", claim)
    case MakeBaseJob(_, pod) =>
      && absent && CheckpointReady(c, answers) && ModelSaveReady(c, answers) && DatasetReady(c, answers)
      && ModelPassed(c, answers) && pod == FinalPod(c, answers)
    case FetchCheckpoint(_) => absent && c.spec.ckptPath != ""
    case MakeCheckpoint(_) =>
      absent && c.spec.ckptPath != "" && answers(GetClaim(Checkpoint, CheckpointClaimName(c.spec))).NotFound?
    case MakeModelSave(_) =>
      && absent && CheckpointReady(c, answers) && WantsModelSave(c.spec)
      && answers(GetClaim(ModelSave, ModelSaveClaimName(c.spec))).NotFound?
    case _ => true
  }

  lemma GatedStep(c: Config, answers: Call -> Reply, p: Phase, now: Time)
    requires Gated(c, answers, p) && !p.Finished?
    ensures Gated(c, answers, Advance(c, p, answers(CallOf(c, p)), now))
  {
    hide UploadDone, UploadGivenUp, Uploading, Recorded, Edit, AddVolume, NeedReconcile, Observed, IsFinished;
    hide IsSucceeded;
  }
}
