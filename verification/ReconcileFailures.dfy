/** The two ways a reconcile gives up: by a panic that stores nothing, and by
    marking the job failed. */
module ReconcileFailures {
  import opened Wrappers
  import opened Conditions
  import opened Cluster
  import opened ReconcileMachine
  import opened ReconcileLaws
  import opened ReconcileOutcomes
  import Sizing

  // ------------------------------------------------------------------ panics

  function ReadCheckpoint(s: Spec): Call {
    GetClaim(Checkpoint, CheckpointClaimName(s))
  }

  function CreateCheckpoint(s: Spec): Call {
    CreateClaim(Checkpoint, CheckpointClaimName(s), Sizing.ClaimBytes(s.ckptVolumeSize))
  }

  // The claim for checkpoints was missing and this reconcile created it.
  ghost predicate CheckpointJustMade(c: Config, answers: Call -> Reply) {
    && Unstarted(c, answers) && c.spec.ckptPath != ""
    && answers(ReadCheckpoint(c.spec)).NotFound? && answers(CreateCheckpoint(c.spec)).Accepted?
  }

  ghost predicate PanicCaused(c: Config, answers: Call -> Reply, p: Phase) {
    match p
    case MakeCheckpoint(_) =>
      && answers(GetBaseJob(c.spec.name, c.spec.jobType)).NotFound?
      && c.spec.ckptPath != "" && answers(ReadCheckpoint(c.spec)).NotFound?
    case StoreStatus(_, r) => !r.Panic?
    case Finished(r) => r.Panic? ==> CheckpointJustMade(c, answers)
    case _ => true
  }

  lemma PanicStep(c: Config, answers: Call -> Reply, p: Phase, now: Time)
    requires Sound(c, p) && Tracks(answers, p) && Gated(c, answers, p) && PanicCaused(c, answers, p) && !p.Finished?
    ensures PanicCaused(c, answers, Advance(c, p, answers(CallOf(c, p)), now))
  {
    hide UploadDone, UploadGivenUp, Uploading, Recorded, Edit, AddVolume, NeedReconcile, Observed;
  }

  lemma {:induction false} PanicAlways(c: Config, answers: Call -> Reply, clock: nat -> Time, n: nat)
    ensures PanicCaused(c, answers, PhaseAfter(c, answers, clock, n))
  {
    hide Advance, Sound, Tracks, Gated;
    if n > 0 {
      PanicAlways(c, answers, clock, n - 1);
      var p := PhaseAfter(c, answers, clock, n - 1);
      if !p.Finished? {
        SoundAlways(c, answers, clock, n - 1);
        GatedAlways(c, answers, clock, n - 1);
        PanicStep(c, answers, p, clock(n - 1));
      }
    }
  }

  lemma ReachPanic(c: Config, answers: Call -> Reply, clock: nat -> Time)
    requires CheckpointJustMade(c, answers)
    ensures Outcome(c, answers, clock) == Panic
    ensures Calls(c, answers, clock)
            == [GetJob, GetBaseJob(c.spec.name, c.spec.jobType), ReadCheckpoint(c.spec), CreateCheckpoint(c.spec)]
  {
    hide PhaseAfter, Sent;
    var d := ReachNoBaseJob(c, answers, clock);
    FirstTwoCalls(c, answers, clock);
    OneMore(c, answers, clock, 2);
    OneMore(c, answers, clock, 3);
    FinishedStays(c, answers, clock, 4, 9);
  }

  lemma FirstTwoCalls(c: Config, answers: Call -> Reply, clock: nat -> Time)
    requires Unstarted(c, answers)
    ensures Sent(c, answers, clock, 2) == [GetJob, GetBaseJob(c.spec.name, c.spec.jobType)]
  {
    hide PhaseAfter;
    PhaseZero(c, answers, clock);
    OneMore(c, answers, clock, 0);
    OneMore(c, answers, clock, 1);
  }

  /** A reconcile panics exactly when it has just created the missing claim for
      checkpoints of a job not started: not when the claim is there, bound or
      not, and not when its creation is refused.  It has then stored nothing. */
  lemma PanicsExactly(c: Config, answers: Call -> Reply, clock: nat -> Time)
    ensures Outcome(c, answers, clock) == Panic
            <==> && Unstarted(c, answers) && c.spec.ckptPath != ""
                 && answers(GetClaim(Checkpoint, CheckpointClaimName(c.spec))).NotFound?
                 && answers(CreateClaim(Checkpoint, CheckpointClaimName(c.spec),
                                        Sizing.ClaimBytes(c.spec.ckptVolumeSize))).Accepted?
    ensures Outcome(c, answers, clock) == Panic ==>
              forall version, s :: Call.UpdateStatus(version, s) !in Calls(c, answers, clock)
  {
    hide PhaseAfter, Sent;
    PanicAlways(c, answers, clock, 9);
    if CheckpointJustMade(c, answers) {
      ReachPanic(c, answers, clock);
    }
  }

  /** It does happen: a job that only asks for checkpoints, on an empty cluster. */
  lemma FirstCheckpointPanics(clock: nat -> Time) returns (c: Config, answers: Call -> Reply)
    ensures Outcome(c, answers, clock) == Panic
    ensures CreateClaim(Checkpoint, "a-ckpt", 1024 * 1024) in Calls(c, answers, clock)
  {
    c := Config(Spec("a", MPI, "/c", 1, "", 0, "", "", "", "", false, 1, 8), 3);
    answers := (call: Call) =>
      if call.GetJob? then JobFound(0, Status([], None, None))
      else if call.CreateClaim? then Accepted
      else NotFound;
    hide Outcome, Calls;
    assert Unstarted(c, answers);
    ReachPanic(c, answers, clock);
    Sizing.Int32Small(1024);
    Sizing.Int32Small(1024 * 1024);
    assert "a" + "-ckpt" == "a-ckpt";
    assert CreateCheckpoint(c.spec) == CreateClaim(Checkpoint, "a-ckpt", 1024 * 1024);
  }

  // -------------------------------------------------------- missing artifacts

  ghost predicate Unusable(artifact: Reply, claim: Reply) {
    artifact.NotFound? || (artifact.ArtifactFound? && (artifact.phase != "done" || claim.NotFound?))
  }

  ghost predicate DatasetMissing(c: Config, answers: Call -> Reply) {
    var r := answers(Call.GetDataset(c.spec.datasetName));
    c.spec.datasetPath != "" && c.spec.datasetName != "" && Unusable(r, answers(GetClaim(DatasetClaim, ClaimOf(r))))
  }

  ghost predicate ModelMissing(c: Config, answers: Call -> Reply) {
    var r := answers(Call.GetModel(c.spec.pretrainModelName));
    c.spec.pretrainModelPath != "" && c.spec.pretrainModelName != ""
      && Unusable(r, answers(GetClaim(ModelClaim, ClaimOf(r))))
  }

  // A status marked failed, about to be stored over the snapshot.
  ghost predicate StoresFailure(p: Phase, version: nat, reason: string, message: string) {
    && p.StoreStatus? && p.result == RETRY && p.d.version == version
    && Holds(p.d.cur.conditions, Failed, True, reason, message) && p.d.cur.startTime.Some?
  }

  // The reason and the message given for an unusable dataset, and for a model.
  function DatasetText(artifact: Reply): (string, string) {
    match artifact
    case NotFound => ("GetDatasetFailed", "Dataset not found")
    case ArtifactFound("done", _) => ("GetDatasetPVCFailed", "Dataset PVC not found")
    case _ => ("GetPretrainModelFailed", "Pretrain model downloader failed")
  }

  function ModelText(artifact: Reply): (string, string) {
    match artifact
    case NotFound => ("GetPretrainModelFailed", "Pretrain model not found")
    case ArtifactFound("done", _) => ("GetPretrainModelPVCFailed", "Pretrain model PVC not found")
    case _ => ("GetPretrainModelFailed", "Pretrain model downloader failed")
  }

  lemma MissingIsStored(d: Draft, reason: string, message: string, now: Time)
    requires d.cur == d.read && !IsFinished(d.cur.conditions)
    ensures StoresFailure(Missing(d, reason, message, now), d.version, reason, message)
  {
    hide SetCondition;
    UpdateEffects(d.cur.conditions, Condition(Failed, True, reason, message, now), Failed);
  }

  lemma UnusableDataset(c: Config, d: Draft, pod: Pod, artifact: Reply, claim: Reply, now: Time, later: Time)
    requires d.cur == d.read && !IsFinished(d.cur.conditions) && Unusable(artifact, claim)
    ensures var p, text := AdvanceDataset(d, pod, artifact, now), DatasetText(artifact);
            if p.FetchDatasetClaim?
            then p == FetchDatasetClaim(d, pod, ClaimOf(artifact))
                 && StoresFailure(AdvanceDatasetClaim(c, d, pod, p.claim, claim, later), d.version, text.0, text.1)
            else StoresFailure(p, d.version, text.0, text.1)
  {
    hide Missing, Exit, IsFinished, IsFailed, Edit, AfterDataset;
    MissingAnyReason(d, now);
    MissingAnyReason(d, later);
  }

  lemma UnusableModel(c: Config, d: Draft, pod: Pod, artifact: Reply, claim: Reply, now: Time, later: Time)
    requires d.cur == d.read && !IsFinished(d.cur.conditions) && Unusable(artifact, claim)
    ensures var p, text := AdvanceModel(d, pod, artifact, now), ModelText(artifact);
            if p.FetchModelClaim?
            then p == FetchModelClaim(d, pod, ClaimOf(artifact))
                 && StoresFailure(AdvanceModelClaim(c, d, pod, p.claim, claim, later), d.version, text.0, text.1)
            else StoresFailure(p, d.version, text.0, text.1)
  {
    hide Missing, Exit, IsFinished, IsFailed, Edit;
    MissingAnyReason(d, now);
    MissingAnyReason(d, later);
  }

  lemma ReachMissingDataset(c: Config, answers: Call -> Reply, clock: nat -> Time) returns (n: nat)
    requires Unstarted(c, answers) && CheckpointReady(c, answers) && ModelSaveReady(c, answers)
    requires DatasetMissing(c, answers)
    ensures var text := DatasetText(answers(Call.GetDataset(c.spec.datasetName)));
            n <= 8 && StoresFailure(PhaseAfter(c, answers, clock, n), answers(GetJob).version, text.0, text.1)
  {
    hide PhaseAfter, StoresFailure, AdvanceDataset, AdvanceDatasetClaim, PodAfterModelSave, Unusable, DatasetText;
    var d, m := ReachAfterModelSave(c, answers, clock);
    var artifact := answers(Call.GetDataset(c.spec.datasetName));
    UnusableDataset(c, d, PodAfterModelSave(c), artifact, answers(GetClaim(DatasetClaim, ClaimOf(artifact))),
                    clock(m), clock(m + 1));
    OneReply(c, answers, clock, m);
    n := m + 1;
    if PhaseAfter(c, answers, clock, n).FetchDatasetClaim? {
      OneReply(c, answers, clock, n);
      n := n + 1;
    }
  }

  lemma ReachMissingModel(c: Config, answers: Call -> Reply, clock: nat -> Time) returns (n: nat)
    requires Unstarted(c, answers) && CheckpointReady(c, answers) && ModelSaveReady(c, answers)
    requires DatasetReady(c, answers) && ModelMissing(c, answers)
    ensures var text := ModelText(answers(Call.GetModel(c.spec.pretrainModelName)));
            n <= 8 && StoresFailure(PhaseAfter(c, answers, clock, n), answers(GetJob).version, text.0, text.1)
  {
    hide PhaseAfter, StoresFailure, AdvanceModel, AdvanceModelClaim, PodAfterDataset, Unusable, ModelText;
    var d, m := ReachAfterDataset(c, answers, clock);
    var artifact := answers(Call.GetModel(c.spec.pretrainModelName));
    UnusableModel(c, d, PodAfterDataset(c, answers), artifact, answers(GetClaim(ModelClaim, ClaimOf(artifact))),
                  clock(m), clock(m + 1));
    OneReply(c, answers, clock, m);
    n := m + 1;
    if PhaseAfter(c, answers, clock, n).FetchModelClaim? {
      OneReply(c, answers, clock, n);
      n := n + 1;
    }
  }

  lemma MissingAnyReason(d: Draft, now: Time)
    requires d.cur == d.read && !IsFinished(d.cur.conditions)
    ensures forall reason, message {:trigger Missing(d, reason, message, now)} ::
              StoresFailure(Missing(d, reason, message, now), d.version, reason, message)
  {
    hide Missing, Exit, IsFailed, Edit;
    forall reason, message {
      MissingIsStored(d, reason, message, now);
    }
  }

  // The training job was read as failed.
  ghost predicate ReportedFailed(c: Config, answers: Call -> Reply) {
    Unfinished(answers) && ReportsFailed(c.spec, answers(GetBaseJob(c.spec.name, c.spec.jobType)))
  }

  // The job had not started, its own claims were bound, and an artifact is unusable.
  ghost predicate ArtifactMissing(c: Config, answers: Call -> Reply) {
    && Unstarted(c, answers) && CheckpointReady(c, answers) && ModelSaveReady(c, answers)
    && (DatasetMissing(c, answers) || (DatasetReady(c, answers) && ModelMissing(c, answers)))
  }

  // A draft that has failed was failed for one of the two reasons.
  ghost predicate FailureCaused(c: Config, answers: Call -> Reply, p: Phase) {
    p.StoreStatus? && IsFailed(p.d.cur.conditions) ==> ReportedFailed(c, answers) || ArtifactMissing(c, answers)
  }

  lemma FailureStep(c: Config, answers: Call -> Reply, p: Phase, now: Time)
    requires Sound(c, p) && Tracks(answers, p) && Gated(c, answers, p) && !p.Finished?
    ensures FailureCaused(c, answers, Advance(c, p, answers(CallOf(c, p)), now))
  {
    hide FailureCaused, AdvanceBaseJob, AdvanceUpload, Advance, CallOf;
    var r := answers(CallOf(c, p));
    match p
    case FetchJob => NothingFailedYet(c, answers, p, r, now);
    case FetchBaseJob(d) => FailureByBaseJob(c, answers, d, now);
    case FetchUpload(d) => FailureByUpload(c, answers, p, r, now);
    case MakeUpload(d) => FailureByUpload(c, answers, p, r, now);
    case _ =>
      if AtArtifact(p) {
        FailureByArtifact(c, answers, p, now);
      } else {
        NothingFailedYet(c, answers, p, r, now);
      }
  }

  lemma NothingFailedYet(c: Config, answers: Call -> Reply, p: Phase, r: Reply, now: Time)
    requires Sound(c, p) && !AtArtifact(p)
    requires !p.FetchBaseJob? && !p.FetchUpload? && !p.MakeUpload?
    ensures p.StoreStatus? || !Advance(c, p, r, now).StoreStatus?
    ensures FailureCaused(c, answers, Advance(c, p, r, now))
  {
    hide AddVolume, NeedReconcile, IsFinished, IsSucceeded, ReportedFailed, ArtifactMissing;
  }

  lemma FailureByBaseJob(c: Config, answers: Call -> Reply, d: Draft, now: Time)
    requires Sound(c, FetchBaseJob(d)) && Tracks(answers, FetchBaseJob(d))
    ensures FailureCaused(c, answers, Advance(c, FetchBaseJob(d), answers(CallOf(c, FetchBaseJob(d))), now))
  {
    hide Recorded, ArtifactMissing, Observed, ReportsFailed;
    ObservedSpelledOut(c.spec, answers(GetBaseJob(c.spec.name, c.spec.jobType)));
    var seen := Observed(c.spec, answers(GetBaseJob(c.spec.name, c.spec.jobType)));
    if seen.Some? {
      RecordedFlags(d.cur, seen.value, now);
    }
  }

  lemma FailureByUpload(c: Config, answers: Call -> Reply, p: Phase, r: Reply, now: Time)
    requires (p.FetchUpload? || p.MakeUpload?) && Uploadable(c, p.d)
    ensures FailureCaused(c, answers, Advance(c, p, r, now))
  {
    hide UploadDone, UploadGivenUp, Uploading, ReportedFailed, ArtifactMissing, IsFailed, IsSucceeded, Terminal;
    hide WantsUpload;
    UploadFlags(p.d.cur, now);
  }

  // Only a missing artifact stores anything here.
  lemma FailureByArtifact(c: Config, answers: Call -> Reply, p: Phase, now: Time)
    requires AtArtifact(p) && Sound(c, p) && Tracks(answers, p) && Gated(c, answers, p)
    ensures FailureCaused(c, answers, Advance(c, p, answers(CallOf(c, p)), now))
  {
    hide Missing, AddVolume, ReportedFailed, CheckpointReady, ModelSaveReady;
  }

  lemma {:induction false} FailureAlways(c: Config, answers: Call -> Reply, clock: nat -> Time, n: nat)
    ensures FailureCaused(c, answers, PhaseAfter(c, answers, clock, n))
  {
    hide Advance, Sound, Tracks, Gated;
    if n > 0 {
      FailureAlways(c, answers, clock, n - 1);
      var p := PhaseAfter(c, answers, clock, n - 1);
      if !p.Finished? {
        SoundAlways(c, answers, clock, n - 1);
        GatedAlways(c, answers, clock, n - 1);
        FailureStep(c, answers, p, clock(n - 1));
      }
    }
  }

  lemma ReachReportedFailed(c: Config, answers: Call -> Reply, clock: nat -> Time) returns (d: Draft)
    requires ReportedFailed(c, answers)
    ensures PhaseAfter(c, answers, clock, 2).StoreStatus? && PhaseAfter(c, answers, clock, 2).d == d
    ensures d.version == answers(GetJob).version && IsFailed(d.cur.conditions)
  {
    hide PhaseAfter, Recorded, Observed, ReportsFailed;
    ObservedSpelledOut(c.spec, answers(GetBaseJob(c.spec.name, c.spec.jobType)));
    var r := answers(GetJob);
    var e := Draft(r.version, r.status, r.status);
    var base := answers(GetBaseJob(c.spec.name, c.spec.jobType));
    PhaseZero(c, answers, clock);
    OneReply(c, answers, clock, 0);
    OneReply(c, answers, clock, 1);
    ObservedWasFound(c, base);
    var v := Observed(c.spec, base).value;
    RecordedFlags(r.status, v, clock(1));
    d := e.(cur := Recorded(r.status, v, clock(1)));
  }

  /** A status with Failed=True is sent to be stored exactly when the training job
      was read as failed, or the job had not started, its own claims were bound
      and the first artifact not ready is missing or unusable; and always over the
      snapshot it was made from. */
  lemma FailsJobExactly(c: Config, answers: Call -> Reply, clock: nat -> Time)
    ensures (exists version, s: Status ::
               Call.UpdateStatus(version, s) in Calls(c, answers, clock) && IsFailed(s.conditions))
            <==> ReportedFailed(c, answers) || ArtifactMissing(c, answers)
    ensures forall version, s: Status :: Call.UpdateStatus(version, s) in Calls(c, answers, clock)
              ==> answers(GetJob).JobFound? && version == answers(GetJob).version
  {
    hide PhaseAfter, Sent, ReportedFailed, ArtifactMissing, IsFailed, DatasetMissing, ModelMissing, Unstarted;
    forall version, s: Status | Call.UpdateStatus(version, s) in Calls(c, answers, clock)
      ensures answers(GetJob).JobFound? && version == answers(GetJob).version
      ensures IsFailed(s.conditions) ==> ReportedFailed(c, answers) || ArtifactMissing(c, answers)
    {
      var k := SentFrom(c, answers, clock, 9, Call.UpdateStatus(version, s));
      FailureAlways(c, answers, clock, k);
      SoundAlways(c, answers, clock, k);
    }
    if ReportedFailed(c, answers) {
      var d := ReachReportedFailed(c, answers, clock);
      SentGrows(c, answers, clock, 2, 9);
      assert Call.UpdateStatus(d.version, d.cur) in Calls(c, answers, clock);
    }
    if ArtifactMissing(c, answers) {
      ArtifactMissingSent(c, answers, clock);
    }
  }

  lemma ArtifactMissingSent(c: Config, answers: Call -> Reply, clock: nat -> Time)
    requires ArtifactMissing(c, answers)
    ensures exists version, s: Status ::
              Call.UpdateStatus(version, s) in Calls(c, answers, clock) && IsFailed(s.conditions)
  {
    hide PhaseAfter, Sent, DatasetText, ModelText;
    MissingArtifactFailsJob(c, answers, clock);
  }

  /** A missing artifact marks the job failed and started, with the reason and the
      message of what is missing, sends that status to be stored and requests no
      training job in this call. */
  lemma MissingArtifactFailsJob(c: Config, answers: Call -> Reply, clock: nat -> Time)
    requires Unstarted(c, answers) && CheckpointReady(c, answers) && ModelSaveReady(c, answers)
    requires DatasetMissing(c, answers) || (DatasetReady(c, answers) && ModelMissing(c, answers))
    ensures forall job :: Call.CreateBaseJob(job) !in Calls(c, answers, clock)
    ensures var text := if DatasetMissing(c, answers) then DatasetText(answers(Call.GetDataset(c.spec.datasetName)))
                        else ModelText(answers(Call.GetModel(c.spec.pretrainModelName)));
            exists s: Status ::
              && Call.UpdateStatus(answers(GetJob).version, s) in Calls(c, answers, clock)
              && Holds(s.conditions, Failed, True, text.0, text.1) && s.startTime.Some?
    ensures Outcome(c, answers, clock).Return? && Outcome(c, answers, clock).requeue
  {
    CreatesBaseJobExactly(c, answers, clock);
    hide PhaseAfter, Sent, CheckpointReady, ModelSaveReady, DatasetText, ModelText;
    var n;
    if DatasetMissing(c, answers) {
      n := ReachMissingDataset(c, answers, clock);
    } else {
      n := ReachMissingModel(c, answers, clock);
    }
    var d := PhaseAfter(c, answers, clock, n).d;
    SentGrows(c, answers, clock, n, 9);
    OneReply(c, answers, clock, n);
    FinishedStays(c, answers, clock, n + 1, 9);
    assert Call.UpdateStatus(answers(GetJob).version, d.cur) in Calls(c, answers, clock);
  }
}
