/** Which observations lie behind what a run does, from any starting status: behind
    every conclusion in a stored status, and behind every request made. */
module LifecycleCauses {
  import opened Wrappers
  import opened Conditions
  import opened Cluster
  import opened ReconcileMachine
  import opened ReconcileLaws
  import opened Lifecycle

  // ------------------------------------------------- conclusions and their reports

  datatype Conclusion = Success | Failing | UploadedWell | UploadAbandoned

  predicate Concludes(s: Status, k: Conclusion) {
    match k
    case Success => IsSucceeded(s.conditions)
    case Failing => IsFailed(s.conditions)
    case UploadedWell => IsStatusConditionTrue(s.conditions, ModelUploaded)
    case UploadAbandoned => Has(s.conditions, ModelUploaded) && !IsStatusConditionTrue(s.conditions, ModelUploaded)
  }

  // A reply that says an artifact, or its claim, cannot be used.
  predicate ReportsUnusable(x: Exchange) {
    match x.call
    case GetDataset(_) => x.reply.NotFound? || (x.reply.ArtifactFound? && x.reply.phase != "done")
    case GetModel(_) => x.reply.NotFound? || (x.reply.ArtifactFound? && x.reply.phase != "done")
    case GetClaim(role, _) => (role.DatasetClaim? || role.ModelClaim?) && x.reply.NotFound?
    case _ => false
  }

  ghost predicate Reports(c: Config, k: Conclusion, x: Exchange) {
    match k
    case Success => x.call.GetBaseJob? && ReportsSucceeded(c.spec, x.reply)
    case Failing => (x.call.GetBaseJob? && ReportsFailed(c.spec, x.reply)) || ReportsUnusable(x)
    case UploadedWell => x.call.GetUploadJob? && x.reply.UploadJobFound? && x.reply.succeeded == 1
    case UploadAbandoned =>
      x.call.GetUploadJob? && x.reply.UploadJobFound? && x.reply.succeeded != 1 && x.reply.failed >= c.backoffLimit
  }

  ghost predicate Reported(c: Config, k: Conclusion, log: seq<Exchange>) {
    exists x :: x in log && Reports(c, k, x)
  }

  // What a status concludes the run began with, or the log has seen reported.
  ghost predicate Backed(c: Config, s0: Status, s: Status, log: seq<Exchange>) {
    forall k :: Concludes(s, k) ==> Concludes(s0, k) || Reported(c, k, log)
  }

  lemma BackedLater(c: Config, s0: Status, s: Status, log: seq<Exchange>, x: Exchange)
    requires Backed(c, s0, s, log)
    ensures Backed(c, s0, s, log + [x])
  {
    hide Concludes, Reports;
  }

  // An edit of a status that has not failed, conclusion by conclusion.
  lemma EditConcludes(s: Status, kind: Kind, status: Truth, reason: string, message: string, now: Time, k: Conclusion)
    requires !IsFailed(s.conditions)
    ensures Concludes(Edit(s, kind, status, reason, message, now), k)
            <==> match k
                 case Success => if kind.Succeeded? then status.True? else Concludes(s, k)
                 case Failing => kind.Failed? && status.True?
                 case UploadedWell => if kind.ModelUploaded? then status.True? else Concludes(s, k)
                 case UploadAbandoned => if kind.ModelUploaded? then !status.True? else Concludes(s, k)
  {
    hide SetCondition;
    SetLookups(s.conditions, Condition(kind, status, reason, message, now));
  }

  // ------------------------------------------- which reply a conclusion comes from

  lemma ConclusionStep(c: Config, p: Phase, r: Reply, now: Time, k: Conclusion)
    requires Sound(c, p) && HasDraft(p) && HasDraft(Advance(c, p, r, now))
    ensures Concludes(Advance(c, p, r, now).d.cur, k) ==>
              Concludes(p.d.cur, k) || Reports(c, k, Exchange(CallOf(c, p), r))
  {
    hide AdvanceBaseJob, AdvanceUpload, AdvanceDataset, AdvanceDatasetClaim, AdvanceModel, AdvanceModelClaim;
    hide Uploading, AddVolume, IsFinished, Terminal, Concludes, Reports, CallOf;
    match p
    case FetchBaseJob(d) => ConclusionByBaseJob(c, d, r, now, k);
    case FetchUpload(d) => ConclusionByUpload(c, d, r, now, k);
    case MakeUpload(d) =>
      EditConcludes(d.cur, ModelUploading, True, "UploadingModel", "modelupload job is running", now, k);
      UploadingConcludes(d.cur, now, k);
    case _ =>
      if AtArtifact(p) {
        ConclusionByArtifact(c, p, r, now, k);
      }
  }

  lemma UploadingConcludes(s: Status, now: Time, k: Conclusion)
    requires !IsFailed(s.conditions)
    ensures Concludes(Uploading(s, now), k) <==> Concludes(s, k)
  {
    hide Edit;
    EditConcludes(s, ModelUploading, True, "UploadingModel", "modelupload job is running", now, k);
  }

  lemma ConclusionByBaseJob(c: Config, d: Draft, r: Reply, now: Time, k: Conclusion)
    requires !IsFinished(d.cur.conditions) && HasDraft(AdvanceBaseJob(c, d, r, now))
    ensures Concludes(AdvanceBaseJob(c, d, r, now).d.cur, k) ==>
              Concludes(d.cur, k) || Reports(c, k, Exchange(CallOf(c, FetchBaseJob(d)), r))
  {
    hide Recorded, Observed, ReportsFailed, ReportsSucceeded;
    ObservedSpelledOut(c.spec, r);
    var seen := Observed(c.spec, r);
    if seen.Some? {
      RecordedFlags(d.cur, seen.value, now);
    }
  }

  lemma ConclusionByUpload(c: Config, d: Draft, r: Reply, now: Time, k: Conclusion)
    requires Uploadable(c, d) && HasDraft(AdvanceUpload(c, d, r, now))
    ensures Concludes(AdvanceUpload(c, d, r, now).d.cur, k) ==>
              Concludes(d.cur, k) || Reports(c, k, Exchange(CallOf(c, FetchUpload(d)), r))
  {
    hide Edit, Uploading, UploadJobName, Concludes;
    UploadingConcludes(d.cur, now, k);
    EditConcludes(d.cur, ModelUploaded, True, "UploadModelSucceed", "Upload model succeed", now, k);
    EditConcludes(d.cur, ModelUploaded, False, "UploadModelSucceed", "modelupload backofflimit exceed", now, k);
  }

  // A missing artifact concludes nothing but failure, and fails for a reason.
  lemma ConclusionByArtifact(c: Config, p: Phase, r: Reply, now: Time, k: Conclusion)
    requires AtArtifact(p) && !IsFinished(p.d.cur.conditions) && HasDraft(Advance(c, p, r, now))
    ensures Concludes(Advance(c, p, r, now).d.cur, k) ==>
              Concludes(p.d.cur, k) || Reports(c, k, Exchange(CallOf(c, p), r))
  {
    hide Missing, Concludes, IsFinished, AddVolume;
    if k.Failing? {
      FailureReported(c, p, r, now);
    } else {
      hide Advance;
      ArtifactStep(c, p, r, now);
      MissingConcludes(p.d, now, k);
    }
  }

  lemma MissingConcludes(d: Draft, now: Time, k: Conclusion)
    requires !IsFinished(d.cur.conditions) && !k.Failing?
    ensures forall reason, message {:trigger Missing(d, reason, message, now)} ::
              var p := Missing(d, reason, message, now); HasDraft(p) && Concludes(p.d.cur, k) ==> Concludes(d.cur, k)
  {
    hide Edit;
    forall reason, message {
      EditConcludes(d.cur, Failed, True, reason, message, now, k);
    }
  }

  lemma FailureReported(c: Config, p: Phase, r: Reply, now: Time)
    requires AtArtifact(p) && HasDraft(Advance(c, p, r, now))
    ensures Advance(c, p, r, now).d.cur == p.d.cur || ReportsUnusable(Exchange(CallOf(c, p), r))
  {
    hide Missing, AddVolume, AdvanceBaseJob, AdvanceUpload;
  }

  // ------------------------------------------------ what lies behind a creation

  ghost predicate AbsentHeard(c: Config, log: seq<Exchange>) {
    Exchange(GetBaseJob(c.spec.name, c.spec.jobType), NotFound) in log
  }

  ghost predicate OwnClaimsHeard(c: Config, log: seq<Exchange>) {
    && CheckpointHeard(c, log)
    && (WantsModelSave(c.spec) ==> Exchange(GetClaim(ModelSave, ModelSaveClaimName(c.spec)), ClaimFound(true)) in log)
  }

  ghost predicate CheckpointHeard(c: Config, log: seq<Exchange>) {
    c.spec.ckptPath != "" ==> Exchange(GetClaim(Checkpoint, CheckpointClaimName(c.spec)), ClaimFound(true)) in log
  }

  ghost predicate DatasetHeard(c: Config, log: seq<Exchange>, claim: string) {
    WantsDataset(c.spec) ==>
      && Exchange(Call.GetDataset(c.spec.datasetName), ArtifactFound("done", claim)) in log
      && exists bound :: Exchange(GetClaim(DatasetClaim, claim), ClaimFound(bound)) in log
  }

  // The claim of a model is mounted if it was found; a failed lookup passes, and
  // then nothing is.
  ghost predicate ModelHeard(c: Config, log: seq<Exchange>, claim: string, mounted: string) {
    WantsModel(c.spec) ==>
      && Exchange(Call.GetModel(c.spec.pretrainModelName), ArtifactFound("done", claim)) in log
      && exists r: Reply :: Exchange(GetClaim(ModelClaim, claim), r) in log && !r.NotFound?
                            && mounted == if r.ClaimFound? then claim else ""
  }

  // What a reconcile about to make a call has heard.
  ghost predicate Heard(c: Config, p: Phase, log: seq<Exchange>) {
    match p
    case FetchCheckpoint(_) => AbsentHeard(c, log)
    case FetchModelSave(_, pod) => AbsentHeard(c, log) && CheckpointHeard(c, log) && pod == PodAfterCheckpoint(c)
    case FetchDataset(_, pod) => AbsentHeard(c, log) && OwnClaimsHeard(c, log) && pod == PodAfterModelSave(c)
    case FetchDatasetClaim(_, pod, claim) =>
      && AbsentHeard(c, log) && OwnClaimsHeard(c, log) && pod == PodAfterModelSave(c) && WantsDataset(c.spec)
      && Exchange(Call.GetDataset(c.spec.datasetName), ArtifactFound("done", claim)) in log
    case FetchModel(_, pod) => AbsentHeard(c, log) && OwnClaimsHeard(c, log) && DatasetPod(c, log, pod)
    case FetchModelClaim(_, pod, claim) =>
      && AbsentHeard(c, log) && OwnClaimsHeard(c, log) && DatasetPod(c, log, pod) && WantsModel(c.spec)
      && Exchange(Call.GetModel(c.spec.pretrainModelName), ArtifactFound("done", claim)) in log
    case MakeBaseJob(_, pod) => AbsentHeard(c, log) && OwnClaimsHeard(c, log) && ModelPod(c, log, pod)
    case _ => true
  }

  ghost predicate DatasetPod(c: Config, log: seq<Exchange>, pod: Pod) {
    exists dataset :: DatasetHeard(c, log, dataset) && pod == PodWithDataset(c, dataset)
  }

  ghost predicate ModelPod(c: Config, log: seq<Exchange>, pod: Pod) {
    exists dataset, model, mounted ::
      DatasetHeard(c, log, dataset) && ModelHeard(c, log, model, mounted) && pod == PodWithModel(c, dataset, mounted)
  }

  lemma HeardLater(c: Config, p: Phase, log: seq<Exchange>, x: Exchange)
    requires Heard(c, p, log)
    ensures Heard(c, p, log + [x])
  {
    hide PodWithDataset, PodWithModel, WantsModelSave, WantsDataset, WantsModel;
    assert forall y :: y in log ==> y in log + [x];
    if p.FetchModel? || p.FetchModelClaim? {
      var dataset :| DatasetHeard(c, log, dataset) && p.pod == PodWithDataset(c, dataset);
      assert DatasetHeard(c, log + [x], dataset);
    } else if p.MakeBaseJob? {
      var dataset, model, mounted :|
        DatasetHeard(c, log, dataset) && ModelHeard(c, log, model, mounted)
          && p.pod == PodWithModel(c, dataset, mounted);
      assert DatasetHeard(c, log + [x], dataset) && ModelHeard(c, log + [x], model, mounted);
    }
  }

  // After the model, or without one.
  lemma HeardModel(c: Config, d: Draft, dataset: string, model: string, mounted: string, log: seq<Exchange>)
    requires AbsentHeard(c, log) && OwnClaimsHeard(c, log)
    requires DatasetHeard(c, log, dataset) && ModelHeard(c, log, model, mounted)
    ensures Heard(c, MakeBaseJob(d, PodWithModel(c, dataset, mounted)), log)
  {
  }

  lemma HeardDataset(c: Config, d: Draft, dataset: string, log: seq<Exchange>)
    requires AbsentHeard(c, log) && OwnClaimsHeard(c, log) && DatasetHeard(c, log, dataset)
    ensures Heard(c, AfterDataset(c, d, PodWithDataset(c, dataset)), log)
  {
    hide PodWithDataset, OwnClaimsHeard, DatasetHeard;
    if !WantsModel(c.spec) {
      HeardModel(c, d, dataset, "", "", log);
      assert PodWithModel(c, dataset, "") == PodWithDataset(c, dataset);
    }
  }

  lemma HeardModelSave(c: Config, d: Draft, log: seq<Exchange>)
    requires AbsentHeard(c, log) && OwnClaimsHeard(c, log)
    ensures Heard(c, AfterModelSave(c, d, PodAfterModelSave(c)), log)
  {
    hide PodAfterModelSave, OwnClaimsHeard, AfterDataset;
    if !WantsDataset(c.spec) {
      HeardDataset(c, d, "", log);
      assert PodWithDataset(c, "") == PodAfterModelSave(c);
    }
  }

  lemma HeardCheckpoint(c: Config, d: Draft, log: seq<Exchange>)
    requires AbsentHeard(c, log) && CheckpointHeard(c, log)
    ensures Heard(c, AfterCheckpoint(c, d, PodAfterCheckpoint(c)), log)
  {
    hide PodAfterCheckpoint, AfterModelSave;
    if !WantsModelSave(c.spec) {
      HeardModelSave(c, d, log);
      assert PodAfterModelSave(c) == PodAfterCheckpoint(c);
    }
  }

  lemma HeardNoBaseJob(c: Config, d: Draft, log: seq<Exchange>)
    requires AbsentHeard(c, log)
    ensures Heard(c, NoBaseJob(c, d), log)
  {
    hide AfterCheckpoint, AddVolume;
    if c.spec.ckptPath == "" {
      HeardCheckpoint(c, d, log);
    }
  }

  // A read is made only if the spec asks for it.
  predicate Asked(c: Config, p: Phase) {
    && (p.FetchCheckpoint? ==> c.spec.ckptPath != "")
    && (p.FetchModelSave? ==> WantsModelSave(c.spec))
    && (p.FetchDataset? ==> WantsDataset(c.spec))
    && (p.FetchModel? ==> WantsModel(c.spec))
  }

  lemma HeardStep(c: Config, p: Phase, r: Reply, now: Time, log: seq<Exchange>)
    requires !p.Finished? && Heard(c, p, log) && Asked(c, p)
    ensures Heard(c, Advance(c, p, r, now), log + [Exchange(CallOf(c, p), r)])
  {
    hide Heard, AbsentHeard, CheckpointHeard, OwnClaimsHeard, AfterCheckpoint, AfterModelSave, AfterDataset;
    hide NoBaseJob, AddVolume;
    hide AdvanceBaseJob, AdvanceUpload, AdvanceDataset, AdvanceDatasetClaim, AdvanceModel, AdvanceModelClaim;
    hide Entered, Uploading;
    var x := Exchange(CallOf(c, p), r);
    HeardLater(c, p, log, x);
    assert x in log + [x];
    match p
    case FetchBaseJob(d) => HeardBaseJob(c, d, r, now, log + [x]);
    case FetchCheckpoint(d) => HeardOwnClaim(c, p, r, now, log + [x]);
    case FetchModelSave(d, pod) => HeardOwnClaim(c, p, r, now, log + [x]);
    case FetchDataset(d, pod) => HeardDatasetRead(c, p, r, now, log + [x]);
    case FetchDatasetClaim(d, pod, claim) => HeardDatasetClaim(c, p, r, now, log + [x]);
    case FetchModel(d, pod) => HeardModelRead(c, p, r, now, log + [x]);
    case FetchModelClaim(d, pod, claim) => HeardModelClaim(c, p, r, now, log + [x]);
    case _ => HeardOther(c, p, r, now, log + [x]);
  }

  lemma HeardBaseJob(c: Config, d: Draft, r: Reply, now: Time, log: seq<Exchange>)
    requires Exchange(CallOf(c, FetchBaseJob(d)), r) in log
    ensures Heard(c, AdvanceBaseJob(c, d, r, now), log)
  {
    hide Recorded, Observed, NoBaseJob;
    if r.NotFound? {
      HeardNoBaseJob(c, d, log);
    }
  }

  lemma HeardOwnClaim(c: Config, p: Phase, r: Reply, now: Time, log: seq<Exchange>)
    requires p.FetchCheckpoint? || p.FetchModelSave?
    requires Heard(c, p, log) && Exchange(CallOf(c, p), r) in log && (p.FetchCheckpoint? ==> c.spec.ckptPath != "")
    requires p.FetchModelSave? ==> WantsModelSave(c.spec)
    ensures Heard(c, Advance(c, p, r, now), log)
  {
    hide AfterCheckpoint, AfterModelSave, AddVolume, CheckpointClaimName, ModelSaveClaimName;
    if r == ClaimFound(true) {
      if p.FetchCheckpoint? {
        HeardCheckpoint(c, p.d, log);
      } else {
        HeardModelSave(c, p.d, log);
      }
    }
  }

  lemma HeardDatasetRead(c: Config, p: Phase, r: Reply, now: Time, log: seq<Exchange>)
    requires p.FetchDataset? && WantsDataset(c.spec) && Heard(c, p, log) && Exchange(CallOf(c, p), r) in log
    ensures Heard(c, Advance(c, p, r, now), log)
  {
    hide Edit, OwnClaimsHeard, AbsentHeard, PodAfterModelSave;
  }

  lemma HeardDatasetClaim(c: Config, p: Phase, r: Reply, now: Time, log: seq<Exchange>)
    requires p.FetchDatasetClaim? && Heard(c, p, log) && Exchange(CallOf(c, p), r) in log
    ensures Heard(c, Advance(c, p, r, now), log)
  {
    hide Edit, OwnClaimsHeard, AbsentHeard, PodAfterModelSave, AfterDataset, AddVolume;
    if r.ClaimFound? {
      assert Exchange(GetClaim(DatasetClaim, p.claim), ClaimFound(r.bound)) in log;
      HeardDataset(c, p.d, p.claim, log);
    }
  }

  lemma HeardModelRead(c: Config, p: Phase, r: Reply, now: Time, log: seq<Exchange>)
    requires p.FetchModel? && WantsModel(c.spec) && Heard(c, p, log) && Exchange(CallOf(c, p), r) in log
    ensures Heard(c, Advance(c, p, r, now), log)
  {
    hide Edit, OwnClaimsHeard, AbsentHeard, DatasetPod;
  }

  lemma HeardModelClaim(c: Config, p: Phase, r: Reply, now: Time, log: seq<Exchange>)
    requires p.FetchModelClaim? && Heard(c, p, log) && Exchange(CallOf(c, p), r) in log
    ensures Heard(c, Advance(c, p, r, now), log)
  {
    hide Edit, OwnClaimsHeard, AbsentHeard, DatasetHeard, PodWithDataset, AddVolume;
    if !r.NotFound? {
      var dataset :| DatasetHeard(c, log, dataset) && p.pod == PodWithDataset(c, dataset);
      HeardModel(c, p.d, dataset, p.claim, if r.ClaimFound? then p.claim else "", log);
    }
  }

  lemma HeardOther(c: Config, p: Phase, r: Reply, now: Time, log: seq<Exchange>)
    requires !p.FetchBaseJob? && !p.FetchCheckpoint? && !p.FetchModelSave? && !AtArtifact(p)
    ensures Heard(c, Advance(c, p, r, now), log)
  {
    hide UploadDone, UploadGivenUp, Uploading, NeedReconcile, IsFinished, IsSucceeded;
  }

  // -------------------------------------------------------------- over whole runs

  // The same of a call, for the log before it.
  ghost predicate CallBacked(c: Config, s0: Status, call: Call, log: seq<Exchange>) {
    match call
    case CreateUploadJob(_, _) => Concludes(s0, Success) || Reported(c, Success, log)
    case UpdateStatus(_, s) => Backed(c, s0, s, log)
    case CreateBaseJob(job) => Gated(c, log, job)
    case _ => true
  }

  ghost predicate Gated(c: Config, log: seq<Exchange>, job: BaseJobSpec) {
    && AbsentHeard(c, log) && OwnClaimsHeard(c, log)
    && exists dataset, model, mounted ::
         DatasetHeard(c, log, dataset) && ModelHeard(c, log, model, mounted)
         && job == BuildBaseJob(c.spec, PodWithModel(c, dataset, mounted))
  }

  ghost predicate WorkerCaused(c: Config, s0: Status, p: Phase, log: seq<Exchange>) {
    Heard(c, p, log) && Asked(c, p) && (HasDraft(p) ==> Backed(c, s0, p.d.cur, log))
  }

  ghost predicate Caused(c: Config, s0: Status, world: World) {
    && (forall i :: 0 <= i < |world.store| ==> Backed(c, s0, world.store[i], world.log))
    && (forall w :: w in world.workers ==> WorkerCaused(c, s0, world.workers[w], world.log))
    && (forall i :: 0 <= i < |world.log| ==> CallBacked(c, s0, world.log[i].call, world.log[..i]))
  }

  lemma AskedStep(c: Config, p: Phase, r: Reply, now: Time)
    ensures Asked(c, Advance(c, p, r, now)) || p.Finished?
  {
    hide UploadDone, UploadGivenUp, Uploading, Recorded, Edit, AddVolume, NeedReconcile, Observed, IsFinished;
    hide IsSucceeded;
    hide WantsModelSave, WantsDataset, WantsModel;
  }

  // A call is backed by what the reconcile making it has seen.
  lemma CallOfBacked(c: Config, s0: Status, p: Phase, log: seq<Exchange>)
    requires Sound(c, p) && !p.Finished? && WorkerCaused(c, s0, p, log)
    ensures CallBacked(c, s0, CallOf(c, p), log)
  {
    hide IsFailed, Terminal, BuildBaseJob, Reported, OwnClaimsHeard, AbsentHeard, DatasetHeard, ModelHeard;
    hide PodWithModel;
    if p.MakeUpload? {
      assert Concludes(p.d.cur, Success);
    }
  }

  lemma WorkerStep(c: Config, s0: Status, p: Phase, r: Reply, now: Time, log: seq<Exchange>)
    requires Sound(c, p) && !p.Finished? && WorkerCaused(c, s0, p, log)
    requires p.FetchJob? && r.JobFound? ==> Backed(c, s0, r.status, log)
    ensures WorkerCaused(c, s0, Advance(c, p, r, now), log + [Exchange(CallOf(c, p), r)])
  {
    hide Advance, CallOf, Sound, Heard, Asked, Backed;
    var x := Exchange(CallOf(c, p), r);
    var q := Advance(c, p, r, now);
    HeardStep(c, p, r, now, log);
    AskedStep(c, p, r, now);
    if HasDraft(q) {
      if p.FetchJob? {
        FirstDraft(c, p, r, now);
        BackedLater(c, s0, r.status, log, x);
      } else {
        DraftBacked(c, s0, p, r, now, log);
      }
    }
  }

  lemma DraftBacked(c: Config, s0: Status, p: Phase, r: Reply, now: Time, log: seq<Exchange>)
    requires Sound(c, p) && HasDraft(p) && Backed(c, s0, p.d.cur, log) && HasDraft(Advance(c, p, r, now))
    ensures Backed(c, s0, Advance(c, p, r, now).d.cur, log + [Exchange(CallOf(c, p), r)])
  {
    hide Advance, CallOf, Sound, Concludes, Reports;
    var x := Exchange(CallOf(c, p), r);
    BackedLater(c, s0, p.d.cur, log, x);
    assert x in log + [x];
    forall k | Concludes(Advance(c, p, r, now).d.cur, k)
      ensures Concludes(s0, k) || Reported(c, k, log + [x])
    {
      ConclusionStep(c, p, r, now, k);
    }
  }

  lemma FirstDraft(c: Config, p: Phase, r: Reply, now: Time)
    requires p.FetchJob? && HasDraft(Advance(c, p, r, now))
    ensures r.JobFound? && Advance(c, p, r, now).d.cur == r.status
  {
    hide IsFinished, IsSucceeded, NeedReconcile;
  }

  lemma WorkerLater(c: Config, s0: Status, p: Phase, log: seq<Exchange>, x: Exchange)
    requires WorkerCaused(c, s0, p, log)
    ensures WorkerCaused(c, s0, p, log + [x])
  {
    hide Heard, Asked, Backed;
    HeardLater(c, p, log, x);
    if HasDraft(p) {
      BackedLater(c, s0, p.d.cur, log, x);
    }
  }

  lemma CausedStep(c: Config, s0: Status, world: World, w: nat, r: Reply, now: Time)
    requires Caused(c, s0, world) && w in world.workers && !world.workers[w].Finished? && Sound(c, world.workers[w])
    requires world.workers[w].FetchJob? && r.JobFound? ==> Backed(c, s0, r.status, world.log)
    ensures Caused(c, s0, Step(c, world, w, r, now))
  {
    hide Advance, Backed, CallOf, Sound, CallBacked, WorkerCaused;
    var p := world.workers[w];
    var x := Exchange(CallOf(c, p), r);
    var world' := Step(c, world, w, r, now);
    CallOfBacked(c, s0, p, world.log);
    WorkerStep(c, s0, p, r, now, world.log);
    forall i | 0 <= i < |world'.store|
      ensures Backed(c, s0, world'.store[i], world'.log)
    {
      BackedLater(c, s0, world.store[i], world.log, x);
    }
    forall v | v in world'.workers
      ensures WorkerCaused(c, s0, world'.workers[v], world'.log)
    {
      if v != w {
        WorkerLater(c, s0, world.workers[v], world.log, x);
      }
    }
    forall i | 0 <= i < |world'.log|
      ensures CallBacked(c, s0, world'.log[i].call, world'.log[..i])
    {
      assert world'.log[..i] == world.log[..i];
    }
  }

  lemma CausedApply(c: Config, s0: Status, world: World, e: Event)
    requires Caused(c, s0, world) && Safe(c, world)
    ensures Caused(c, s0, Apply(c, world, e))
  {
    hide Advance, Terminal, CallOf, Step, Seen, Sound, Backed, CallBacked, Heard, Asked;
    match e
    case Begin(w) => FreshCaused(c, s0, world.log);
    case Crash(_) =>
    case Deliver(w, version, created) =>
      if w in world.workers && world.workers[w].FetchJob? && version < |world.store| {
        SeenBacked(c, s0, world.store[version], created, world.log);
        CausedStep(c, s0, world, w, JobFound(version, Seen(c, world.store[version], created)), 0);
      }
    case Answer(w, reply, now) =>
      if w in world.workers && !world.workers[w].Finished? && !world.workers[w].StoreStatus? {
        CausedStep(c, s0, world, w, if world.workers[w].FetchJob? then Error else reply, now);
      }
    case Write(w, fate) =>
      if w in world.workers && world.workers[w].StoreStatus? {
        var d := world.workers[w].d;
        var current := d.version == |world.store| - 1;
        var stored := if current && !fate.Refused? then world.store + [d.cur] else world.store;
        assert WorkerCaused(c, s0, world.workers[w], world.log);
        CausedStep(c, s0, world.(store := stored), w, if current && fate.Delivered? then Accepted else Error, 0);
      }
  }

  lemma FreshCaused(c: Config, s0: Status, log: seq<Exchange>)
    ensures WorkerCaused(c, s0, FetchJob, log)
  {
  }

  lemma SeenBacked(c: Config, s0: Status, s: Status, created: Option<Time>, log: seq<Exchange>)
    requires Backed(c, s0, s, log)
    ensures Backed(c, s0, Seen(c, s, created), log)
  {
    hide Edit, Concludes, Reported;
    forall k | Concludes(Seen(c, s, created), k)
      ensures Concludes(s, k)
    {
      if created.Some? && !IsFailed(s.conditions) {
        CreatedConcludes(c, s, created.value, k);
      } else {
        SeenFrozen(c, s, created);
      }
    }
  }

  lemma CreatedConcludes(c: Config, s: Status, now: Time, k: Conclusion)
    requires !IsFailed(s.conditions) && Concludes(Seen(c, s, Some(now)), k)
    ensures Concludes(s, k)
  {
    hide Edit;
    EditConcludes(s, Created, True, "CpodjobCreated", "Cpodjob " + c.spec.name + " is created", now, k);
  }

  lemma SeenFrozen(c: Config, s: Status, created: Option<Time>)
    requires created.None? || IsFailed(s.conditions)
    ensures Seen(c, s, created) == s
  {
  }

  lemma {:induction false} CausedRun(c: Config, s0: Status, es: seq<Event>)
    ensures Caused(c, s0, Run(c, s0, es))
  {
    hide Apply;
    if es != [] {
      CausedRun(c, s0, es[..|es| - 1]);
      SafeRun(c, s0, es[..|es| - 1]);
      CausedApply(c, s0, Run(c, s0, es[..|es| - 1]), es[|es| - 1]);
    }
  }

  /** Every conclusion has its observation behind it, in every run, unless the run
      began with it.  A stored success, and every request to create the upload
      job, come after the training job was read as succeeded, whatever was lost in
      between; a stored failure after it was read as failed or an artifact or its
      claim as missing or unusable; ModelUploaded=True after the upload job was
      read with one success, and ModelUploaded=False after it was read with its
      retries used up. */
  lemma ConclusionsHaveCauses(c: Config, s0: Status, es: seq<Event>, k: Conclusion)
    ensures var world := Run(c, s0, es);
            && (forall i :: 0 <= i < |world.store| && Concludes(world.store[i], k)
                            ==> Concludes(s0, k) || Reported(c, k, world.log))
            && (forall i :: 0 <= i < |world.log| && world.log[i].call.UpdateStatus?
                            && Concludes(world.log[i].call.status, k)
                            ==> Concludes(s0, k) || Reported(c, k, world.log[..i]))
            && (forall i :: 0 <= i < |world.log| && world.log[i].call.CreateUploadJob?
                            ==> Concludes(s0, Success) || Reported(c, Success, world.log[..i]))
  {
    hide Run, Reported, Concludes;
    CausedRun(c, s0, es);
    var world := Run(c, s0, es);
    assert forall i :: 0 <= i < |world.store| ==> Backed(c, s0, world.store[i], world.log);
    assert forall i :: 0 <= i < |world.log| ==> CallBacked(c, s0, world.log[i].call, world.log[..i]);
  }

  /** Gating over runs: before any request to create the training job, in every
      run, the job was read as absent, every claim of its own it asks for was read
      as bound, and every artifact it asks for as done and its claim as there, a
      failed lookup of the model's claim passing; and it mounts those claims. */
  lemma CreationsAreGated(c: Config, s0: Status, es: seq<Event>, i: nat)
    requires var log := Run(c, s0, es).log; i < |log| && log[i].call.CreateBaseJob?
    ensures var log := Run(c, s0, es).log;
            && AbsentHeard(c, log[..i]) && OwnClaimsHeard(c, log[..i])
            && exists dataset, model, mounted ::
                 && DatasetHeard(c, log[..i], dataset) && ModelHeard(c, log[..i], model, mounted)
                 && log[i].call.job == BuildBaseJob(c.spec, PodWithModel(c, dataset, mounted))
  {
    hide Run, AbsentHeard, OwnClaimsHeard, DatasetHeard, ModelHeard;
    CausedRun(c, s0, es);
    var log := Run(c, s0, es).log;
    assert CallBacked(c, s0, log[i].call, log[..i]);
    assert Gated(c, log[..i], log[i].call.job);
  }
}
