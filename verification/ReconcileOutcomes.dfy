/** Exact outcomes of one call of Reconcile: how many calls it makes, when it
    creates the training job and what that mounts, and when it is content. */
module ReconcileOutcomes {
  import opened Wrappers
  import opened Conditions
  import opened Cluster
  import opened ReconcileMachine
  import opened ReconcileLaws

  // An upper bound on the calls still to come.
  function Remaining(p: Phase): nat {
    match p
    case FetchJob => 9
    case FetchBaseJob(_) => 8
    case FetchCheckpoint(_) => 7
    case FetchModelSave(_, _) => 6
    case FetchDataset(_, _) => 5
    case FetchDatasetClaim(_, _, _) => 4
    case FetchModel(_, _) => 3
    case FetchModelClaim(_, _, _) => 2
    case FetchUpload(_) => 3
    case MakeUpload(_) => 2
    case MakeCheckpoint(_) | MakeModelSave(_) | MakeBaseJob(_, _) | StoreStatus(_, _) => 1
    case Finished(_) => 0
  }

  // Creating a claim or the training job leaves the status as it was read, so
  // no write follows.
  lemma RemainingDrops(c: Config, p: Phase, r: Reply, now: Time)
    requires Sound(c, p) && !p.Finished?
    ensures Remaining(Advance(c, p, r, now)) < Remaining(p)
  {
    hide UploadDone, UploadGivenUp, Uploading, Recorded, Edit, AddVolume, NeedReconcile, Observed, IsFinished;
    hide IsSucceeded, IsFailed;
  }

  /** Every reconcile is over after at most nine calls. */
  lemma {:induction false} NineCallsSuffice(c: Config, answers: Call -> Reply, clock: nat -> Time, n: nat)
    ensures |Sent(c, answers, clock, n)| <= 9
    ensures n >= 9 ==> PhaseAfter(c, answers, clock, n).Finished?
    ensures |Sent(c, answers, clock, n)| + Remaining(PhaseAfter(c, answers, clock, n)) <= 9
    ensures PhaseAfter(c, answers, clock, n).Finished? || |Sent(c, answers, clock, n)| == n
  {
    hide Advance, Sound;
    if n > 0 {
      NineCallsSuffice(c, answers, clock, n - 1);
      var p := PhaseAfter(c, answers, clock, n - 1);
      if !p.Finished? {
        SoundAlways(c, answers, clock, n - 1);
        RemainingDrops(c, p, answers(CallOf(c, p)), clock(n - 1));
      }
    }
  }

  function Outcome(c: Config, answers: Call -> Reply, clock: nat -> Time): (r: Result)
    ensures PhaseAfter(c, answers, clock, 9) == Finished(r)
  {
    NineCallsSuffice(c, answers, clock, 9);
    PhaseAfter(c, answers, clock, 9).result
  }

  function Calls(c: Config, answers: Call -> Reply, clock: nat -> Time): seq<Call> {
    Sent(c, answers, clock, 9)
  }

  lemma {:induction false} FinishedStays(c: Config, answers: Call -> Reply, clock: nat -> Time, n: nat, m: nat)
    requires n <= m && PhaseAfter(c, answers, clock, n).Finished?
    ensures PhaseAfter(c, answers, clock, m) == PhaseAfter(c, answers, clock, n)
    ensures Sent(c, answers, clock, m) == Sent(c, answers, clock, n)
  {
    hide Advance;
    if n < m {
      FinishedStays(c, answers, clock, n, m - 1);
    }
  }

  lemma {:induction false} SentGrows(c: Config, answers: Call -> Reply, clock: nat -> Time, n: nat, m: nat)
    requires n < m && !PhaseAfter(c, answers, clock, n).Finished?
    ensures CallOf(c, PhaseAfter(c, answers, clock, n)) in Sent(c, answers, clock, m)
  {
    hide Advance, CallOf;
    if n < m - 1 {
      SentGrows(c, answers, clock, n, m - 1);
    }
  }

  lemma {:induction false} SentFrom(c: Config, answers: Call -> Reply, clock: nat -> Time, n: nat, call: Call)
    returns (k: nat)
    requires call in Sent(c, answers, clock, n)
    ensures k < n && !PhaseAfter(c, answers, clock, k).Finished? && CallOf(c, PhaseAfter(c, answers, clock, k)) == call
  {
    hide Advance, CallOf;
    if call in Sent(c, answers, clock, n - 1) {
      k := SentFrom(c, answers, clock, n - 1, call);
    } else {
      k := n - 1;
    }
  }

  lemma {:induction false} RemainingFalls(c: Config, answers: Call -> Reply, clock: nat -> Time, i: nat, j: nat)
    requires i < j && !PhaseAfter(c, answers, clock, i).Finished?
    ensures Remaining(PhaseAfter(c, answers, clock, j)) < Remaining(PhaseAfter(c, answers, clock, i))
  {
    hide Advance, CallOf;
    var p := PhaseAfter(c, answers, clock, j - 1);
    if i < j - 1 {
      RemainingFalls(c, answers, clock, i, j - 1);
    }
    if !p.Finished? {
      SoundAlways(c, answers, clock, j - 1);
      RemainingDrops(c, p, answers(CallOf(c, p)), clock(j - 1));
    }
  }

  lemma SameCallSamePlace(c: Config, p: Phase, q: Phase)
    requires !p.Finished? && !q.Finished? && CallOf(c, p) == CallOf(c, q)
    ensures Remaining(p) == Remaining(q)
  {
    hide BuildBaseJob, CheckpointClaimName, ModelSaveClaimName, UploadJobName;
  }

  /** A reconcile reaches no call site twice.  Calls carry their site: the role of
      a claim tells apart reads that may be of one claim. */
  lemma NoCallSiteIsReachedTwice(c: Config, answers: Call -> Reply, clock: nat -> Time, i: nat, j: nat)
    requires i < j && !PhaseAfter(c, answers, clock, i).Finished? && !PhaseAfter(c, answers, clock, j).Finished?
    ensures CallOf(c, PhaseAfter(c, answers, clock, i)) != CallOf(c, PhaseAfter(c, answers, clock, j))
  {
    hide PhaseAfter, CallOf, Remaining;
    RemainingFalls(c, answers, clock, i, j);
    if CallOf(c, PhaseAfter(c, answers, clock, i)) == CallOf(c, PhaseAfter(c, answers, clock, j)) {
      SameCallSamePlace(c, PhaseAfter(c, answers, clock, i), PhaseAfter(c, answers, clock, j));
    }
  }

  // ----------------------------------------------- creating the training job

  lemma {:induction false} GatedAlways(c: Config, answers: Call -> Reply, clock: nat -> Time, n: nat)
    ensures Gated(c, answers, PhaseAfter(c, answers, clock, n))
  {
    hide Advance, Gated;
    if n > 0 {
      GatedAlways(c, answers, clock, n - 1);
      var p := PhaseAfter(c, answers, clock, n - 1);
      if !p.Finished? {
        GatedStep(c, answers, p, clock(n - 1));
      }
    } else {
      GatedAtStart(c, answers);
    }
  }

  lemma GatedAtStart(c: Config, answers: Call -> Reply)
    ensures Gated(c, answers, FetchJob)
  {
  }

  // The snapshot neither failed nor succeeded.
  ghost predicate Unfinished(answers: Call -> Reply) {
    && answers(GetJob).JobFound?
    && !IsStatusConditionTrue(answers(GetJob).status.conditions, Failed)
    && !IsStatusConditionTrue(answers(GetJob).status.conditions, Succeeded)
  }

  // The snapshot had not finished and the training job was not there.
  ghost predicate Unstarted(c: Config, answers: Call -> Reply) {
    && Unfinished(answers)
    && answers(GetBaseJob(c.spec.name, c.spec.jobType)).NotFound?
  }

  lemma MakeBaseJobPhase(c: Config, answers: Call -> Reply, clock: nat -> Time, n: nat)
    requires PhaseAfter(c, answers, clock, n).MakeBaseJob?
    ensures Unstarted(c, answers) && CheckpointReady(c, answers) && ModelSaveReady(c, answers)
    ensures DatasetReady(c, answers) && ModelPassed(c, answers)
    ensures CallOf(c, PhaseAfter(c, answers, clock, n))
            == Call.CreateBaseJob(BuildBaseJob(c.spec, FinalPod(c, answers)))
  {
    hide PhaseAfter, BuildBaseJob, FinalPod;
    GatedAlways(c, answers, clock, n);
    SoundAlways(c, answers, clock, n);
  }

  // The machine from the missing training job on, one reply at a time.

  lemma OneReply(c: Config, answers: Call -> Reply, clock: nat -> Time, n: nat)
    requires !PhaseAfter(c, answers, clock, n).Finished?
    ensures var p := PhaseAfter(c, answers, clock, n);
            PhaseAfter(c, answers, clock, n + 1) == Advance(c, p, answers(CallOf(c, p)), clock(n))
  {
  }

  lemma ReachNoBaseJob(c: Config, answers: Call -> Reply, clock: nat -> Time) returns (d: Draft)
    requires Unstarted(c, answers)
    ensures PhaseAfter(c, answers, clock, 2) == NoBaseJob(c, d)
    ensures d.cur == d.read == answers(GetJob).status && d.version == answers(GetJob).version
  {
    hide PhaseAfter, NoBaseJob;
    var r := answers(GetJob);
    d := Draft(r.version, r.status, r.status);
    PhaseZero(c, answers, clock);
    OneReply(c, answers, clock, 0);
    assert PhaseAfter(c, answers, clock, 1) == FetchBaseJob(d);
    OneReply(c, answers, clock, 1);
  }

  lemma PhaseZero(c: Config, answers: Call -> Reply, clock: nat -> Time)
    ensures PhaseAfter(c, answers, clock, 0) == FetchJob
  {
  }

  // Reads of the job's own claims.
  function OwnReads(s: Spec): nat {
    (if s.ckptPath != "" then 1 else 0) + (if WantsModelSave(s) then 1 else 0)
  }

  lemma ReachAfterModelSave(c: Config, answers: Call -> Reply, clock: nat -> Time) returns (d: Draft, n: nat)
    requires Unstarted(c, answers) && CheckpointReady(c, answers) && ModelSaveReady(c, answers)
    ensures n == 2 + OwnReads(c.spec) && PhaseAfter(c, answers, clock, n) == AfterModelSave(c, d, PodAfterModelSave(c))
    ensures d.cur == d.read == answers(GetJob).status && d.version == answers(GetJob).version
  {
    hide PhaseAfter, AfterModelSave, AddVolume;
    d := ReachNoBaseJob(c, answers, clock);
    n := 2;
    if c.spec.ckptPath != "" {
      OneReply(c, answers, clock, n);
      n := n + 1;
    }
    assert PhaseAfter(c, answers, clock, n) == AfterCheckpoint(c, d, PodAfterCheckpoint(c));
    if WantsModelSave(c.spec) {
      OneReply(c, answers, clock, n);
      n := n + 1;
    }
  }

  lemma ReachAfterDataset(c: Config, answers: Call -> Reply, clock: nat -> Time) returns (d: Draft, n: nat)
    requires Unstarted(c, answers) && CheckpointReady(c, answers) && ModelSaveReady(c, answers)
             && DatasetReady(c, answers)
    ensures n == 2 + OwnReads(c.spec) + (if WantsDataset(c.spec) then 2 else 0)
    ensures PhaseAfter(c, answers, clock, n) == AfterDataset(c, d, PodAfterDataset(c, answers))
    ensures d.cur == d.read == answers(GetJob).status && d.version == answers(GetJob).version
  {
    hide PhaseAfter, AfterDataset, AddVolume;
    d, n := ReachAfterModelSave(c, answers, clock);
    if WantsDataset(c.spec) {
      OneReply(c, answers, clock, n);
      OneReply(c, answers, clock, n + 1);
      n := n + 2;
    }
  }

  lemma ReachMakeBaseJob(c: Config, answers: Call -> Reply, clock: nat -> Time) returns (d: Draft, n: nat)
    requires Unstarted(c, answers) && CheckpointReady(c, answers) && ModelSaveReady(c, answers)
    requires DatasetReady(c, answers) && ModelPassed(c, answers)
    ensures n == 2 + OwnReads(c.spec) + (if WantsDataset(c.spec) then 2 else 0) + (if WantsModel(c.spec) then 2 else 0)
    ensures PhaseAfter(c, answers, clock, n) == MakeBaseJob(d, FinalPod(c, answers))
  {
    hide PhaseAfter, AddVolume, PodWithDataset;
    d, n := ReachAfterDataset(c, answers, clock);
    if WantsModel(c.spec) {
      OneReply(c, answers, clock, n);
      OneReply(c, answers, clock, n + 1);
      n := n + 2;
    }
  }

  /** Gating, both ways: a training job is requested in this call exactly when
      the job had not started, every requested claim was found bound, and every
      requested artifact was done with its claim found, where a failed lookup of
      the pretrained model's claim passes for a found one.  The request is
      always the one built from the claims found. */
  lemma CreatesBaseJobExactly(c: Config, answers: Call -> Reply, clock: nat -> Time)
    ensures (exists job :: Call.CreateBaseJob(job) in Calls(c, answers, clock))
            <==> Unstarted(c, answers) && CheckpointReady(c, answers) && ModelSaveReady(c, answers)
                 && DatasetReady(c, answers) && ModelPassed(c, answers)
    ensures forall job :: Call.CreateBaseJob(job) in Calls(c, answers, clock)
                          ==> job == BuildBaseJob(c.spec, FinalPod(c, answers))
  {
    hide PhaseAfter, Sent, BuildBaseJob, FinalPod, CheckpointReady, ModelSaveReady, DatasetReady, ModelPassed;
    forall job | Call.CreateBaseJob(job) in Calls(c, answers, clock)
      ensures Unstarted(c, answers) && CheckpointReady(c, answers) && ModelSaveReady(c, answers)
      ensures DatasetReady(c, answers) && ModelPassed(c, answers) && job == BuildBaseJob(c.spec, FinalPod(c, answers))
    {
      var k := SentFrom(c, answers, clock, 9, Call.CreateBaseJob(job));
      MakeBaseJobPhase(c, answers, clock, k);
    }
    if Unstarted(c, answers) && CheckpointReady(c, answers) && ModelSaveReady(c, answers)
       && DatasetReady(c, answers) && ModelPassed(c, answers) {
      var d, n := ReachMakeBaseJob(c, answers, clock);
      SentGrows(c, answers, clock, n, 9);
      assert Call.CreateBaseJob(BuildBaseJob(c.spec, FinalPod(c, answers))) in Calls(c, answers, clock);
    }
  }

  /** And nine calls are made: a job with its own claims, a dataset and a model. */
  lemma NineCallsHappen(clock: nat -> Time) returns (c: Config, answers: Call -> Reply)
    ensures |Calls(c, answers, clock)| == 9
  {
    hide PhaseAfter, Sent;
    c := Config(Spec("a", MPI, "/c", 1, "/s", 1, "/d", "d", "/m", "m", false, 1, 8), 3);
    answers := (call: Call) =>
      if call.GetJob? then JobFound(0, Status([], None, None))
      else if call.GetBaseJob? then NotFound
      else if call.GetClaim? then ClaimFound(true)
      else if call.GetDataset? || call.GetModel? then ArtifactFound("done", "p")
      else Accepted;
    assert Unstarted(c, answers) && CheckpointReady(c, answers) && ModelSaveReady(c, answers);
    assert DatasetReady(c, answers) && ModelPassed(c, answers);
    var _, n := ReachMakeBaseJob(c, answers, clock);
    NineCallsSuffice(c, answers, clock, n);
    OneMore(c, answers, clock, n);
  }

  // The lookup of the pretrained model's claim ended in an error other than
  // NotFound: the branch that falls through.
  ghost predicate ModelLookupFailed(c: Config, answers: Call -> Reply) {
    WantsModel(c.spec) &&
    var lookup := answers(GetClaim(ModelClaim, ClaimOf(answers(Call.GetModel(c.spec.pretrainModelName)))));
    !lookup.ClaimFound? && !lookup.NotFound?
  }

  // Every volume names a claim that some lookup found.
  ghost predicate NamesFoundClaims(p: Pod, answers: Call -> Reply) {
    forall v :: v in p.volumes ==> exists role :: answers(GetClaim(role, v.claim)).ClaimFound?
  }

  lemma AddFoundVolume(p: Pod, answers: Call -> Reply, role: Role, name: string, claim: string, path: string)
    requires NamesFoundClaims(p, answers) && answers(GetClaim(role, claim)).ClaimFound?
    ensures NamesFoundClaims(AddVolume(p, name, claim, path), answers)
  {
  }

  // All volumes but the pretrained model's.
  lemma DatasetPodFound(c: Config, answers: Call -> Reply)
    requires CheckpointReady(c, answers) && ModelSaveReady(c, answers) && DatasetReady(c, answers)
    ensures NamesFoundClaims(PodAfterDataset(c, answers), answers)
  {
    hide AddVolume, NamesFoundClaims;
    NothingNamed(answers);
    if c.spec.ckptPath != "" {
      AddFoundVolume(NO_VOLUMES, answers, Checkpoint, "ckpt", CheckpointClaimName(c.spec), c.spec.ckptPath);
    }
    var p := PodAfterCheckpoint(c);
    if WantsModelSave(c.spec) {
      AddFoundVolume(p, answers, ModelSave, "modelsave", ModelSaveClaimName(c.spec), c.spec.modelSavePath);
    }
    if WantsDataset(c.spec) {
      var claim := answers(Call.GetDataset(c.spec.datasetName)).claim;
      AddFoundVolume(PodAfterModelSave(c), answers, DatasetClaim, "dataset", claim, c.spec.datasetPath);
    }
  }

  lemma NothingNamed(answers: Call -> Reply)
    ensures NamesFoundClaims(NO_VOLUMES, answers)
  {
  }

  /** Since no claim has an empty name, every volume of a requested training job
      names a claim that was found, exactly when the lookup of the pretrained
      model's claim did not end in an error other than NotFound.  If it did, the
      last volume names none. */
  lemma MountsFoundClaimsExactly(c: Config, answers: Call -> Reply, clock: nat -> Time, job: BaseJobSpec)
    requires Call.CreateBaseJob(job) in Calls(c, answers, clock)
    ensures (forall role :: !answers(GetClaim(role, "")).ClaimFound?) ==>
              ((forall v :: v in job.pod.volumes ==> exists role :: answers(GetClaim(role, v.claim)).ClaimFound?)
               <==> !ModelLookupFailed(c, answers))
    ensures ModelLookupFailed(c, answers) ==>
              |job.pod.volumes| > 0 && job.pod.volumes[|job.pod.volumes| - 1] == Volume("pretrain-model", "")
  {
    hide PhaseAfter, Sent, CheckpointReady, ModelSaveReady, DatasetReady, PodWithDataset;
    CreatesBaseJobExactly(c, answers, clock);
    DatasetPodFound(c, answers);
    var p := PodAfterDataset(c, answers);
    if ModelLookupFailed(c, answers) {
      assert Volume("pretrain-model", "") in job.pod.volumes;
    } else if WantsModel(c.spec) {
      AddFoundVolume(p, answers, ModelClaim, "pretrain-model", ModelClaimMounted(c, answers), c.spec.pretrainModelPath);
    }
    assert job.pod.volumes == FinalPod(c, answers).volumes;
  }

  /** It does happen: one failed lookup, and the job is created with a volume
      that names no claim. */
  lemma LookupFailureMountsNothing(clock: nat -> Time) returns (c: Config, answers: Call -> Reply)
    ensures ModelLookupFailed(c, answers)
    ensures exists job ::
              Call.CreateBaseJob(job) in Calls(c, answers, clock) && Volume("pretrain-model", "") in job.pod.volumes
  {
    hide PhaseAfter, Sent;
    c := Config(Spec("a", MPI, "", 0, "", 0, "", "", "/m", "m", false, 1, 8), 3);
    answers := (call: Call) =>
      if call.GetJob? then JobFound(0, Status([], None, None))
      else if call.GetBaseJob? then NotFound
      else if call.GetModel? then ArtifactFound("done", "p")
      else Error;
    assert Unstarted(c, answers) && ModelLookupFailed(c, answers) && ModelPassed(c, answers);
    assert CheckpointReady(c, answers) && ModelSaveReady(c, answers) && DatasetReady(c, answers);
    CreatesBaseJobExactly(c, answers, clock);
  }

  // ------------------------------------------------------ mounts and volumes

  ghost predicate MountsHaveVolumes(p: Pod) {
    forall m :: m in p.mounts ==> exists v :: v in p.volumes && v.name == m.name
  }

  lemma BuiltMounts(c: Config, answers: Call -> Reply)
    ensures MountsHaveVolumes(BuildBaseJob(c.spec, FinalPod(c, answers)).pod)
            <==> !(c.spec.jobType.PyTorch? && c.spec.workerReplicas > 1)
  {
    hide FinalPod;
    var p := FinalPod(c, answers);
    VolumesMatchMounts(c, answers);
    forall m | m in p.mounts
      ensures exists v :: v in p.volumes && v.name == m.name
    {
      var i :| 0 <= i < |p.mounts| && p.mounts[i] == m;
      assert p.volumes[i].name == m.name;
    }
    var shm := Mount("shm", "/dev/shm");
    if c.spec.jobType.PyTorch? && c.spec.workerReplicas > 1 {
      assert shm in BuildBaseJob(c.spec, p).pod.mounts;
      assert forall v :: v in p.volumes ==> v.name != shm.name;
    }
  }

  /** Every mount of a training job that is created has a volume of that name,
      exactly when it is not a PyTorch job with more than one worker. */
  lemma MountsHaveVolumesExactly(c: Config, answers: Call -> Reply, clock: nat -> Time, job: BaseJobSpec)
    requires Call.CreateBaseJob(job) in Calls(c, answers, clock)
    ensures MountsHaveVolumes(job.pod) <==> !(job.jobType.PyTorch? && job.replicas > 1)
  {
    hide Calls, FinalPod, MountsHaveVolumes;
    CreatesBaseJobExactly(c, answers, clock);
    BuiltMounts(c, answers);
  }

  /** Such a job is created: two PyTorch workers and nothing else asked for. */
  lemma MountWithoutVolume(clock: nat -> Time) returns (c: Config, answers: Call -> Reply, job: BaseJobSpec)
    ensures Call.CreateBaseJob(job) in Calls(c, answers, clock)
    ensures Mount("shm", "/dev/shm") in job.pod.mounts && job.pod.volumes == []
  {
    hide PhaseAfter, Sent;
    c := Config(Spec("a", PyTorch, "", 0, "", 0, "", "", "", "", false, 2, 8), 3);
    answers := (call: Call) => if call.GetJob? then JobFound(0, Status([], None, None)) else NotFound;
    assert Unstarted(c, answers);
    CreatesBaseJobExactly(c, answers, clock);
    job :| Call.CreateBaseJob(job) in Calls(c, answers, clock);
  }

  // Volumes and mounts run in parallel, and none is called "shm".
  ghost predicate Matched(p: Pod) {
    && |p.volumes| == |p.mounts|
    && (forall i :: 0 <= i < |p.volumes| ==> p.volumes[i].name == p.mounts[i].name)
    && (forall i :: 0 <= i < |p.volumes| ==> |p.volumes[i].name| > 3)
  }

  lemma AddVolumeMatched(p: Pod, name: string, claim: string, path: string)
    requires Matched(p) && |name| > 3
    ensures Matched(AddVolume(p, name, claim, path))
  {
  }

  lemma VolumesMatchMounts(c: Config, answers: Call -> Reply)
    ensures Matched(FinalPod(c, answers))
  {
    hide AddVolume, WantsModelSave, WantsDataset, WantsModel, CheckpointClaimName, ModelSaveClaimName, ClaimOf;
    AddVolumeMatched(NO_VOLUMES, "ckpt", CheckpointClaimName(c.spec), c.spec.ckptPath);
    AddVolumeMatched(PodAfterCheckpoint(c), "modelsave", ModelSaveClaimName(c.spec), c.spec.modelSavePath);
    AddVolumeMatched(PodAfterModelSave(c), "dataset",
                     ClaimOf(answers(Call.GetDataset(c.spec.datasetName))), c.spec.datasetPath);
    AddVolumeMatched(PodAfterDataset(c, answers), "pretrain-model", ModelClaimMounted(c, answers),
                     c.spec.pretrainModelPath);
  }

  // ------------------------------------------------- when a reconcile is content

  ghost predicate UploadOver(c: Config, r: Reply) {
    r.UploadJobFound? && (r.succeeded == 1 || r.failed >= c.backoffLimit)
  }

  // Nothing is left to do for this job, and the replies say so.
  ghost predicate WorkOver(c: Config, answers: Call -> Reply) {
    answers(GetJob).JobFound? &&
    var s := answers(GetJob).status;
    var base := answers(GetBaseJob(c.spec.name, c.spec.jobType));
    var succeeded := IsStatusConditionTrue(s.conditions, Succeeded) || ReportsSucceeded(c.spec, base);
    || Terminal(c, s)
    || (&& (succeeded || ReportsFailed(c.spec, base))
        && (c.spec.uploadModel && c.spec.modelSavePath != "" && succeeded
            ==> UploadOver(c, answers(GetUploadJob(c.spec.name + "-upload")))))
  }

  // The API server accepted every status write this reconcile sent.
  ghost predicate WritesAccepted(c: Config, answers: Call -> Reply, clock: nat -> Time) {
    forall version, s :: Call.UpdateStatus(version, s) in Calls(c, answers, clock) ==>
                           answers(Call.UpdateStatus(version, s)).Accepted?
  }

  lemma ExitOutcome(c: Config, answers: Call -> Reply, clock: nat -> Time, n: nat, d: Draft, r: Result)
    requires n <= 8 && PhaseAfter(c, answers, clock, n) == Exit(d, r) && WritesAccepted(c, answers, clock)
    ensures Outcome(c, answers, clock) == r
  {
    hide PhaseAfter, Sent;
    if PhaseAfter(c, answers, clock, n).Finished? {
      FinishedStays(c, answers, clock, n, 9);
    } else {
      SentGrows(c, answers, clock, n, 9);
      OneReply(c, answers, clock, n);
      FinishedStays(c, answers, clock, n + 1, 9);
    }
  }

  // The creation of the training job never ends content.
  ghost predicate Discontent(p: Phase) {
    match p
    case FetchJob | FetchBaseJob(_) | FetchUpload(_) | MakeUpload(_) => false
    case StoreStatus(_, r) => r != QUIET
    case Finished(r) => r != QUIET
    case _ => true
  }

  lemma DiscontentStep(c: Config, p: Phase, r: Reply, now: Time)
    requires Discontent(p)
    ensures Discontent(Advance(c, p, r, now))
  {
    hide Edit, AddVolume, NeedReconcile, Observed;
  }

  lemma {:induction false} DiscontentStays(c: Config, answers: Call -> Reply, clock: nat -> Time, n: nat, m: nat)
    requires n <= m && Discontent(PhaseAfter(c, answers, clock, n))
    ensures Discontent(PhaseAfter(c, answers, clock, m))
  {
    hide Advance;
    if n < m {
      DiscontentStays(c, answers, clock, n, m - 1);
      var p := PhaseAfter(c, answers, clock, m - 1);
      if !p.Finished? {
        DiscontentStep(c, p, answers(CallOf(c, p)), clock(m - 1));
      }
    }
  }

  lemma UploadOutcome(c: Config, answers: Call -> Reply, clock: nat -> Time, n: nat, d: Draft)
    requires n <= 2 && PhaseAfter(c, answers, clock, n) == FetchUpload(d) && WritesAccepted(c, answers, clock)
    ensures Outcome(c, answers, clock) == QUIET <==> UploadOver(c, answers(GetUploadJob(UploadJobName(c.spec))))
  {
    hide PhaseAfter, Exit, Outcome, WritesAccepted, UploadDone, UploadGivenUp, Uploading, UploadJobName;
    var r := answers(GetUploadJob(UploadJobName(c.spec)));
    OneReply(c, answers, clock, n);
    var now := clock(n);
    if r.NotFound? {
      OneReply(c, answers, clock, n + 1);
      ExitOutcome(c, answers, clock, n + 2,
        if answers(CreateUploadJob(UploadJobName(c.spec), ModelSaveClaimName(c.spec))).Accepted?
        then d.(cur := Uploading(d.cur, clock(n + 1))) else d, FAILURE);
    } else if !r.UploadJobFound? {
      ExitOutcome(c, answers, clock, n + 1, d, FAILURE);
    } else if r.succeeded == 1 {
      ExitOutcome(c, answers, clock, n + 1, d.(cur := UploadDone(d.cur, now)), QUIET);
    } else if r.failed >= c.backoffLimit {
      ExitOutcome(c, answers, clock, n + 1, d.(cur := UploadGivenUp(d.cur, now)), QUIET);
    } else {
      ExitOutcome(c, answers, clock, n + 1, d.(cur := Uploading(d.cur, now)), FAILURE);
    }
  }

  lemma AfterBaseJobOutcome(c: Config, answers: Call -> Reply, clock: nat -> Time, n: nat, d: Draft)
    requires n <= 2 && PhaseAfter(c, answers, clock, n) == AfterBaseJob(c, d) && WritesAccepted(c, answers, clock)
    ensures Outcome(c, answers, clock) == QUIET
            <==> (IsSucceeded(d.cur.conditions) && WantsUpload(c.spec)
                  ==> UploadOver(c, answers(GetUploadJob(UploadJobName(c.spec)))))
  {
    hide PhaseAfter, Exit, Outcome, WritesAccepted, UploadOver;
    if IsSucceeded(d.cur.conditions) && WantsUpload(c.spec) {
      UploadOutcome(c, answers, clock, n, d);
    } else {
      ExitOutcome(c, answers, clock, n, d, QUIET);
    }
  }

  lemma BaseJobOutcome(c: Config, answers: Call -> Reply, clock: nat -> Time, d: Draft)
    requires PhaseAfter(c, answers, clock, 1) == FetchBaseJob(d) && WritesAccepted(c, answers, clock)
    requires !IsFinished(d.cur.conditions)
    ensures var base := Observed(c.spec, answers(GetBaseJob(c.spec.name, c.spec.jobType)));
            Outcome(c, answers, clock) == QUIET
            <==> base.Some? && !base.value.InProgress?
                 && (base.value.JobSucceeded? && WantsUpload(c.spec)
                     ==> UploadOver(c, answers(GetUploadJob(UploadJobName(c.spec)))))
  {
    hide PhaseAfter, Exit, WritesAccepted, UploadOver, Recorded, Observed, NoBaseJob, AfterBaseJob;
    var r := answers(GetBaseJob(c.spec.name, c.spec.jobType));
    var base := Observed(c.spec, r);
    OneReply(c, answers, clock, 1);
    if r.NotFound? {
      NoBaseJobDiscontent(c, d);
      DiscontentStays(c, answers, clock, 2, 9);
      if base.Some? {
        ObservedWasFound(c, r);
      }
    } else if base.None? {
      ExitOutcome(c, answers, clock, 2, d, FAILURE);
    } else {
      var e := d.(cur := Recorded(d.cur, base.value, clock(1)));
      RecordedFlags(d.cur, base.value, clock(1));
      if base.value.InProgress? {
        ExitOutcome(c, answers, clock, 2, e, FAILURE);
      } else {
        AfterBaseJobOutcome(c, answers, clock, 2, e);
      }
    }
  }

  lemma NoBaseJobDiscontent(c: Config, d: Draft)
    ensures Discontent(NoBaseJob(c, d))
  {
  }

  lemma ObservedWasFound(c: Config, r: Reply)
    requires Observed(c.spec, r).Some?
    ensures !r.NotFound?
  {
  }

  // A refused write becomes an error.
  lemma QuietWasAccepted(c: Config, answers: Call -> Reply, clock: nat -> Time)
    requires Outcome(c, answers, clock) == QUIET
    ensures WritesAccepted(c, answers, clock)
  {
    hide PhaseAfter, Sent;
    forall version, s | Call.UpdateStatus(version, s) in Calls(c, answers, clock)
      ensures answers(Call.UpdateStatus(version, s)).Accepted?
    {
      var k := SentFrom(c, answers, clock, 9, Call.UpdateStatus(version, s));
      OneReply(c, answers, clock, k);
      FinishedStays(c, answers, clock, k + 1, 9);
    }
  }

  lemma ContentWhenAccepted(c: Config, answers: Call -> Reply, clock: nat -> Time)
    requires WritesAccepted(c, answers, clock)
    ensures Outcome(c, answers, clock) == QUIET <==> WorkOver(c, answers)
  {
    hide PhaseAfter, WritesAccepted, UploadOver, Observed, Exit, ReportsFailed, ReportsSucceeded;
    ObservedSpelledOut(c.spec, answers(GetBaseJob(c.spec.name, c.spec.jobType)));
    PhaseZero(c, answers, clock);
    OneReply(c, answers, clock, 0);
    var r := answers(GetJob);
    if !r.JobFound? || Terminal(c, r.status) {
      FinishedStays(c, answers, clock, 1, 9);
    } else {
      var d := Draft(r.version, r.status, r.status);
      if IsFinished(r.status.conditions) {
        AfterBaseJobOutcome(c, answers, clock, 1, d);
      } else {
        BaseJobOutcome(c, answers, clock, d);
      }
    }
  }

  /** A reconcile asks for nothing more exactly when the job's work is over, that
      is its snapshot is terminal, or the training job has finished and, if the
      model is to be uploaded, so has the upload; and the API server accepted
      the status write, if one was sent. */
  lemma ContentExactly(c: Config, answers: Call -> Reply, clock: nat -> Time)
    ensures Outcome(c, answers, clock) == QUIET <==> WorkOver(c, answers) && WritesAccepted(c, answers, clock)
  {
    hide Outcome, WorkOver, WritesAccepted;
    if Outcome(c, answers, clock) == QUIET {
      QuietWasAccepted(c, answers, clock);
    }
    if WritesAccepted(c, answers, clock) {
      ContentWhenAccepted(c, answers, clock);
    }
  }
}
