/** Exactly which calls one reconcile makes, what it asks for in them, and how it
    ends, in the fields of the spec and of the replies alone
    (internal/controller/cpodjob_controller.go). */
module RequestedCalls {
  import opened Conditions
  import opened Cluster
  import opened ReconcileMachine
  import opened ReconcileLaws
  import opened ReconcileOutcomes
  import opened ReconcileFailures
  import opened ReconcileReads
  import opened Requirements
  import Sizing

  // --------------------------------------------------------- the training job

  // A claim mounted under a path, as one volume and one mount.
  datatype Mounted = Mounted(name: string, claim: string, path: string)

  // What the spec asks to be mounted, in order.
  function AskedFor(s: Spec, dataset: string, model: string): seq<Mounted> {
    (if s.ckptPath != "" then [Mounted("ckpt", s.name + "-ckpt", s.ckptPath)] else [])
    + (if s.modelSavePath != "" && s.modelSaveVolumeSize != 0
       then [Mounted("modelsave", s.name + "-modelsave-pvc", s.modelSavePath)] else [])
    + (if s.datasetPath != "" && s.datasetName != "" then [Mounted("dataset", dataset, s.datasetPath)] else [])
    + (if s.pretrainModelPath != "" && s.pretrainModelName != ""
       then [Mounted("pretrain-model", model, s.pretrainModelPath)] else [])
  }

  // The pod mounts exactly these, volume by volume and mount by mount, and the
  // extra mounts after them.
  ghost predicate MountsJust(p: Pod, ms: seq<Mounted>, extra: seq<Mount>) {
    && |p.volumes| == |ms| && |p.mounts| == |ms| + |extra|
    && (forall i :: 0 <= i < |ms| ==> p.volumes[i].name == ms[i].name && p.volumes[i].claim == ms[i].claim)
    && (forall i :: 0 <= i < |ms| ==> p.mounts[i].name == ms[i].name && p.mounts[i].path == ms[i].path)
    && (forall i :: 0 <= i < |extra| ==> p.mounts[|ms| + i] == extra[i])
  }

  // The claim a dataset's or a model's reply names.
  function NamedClaim(r: Reply): string {
    if r.ArtifactFound? then r.claim else ""
  }

  lemma AddMounts(p: Pod, ms: seq<Mounted>, name: string, claim: string, path: string)
    requires MountsJust(p, ms, [])
    ensures MountsJust(AddVolume(p, name, claim, path), ms + [Mounted(name, claim, path)], [])
  {
  }

  lemma PodMounts(c: Config, dataset: string, model: string)
    ensures MountsJust(PodWithModel(c, dataset, model), AskedFor(c.spec, dataset, model), [])
  {
    hide AddVolume, MountsJust;
    var s := c.spec;
    NothingMounted();
    var ms: seq<Mounted> := [];
    if s.ckptPath != "" {
      AddMounts(NO_VOLUMES, ms, "ckpt", s.name + "-ckpt", s.ckptPath);
      ms := ms + [Mounted("ckpt", s.name + "-ckpt", s.ckptPath)];
    }
    assert MountsJust(PodAfterCheckpoint(c), ms, []);
    if s.modelSavePath != "" && s.modelSaveVolumeSize != 0 {
      AddMounts(PodAfterCheckpoint(c), ms, "modelsave", s.name + "-modelsave-pvc", s.modelSavePath);
      ms := ms + [Mounted("modelsave", s.name + "-modelsave-pvc", s.modelSavePath)];
    }
    assert MountsJust(PodAfterModelSave(c), ms, []);
    if s.datasetPath != "" && s.datasetName != "" {
      AddMounts(PodAfterModelSave(c), ms, "dataset", dataset, s.datasetPath);
      ms := ms + [Mounted("dataset", dataset, s.datasetPath)];
    }
    assert MountsJust(PodWithDataset(c, dataset), ms, []);
    if s.pretrainModelPath != "" && s.pretrainModelName != "" {
      AddMounts(PodWithDataset(c, dataset), ms, "pretrain-model", model, s.pretrainModelPath);
      ms := ms + [Mounted("pretrain-model", model, s.pretrainModelPath)];
    }
    assert ms == AskedFor(s, dataset, model);
  }

  lemma NothingMounted()
    ensures MountsJust(NO_VOLUMES, [], [])
  {
  }

  /** Every training job that is requested, spelled out: its name, type, replicas
      and GPUs are the spec's (no replicas standing for one), and it mounts exactly
      the claims the spec asks for, each under its own path, and shared memory when
      it is a PyTorch job of several workers. */
  lemma RequestedJobSpelledOut(c: Config, answers: Call -> Reply, clock: nat -> Time, job: BaseJobSpec)
    requires Call.CreateBaseJob(job) in Calls(c, answers, clock)
    ensures job.name == c.spec.name && job.jobType == c.spec.jobType && job.gpus == c.spec.gpusPerReplica
    ensures job.replicas == if c.spec.workerReplicas == 0 then 1 else c.spec.workerReplicas
    ensures var dataset := NamedClaim(answers(Call.GetDataset(c.spec.datasetName)));
            var model := NamedClaim(answers(Call.GetModel(c.spec.pretrainModelName)));
            var found := answers(GetClaim(ModelClaim, model)).ClaimFound?;
            MountsJust(job.pod, AskedFor(c.spec, dataset, if found then model else ""),
                       if c.spec.jobType.PyTorch? && c.spec.workerReplicas > 1 then [Mount("shm", "/dev/shm")] else [])
  {
    hide Calls, PodWithModel, AskedFor;
    CreatesBaseJobExactly(c, answers, clock);
    var dataset := NamedClaim(answers(Call.GetDataset(c.spec.datasetName)));
    PodMounts(c, dataset, ModelClaimMounted(c, answers));
  }

  /** In particular each is mounted exactly when the spec asks for it. */
  lemma MountedExactly(c: Config, answers: Call -> Reply, clock: nat -> Time, job: BaseJobSpec)
    requires Call.CreateBaseJob(job) in Calls(c, answers, clock)
    ensures var s := c.spec;
            var dataset := NamedClaim(answers(Call.GetDataset(s.datasetName)));
            var model := NamedClaim(answers(Call.GetModel(s.pretrainModelName)));
            var mounted := if answers(GetClaim(ModelClaim, model)).ClaimFound? then model else "";
            && (Volume("ckpt", s.name + "-ckpt") in job.pod.volumes && Mount("ckpt", s.ckptPath) in job.pod.mounts
                <==> s.ckptPath != "")
            && (Volume("modelsave", s.name + "-modelsave-pvc") in job.pod.volumes
                && Mount("modelsave", s.modelSavePath) in job.pod.mounts
                <==> s.modelSavePath != "" && s.modelSaveVolumeSize != 0)
            && (Volume("dataset", dataset) in job.pod.volumes && Mount("dataset", s.datasetPath) in job.pod.mounts
                <==> s.datasetPath != "" && s.datasetName != "")
            && (Volume("pretrain-model", mounted) in job.pod.volumes
                && Mount("pretrain-model", s.pretrainModelPath) in job.pod.mounts
                <==> s.pretrainModelPath != "" && s.pretrainModelName != "")
  {
    hide Calls, MountsJust, AskedFor;
    RequestedJobSpelledOut(c, answers, clock, job);
    var s := c.spec;
    var dataset := NamedClaim(answers(Call.GetDataset(s.datasetName)));
    var model := NamedClaim(answers(Call.GetModel(s.pretrainModelName)));
    var mounted := if answers(GetClaim(ModelClaim, model)).ClaimFound? then model else "";
    var extra := if s.jobType.PyTorch? && s.workerReplicas > 1 then [Mount("shm", "/dev/shm")] else [];
    var ms := AskedFor(s, dataset, mounted);
    assert |"shm"| == 3;
    NameTells(s, dataset, mounted);
    MountedIf(job.pod, ms, extra, Mounted("ckpt", s.name + "-ckpt", s.ckptPath));
    MountedIf(job.pod, ms, extra, Mounted("modelsave", s.name + "-modelsave-pvc", s.modelSavePath));
    MountedIf(job.pod, ms, extra, Mounted("dataset", dataset, s.datasetPath));
    MountedIf(job.pod, ms, extra, Mounted("pretrain-model", mounted, s.pretrainModelPath));
  }

  // In a pod that mounts just these, something is mounted under a name exactly when
  // it is asked for under that name.
  lemma MountedIf(p: Pod, ms: seq<Mounted>, extra: seq<Mount>, m: Mounted)
    requires MountsJust(p, ms, extra) && (forall e :: e in extra ==> e.name == "shm") && |m.name| > 3
    requires m in ms || forall o :: o in ms ==> o.name != m.name
    ensures Volume(m.name, m.claim) in p.volumes && Mount(m.name, m.path) in p.mounts <==> m in ms
    ensures m !in ms ==> forall v :: v in p.volumes ==> v.name != m.name
    ensures m !in ms ==> forall v :: v in p.mounts ==> v.name != m.name
  {
    hide MountsJust;
    Membership(p, ms, extra);
  }

  // What is asked for, told by its name.
  lemma NameTells(s: Spec, dataset: string, model: string)
    ensures forall m :: m in AskedFor(s, dataset, model) && m.name == "ckpt" ==>
              m == Mounted("ckpt", s.name + "-ckpt", s.ckptPath)
    ensures forall m :: m in AskedFor(s, dataset, model) && m.name == "modelsave" ==>
              m == Mounted("modelsave", s.name + "-modelsave-pvc", s.modelSavePath)
    ensures forall m :: m in AskedFor(s, dataset, model) && m.name == "dataset" ==>
              m == Mounted("dataset", dataset, s.datasetPath)
    ensures forall m :: m in AskedFor(s, dataset, model) && m.name == "pretrain-model" ==>
              m == Mounted("pretrain-model", model, s.pretrainModelPath)
    ensures Mounted("ckpt", s.name + "-ckpt", s.ckptPath) in AskedFor(s, dataset, model) <==> s.ckptPath != ""
    ensures Mounted("modelsave", s.name + "-modelsave-pvc", s.modelSavePath) in AskedFor(s, dataset, model)
            <==> s.modelSavePath != "" && s.modelSaveVolumeSize != 0
    ensures Mounted("dataset", dataset, s.datasetPath) in AskedFor(s, dataset, model)
            <==> s.datasetPath != "" && s.datasetName != ""
    ensures Mounted("pretrain-model", model, s.pretrainModelPath) in AskedFor(s, dataset, model)
            <==> s.pretrainModelPath != "" && s.pretrainModelName != ""
  {
    hide AskedFor;
    AskedNames(s, dataset, model);
    assert |"ckpt"| == 4 && |"modelsave"| == 9 && |"dataset"| == 7 && |"pretrain-model"| == 14;
  }

  lemma Membership(p: Pod, ms: seq<Mounted>, extra: seq<Mount>)
    requires MountsJust(p, ms, extra)
    ensures forall v :: v in p.volumes <==> exists m :: m in ms && v == Volume(m.name, m.claim)
    ensures forall v :: v in p.mounts <==> v in extra || exists m :: m in ms && v == Mount(m.name, m.path)
  {
    forall m | m in ms
      ensures Volume(m.name, m.claim) in p.volumes && Mount(m.name, m.path) in p.mounts
    {
      var i :| 0 <= i < |ms| && ms[i] == m;
      assert p.volumes[i] == Volume(m.name, m.claim) && p.mounts[i] == Mount(m.name, m.path);
    }
    forall v | v in p.mounts
      ensures v in extra || exists m :: m in ms && v == Mount(m.name, m.path)
    {
      var i :| 0 <= i < |p.mounts| && p.mounts[i] == v;
      if i >= |ms| {
        assert p.mounts[|ms| + (i - |ms|)] == extra[i - |ms|];
      } else {
        assert ms[i] in ms;
      }
    }
    forall e | e in extra
      ensures e in p.mounts
    {
      var i :| 0 <= i < |extra| && extra[i] == e;
      assert p.mounts[|ms| + i] == e;
    }
    forall v | v in p.volumes
      ensures exists m :: m in ms && v == Volume(m.name, m.claim)
    {
      var i :| 0 <= i < |p.volumes| && p.volumes[i] == v;
      assert ms[i] in ms;
    }
  }

  lemma AskedNames(s: Spec, dataset: string, model: string)
    ensures forall m :: m in AskedFor(s, dataset, model) <==>
              || (m == Mounted("ckpt", s.name + "-ckpt", s.ckptPath) && s.ckptPath != "")
              || (&& m == Mounted("modelsave", s.name + "-modelsave-pvc", s.modelSavePath)
                  && s.modelSavePath != "" && s.modelSaveVolumeSize != 0)
              || (m == Mounted("dataset", dataset, s.datasetPath) && s.datasetPath != "" && s.datasetName != "")
              || (&& m == Mounted("pretrain-model", model, s.pretrainModelPath)
                  && s.pretrainModelPath != "" && s.pretrainModelName != "")
  {
  }

  // ------------------------------------------------------------ which calls

  ghost predicate Ready(c: Config, answers: Call -> Reply) {
    Unstarted(c, answers) && CheckpointReady(c, answers) && ModelSaveReady(c, answers)
  }

  // What a call must be to be made.
  ghost predicate Due(c: Config, answers: Call -> Reply, call: Call) {
    var s := c.spec;
    match call
    case GetJob => true
    case GetBaseJob(name, jobType) => name == s.name && jobType == s.jobType && Unfinished(answers)
    case GetClaim(Checkpoint, name) => name == s.name + "-ckpt" && s.ckptPath != "" && Unstarted(c, answers)
    case CreateClaim(Checkpoint, name, bytes) =>
      && name == s.name + "-ckpt" && bytes == Sizing.ClaimBytes(s.ckptVolumeSize) && s.ckptPath != ""
      && Unstarted(c, answers) && answers(GetClaim(Checkpoint, name)).NotFound?
    case GetClaim(ModelSave, name) =>
      && name == s.name + "-modelsave-pvc" && s.modelSavePath != "" && s.modelSaveVolumeSize != 0
      && Unstarted(c, answers) && CheckpointReady(c, answers)
    case CreateClaim(ModelSave, name, bytes) =>
      && name == s.name + "-modelsave-pvc" && bytes == Sizing.ClaimBytes(s.modelSaveVolumeSize)
      && s.modelSavePath != "" && s.modelSaveVolumeSize != 0
      && Unstarted(c, answers) && CheckpointReady(c, answers) && answers(GetClaim(ModelSave, name)).NotFound?
    case CreateClaim(_, _, _) => false
    case GetDataset(name) => name == s.datasetName && s.datasetPath != "" && s.datasetName != "" && Ready(c, answers)
    case GetClaim(DatasetClaim, name) =>
      && s.datasetPath != "" && s.datasetName != "" && Ready(c, answers)
      && answers(Call.GetDataset(s.datasetName)) == ArtifactFound("done", name)
    case GetModel(name) =>
      && name == s.pretrainModelName && s.pretrainModelPath != "" && s.pretrainModelName != ""
      && Ready(c, answers) && DatasetReady(c, answers)
    case GetClaim(ModelClaim, name) =>
      && s.pretrainModelPath != "" && s.pretrainModelName != "" && Ready(c, answers) && DatasetReady(c, answers)
      && answers(Call.GetModel(s.pretrainModelName)) == ArtifactFound("done", name)
    case CreateBaseJob(job) => Ready(c, answers) && DatasetReady(c, answers) && ModelPassed(c, answers)
    case GetUploadJob(name) => name == s.name + "-upload" && UploadDue(c, answers)
    case CreateUploadJob(name, claim) =>
      && name == s.name + "-upload" && claim == s.name + "-modelsave-pvc"
      && UploadDue(c, answers) && answers(GetUploadJob(name)).NotFound?
    case UpdateStatus(version, _) => answers(GetJob).JobFound? && version == answers(GetJob).version
  }

  lemma PhaseIsDue(c: Config, answers: Call -> Reply, p: Phase)
    requires !p.Finished? && Sound(c, p) && Tracks(answers, p) && Gated(c, answers, p) && UploadCaused(c, answers, p)
    requires !p.FetchModelSave? && !p.MakeModelSave? && !p.MakeBaseJob?
    requires p.FetchBaseJob? || HasBase(p) ==> Unfinished(answers)
    ensures Due(c, answers, CallOf(c, p))
  {
    hide UploadDue, BuildBaseJob, PodAfterModelSave, PodAfterDataset, FinalPod, Terminal, RecordsUpload, Sound;
    hide Sizing.ClaimBytes, CheckpointReady, ModelSaveReady, DatasetReady, ModelPassed;
  }

  // A phase of the creation of the training job.
  predicate HasBase(p: Phase) {
    !p.FetchJob? && !p.FetchBaseJob? && !p.FetchUpload? && !p.MakeUpload? && !p.StoreStatus? && !p.Finished?
  }

  lemma SavesAreDue(c: Config, answers: Call -> Reply, p: Phase)
    requires p.FetchModelSave? || p.MakeModelSave? || p.MakeBaseJob?
    requires Gated(c, answers, p) && Unfinished(answers)
    ensures Due(c, answers, CallOf(c, p))
  {
    hide BuildBaseJob, FinalPod, Sizing.ClaimBytes, DatasetReady, ModelPassed;
  }

  lemma UnfinishedAt(c: Config, answers: Call -> Reply, p: Phase)
    requires Sound(c, p) && Tracks(answers, p) && (p.FetchBaseJob? || HasBase(p))
    ensures Unfinished(answers)
  {
  }

  lemma SentIsDue(c: Config, answers: Call -> Reply, clock: nat -> Time, call: Call)
    requires call in Calls(c, answers, clock)
    ensures Due(c, answers, call)
  {
    hide PhaseAfter, Sent, Due, Sound, Tracks, Gated, UploadCaused, CallOf;
    var k := SentFrom(c, answers, clock, 9, call);
    var p := PhaseAfter(c, answers, clock, k);
    SoundAlways(c, answers, clock, k);
    GatedAlways(c, answers, clock, k);
    UploadCausedAlways(c, answers, clock, k);
    if p.FetchBaseJob? || HasBase(p) {
      UnfinishedAt(c, answers, p);
    }
    if p.FetchModelSave? || p.MakeModelSave? || p.MakeBaseJob? {
      SavesAreDue(c, answers, p);
    } else {
      PhaseIsDue(c, answers, p);
    }
  }

  lemma ReachBaseJob(c: Config, answers: Call -> Reply, clock: nat -> Time)
    requires Unfinished(answers)
    ensures GetBaseJob(c.spec.name, c.spec.jobType) in Calls(c, answers, clock)
  {
    hide PhaseAfter, Sent;
    PhaseZero(c, answers, clock);
    OneReply(c, answers, clock, 0);
    SentGrows(c, answers, clock, 1, 9);
  }

  lemma ReachMakeClaims(c: Config, answers: Call -> Reply, clock: nat -> Time, call: Call)
    requires call.CreateClaim? && Due(c, answers, call)
    ensures call in Calls(c, answers, clock)
  {
    hide PhaseAfter, Sent, AddVolume, Sizing.ClaimBytes;
    var d := ReachNoBaseJob(c, answers, clock);
    var n := 2;
    if c.spec.ckptPath != "" {
      OneReply(c, answers, clock, 2);
      n := 3;
    }
    if call.role.ModelSave? {
      OneReply(c, answers, clock, n);
      n := n + 1;
    }
    SentGrows(c, answers, clock, n, 9);
  }

  lemma ReachDataset(c: Config, answers: Call -> Reply, clock: nat -> Time)
    requires Due(c, answers, Call.GetDataset(c.spec.datasetName))
    ensures Call.GetDataset(c.spec.datasetName) in Calls(c, answers, clock)
  {
    hide PhaseAfter, Sent;
    var _, n := ReachAfterModelSave(c, answers, clock);
    SentGrows(c, answers, clock, n, 9);
  }

  lemma ReachModel(c: Config, answers: Call -> Reply, clock: nat -> Time)
    requires Due(c, answers, Call.GetModel(c.spec.pretrainModelName))
    ensures Call.GetModel(c.spec.pretrainModelName) in Calls(c, answers, clock)
  {
    hide PhaseAfter, Sent, PodWithDataset;
    var _, n := ReachAfterDataset(c, answers, clock);
    SentGrows(c, answers, clock, n, 9);
  }

  lemma ReachUploadCalls(c: Config, answers: Call -> Reply, clock: nat -> Time)
    requires UploadDue(c, answers)
    ensures GetUploadJob(c.spec.name + "-upload") in Calls(c, answers, clock)
    ensures answers(GetUploadJob(c.spec.name + "-upload")).NotFound? ==>
              CreateUploadJob(c.spec.name + "-upload", c.spec.name + "-modelsave-pvc") in Calls(c, answers, clock)
  {
    hide PhaseAfter, Sent, UploadDue, UploadDone, UploadGivenUp, Uploading;
    var d, n := ReachUpload(c, answers, clock);
    SentGrows(c, answers, clock, n, 9);
    OneReply(c, answers, clock, n);
    if answers(GetUploadJob(c.spec.name + "-upload")).NotFound? {
      SentGrows(c, answers, clock, n + 1, 9);
    }
  }

  /** Which calls a reconcile makes, exactly: a call, a status write and the
      training job's creation aside, is made if and only if it is due; those two
      only if they are. */
  lemma CallsExactly(c: Config, answers: Call -> Reply, clock: nat -> Time, call: Call)
    ensures call in Calls(c, answers, clock) ==> Due(c, answers, call)
    ensures !call.UpdateStatus? && !call.CreateBaseJob? && Due(c, answers, call) ==> call in Calls(c, answers, clock)
    ensures call.CreateBaseJob? && Due(c, answers, call) ==>
              exists job :: Call.CreateBaseJob(job) in Calls(c, answers, clock)
  {
    hide Calls, Sent, PhaseAfter, CheckpointReady, ModelSaveReady, DatasetReady, ModelPassed, Unstarted, UploadDue;
    if call in Calls(c, answers, clock) {
      SentIsDue(c, answers, clock, call);
    }
    if Due(c, answers, call) {
      match call
      case GetJob => JobIsRead(c, answers, clock);
      case GetBaseJob(_, _) => ReachBaseJob(c, answers, clock);
      case CreateClaim(_, _, _) => ReachMakeClaims(c, answers, clock, call);
      case GetClaim(role, name) => ReachClaims(c, answers, clock, call);
      case GetDataset(_) => ReachDataset(c, answers, clock);
      case GetModel(_) => ReachModel(c, answers, clock);
      case CreateBaseJob(_) => CreatesBaseJobExactly(c, answers, clock);
      case GetUploadJob(_) => ReachUploadCalls(c, answers, clock);
      case CreateUploadJob(_, _) => ReachUploadCalls(c, answers, clock);
      case UpdateStatus(_, _) =>
    }
  }

  lemma JobIsRead(c: Config, answers: Call -> Reply, clock: nat -> Time)
    ensures GetJob in Calls(c, answers, clock)
  {
    hide PhaseAfter, Sent;
    PhaseZero(c, answers, clock);
    SentGrows(c, answers, clock, 0, 9);
  }

  lemma ReachClaims(c: Config, answers: Call -> Reply, clock: nat -> Time, call: Call)
    requires call.GetClaim? && Due(c, answers, call)
    ensures call in Calls(c, answers, clock)
  {
    hide Calls, CheckpointReady, ModelSaveReady, DatasetReady, Unstarted;
    match call.role
    case Checkpoint => CheckpointIsRead(c, answers, clock);
    case ModelSave => ReadsOwnClaims(c, answers, clock);
    case DatasetClaim => ReadsDatasetClaimThen(c, answers, clock);
    case ModelClaim => ReadsModelClaimThen(c, answers, clock);
  }

  lemma CheckpointIsRead(c: Config, answers: Call -> Reply, clock: nat -> Time)
    requires Unstarted(c, answers) && c.spec.ckptPath != ""
    ensures GetClaim(Checkpoint, c.spec.name + "-ckpt") in Calls(c, answers, clock)
  {
    hide PhaseAfter, Sent;
    var d := ReachNoBaseJob(c, answers, clock);
    SentGrows(c, answers, clock, 2, 9);
  }

  // -------------------------------------------------------------- how it ends

  // The creation of the training job went through, or it was there already.
  ghost predicate Created(c: Config, answers: Call -> Reply) {
    && Ready(c, answers) && DatasetReady(c, answers) && ModelPassed(c, answers)
    && var r := answers(Call.CreateBaseJob(BuildBaseJob(c.spec, FinalPod(c, answers))));
       r.Accepted? || r.AlreadyExists?
  }

  ghost predicate EndCaused(c: Config, answers: Call -> Reply, p: Phase) {
    match p
    case StoreStatus(_, r) => r.Return? && r.requeue ==> r == RETRY && ArtifactMissing(c, answers)
    case Finished(r) => r.Return? && r.requeue ==> Created(c, answers) || ArtifactMissing(c, answers)
    case _ => true
  }

  lemma EndCausedStep(c: Config, answers: Call -> Reply, p: Phase, now: Time)
    requires !p.Finished? && Sound(c, p) && Tracks(answers, p) && Gated(c, answers, p) && EndCaused(c, answers, p)
    ensures EndCaused(c, answers, Advance(c, p, answers(CallOf(c, p)), now))
  {
    hide EndCaused, Advance, CallOf, Sound, Gated, Tracks;
    if AtArtifact(p) {
      EndByArtifact(c, answers, p, now);
    } else if p.MakeBaseJob? {
      EndByCreation(c, answers, p, now);
    } else {
      EndElsewhere(c, answers, p, now);
    }
  }

  lemma EndByArtifact(c: Config, answers: Call -> Reply, p: Phase, now: Time)
    requires AtArtifact(p) && Sound(c, p) && Tracks(answers, p) && Gated(c, answers, p)
    ensures EndCaused(c, answers, Advance(c, p, answers(CallOf(c, p)), now))
  {
    hide Edit, AddVolume, Created, CheckpointReady, ModelSaveReady, PodAfterModelSave, PodAfterDataset;
    MissingAnyReason(p.d, now);
  }

  lemma EndByCreation(c: Config, answers: Call -> Reply, p: Phase, now: Time)
    requires p.MakeBaseJob? && Sound(c, p) && Tracks(answers, p) && Gated(c, answers, p)
    ensures EndCaused(c, answers, Advance(c, p, answers(CallOf(c, p)), now))
  {
    hide BuildBaseJob, FinalPod, CheckpointReady, ModelSaveReady, DatasetReady, ModelPassed, ArtifactMissing;
  }

  lemma EndElsewhere(c: Config, answers: Call -> Reply, p: Phase, now: Time)
    requires !p.Finished? && !AtArtifact(p) && !p.MakeBaseJob? && EndCaused(c, answers, p)
    ensures EndCaused(c, answers, Advance(c, p, answers(CallOf(c, p)), now))
  {
    hide UploadDone, UploadGivenUp, Uploading, Recorded, AddVolume, Observed, Created, ArtifactMissing, CallOf;
    hide NeedReconcile, IsFinished, IsSucceeded;
  }

  lemma {:induction false} EndCausedAlways(c: Config, answers: Call -> Reply, clock: nat -> Time, n: nat)
    ensures EndCaused(c, answers, PhaseAfter(c, answers, clock, n))
  {
    hide Advance, Sound, Tracks, Gated, Created, ArtifactMissing;
    if n > 0 {
      EndCausedAlways(c, answers, clock, n - 1);
      var p := PhaseAfter(c, answers, clock, n - 1);
      if !p.Finished? {
        SoundAlways(c, answers, clock, n - 1);
        GatedAlways(c, answers, clock, n - 1);
        EndCausedStep(c, answers, p, clock(n - 1));
      }
    }
  }

  // The last call a reconcile makes.
  lemma {:induction false} LastCall(c: Config, answers: Call -> Reply, clock: nat -> Time, n: nat) returns (k: nat)
    requires PhaseAfter(c, answers, clock, n).Finished?
    ensures k < n && !PhaseAfter(c, answers, clock, k).Finished?
    ensures PhaseAfter(c, answers, clock, k + 1) == PhaseAfter(c, answers, clock, n)
  {
    hide Advance, CallOf;
    if PhaseAfter(c, answers, clock, n - 1).Finished? {
      k := LastCall(c, answers, clock, n - 1);
    } else {
      k := n - 1;
    }
  }

  // Only a refused write turns a call for another round into an error.
  lemma RetryErrs(c: Config, p: Phase, r: Reply, now: Time)
    requires Advance(c, p, r, now) == Finished(Return(true, true)) && !p.Finished?
    requires p.StoreStatus? && p.result.Return? && p.result.requeue ==> p.result == RETRY
    ensures p.StoreStatus? && !r.Accepted?
  {
    hide UploadDone, UploadGivenUp, Uploading, Recorded, AddVolume, Observed, NeedReconcile, IsFinished, IsSucceeded;
    hide Edit;
  }

  lemma CreatedIsRetried(c: Config, answers: Call -> Reply, clock: nat -> Time)
    requires Created(c, answers)
    ensures Outcome(c, answers, clock) == RETRY
  {
    hide PhaseAfter, FinalPod, BuildBaseJob, CheckpointReady, ModelSaveReady, DatasetReady, ModelPassed;
    var d, n := ReachMakeBaseJob(c, answers, clock);
    SoundAlways(c, answers, clock, n);
    OneReply(c, answers, clock, n);
    FinishedStays(c, answers, clock, n + 1, 9);
  }

  lemma RetryErrsExactly(c: Config, answers: Call -> Reply, clock: nat -> Time)
    requires Outcome(c, answers, clock).Return? && Outcome(c, answers, clock).requeue
    ensures Outcome(c, answers, clock).err <==> !WritesAccepted(c, answers, clock)
  {
    hide PhaseAfter, Sent, Advance, CallOf;
    var k := LastCall(c, answers, clock, 9);
    var p := PhaseAfter(c, answers, clock, k);
    OneReply(c, answers, clock, k);
    SentGrows(c, answers, clock, k, 9);
    EndCausedAlways(c, answers, clock, k);
    if Outcome(c, answers, clock).err {
      RetryErrs(c, p, answers(CallOf(c, p)), clock(k));
      StoreCall(c, p);
    } else {
      EndedWell(c, answers, clock);
    }
  }

  lemma StoreCall(c: Config, p: Phase)
    requires p.StoreStatus?
    ensures CallOf(c, p) == Call.UpdateStatus(p.d.version, p.d.cur)
  {
  }

  lemma EndedWell(c: Config, answers: Call -> Reply, clock: nat -> Time)
    requires Outcome(c, answers, clock).Return? && !Outcome(c, answers, clock).err
    ensures WritesAccepted(c, answers, clock)
  {
    hide PhaseAfter, Sent;
    forall version, s | Call.UpdateStatus(version, s) in Calls(c, answers, clock)
      ensures answers(Call.UpdateStatus(version, s)).Accepted?
    {
      var k := SentFrom(c, answers, clock, 9, Call.UpdateStatus(version, s));
      OneReply(c, answers, clock, k);
      FinishedStays(c, answers, clock, k + 1, 9);
    }
  }

  /** How a reconcile ends, exactly.  Unless it panics, it asks for another round
      if and only if the creation of the training job went through, or found it
      there, or an artifact is missing; asking so it errs if and only if a status
      write was refused.  Not asking so it errs unless the work is over and the
      write, if one was sent, was accepted. */
  lemma EndsExactly(c: Config, answers: Call -> Reply, clock: nat -> Time)
    ensures var r := Outcome(c, answers, clock);
            r.Return? ==>
              && (r.requeue <==> Created(c, answers) || ArtifactMissing(c, answers))
              && (r.requeue ==> (r.err <==> !WritesAccepted(c, answers, clock)))
              && (!r.requeue ==> (r.err <==> !(WorkOver(c, answers) && WritesAccepted(c, answers, clock))))
  {
    hide PhaseAfter, Created, ArtifactMissing, WorkOver, WritesAccepted;
    EndCausedAlways(c, answers, clock, 9);
    ContentExactly(c, answers, clock);
    if Created(c, answers) {
      CreatedIsRetried(c, answers, clock);
    }
    if ArtifactMissing(c, answers) {
      MissingIsRetried(c, answers, clock);
    }
    if Outcome(c, answers, clock).Return? && Outcome(c, answers, clock).requeue {
      RetryErrsExactly(c, answers, clock);
    }
  }

  lemma MissingIsRetried(c: Config, answers: Call -> Reply, clock: nat -> Time)
    requires ArtifactMissing(c, answers)
    ensures Outcome(c, answers, clock).Return? && Outcome(c, answers, clock).requeue
  {
    hide Calls, DatasetText, ModelText;
    MissingArtifactFailsJob(c, answers, clock);
  }
}
