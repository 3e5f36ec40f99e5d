/** From the portal to the cluster: what becomes of a portal job, in its own fields,
    through the synchroniser (internal/synchronizer/syncjob.go) and the reconciler
    (internal/controller/cpodjob_controller.go). */
module PortalRequests {
  import opened Wrappers
  import opened Conditions
  import opened Cluster
  import FailureBuffer
  import SyncPass
  import ReconcileMachine
  import ReconcileLaws
  import ReconcileOutcomes
  import RequestedCalls
  import Sizing

  // ---------------------------------------------------------------- job types

  // The type is spelled "mpi", or "pytorch", in letters of either case.
  predicate SpellsMpi(t: string) {
    && |t| == 3 && t[0] in {'m', 'M'} && t[1] in {'p', 'P'}
    && t[2] in {'i', 'I', '\U{0130}'}
  }

  predicate SpellsPyTorch(t: string) {
    && |t| == 7 && t[0] in {'p', 'P'} && t[1] in {'y', 'Y'} && t[2] in {'t', 'T'} && t[3] in {'o', 'O'}
    && t[4] in {'r', 'R'} && t[5] in {'c', 'C'} && t[6] in {'h', 'H'}
  }

  /** Lower case, letter by letter. */
  lemma LowerAlphabet()
    ensures FailureBuffer.Lower("ABCDEFGHIJKLMNOPQRSTUVWXYZ") == "abcdefghijklmnopqrstuvwxyz"
    ensures FailureBuffer.Lower("abcdefghijklmnopqrstuvwxyz") == "abcdefghijklmnopqrstuvwxyz"
  {
  }

  lemma LowerSpells(t: string)
    ensures FailureBuffer.Lower(t) == "mpi" <==> SpellsMpi(t)
    ensures FailureBuffer.Lower(t) == "pytorch" <==> SpellsPyTorch(t)
  {
    var l := FailureBuffer.Lower(t);
    if |t| == 3 {
      assert l == [l[0], l[1], l[2]];
    }
    if |t| == 7 {
      assert l == [l[0], l[1], l[2], l[3], l[4], l[5], l[6]];
    }
  }

  lemma TypeSpelledOut(t: string)
    ensures var r := FailureBuffer.JobTypeCheck(t);
            && (r == Some(MPI) <==> SpellsMpi(t))
            && (r == Some(PyTorch) <==> SpellsPyTorch(t))
            && (r == None <==> !SpellsMpi(t) && !SpellsPyTorch(t))
  {
    hide FailureBuffer.Lower, SpellsMpi, SpellsPyTorch;
    LowerSpells(t);
    assert |"mpi"| != |"pytorch"|;
  }

  /** What one turn of the create loop makes of a portal job: of any type but these
      two nothing is requested and the job is remembered as failed; of these two,
      when the name is free and the request goes through, the CPodJob is of that
      type. */
  lemma TypeDecides(st: SyncPass.State, j: FailureBuffer.PortalJob, fates: SyncPass.Fates)
    ensures var t := SyncPass.TryCreate(st, j, fates);
            !SpellsMpi(j.jobType) && !SpellsPyTorch(j.jobType) ==>
              && t.jobs == st.jobs && t.calls == st.calls && j.name in t.buffer
              && t.buffer == if j.name in st.buffer then st.buffer else st.buffer[j.name := j]
    ensures var t := SyncPass.TryCreate(st, j, fates);
            SpellsMpi(j.jobType) || SpellsPyTorch(j.jobType) ==>
              && t.calls == st.calls + 1
              && (j.name !in st.jobs && fates(st.calls).Delivered? ==>
                    && j.name in t.jobs && j.name !in t.buffer
                    && (t.jobs[j.name].spec.jobType.MPI? <==> SpellsMpi(j.jobType))
                    && (t.jobs[j.name].spec.jobType.PyTorch? <==> SpellsPyTorch(j.jobType)))
  {
    hide SpellsMpi, SpellsPyTorch, FailureBuffer.JobTypeCheck;
    TypeSpelledOut(j.jobType);
  }

  // ------------------------------------------------------------ the created job

  /** The CPodJob made of a portal job, field by field; its model is always to be
      uploaded.  A request below eight GPUs is one worker of that many, from eight
      on workers of eight; none asked for is one worker of eight. */
  lemma CreatedJobSpelledOut(j: FailureBuffer.PortalJob)
    requires FailureBuffer.HasKnownType(j)
    ensures var it := FailureBuffer.NewItem(j);
            var s := it.spec;
            && it.name == s.name == j.name && it.conditions == [] && s.uploadModel
            && (s.jobType.MPI? <==> SpellsMpi(j.jobType)) && (s.jobType.PyTorch? <==> SpellsPyTorch(j.jobType))
            && s.ckptPath == j.ckptPath && s.modelSavePath == j.modelPath
            && s.datasetPath == j.datasetPath && s.datasetName == j.datasetName
            && s.pretrainModelPath == j.pretrainModelPath && s.pretrainModelName == j.pretrainModelName
            && (-0x8000_0000 <= j.ckptVol < 0x8000_0000 ==> s.ckptVolumeSize == j.ckptVol)
            && (-0x8000_0000 <= j.modelVol < 0x8000_0000 ==> s.modelSaveVolumeSize == j.modelVol)
            && (j.gpuNumber == 0 ==> s.workerReplicas == 1 && s.gpusPerReplica == 8)
            && (1 <= j.gpuNumber < 8 ==> s.workerReplicas == 1 && s.gpusPerReplica == j.gpuNumber)
            && (8 <= j.gpuNumber < 0x8000_0000 ==> s.workerReplicas == j.gpuNumber / 8 && s.gpusPerReplica == 8)
  {
    hide FailureBuffer.JobTypeCheck, SpellsMpi, SpellsPyTorch;
    TypeSpelledOut(j.jobType);
    if -0x8000_0000 <= j.ckptVol < 0x8000_0000 {
      Sizing.Int32Small(j.ckptVol);
    }
    if -0x8000_0000 <= j.modelVol < 0x8000_0000 {
      Sizing.Int32Small(j.modelVol);
    }
    if 0 <= j.gpuNumber < 0x8000_0000 {
      Sizing.Int32Small(j.gpuNumber);
    }
  }

  // ------------------------------------------------- from the portal to the cluster

  // The job the synchroniser builds from a portal job, as the reconciler gets it.
  function ConfigOf(j: FailureBuffer.PortalJob, limit: int): Config
    requires FailureBuffer.HasKnownType(j)
  {
    Config(FailureBuffer.NewItem(j).spec, limit)
  }

  lemma CreatedClaim(c: Config, answers: Call -> Reply, clock: nat -> Time, role: Role, name: string, bytes: int)
    requires CreateClaim(role, name, bytes) in ReconcileOutcomes.Calls(c, answers, clock)
    ensures role.Checkpoint? || role.ModelSave?
    ensures if role.Checkpoint?
            then name == CheckpointClaimName(c.spec) && bytes == Sizing.ClaimBytes(c.spec.ckptVolumeSize)
            else name == ModelSaveClaimName(c.spec) && bytes == Sizing.ClaimBytes(c.spec.modelSaveVolumeSize)
  {
    hide ReconcileMachine.PhaseAfter, ReconcileMachine.Sent, Sizing.ClaimBytes;
    var k := ReconcileOutcomes.SentFrom(c, answers, clock, 9, CreateClaim(role, name, bytes));
  }

  /** Volumes, end to end: whatever the replies, a claim created for a portal job
      asks for the portal's size in MiB exactly when that size is between -2048 and
      2047. */
  lemma PortalVolumesExactly(j: FailureBuffer.PortalJob, limit: int, answers: Call -> Reply, clock: nat -> Time,
                             role: Role, name: string, bytes: int)
    requires FailureBuffer.HasKnownType(j)
    requires CreateClaim(role, name, bytes) in ReconcileOutcomes.Calls(ConfigOf(j, limit), answers, clock)
    ensures role.Checkpoint? || role.ModelSave?
    ensures name == j.name + if role.Checkpoint? then "-ckpt" else "-modelsave-pvc"
    ensures var size := if role.Checkpoint? then j.ckptVol else j.modelVol;
            bytes == size * 0x10_0000 <==> -2048 <= size <= 2047
  {
    hide ReconcileOutcomes.Calls, Sizing.ClaimBytes;
    CreatedClaim(ConfigOf(j, limit), answers, clock, role, name, bytes);
    Sizing.RequestedBytesExactly(j.ckptVol);
    Sizing.RequestedBytesExactly(j.modelVol);
  }

  /** GPUs, end to end: whatever the replies, a training job created for a portal
      job never gets more GPUs than asked for and is never short by eight or more,
      exactly when the request fits an int32 and is not zero, which stands for
      eight; it is an MPI job, or a PyTorch job, exactly when the portal says so. */
  lemma PortalGpusExactly(j: FailureBuffer.PortalJob, limit: int, answers: Call -> Reply, clock: nat -> Time,
                          job: BaseJobSpec)
    requires FailureBuffer.HasKnownType(j)
    requires Call.CreateBaseJob(job) in ReconcileOutcomes.Calls(ConfigOf(j, limit), answers, clock)
    ensures job.name == j.name
    ensures (job.jobType.MPI? <==> SpellsMpi(j.jobType)) && (job.jobType.PyTorch? <==> SpellsPyTorch(j.jobType))
    ensures 0 <= j.gpuNumber - job.replicas * job.gpus < 8
            <==> -0x8000_0000 <= j.gpuNumber < 0x8000_0000 && j.gpuNumber != 0
    ensures 1 <= j.gpuNumber < 8 ==> job.replicas == 1 && job.gpus == j.gpuNumber
    ensures 8 <= j.gpuNumber < 0x8000_0000 ==> job.replicas == j.gpuNumber / 8 && job.gpus == 8
  {
    hide ReconcileOutcomes.Calls, ReconcileLaws.FinalPod, FailureBuffer.JobTypeCheck, SpellsMpi, SpellsPyTorch;
    hide Sizing.WorkerReplicas, Sizing.GpusPerWorker, Sizing.Workers, Sizing.Defaulted;
    ReconcileOutcomes.CreatesBaseJobExactly(ConfigOf(j, limit), answers, clock);
    assert job.replicas * job.gpus == Sizing.GrantedGpus(j.gpuNumber);
    Sizing.GrantedGpusCloseExactly(j.gpuNumber);
    CreatedJobSpelledOut(j);
    RequestedCalls.RequestedJobSpelledOut(ConfigOf(j, limit), answers, clock, job);
  }

  /** Artifacts and the upload, end to end: only those the portal job names, under
      a path it gives, are ever looked up or requested. */
  lemma PortalArtifactsAsked(j: FailureBuffer.PortalJob, limit: int, answers: Call -> Reply, clock: nat -> Time,
                             call: Call)
    requires FailureBuffer.HasKnownType(j)
    requires call in ReconcileOutcomes.Calls(ConfigOf(j, limit), answers, clock)
    ensures call.GetDataset? ==> call.name == j.datasetName && j.datasetName != "" && j.datasetPath != ""
    ensures call.GetModel? ==>
              call.name == j.pretrainModelName && j.pretrainModelName != "" && j.pretrainModelPath != ""
    ensures call.CreateUploadJob? ==> call.claim == j.name + "-modelsave-pvc" && j.modelPath != ""
  {
    hide ReconcileMachine.PhaseAfter, ReconcileMachine.Sent, FailureBuffer.JobTypeCheck;
    var c := ConfigOf(j, limit);
    var k := ReconcileOutcomes.SentFrom(c, answers, clock, 9, call);
    ReconcileOutcomes.GatedAlways(c, answers, clock, k);
    ReconcileLaws.SoundAlways(c, answers, clock, k);
  }

  /** And they are asked for: whatever the replies, each of these calls is made for
      a portal job exactly when it comes to it and the portal job gives the path. */
  lemma PortalCallsExactly(j: FailureBuffer.PortalJob, limit: int, answers: Call -> Reply, clock: nat -> Time)
    requires FailureBuffer.HasKnownType(j)
    ensures var c, calls := ConfigOf(j, limit), ReconcileOutcomes.Calls(ConfigOf(j, limit), answers, clock);
            && (CreateClaim(Checkpoint, j.name + "-ckpt", Sizing.RequestedBytes(j.ckptVol)) in calls
                <==> && j.ckptPath != "" && ReconcileOutcomes.Unstarted(c, answers)
                     && answers(GetClaim(Checkpoint, j.name + "-ckpt")).NotFound?)
            && (CreateClaim(ModelSave, j.name + "-modelsave-pvc", Sizing.RequestedBytes(j.modelVol)) in calls
                <==> && j.modelPath != "" && Sizing.Int32(j.modelVol) != 0
                     && ReconcileOutcomes.Unstarted(c, answers) && ReconcileLaws.CheckpointReady(c, answers)
                     && answers(GetClaim(ModelSave, j.name + "-modelsave-pvc")).NotFound?)
            && (Call.GetDataset(j.datasetName) in calls
                <==> j.datasetPath != "" && j.datasetName != "" && RequestedCalls.Ready(c, answers))
            && (Call.GetModel(j.pretrainModelName) in calls
                <==> && j.pretrainModelPath != "" && j.pretrainModelName != ""
                     && RequestedCalls.Ready(c, answers) && ReconcileLaws.DatasetReady(c, answers))
  {
    hide ReconcileOutcomes.Calls, ReconcileOutcomes.Unstarted, ReconcileLaws.CheckpointReady, RequestedCalls.Ready;
    hide ReconcileLaws.DatasetReady, Sizing.ClaimBytes, Sizing.Int32;
    var c := ConfigOf(j, limit);
    RequestedCalls.CallsExactly(c, answers, clock, CreateClaim(Checkpoint, j.name + "-ckpt",
                                                               Sizing.RequestedBytes(j.ckptVol)));
    RequestedCalls.CallsExactly(c, answers, clock,
      CreateClaim(ModelSave, j.name + "-modelsave-pvc", Sizing.RequestedBytes(j.modelVol)));
    RequestedCalls.CallsExactly(c, answers, clock, Call.GetDataset(j.datasetName));
    RequestedCalls.CallsExactly(c, answers, clock, Call.GetModel(j.pretrainModelName));
  }

  /** A portal job that has succeeded, no end of its upload recorded, has its upload
      looked up exactly when the portal gives a path for its model, and created
      when it is not there. */
  lemma PortalUploadExactly(j: FailureBuffer.PortalJob, limit: int, answers: Call -> Reply, clock: nat -> Time)
    requires FailureBuffer.HasKnownType(j) && answers(GetJob).JobFound?
    requires var cs := answers(GetJob).status.conditions;
             && IsStatusConditionTrue(cs, Succeeded) && !IsStatusConditionTrue(cs, Failed)
             && forall u :: u in cs ==> u.kind != ModelUploaded
    ensures var calls := ReconcileOutcomes.Calls(ConfigOf(j, limit), answers, clock);
            && (GetUploadJob(j.name + "-upload") in calls <==> j.modelPath != "")
            && (CreateUploadJob(j.name + "-upload", j.name + "-modelsave-pvc") in calls
                <==> j.modelPath != "" && answers(GetUploadJob(j.name + "-upload")).NotFound?)
  {
    hide ReconcileOutcomes.Calls;
    var c := ConfigOf(j, limit);
    RequestedCalls.CallsExactly(c, answers, clock, GetUploadJob(j.name + "-upload"));
    RequestedCalls.CallsExactly(c, answers, clock, CreateUploadJob(j.name + "-upload", j.name + "-modelsave-pvc"));
  }
}
