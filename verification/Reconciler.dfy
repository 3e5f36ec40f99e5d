/** The methods of the reconciler (internal/controller/cpodjob_controller.go).
    Every call they make to the API server is shown to be the next call of the
    machine in module ReconcileMachine, until it is finished. */
module Reconciler {
  import opened Wrappers
  import opened Conditions
  import opened Cluster
  import opened ReconcileMachine
  import ReconcileLaws
  import Sizing

  /** The client of the API server.  It can only make the machine's next call. */
  class ApiClient {
    const config: Config
    const answers: Call -> Reply
    const clock: nat -> Time
    var calls: seq<Call>
    ghost var phase: Phase

    constructor (config: Config, answers: Call -> Reply, clock: nat -> Time)
      ensures Valid() && calls == []
      ensures this.config == config && this.answers == answers && this.clock == clock
    {
      this.config, this.answers, this.clock := config, answers, clock;
      calls, phase := [], FetchJob;
    }

    ghost predicate Valid()
      reads this
    {
      phase == PhaseAfter(config, answers, clock, |calls|) && calls == Sent(config, answers, clock, |calls|)
    }

    method Do(call: Call) returns (r: Reply)
      requires Valid() && !phase.Finished? && call == CallOf(config, phase)
      modifies this
      ensures Valid()
      ensures r == answers(call)
      ensures calls == old(calls) + [call]
      ensures phase == Advance(config, old(phase), r, Now())
    {
      hide Advance, CallOf, PhaseAfter, Sent;
      r := answers(call);
      OneMore(config, answers, clock, |calls|);
      phase := Advance(config, phase, r, clock(|calls|));
      calls := calls + [call];
    }

    // The clock between the latest reply and the next call.
    function Now(): Time
      reads this
    {
      if calls == [] then clock(0) else clock(|calls| - 1)
    }
  }

  class CPodJob {
    const spec: Spec
    const version: nat
    const status: JobStatus

    constructor (spec: Spec, version: nat, s: Status)
      ensures this.spec == spec && this.version == version && fresh(status) && status.Value() == s
    {
      this.spec, this.version := spec, version;
      this.status := new JobStatus(s);
    }
  }

  // How a helper hands control back: without error, with one, or by panicking.
  datatype Flow = Fine | Failing | Panicking

  class CPodJobReconciler {
    const client: ApiClient

    constructor (client: ApiClient)
      ensures this.client == client
    {
      this.client := client;
    }

    /** The whole method runs the machine to its end and returns its result; with
        no error and no requeue it leaves a terminal status behind. */
    method Reconcile() returns (r: Result)
      requires client.Valid() && client.calls == [] && !client.answers(GetJob).NotFound?
      modifies client
      ensures client.Valid() && client.phase == Finished(r)
      ensures r == QUIET ==> ReconcileLaws.LeftTerminal(client.config, client.answers, client.calls)
    {
      var reply := client.Do(GetJob);
      if !reply.JobFound? {
        return FAILURE;
      }
      var job := new CPodJob(client.config.spec, reply.version, reply.status);
      if !NeedReconcile(job.spec, job.status.conditions) {
        ReconcileLaws.NoLostWakeup(client.config, client.answers, client.clock, |client.calls|);
        return QUIET;
      }
      var oldStatus := job.status.Value();
      r := Drive(job, Draft(reply.version, reply.status, reply.status));
      if oldStatus != job.status.Value() {
        var written := client.Do(Call.UpdateStatus(job.version, job.status.Value()));
        if !written.Accepted? {
          r := WithError(r);
        }
      }
      if r == QUIET {
        ReconcileLaws.NoLostWakeup(client.config, client.answers, client.clock, |client.calls|);
      }
    }

    /** Everything between the snapshot and the deferred write. */
    method Drive(job: CPodJob, ghost d: Draft) returns (r: Result)
      requires client.Valid() && job.spec == client.config.spec
      requires d.version == job.version && d.cur == d.read == job.status.Value()
      requires NeedReconcile(job.spec, d.cur.conditions) && client.phase == Entered(client.config, d)
      modifies client, job.status
      ensures client.Valid() && client.phase == Exit(d.(cur := job.status.Value()), r)
    {
      hide PhaseAfter, Sent;
      ghost var d' := d;
      if !IsFinished(job.status.conditions) {
        var reply := client.Do(GetBaseJob(job.spec.name, job.spec.jobType));
        if reply.NotFound? {
          var flow := CreateBaseJob(job, d);
          match flow
          case Fine => return RETRY;
          case Failing => return FAILURE;
          case Panicking => return Panic;
        }
        if !reply.BaseJobFound? || !Fits(job.spec, reply.job) {
          return FAILURE;
        }
        var baseJobStatus := GetBaseJobStatus(job.spec, reply.job);
        var err := UpdateStatus(job, Some(baseJobStatus), client.Now());
        d' := d.(cur := job.status.Value());
        if err {
          return FAILURE;
        }
      }
      if IsSucceeded(job.status.conditions) && WantsUpload(job.spec) {
        var err := UploadSavedModel(job, d');
        if err {
          return FAILURE;
        }
      }
      return QUIET;
    }

    /** Records what the training job reported; the error asks for another look. */
    method UpdateStatus(job: CPodJob, base: Option<BaseStatus>, now: Time) returns (err: bool)
      modifies job.status
      ensures base.None? ==> job.status.Value() == Started(old(job.status.Value()), now) && !err
      ensures base.Some? ==> job.status.Value() == Recorded(old(job.status.Value()), VerdictOf(base.value), now)
      ensures base.Some? ==> (err <==> VerdictOf(base.value).InProgress?)
    {
      if job.status.startTime.None? {
        job.status.startTime := Some(now);
      }
      if base.Some? {
        var conditions := base.value.conditions;
        if BaseJobIs(conditions, "Failed") {
          var failed := GetBaseJobCondition(conditions, "Failed");
          job.status.UpdateJobConditions(Failed, True, "BaseJobFailed", failed.value.message, now);
        } else if BaseJobIs(conditions, "Succeeded") {
          var succeeded := GetBaseJobCondition(conditions, "Succeeded");
          job.status.UpdateJobConditions(Succeeded, True, succeeded.value.reason, succeeded.value.message, now);
          job.status.completionTime := base.value.completionTime;
        } else {
          job.status.UpdateJobConditions(Running, True, "BaseJobRunning", "BaseJob is running", now);
          return true;
        }
      }
      return false;
    }

    method GetBaseJobStatus(spec: Spec, job: BaseJob) returns (r: BaseStatus)
      requires Fits(spec, job)
      ensures r == StatusOf(job)
    {
      match job
      case PyTorchJob(status) => return status;
      case MPIJob(conditions, start, last, completion) =>
        var converted := ConvertMPIJobConditions(conditions);
        return BaseStatus(converted, start, last, completion);
    }

    method ConvertMPIJobConditions(cs: seq<MPICondition>) returns (r: seq<BaseCondition>)
      ensures r == Convert(cs)
    {
      var res := new BaseCondition[|cs|](_ => BaseCondition("", Unknown, "", "", 0, 0));
      for i := 0 to |cs|
        invariant forall h :: 0 <= h < i ==> res[h] == ToCommon(cs[h])
      {
        var m := cs[i];
        res[i] := BaseCondition(m.kind, m.status, m.reason, m.message, m.lastUpdate, m.transition);
      }
      r := res[..];
    }

    /** The claim for checkpoints, bound.  No claim and no error together mean
        that it has just been created; the caller dereferences it all the same. */
    method GetCKPTPVC(job: CPodJob, ghost d: Draft) returns (claim: Option<string>, err: bool)
      requires client.Valid() && job.spec == client.config.spec && client.phase == FetchCheckpoint(d)
      modifies client
      ensures client.Valid()
      ensures err ==> client.phase == Exit(d, FAILURE)
      ensures !err && claim.None? ==> client.phase == Exit(d, Panic)
      ensures !err && claim.Some? ==>
                client.phase
                == AfterCheckpoint(client.config, d, AddVolume(NO_VOLUMES, "ckpt", claim.value, job.spec.ckptPath))
    {
      hide PhaseAfter, Sent;
      var name := CheckpointClaimName(job.spec);
      var reply := client.Do(GetClaim(Checkpoint, name));
      if !reply.ClaimFound? {
        if reply.NotFound? {
          var made := client.Do(CreateClaim(Checkpoint, name, Sizing.ClaimBytes(job.spec.ckptVolumeSize)));
          if !made.Accepted? {
            return None, true;
          }
          return None, false;
        }
        return None, true;
      }
      if !reply.bound {
        return None, true;
      }
      return Some(name), false;
    }

    method GetModelSavePVC(job: CPodJob, ghost d: Draft, pod: Pod) returns (claim: string, err: bool)
      requires client.Valid() && job.spec == client.config.spec && client.phase == FetchModelSave(d, pod)
      modifies client
      ensures client.Valid()
      ensures err ==> client.phase == Exit(d, FAILURE)
      ensures !err ==>
                client.phase
                == AfterModelSave(client.config, d, AddVolume(pod, "modelsave", claim, job.spec.modelSavePath))
    {
      hide PhaseAfter, Sent;
      var name := ModelSaveClaimName(job.spec);
      var reply := client.Do(GetClaim(ModelSave, name));
      if !reply.ClaimFound? {
        if reply.NotFound? {
          var made := client.Do(CreateClaim(ModelSave, name, Sizing.ClaimBytes(job.spec.modelSaveVolumeSize)));
          if !made.Accepted? {
            return "", true;
          }
        }
        return "", true;
      }
      if !reply.bound {
        return "", true;
      }
      return name, false;
    }

    method CreateBaseJob(job: CPodJob, ghost d: Draft) returns (flow: Flow)
      requires client.Valid() && job.spec == client.config.spec
      requires d.cur == job.status.Value() && client.phase == NoBaseJob(client.config, d)
      modifies client, job.status
      ensures client.Valid()
      ensures client.phase == Exit(d.(cur := job.status.Value()), ResultOf(flow))
    {
      hide PhaseAfter, Sent, AddVolume;
      var pod := NO_VOLUMES;
      if job.spec.ckptPath != "" {
        var claim, err := GetCKPTPVC(job, d);
        if err {
          return Failing;
        }
        if claim.None? {
          return Panicking;
        }
        pod := AddVolume(pod, "ckpt", claim.value, job.spec.ckptPath);
      }
      if WantsModelSave(job.spec) {
        var claim, err := GetModelSavePVC(job, d, pod);
        if err {
          return Failing;
        }
        pod := AddVolume(pod, "modelsave", claim, job.spec.modelSavePath);
      }
      flow := AddArtifacts(job, d, pod);
    }

    // The rest of CreateBaseJob: dataset, pretrained model, and the job itself.
    method AddArtifacts(job: CPodJob, ghost d: Draft, volumes: Pod) returns (flow: Flow)
      requires client.Valid() && job.spec == client.config.spec
      requires d.cur == job.status.Value() && client.phase == AfterModelSave(client.config, d, volumes)
      modifies client, job.status
      ensures client.Valid()
      ensures client.phase == Exit(d.(cur := job.status.Value()), ResultOf(flow))
    {
      hide Edit, Started, AddVolume, BuildBaseJob, PhaseAfter, Sent;
      var pod := volumes;
      if WantsDataset(job.spec) {
        var reply := client.Do(Call.GetDataset(job.spec.datasetName));
        if reply.NotFound? {
          flow := FailJob(job, "GetDatasetFailed", "Dataset not found");
          return;
        }
        if !reply.ArtifactFound? {
          return Failing;
        }
        if reply.phase != "done" {
          flow := FailJob(job, "GetPretrainModelFailed", "Pretrain model downloader failed");
          return;
        }
        var found := client.Do(GetClaim(DatasetClaim, reply.claim));
        if found.NotFound? {
          flow := FailJob(job, "GetDatasetPVCFailed", "Dataset PVC not found");
          return;
        }
        if !found.ClaimFound? {
          return Failing;
        }
        pod := AddVolume(pod, "dataset", reply.claim, job.spec.datasetPath);
      }
      flow := AddModel(job, d, pod);
    }

    method AddModel(job: CPodJob, ghost d: Draft, volumes: Pod) returns (flow: Flow)
      requires client.Valid() && job.spec == client.config.spec
      requires d.cur == job.status.Value() && client.phase == AfterDataset(client.config, d, volumes)
      modifies client, job.status
      ensures client.Valid()
      ensures client.phase == Exit(d.(cur := job.status.Value()), ResultOf(flow))
    {
      hide Edit, Started, AddVolume, BuildBaseJob, PhaseAfter, Sent;
      var pod := volumes;
      if WantsModel(job.spec) {
        var reply := client.Do(Call.GetModel(job.spec.pretrainModelName));
        if reply.NotFound? {
          flow := FailJob(job, "GetPretrainModelFailed", "Pretrain model not found");
          return;
        }
        if !reply.ArtifactFound? {
          return Failing;
        }
        if reply.phase != "done" {
          flow := FailJob(job, "GetPretrainModelFailed", "Pretrain model downloader failed");
          return;
        }
        var claim := "";
        var found := client.Do(GetClaim(ModelClaim, reply.claim));
        if found.NotFound? {
          flow := FailJob(job, "GetPretrainModelPVCFailed", "Pretrain model PVC not found");
          return;
        }
        if found.ClaimFound? {
          claim := reply.claim;
        }
        pod := AddVolume(pod, "pretrain-model", claim, job.spec.pretrainModelPath);
      }
      var made := client.Do(Call.CreateBaseJob(BuildBaseJob(job.spec, pod)));
      return if made.Accepted? || made.AlreadyExists? then Fine else Failing;
    }

    // Marks the job failed in memory; the deferred write stores it.
    method FailJob(job: CPodJob, reason: string, message: string) returns (flow: Flow)
      modifies job.status
      ensures flow == Fine
      ensures job.status.Value()
              == Started(Edit(old(job.status.Value()), Failed, True, reason, message, client.Now()), client.Now())
    {
      job.status.UpdateJobConditions(Failed, True, reason, message, client.Now());
      var err := UpdateStatus(job, None, client.Now());
      return if err then Failing else Fine;
    }

    method UploadSavedModel(job: CPodJob, ghost d: Draft) returns (err: bool)
      requires client.Valid() && job.spec == client.config.spec
      requires d.cur == job.status.Value() && client.phase == FetchUpload(d)
      modifies client, job.status
      ensures client.Valid()
      ensures client.phase == Exit(d.(cur := job.status.Value()), if err then FAILURE else QUIET)
    {
      hide PhaseAfter, Sent;
      var reply := client.Do(GetUploadJob(UploadJobName(job.spec)));
      if !reply.UploadJobFound? {
        if reply.NotFound? {
          var made := client.Do(CreateUploadJob(UploadJobName(job.spec), ModelSaveClaimName(job.spec)));
          if !made.Accepted? {
            return true;
          }
          job.status.UpdateJobConditions(ModelUploading, True, "UploadingModel", "modelupload job is running",
                                         client.Now());
        }
        return true;
      }
      if reply.succeeded == 1 {
        job.status.UpdateJobConditions(ModelUploaded, True, "UploadModelSucceed", "Upload model succeed", client.Now());
      } else if reply.failed >= client.config.backoffLimit {
        job.status.UpdateJobConditions(ModelUploaded, False, "UploadModelSucceed", "modelupload backofflimit exceed",
                                       client.Now());
      } else {
        job.status.UpdateJobConditions(ModelUploading, True, "UploadingModel", "modelupload job is running",
                                       client.Now());
        return true;
      }
      return false;
    }

    static function ResultOf(f: Flow): Result {
      match f
      case Fine => RETRY
      case Failing => FAILURE
      case Panicking => Panic
    }
  }
}
