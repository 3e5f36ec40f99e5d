/** What one call of Reconcile owes, in the fields of the job's spec and status and
    of the replies alone (internal/controller/cpodjob_controller.go): which calls
    it makes, what it stores, and how it ends. */
module Requirements {
  import opened Conditions
  import opened Cluster
  import opened ReconcileMachine
  import opened ReconcileLaws
  import opened ReconcileOutcomes
  import opened ReconcileRepeats
  import Lifecycle

  // ------------------------------------------------------------- no lost wake-up

  /** A reconcile that asks for nothing more leaves a status in store, the one it
      read or one the API server accepted over it, that has failed, or that has
      succeeded and, if the spec asks for an upload, records its end. */
  lemma QuietLeavesWorkOver(c: Config, answers: Call -> Reply, clock: nat -> Time)
    requires Outcome(c, answers, clock) == QUIET
    ensures answers(GetJob).JobFound?
    ensures exists s: Status ::
              && (|| s == answers(GetJob).status
                  || (&& Call.UpdateStatus(answers(GetJob).version, s) in Calls(c, answers, clock)
                      && answers(Call.UpdateStatus(answers(GetJob).version, s)).Accepted?))
              && (|| IsStatusConditionTrue(s.conditions, Failed)
                  || (&& IsStatusConditionTrue(s.conditions, Succeeded)
                      && (c.spec.uploadModel && c.spec.modelSavePath != ""
                          ==> exists u :: u in s.conditions && u.kind == ModelUploaded)))
  {
    hide PhaseAfter, Sent;
    NoLostWakeup(c, answers, clock, 9);
  }

  /** Conversely a job is taken up, a second call made for it, exactly when it was
      found and its work is not over in that sense. */
  lemma TakenUpExactly(c: Config, answers: Call -> Reply, clock: nat -> Time)
    ensures |Calls(c, answers, clock)| >= 1
    ensures |Calls(c, answers, clock)| >= 2
            <==> && answers(GetJob).JobFound?
                 && var cs := answers(GetJob).status.conditions;
                 && !IsStatusConditionTrue(cs, Failed)
                 && !(&& IsStatusConditionTrue(cs, Succeeded)
                      && (c.spec.uploadModel && c.spec.modelSavePath != ""
                          ==> exists u :: u in cs && u.kind == ModelUploaded))
  {
    hide PhaseAfter, Sent, NoBaseJob;
    PhaseZero(c, answers, clock);
    OneMore(c, answers, clock, 0);
    SentNothing(c, answers, clock);
    var p := PhaseAfter(c, answers, clock, 1);
    if p.Finished? {
      FinishedStays(c, answers, clock, 1, 9);
    } else {
      SentGrows(c, answers, clock, 0, 9);
      SentGrows(c, answers, clock, 1, 9);
      var i :| 0 <= i < |Calls(c, answers, clock)| && Calls(c, answers, clock)[i] == GetJob;
      var j :| 0 <= j < |Calls(c, answers, clock)| && Calls(c, answers, clock)[j] == CallOf(c, p);
    }
  }

  lemma SentNothing(c: Config, answers: Call -> Reply, clock: nat -> Time)
    ensures Sent(c, answers, clock, 0) == []
  {
  }

  /** Over runs: once some reconcile has asked for nothing more, the stored status
      has failed, or has succeeded and, if the spec asks for an upload, records its
      end. */
  lemma StoredWorkIsOver(c: Config, s0: Status, es: seq<Lifecycle.Event>, w: nat)
    requires w in Lifecycle.Run(c, s0, es).workers && Lifecycle.Run(c, s0, es).workers[w] == Finished(QUIET)
    ensures var store := Lifecycle.Run(c, s0, es).store;
            && store != []
            && var cs := store[|store| - 1].conditions;
               || IsStatusConditionTrue(cs, Failed)
               || (&& IsStatusConditionTrue(cs, Succeeded)
                   && (c.spec.uploadModel && c.spec.modelSavePath != ""
                       ==> exists u :: u in cs && u.kind == ModelUploaded))
  {
    hide Lifecycle.Run;
    Lifecycle.NoLostWakeupInRuns(c, s0, es, w);
  }

  // ------------------------------------------------- the training job's verdict

  // `s` says of the training job what the job says of itself.
  ghost predicate Records(snapshot: Status, job: BaseJob, s: Status) {
    && (HasTrue(job, "Failed") ==>
          exists reason, message ::
            FirstSays(job, "Failed", reason, message) && Holds(s.conditions, Failed, True, "BaseJobFailed", message))
    && (!HasTrue(job, "Failed") && HasTrue(job, "Succeeded") ==>
          && s.completionTime == CompletionOf(job)
          && exists reason, message ::
               FirstSays(job, "Succeeded", reason, message) && Holds(s.conditions, Succeeded, True, reason, message))
    && (!HasTrue(job, "Failed") && !HasTrue(job, "Succeeded") ==>
          Holds(s.conditions, Running, True, "BaseJobRunning", "BaseJob is running"))
    && s.startTime.Some? && (snapshot.startTime.Some? ==> s.startTime == snapshot.startTime)
  }

  lemma RecordedRecords(s: Status, job: BaseJob, now: Time)
    requires !IsFinished(s.conditions)
    ensures Records(s, job, Recorded(s, VerdictOf(StatusOf(job)), now))
  {
    hide VerdictOf, StatusOf, HasTrue, FirstSays, SetCondition, CompletionOf;
    VerdictSpelledOut(job);
    var v := VerdictOf(StatusOf(job));
    match v
    case JobFailed(message) =>
      UpdateEffects(s.conditions, Condition(Failed, True, "BaseJobFailed", message, now), Failed);
    case JobSucceeded(reason, message, _) =>
      UpdateEffects(s.conditions, Condition(Succeeded, True, reason, message, now), Succeeded);
    case InProgress =>
      UpdateEffects(s.conditions, Condition(Running, True, "BaseJobRunning", "BaseJob is running", now), Running);
  }

  // An edit of the upload leaves that as it is.
  lemma UploadKeepsRecord(snapshot: Status, job: BaseJob, s: Status, c: Condition)
    requires Records(snapshot, job, s) && !IsFailed(s.conditions) && IsSucceeded(s.conditions)
    requires !HasTrue(job, "Failed") && HasTrue(job, "Succeeded")
    requires c.kind == ModelUploading || c.kind == ModelUploaded
    ensures Records(snapshot, job, s.(conditions := SetCondition(s.conditions, c)))
  {
    hide SetCondition, HasTrue, FirstSays, CompletionOf;
    UpdateEffects(s.conditions, c, Succeeded);
  }

  ghost predicate Recording(answers: Call -> Reply, p: Phase, job: BaseJob)
    requires answers(GetJob).JobFound?
  {
    p.FetchUpload? || p.MakeUpload? || p.StoreStatus? ==>
      && Records(answers(GetJob).status, job, p.d.cur)
      && (!p.StoreStatus? ==> !HasTrue(job, "Failed") && HasTrue(job, "Succeeded"))
  }

  // The training job was read, and the snapshot had not finished.
  ghost predicate Watches(c: Config, answers: Call -> Reply, job: BaseJob) {
    && Unfinished(answers)
    && answers(GetBaseJob(c.spec.name, c.spec.jobType)) == BaseJobFound(job)
    && (c.spec.jobType.MPI? <==> job.MPIJob?)
  }

  lemma RecordingStep(c: Config, answers: Call -> Reply, p: Phase, now: Time, job: BaseJob)
    requires Watches(c, answers, job) && !p.Finished?
    requires Sound(c, p) && Tracks(answers, p) && Gated(c, answers, p) && Recording(answers, p, job)
    ensures Recording(answers, Advance(c, p, answers(CallOf(c, p)), now), job)
  {
    hide Recording, AdvanceBaseJob, AdvanceUpload, Advance, CallOf;
    match p
    case FetchBaseJob(d) => RecordingBaseJob(c, answers, d, now, job);
    case FetchUpload(d) => RecordingUpload(c, answers, p, now, job);
    case MakeUpload(d) => RecordingUpload(c, answers, p, now, job);
    case _ => RecordingElsewhere(c, answers, p, now, job);
  }

  lemma RecordingBaseJob(c: Config, answers: Call -> Reply, d: Draft, now: Time, job: BaseJob)
    requires Watches(c, answers, job) && Sound(c, FetchBaseJob(d)) && Tracks(answers, FetchBaseJob(d))
    ensures Recording(answers, Advance(c, FetchBaseJob(d), answers(CallOf(c, FetchBaseJob(d))), now), job)
  {
    hide VerdictOf, StatusOf, HasTrue, Records, Recorded, AdvanceBaseJob;
    AdvanceWatched(c, answers, d, now, job);
    VerdictSpelledOut(job);
    RecordedRecords(d.cur, job, now);
    RecordedFlags(d.cur, VerdictOf(StatusOf(job)), now);
  }

  lemma AdvanceWatched(c: Config, answers: Call -> Reply, d: Draft, now: Time, job: BaseJob)
    requires Watches(c, answers, job)
    ensures var v := VerdictOf(StatusOf(job));
            var d' := d.(cur := Recorded(d.cur, v, now));
            AdvanceBaseJob(c, d, BaseJobFound(job), now)
            == if v.InProgress? then Exit(d', FAILURE) else AfterBaseJob(c, d')
  {
    hide VerdictOf, StatusOf, Recorded, Exit, AfterBaseJob;
  }

  lemma RecordingUpload(c: Config, answers: Call -> Reply, p: Phase, now: Time, job: BaseJob)
    requires answers(GetJob).JobFound? && Recording(answers, p, job)
    requires (p.FetchUpload? || p.MakeUpload?) && Uploadable(c, p.d)
    ensures Recording(answers, Advance(c, p, answers(CallOf(c, p)), now), job)
  {
    hide Records, HasTrue, SetCondition, Terminal, WantsUpload, IsFailed, IsSucceeded, CallOf;
    var s, read := p.d.cur, answers(GetJob).status;
    UploadKeepsRecord(read, job, s, Condition(ModelUploaded, True, "UploadModelSucceed", "Upload model succeed", now));
    UploadKeepsRecord(read, job, s,
      Condition(ModelUploaded, False, "UploadModelSucceed", "modelupload backofflimit exceed", now));
    UploadKeepsRecord(read, job, s,
      Condition(ModelUploading, True, "UploadingModel", "modelupload job is running", now));
  }

  // No other phase is reached, or none that stores anything.
  lemma RecordingElsewhere(c: Config, answers: Call -> Reply, p: Phase, now: Time, job: BaseJob)
    requires Watches(c, answers, job) && !p.Finished? && !p.FetchBaseJob? && !p.FetchUpload? && !p.MakeUpload?
    requires Sound(c, p) && Gated(c, answers, p)
    ensures Recording(answers, Advance(c, p, answers(CallOf(c, p)), now), job)
  {
    hide Records, HasTrue, AddVolume, CheckpointReady, ModelSaveReady, DatasetReady, ModelPassed;
  }

  lemma {:induction false} RecordingAlways(c: Config, answers: Call -> Reply, clock: nat -> Time, n: nat, job: BaseJob)
    requires Watches(c, answers, job)
    ensures Recording(answers, PhaseAfter(c, answers, clock, n), job)
  {
    hide Advance, Sound, Tracks, Gated, Records, Watches;
    if n > 0 {
      RecordingAlways(c, answers, clock, n - 1, job);
      var p := PhaseAfter(c, answers, clock, n - 1);
      if !p.Finished? {
        SoundAlways(c, answers, clock, n - 1);
        GatedAlways(c, answers, clock, n - 1);
        RecordingStep(c, answers, p, clock(n - 1), job);
      }
    }
  }

  lemma SilentRecords(c: Config, answers: Call -> Reply, clock: nat -> Time, job: BaseJob)
    requires Watches(c, answers, job) && !Writes(c, answers, clock)
    ensures Records(answers(GetJob).status, job, answers(GetJob).status)
  {
    hide PhaseAfter, Sent, VerdictOf, StatusOf, HasTrue, Records, Recorded;
    var r := answers(GetJob);
    var d := Draft(r.version, r.status, r.status);
    PhaseZero(c, answers, clock);
    OneReply(c, answers, clock, 0);
    OneReply(c, answers, clock, 1);
    assert PhaseAfter(c, answers, clock, 1) == FetchBaseJob(d);
    var v := VerdictOf(StatusOf(job));
    RecordedRecords(r.status, job, clock(1));
    RecordedFlags(r.status, v, clock(1));
    SilentIsClean(c, answers, clock, 2);
  }

  /** What a reconcile of an unfinished job records of its training job, in the
      training job's own words.  Any status sent to be stored, and the one that was
      read if none is sent, says: Failed with the message of the first Failed
      condition, if some Failed condition is True; else Succeeded with the reason
      and the message of the first, and the completion time, if some Succeeded
      condition is; else Running.  The start time is set once. */
  lemma RecordsTrainingJob(c: Config, answers: Call -> Reply, clock: nat -> Time, job: BaseJob)
    requires Watches(c, answers, job)
    ensures forall version, s :: Call.UpdateStatus(version, s) in Calls(c, answers, clock)
                                 ==> Records(answers(GetJob).status, job, s)
    ensures Writes(c, answers, clock) || Records(answers(GetJob).status, job, answers(GetJob).status)
    ensures HasTrue(job, "Failed") || HasTrue(job, "Succeeded") ==> Writes(c, answers, clock)
    ensures !HasTrue(job, "Failed") && !HasTrue(job, "Succeeded") ==>
              Outcome(c, answers, clock) == FAILURE
  {
    hide PhaseAfter, Sent, Records, HasTrue;
    forall version, s | Call.UpdateStatus(version, s) in Calls(c, answers, clock)
      ensures Records(answers(GetJob).status, job, s)
    {
      var k := SentFrom(c, answers, clock, 9, Call.UpdateStatus(version, s));
      RecordingAlways(c, answers, clock, k, job);
    }
    if !Writes(c, answers, clock) {
      SilentRecords(c, answers, clock, job);
      UnfinishedRecordsRunning(answers, job);
    }
    if !HasTrue(job, "Failed") && !HasTrue(job, "Succeeded") {
      InProgressFails(c, answers, clock, job);
    }
  }

  // An unfinished status records neither failure nor success.
  lemma UnfinishedRecordsRunning(answers: Call -> Reply, job: BaseJob)
    requires Unfinished(answers) && Records(answers(GetJob).status, job, answers(GetJob).status)
    ensures !HasTrue(job, "Failed") && !HasTrue(job, "Succeeded")
  {
    hide HasTrue, FirstSays;
  }

  lemma InProgressFails(c: Config, answers: Call -> Reply, clock: nat -> Time, job: BaseJob)
    requires Watches(c, answers, job) && !HasTrue(job, "Failed") && !HasTrue(job, "Succeeded")
    ensures Outcome(c, answers, clock) == FAILURE
  {
    hide PhaseAfter, Sent, VerdictOf, StatusOf, HasTrue, Recorded;
    VerdictSpelledOut(job);
    PhaseZero(c, answers, clock);
    OneReply(c, answers, clock, 0);
    OneReply(c, answers, clock, 1);
    if PhaseAfter(c, answers, clock, 2).Finished? {
      FinishedStays(c, answers, clock, 2, 9);
    } else {
      OneReply(c, answers, clock, 2);
      FinishedStays(c, answers, clock, 3, 9);
    }
  }

  // ------------------------------------------------------------------ the upload

  // The model is to be uploaded, the job has succeeded, by its snapshot or by the
  // training job just read, and the end of the upload is not recorded yet.
  ghost predicate UploadDue(c: Config, answers: Call -> Reply) {
    && answers(GetJob).JobFound? && c.spec.uploadModel && c.spec.modelSavePath != ""
    && var cs := answers(GetJob).status.conditions;
       || (&& IsStatusConditionTrue(cs, Succeeded) && !IsStatusConditionTrue(cs, Failed)
           && forall u :: u in cs ==> u.kind != ModelUploaded)
       || (Unfinished(answers) && ReportsSucceeded(c.spec, answers(GetBaseJob(c.spec.name, c.spec.jobType))))
  }

  // `s` says of the upload what the upload job says.
  ghost predicate RecordsUpload(c: Config, answers: Call -> Reply, s: Status) {
    var r := answers(GetUploadJob(c.spec.name + "-upload"));
    && (r.UploadJobFound? && r.succeeded == 1 ==>
          Holds(s.conditions, ModelUploaded, True, "UploadModelSucceed", "Upload model succeed"))
    && (r.UploadJobFound? && r.succeeded != 1 && r.failed >= c.backoffLimit ==>
          Holds(s.conditions, ModelUploaded, False, "UploadModelSucceed", "modelupload backofflimit exceed"))
    && (UploadRuns(c, answers) ==>
          Holds(s.conditions, ModelUploading, True, "UploadingModel", "modelupload job is running"))
  }

  // The upload job is still at work, or was created just now.
  ghost predicate UploadRuns(c: Config, answers: Call -> Reply) {
    var r := answers(GetUploadJob(c.spec.name + "-upload"));
    || (r.UploadJobFound? && r.succeeded != 1 && r.failed < c.backoffLimit)
    || (r.NotFound? && answers(CreateUploadJob(c.spec.name + "-upload", c.spec.name + "-modelsave-pvc")).Accepted?)
  }

  ghost predicate UploadCaused(c: Config, answers: Call -> Reply, p: Phase) {
    match p
    case FetchUpload(_) => UploadDue(c, answers)
    case MakeUpload(_) => UploadDue(c, answers) && answers(GetUploadJob(UploadJobName(c.spec))).NotFound?
    case StoreStatus(d, _) => UploadDue(c, answers) ==> RecordsUpload(c, answers, d.cur)
    case _ => true
  }

  lemma UploadCausedStep(c: Config, answers: Call -> Reply, p: Phase, now: Time)
    requires !p.Finished? && Sound(c, p) && Tracks(answers, p) && Gated(c, answers, p) && UploadCaused(c, answers, p)
    ensures UploadCaused(c, answers, Advance(c, p, answers(CallOf(c, p)), now))
  {
    hide UploadCaused, AdvanceBaseJob, AdvanceUpload, Advance, CallOf, Sound, Gated, Tracks;
    match p
    case FetchJob => UploadByJob(c, answers, now);
    case FetchBaseJob(d) => UploadByBaseJob(c, answers, d, now);
    case FetchUpload(d) => UploadByUpload(c, answers, d, now);
    case MakeUpload(d) => UploadByCreation(c, answers, d, now);
    case _ => UploadElsewhere(c, answers, p, now);
  }

  lemma UploadByJob(c: Config, answers: Call -> Reply, now: Time)
    ensures UploadCaused(c, answers, Advance(c, FetchJob, answers(GetJob), now))
    ensures CallOf(c, FetchJob) == GetJob
  {
    hide NoBaseJob, RecordsUpload;
  }

  lemma UploadByBaseJob(c: Config, answers: Call -> Reply, d: Draft, now: Time)
    requires Sound(c, FetchBaseJob(d)) && Tracks(answers, FetchBaseJob(d))
    ensures UploadCaused(c, answers, Advance(c, FetchBaseJob(d), answers(CallOf(c, FetchBaseJob(d))), now))
  {
    hide Recorded, Observed, ReportsFailed, ReportsSucceeded, RecordsUpload;
    var r := answers(GetBaseJob(c.spec.name, c.spec.jobType));
    ObservedSpelledOut(c.spec, r);
    if Observed(c.spec, r).Some? {
      RecordedFlags(d.cur, Observed(c.spec, r).value, now);
    }
  }

  lemma UploadByUpload(c: Config, answers: Call -> Reply, d: Draft, now: Time)
    requires Sound(c, FetchUpload(d)) && UploadCaused(c, answers, FetchUpload(d))
    ensures UploadCaused(c, answers, Advance(c, FetchUpload(d), answers(CallOf(c, FetchUpload(d))), now))
  {
    hide UploadDone, UploadGivenUp, Uploading, Holds, UploadDue, Terminal, WantsUpload, IsFailed, IsSucceeded;
    UploadEdits(d.cur, now);
  }

  lemma UploadByCreation(c: Config, answers: Call -> Reply, d: Draft, now: Time)
    requires Sound(c, MakeUpload(d)) && UploadCaused(c, answers, MakeUpload(d))
    ensures UploadCaused(c, answers, Advance(c, MakeUpload(d), answers(CallOf(c, MakeUpload(d))), now))
  {
    hide UploadDone, UploadGivenUp, Uploading, Holds, UploadDue, Terminal, WantsUpload, IsFailed, IsSucceeded;
    UploadEdits(d.cur, now);
  }

  lemma UploadEdits(s: Status, now: Time)
    requires !IsFailed(s.conditions)
    ensures var done := UploadDone(s, now).conditions;
            Holds(done, ModelUploaded, True, "UploadModelSucceed", "Upload model succeed")
    ensures var over := UploadGivenUp(s, now).conditions;
            Holds(over, ModelUploaded, False, "UploadModelSucceed", "modelupload backofflimit exceed")
    ensures var running := Uploading(s, now).conditions;
            Holds(running, ModelUploading, True, "UploadingModel", "modelupload job is running")
  {
    hide SetCondition;
    UpdateEffects(s.conditions, Condition(ModelUploaded, True, "UploadModelSucceed", "Upload model succeed", now),
                  ModelUploaded);
    UpdateEffects(s.conditions,
                  Condition(ModelUploaded, False, "UploadModelSucceed", "modelupload backofflimit exceed", now),
                  ModelUploaded);
    UpdateEffects(s.conditions,
                  Condition(ModelUploading, True, "UploadingModel", "modelupload job is running", now),
                  ModelUploading);
  }

  // The other phases are those of a job that has not started.
  lemma UploadElsewhere(c: Config, answers: Call -> Reply, p: Phase, now: Time)
    requires !p.Finished? && !p.FetchJob? && !p.FetchBaseJob? && !p.FetchUpload? && !p.MakeUpload?
    requires Sound(c, p) && Tracks(answers, p) && Gated(c, answers, p)
    ensures UploadCaused(c, answers, Advance(c, p, answers(CallOf(c, p)), now))
  {
    hide RecordsUpload, AddVolume, CheckpointReady, ModelSaveReady, DatasetReady, ModelPassed;
  }

  lemma {:induction false} UploadCausedAlways(c: Config, answers: Call -> Reply, clock: nat -> Time, n: nat)
    ensures UploadCaused(c, answers, PhaseAfter(c, answers, clock, n))
  {
    hide Advance, Sound, Tracks, Gated, UploadDue, RecordsUpload;
    if n > 0 {
      UploadCausedAlways(c, answers, clock, n - 1);
      var p := PhaseAfter(c, answers, clock, n - 1);
      if !p.Finished? {
        SoundAlways(c, answers, clock, n - 1);
        GatedAlways(c, answers, clock, n - 1);
        UploadCausedStep(c, answers, p, clock(n - 1));
      }
    }
  }

  // Where a reconcile of a job with a due upload reads the upload job.
  lemma ReachUpload(c: Config, answers: Call -> Reply, clock: nat -> Time) returns (d: Draft, n: nat)
    requires UploadDue(c, answers)
    ensures 1 <= n <= 2 && PhaseAfter(c, answers, clock, n) == FetchUpload(d)
    ensures d.version == answers(GetJob).version && d.read == answers(GetJob).status
    ensures IsStatusConditionTrue(d.read.conditions, Succeeded) ==> d.cur == d.read
  {
    hide PhaseAfter, Recorded, Observed, ReportsFailed, ReportsSucceeded, NoBaseJob;
    var r := answers(GetJob);
    d := Draft(r.version, r.status, r.status);
    PhaseZero(c, answers, clock);
    OneReply(c, answers, clock, 0);
    n := 1;
    if Unfinished(answers) {
      var base := answers(GetBaseJob(c.spec.name, c.spec.jobType));
      ObservedSpelledOut(c.spec, base);
      ObservedWasFound(c, base);
      OneReply(c, answers, clock, 1);
      n := 2;
      RecordedFlags(r.status, Observed(c.spec, base).value, clock(1));
      d := d.(cur := Recorded(r.status, Observed(c.spec, base).value, clock(1)));
    }
  }

  /** What a reconcile records of a due upload: ModelUploaded=True when the upload
      job has one success, ModelUploaded=False when it has used up its retries, and
      ModelUploading while it is at work or just created.  The first two are always
      sent to be stored. */
  lemma RecordsUploadJob(c: Config, answers: Call -> Reply, clock: nat -> Time)
    requires UploadDue(c, answers)
    ensures forall version, s :: Call.UpdateStatus(version, s) in Calls(c, answers, clock) ==>
              RecordsUpload(c, answers, s)
    ensures UploadOver(c, answers(GetUploadJob(c.spec.name + "-upload"))) ==> Writes(c, answers, clock)
  {
    hide PhaseAfter, Sent, RecordsUpload;
    forall version, s | Call.UpdateStatus(version, s) in Calls(c, answers, clock)
      ensures RecordsUpload(c, answers, s)
    {
      var k := SentFrom(c, answers, clock, 9, Call.UpdateStatus(version, s));
      UploadCausedAlways(c, answers, clock, k);
    }
    if UploadOver(c, answers(GetUploadJob(c.spec.name + "-upload"))) {
      OverIsWritten(c, answers, clock);
    }
  }

  lemma OverIsWritten(c: Config, answers: Call -> Reply, clock: nat -> Time)
    requires UploadDue(c, answers) && UploadOver(c, answers(GetUploadJob(c.spec.name + "-upload")))
    ensures Writes(c, answers, clock)
  {
    hide PhaseAfter, Sent, UploadDone, UploadGivenUp, UploadDue, IsFailed, IsSucceeded, Terminal;
    var d, n := ReachUpload(c, answers, clock);
    SoundAlways(c, answers, clock, n);
    OneReply(c, answers, clock, n);
    UploadFlags(d.cur, clock(n));
    TerminalByUpload(c, UploadDone(d.cur, clock(n)));
    TerminalByUpload(c, UploadGivenUp(d.cur, clock(n)));
    WriteIsSent(c, answers, clock, n + 1);
  }
}
