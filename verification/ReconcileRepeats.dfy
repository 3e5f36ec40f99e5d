/** What a second reconcile does after a first one, the rest of the cluster
    unchanged. */
module ReconcileRepeats {
  import opened Wrappers
  import opened Conditions
  import opened Cluster
  import opened ReconcileMachine
  import opened ReconcileLaws
  import opened ReconcileOutcomes
  import opened ReconcileFailures

  ghost predicate Says(cs: seq<Condition>, k: Kind, status: Truth, reason: string, message: string) {
    var c := GetCondition(cs, k);
    c.Some? && SameContent(c.value, Condition(k, status, reason, message, 0))
  }

  ghost predicate SaysUploading(s: Status) {
    Says(s.conditions, ModelUploading, True, "UploadingModel", "modelupload job is running")
  }

  ghost predicate SaysRunning(s: Status) {
    s.startTime.Some? && Says(s.conditions, Running, True, "BaseJobRunning", "BaseJob is running")
  }

  lemma EditSays(s: Status, k: Kind, status: Truth, reason: string, message: string, now: Time)
    requires !IsFailed(s.conditions)
    ensures Says(Edit(s, k, status, reason, message, now).conditions, k, status, reason, message)
  {
    hide FilterOut;
    GetAfterSet(s.conditions, Condition(k, status, reason, message, now), k);
  }

  // Writing what is already there changes nothing.
  lemma EditAgain(s: Status, k: Kind, status: Truth, reason: string, message: string, now: Time)
    requires Says(s.conditions, k, status, reason, message)
    ensures Edit(s, k, status, reason, message, now) == s
  {
    hide FilterOut;
  }

  // The three reasons a status can be left as it is by the same replies.
  ghost predicate Settled(c: Config, answers: Call -> Reply, s: Status) {
    || Terminal(c, s)
    || (&& !IsFinished(s.conditions) && SaysRunning(s)
        && Observed(c.spec, answers(GetBaseJob(c.spec.name, c.spec.jobType))) == Some(InProgress))
    || (&& IsSucceeded(s.conditions) && !IsFailed(s.conditions) && WantsUpload(c.spec)
        && UploadSettled(c, answers, s))
  }

  ghost predicate UploadSettled(c: Config, answers: Call -> Reply, s: Status) {
    var r := answers(GetUploadJob(UploadJobName(c.spec)));
    if r.NotFound? then
      answers(CreateUploadJob(UploadJobName(c.spec), ModelSaveClaimName(c.spec))).Accepted? ==> SaysUploading(s)
    else r.UploadJobFound? ==> !UploadOver(c, r) && SaysUploading(s)
  }

  // The reply a phase is about to receive, before it stores anything.
  lemma SettledByBaseJob(c: Config, answers: Call -> Reply, d: Draft, now: Time)
    requires d.cur == d.read && !IsFinished(d.cur.conditions)
    ensures var p := AdvanceBaseJob(c, d, answers(GetBaseJob(c.spec.name, c.spec.jobType)), now);
            p.StoreStatus? ==> Settled(c, answers, p.d.cur)
  {
    hide Recorded, FilterOut, UploadSettled;
    var r := answers(GetBaseJob(c.spec.name, c.spec.jobType));
    var seen := Observed(c.spec, r);
    if seen.Some? {
      ObservedWasFound(c, r);
      RecordedFlags(d.cur, seen.value, now);
      if seen.value.InProgress? {
        RunningSaid(d.cur, now);
      }
    }
  }

  lemma RunningSaid(s: Status, now: Time)
    requires !IsFailed(s.conditions)
    ensures SaysRunning(Recorded(s, InProgress, now))
  {
    hide Edit;
    EditSays(Started(s, now), Running, True, "BaseJobRunning", "BaseJob is running", now);
    EditKeepsStart(Started(s, now), Running, True, "BaseJobRunning", "BaseJob is running", now);
  }

  lemma EditKeepsStart(s: Status, k: Kind, status: Truth, reason: string, message: string, now: Time)
    ensures Edit(s, k, status, reason, message, now).startTime == s.startTime
    ensures Edit(s, k, status, reason, message, now).completionTime == s.completionTime
  {
  }

  lemma UploadingSaid(s: Status, now: Time)
    requires !IsFailed(s.conditions)
    ensures SaysUploading(Uploading(s, now))
  {
    hide Edit;
    EditSays(s, ModelUploading, True, "UploadingModel", "modelupload job is running", now);
  }

  lemma SettledByUpload(c: Config, answers: Call -> Reply, d: Draft, now: Time)
    requires Uploadable(c, d)
    ensures var p := AdvanceUpload(c, d, answers(GetUploadJob(UploadJobName(c.spec))), now);
            p.StoreStatus? ==> Settled(c, answers, p.d.cur)
  {
    hide UploadDone, UploadGivenUp, Uploading, SaysUploading, SaysRunning, Observed, IsSucceeded, IsFailed;
    hide IsFinished, UploadJobName;
    var r := answers(GetUploadJob(UploadJobName(c.spec)));
    UploadFlags(d.cur, now);
    if r.UploadJobFound? {
      TerminalByUpload(c, UploadDone(d.cur, now));
      TerminalByUpload(c, UploadGivenUp(d.cur, now));
      UploadingSaid(d.cur, now);
    }
  }

  lemma SettledByCreation(c: Config, answers: Call -> Reply, d: Draft, now: Time)
    requires Uploadable(c, d)
    requires answers(GetUploadJob(UploadJobName(c.spec))).NotFound?
    ensures var p := Advance(c, MakeUpload(d),
                             answers(CreateUploadJob(UploadJobName(c.spec), ModelSaveClaimName(c.spec))), now);
            p.StoreStatus? ==> Settled(c, answers, p.d.cur)
  {
    hide UploadDone, UploadGivenUp, Uploading, SaysUploading, SaysRunning, Observed, IsSucceeded, IsFailed, IsFinished;
    hide UploadJobName, ModelSaveClaimName;
    UploadFlags(d.cur, now);
    UploadingSaid(d.cur, now);
  }

  lemma SettledByMissing(c: Config, answers: Call -> Reply, d: Draft, now: Time)
    requires d.cur == d.read && !IsFinished(d.cur.conditions)
    ensures forall reason, message {:trigger Missing(d, reason, message, now)} ::
              var p := Missing(d, reason, message, now); p.StoreStatus? && Settled(c, answers, p.d.cur)
  {
    hide Missing;
    MissingAnyReason(d, now);
  }

  // Where a status about to be stored comes from.
  ghost predicate Explained(c: Config, answers: Call -> Reply, p: Phase) {
    match p
    case StoreStatus(d, _) => Settled(c, answers, d.cur)
    case MakeUpload(_) => answers(GetUploadJob(UploadJobName(c.spec))).NotFound?
    case _ => true
  }

  lemma ExplainedStep(c: Config, answers: Call -> Reply, p: Phase, now: Time)
    requires Explained(c, answers, p) && Sound(c, p) && !p.Finished?
    ensures Explained(c, answers, Advance(c, p, answers(CallOf(c, p)), now))
  {
    hide Settled, AdvanceBaseJob, AdvanceUpload, Uploading, Edit, AddVolume, NeedReconcile, Observed, IsFinished;
    hide IsSucceeded, IsFailed;
    var r := answers(CallOf(c, p));
    match p
    case FetchBaseJob(d) => ExplainedByBaseJob(c, answers, d, now);
    case FetchUpload(d) => ExplainedByUpload(c, answers, d, now);
    case MakeUpload(d) => SettledByCreation(c, answers, d, now);
    case _ =>
      if AtArtifact(p) {
        ExplainedByArtifact(c, answers, p, r, now);
      }
  }

  lemma ExplainedByArtifact(c: Config, answers: Call -> Reply, p: Phase, r: Reply, now: Time)
    requires AtArtifact(p) && p.d.cur == p.d.read && !IsFinished(p.d.cur.conditions)
    ensures Explained(c, answers, Advance(c, p, r, now))
  {
    hide Settled, Missing, Advance, IsFinished;
    ArtifactStep(c, p, r, now);
    SettledByMissing(c, answers, p.d, now);
  }

  lemma ExplainedByBaseJob(c: Config, answers: Call -> Reply, d: Draft, now: Time)
    requires d.cur == d.read && !IsFinished(d.cur.conditions)
    ensures Explained(c, answers, AdvanceBaseJob(c, d, answers(GetBaseJob(c.spec.name, c.spec.jobType)), now))
  {
    hide Settled, Recorded, Observed, Exit, NoBaseJob, IsSucceeded;
    SettledByBaseJob(c, answers, d, now);
    NeverMakesUpload(c, d, answers(GetBaseJob(c.spec.name, c.spec.jobType)), now);
  }

  lemma NeverMakesUpload(c: Config, d: Draft, r: Reply, now: Time)
    ensures !AdvanceBaseJob(c, d, r, now).MakeUpload?
  {
    hide Recorded, Observed, IsSucceeded;
  }

  lemma ExplainedByUpload(c: Config, answers: Call -> Reply, d: Draft, now: Time)
    requires Uploadable(c, d)
    ensures Explained(c, answers, AdvanceUpload(c, d, answers(GetUploadJob(UploadJobName(c.spec))), now))
  {
    hide UploadDone, UploadGivenUp, Uploading, Settled, UploadJobName;
    SettledByUpload(c, answers, d, now);
  }

  lemma {:induction false} ExplainedAlways(c: Config, answers: Call -> Reply, clock: nat -> Time, n: nat)
    ensures Explained(c, answers, PhaseAfter(c, answers, clock, n))
  {
    hide Advance, Settled;
    if n > 0 {
      ExplainedAlways(c, answers, clock, n - 1);
      var p := PhaseAfter(c, answers, clock, n - 1);
      if !p.Finished? {
        SoundAlways(c, answers, clock, n - 1);
        ExplainedStep(c, answers, p, clock(n - 1));
      }
    }
  }

  // Two API servers that differ at most in the job itself.
  ghost predicate SameCluster(a: Call -> Reply, b: Call -> Reply) {
    forall call: Call :: !call.GetJob? && !call.UpdateStatus? ==> a(call) == b(call)
  }

  lemma SettledElsewhere(c: Config, a: Call -> Reply, b: Call -> Reply, s: Status)
    requires SameCluster(a, b) && Settled(c, a, s)
    ensures Settled(c, b, s)
  {
    hide Observed, SaysUploading, SaysRunning, IsFinished, IsSucceeded, IsFailed, Terminal, UploadJobName;
    hide ModelSaveClaimName;
  }

  // The reconcile of a settled status, phase by phase, up to its end.
  lemma SettledRun(c: Config, answers: Call -> Reply, clock: nat -> Time) returns (k: nat)
    requires answers(GetJob).JobFound? && Settled(c, answers, answers(GetJob).status)
    ensures 1 <= k <= 3 && PhaseAfter(c, answers, clock, k).Finished?
    ensures forall i :: 0 <= i < k ==> !PhaseAfter(c, answers, clock, i).StoreStatus?
  {
    hide PhaseAfter, Recorded, Uploading, Observed, SaysRunning, SaysUploading, UploadJobName, ModelSaveClaimName;
    hide UploadDone, UploadGivenUp;
    var s := answers(GetJob).status;
    var d := Draft(answers(GetJob).version, s, s);
    PhaseZero(c, answers, clock);
    OneReply(c, answers, clock, 0);
    k := 1;
    if !Terminal(c, s) {
      OneReply(c, answers, clock, 1);
      k := 2;
      if !IsFinished(s.conditions) {
        ObservedWasFound(c, answers(GetBaseJob(c.spec.name, c.spec.jobType)));
        RunningAgain(s, clock(1));
      } else {
        assert PhaseAfter(c, answers, clock, 1) == FetchUpload(d);
        if answers(GetUploadJob(UploadJobName(c.spec))).NotFound? {
          OneReply(c, answers, clock, 2);
          k := 3;
          if SaysUploading(s) {
            UploadingAgain(s, clock(2));
          }
        } else if SaysUploading(s) {
          UploadingAgain(s, clock(1));
        }
      }
    }
  }

  lemma RunningAgain(s: Status, now: Time)
    requires SaysRunning(s)
    ensures Recorded(s, InProgress, now) == s
  {
    hide Edit;
    EditAgain(s, Running, True, "BaseJobRunning", "BaseJob is running", now);
  }

  lemma UploadingAgain(s: Status, now: Time)
    requires SaysUploading(s)
    ensures Uploading(s, now) == s
  {
    hide Edit;
    EditAgain(s, ModelUploading, True, "UploadingModel", "modelupload job is running", now);
  }

  lemma StoredStatusSettles(c: Config, a: Call -> Reply, clock: nat -> Time, n: nat, b: Call -> Reply,
                            later: nat -> Time)
    requires PhaseAfter(c, a, clock, n).StoreStatus?
    requires SameCluster(a, b)
    requires b(GetJob).JobFound? && b(GetJob).status == PhaseAfter(c, a, clock, n).d.cur
    ensures !Writes(c, b, later)
  {
    hide PhaseAfter, Sent, Settled, SameCluster;
    ExplainedAlways(c, a, clock, n);
    SettledElsewhere(c, a, b, b(GetJob).status);
    var k := SettledRun(c, b, later);
    FinishedStays(c, b, later, k, 9);
    forall version, s
      ensures Call.UpdateStatus(version, s) !in Calls(c, b, later)
    {
      if Call.UpdateStatus(version, s) in Calls(c, b, later) {
        var i := SentFrom(c, b, later, k, Call.UpdateStatus(version, s));
      }
    }
  }

  // ------------------------------------- a reconcile that has nothing to store

  ghost predicate Writes(c: Config, answers: Call -> Reply, clock: nat -> Time) {
    exists version, s :: Call.UpdateStatus(version, s) in Calls(c, answers, clock)
  }

  // A draft still as it was read.
  predicate Clean(p: Phase) {
    match p
    case FetchJob => true
    case Finished(_) => true
    case StoreStatus(_, _) => false
    case _ => p.d.cur == p.d.read
  }

  // A draft in which success has been recorded, and nothing written yet.
  ghost predicate Dirty(c: Config, p: Phase) {
    && (p.FetchUpload? || p.MakeUpload?) && Uploadable(c, p.d)
    && !IsSucceeded(p.d.read.conditions)
  }

  // A write that is bound to come: at once, or after the upload.
  ghost predicate WillWrite(c: Config, p: Phase) {
    p.StoreStatus? || Dirty(c, p)
  }

  lemma CleanOrWrites(c: Config, p: Phase, r: Reply, now: Time)
    requires Sound(c, p) && Clean(p) && !p.Finished?
    ensures Clean(Advance(c, p, r, now)) || WillWrite(c, Advance(c, p, r, now))
  {
    hide AdvanceBaseJob, AdvanceUpload, AdvanceDataset, AdvanceDatasetClaim, AdvanceModel, AdvanceModelClaim;
    hide AddVolume, Uploading, NeedReconcile, IsFailed;
    match p
    case FetchBaseJob(d) => CleanOrWritesBaseJob(c, d, r, now);
    case FetchUpload(d) => CleanOrWritesUpload(c, d, r, now);
    case _ =>
      if AtArtifact(p) {
        CleanOrWritesArtifact(c, p, r, now);
      }
  }

  lemma CleanOrWritesUpload(c: Config, d: Draft, r: Reply, now: Time)
    requires d.cur == d.read
    ensures Clean(AdvanceUpload(c, d, r, now)) || AdvanceUpload(c, d, r, now).StoreStatus?
  {
    hide UploadDone, UploadGivenUp, Uploading;
  }

  lemma CleanOrWritesArtifact(c: Config, p: Phase, r: Reply, now: Time)
    requires AtArtifact(p) && p.d.cur == p.d.read
    ensures Clean(Advance(c, p, r, now)) || Advance(c, p, r, now).StoreStatus?
  {
    hide Advance, Edit, Started;
    ArtifactStep(c, p, r, now);
  }

  lemma CleanOrWritesBaseJob(c: Config, d: Draft, r: Reply, now: Time)
    requires d.cur == d.read && !IsFinished(d.cur.conditions)
    ensures Clean(AdvanceBaseJob(c, d, r, now)) || WillWrite(c, AdvanceBaseJob(c, d, r, now))
  {
    hide Recorded, Observed;
    var seen := Observed(c.spec, r);
    if seen.Some? {
      RecordedFlags(d.cur, seen.value, now);
    }
  }

  lemma WriteStillComes(c: Config, p: Phase, r: Reply, now: Time)
    requires Dirty(c, p)
    ensures WillWrite(c, Advance(c, p, r, now))
  {
    hide UploadDone, UploadGivenUp, Uploading, Terminal, WantsUpload, IsFailed, IsSucceeded;
    UploadFlags(p.d.cur, now);
  }

  lemma WriteIsSent(c: Config, answers: Call -> Reply, clock: nat -> Time, n: nat)
    requires WillWrite(c, PhaseAfter(c, answers, clock, n))
    ensures Writes(c, answers, clock)
    decreases Remaining(PhaseAfter(c, answers, clock, n))
  {
    hide Advance, PhaseAfter, Sent, Dirty;
    var p := PhaseAfter(c, answers, clock, n);
    WillWriteIsGoing(c, p);
    if n >= 9 {
      NineCallsSuffice(c, answers, clock, n);
      assert false;
    }
    if p.StoreStatus? {
      SentGrows(c, answers, clock, n, 9);
      assert Call.UpdateStatus(p.d.version, p.d.cur) in Calls(c, answers, clock);
    } else {
      OneReply(c, answers, clock, n);
      SoundAlways(c, answers, clock, n);
      RemainingDrops(c, p, answers(CallOf(c, p)), clock(n));
      WriteStillComes(c, p, answers(CallOf(c, p)), clock(n));
      WriteIsSent(c, answers, clock, n + 1);
    }
  }

  lemma WillWriteIsGoing(c: Config, p: Phase)
    requires WillWrite(c, p)
    ensures !p.Finished?
  {
  }

  // A reconcile that writes nothing keeps its draft clean throughout.
  lemma {:induction false} SilentIsClean(c: Config, answers: Call -> Reply, clock: nat -> Time, n: nat)
    requires !Writes(c, answers, clock)
    ensures Clean(PhaseAfter(c, answers, clock, n))
  {
    hide Advance, Writes, WillWrite, Clean, Sound;
    CleanAtStart();
    if n > 0 {
      SilentIsClean(c, answers, clock, n - 1);
      var p := PhaseAfter(c, answers, clock, n - 1);
      if !p.Finished? {
        SoundAlways(c, answers, clock, n - 1);
        CleanOrWrites(c, p, answers(CallOf(c, p)), clock(n - 1));
        if WillWrite(c, PhaseAfter(c, answers, clock, n)) {
          WriteIsSent(c, answers, clock, n);
        }
      }
    }
  }

  lemma CleanAtStart()
    ensures Clean(FetchJob)
  {
  }

  // The same phase over a snapshot of another version.
  function Moved(p: Phase, version: nat): Phase {
    match p
    case FetchJob => p
    case Finished(_) => p
    case FetchBaseJob(d) => FetchBaseJob(d.(version := version))
    case FetchCheckpoint(d) => FetchCheckpoint(d.(version := version))
    case MakeCheckpoint(d) => MakeCheckpoint(d.(version := version))
    case FetchModelSave(d, pod) => FetchModelSave(d.(version := version), pod)
    case MakeModelSave(d) => MakeModelSave(d.(version := version))
    case FetchDataset(d, pod) => FetchDataset(d.(version := version), pod)
    case FetchDatasetClaim(d, pod, claim) => FetchDatasetClaim(d.(version := version), pod, claim)
    case FetchModel(d, pod) => FetchModel(d.(version := version), pod)
    case FetchModelClaim(d, pod, claim) => FetchModelClaim(d.(version := version), pod, claim)
    case MakeBaseJob(d, pod) => MakeBaseJob(d.(version := version), pod)
    case FetchUpload(d) => FetchUpload(d.(version := version))
    case MakeUpload(d) => MakeUpload(d.(version := version))
    case StoreStatus(d, r) => StoreStatus(d.(version := version), r)
  }

  // Between clean drafts the clock is never read to any effect.
  lemma SilentStep(c: Config, p: Phase, r: Reply, now: Time, version: nat, again: Time)
    requires Sound(c, p) && Clean(p) && !p.Finished? && !p.FetchJob?
    requires Clean(Advance(c, p, r, now))
    ensures Advance(c, Moved(p, version), r, again) == Moved(Advance(c, p, r, now), version)
  {
    hide AdvanceBaseJob, AdvanceUpload, AddVolume, Edit, IsFinished, IsFailed, IsSucceeded, NeedReconcile, Uploading;
    match p
    case FetchBaseJob(d) => SilentBaseJob(c, d, r, now, version, again);
    case FetchUpload(d) => SilentUpload(c, d, r, now, version, again);
    case MakeUpload(d) =>
      if r.Accepted? {
        SilentUploading(c, d, now, again);
      }
    case _ =>
      if AtArtifact(p) {
        SilentArtifact(c, p, r, now, version, again);
      }
  }

  lemma SilentArtifact(c: Config, p: Phase, r: Reply, now: Time, version: nat, again: Time)
    requires AtArtifact(p) && Sound(c, p) && Clean(Advance(c, p, r, now))
    ensures Advance(c, Moved(p, version), r, again) == Moved(Advance(c, p, r, now), version)
  {
    hide AdvanceDataset, AdvanceDatasetClaim, AdvanceModel, AdvanceModelClaim;
    match p
    case FetchDataset(d, pod) => SilentDataset(d, pod, r, now, version, again);
    case FetchDatasetClaim(d, pod, claim) => SilentDatasetClaim(c, d, pod, claim, r, now, version, again);
    case FetchModel(d, pod) => SilentModel(d, pod, r, now, version, again);
    case FetchModelClaim(d, pod, claim) => SilentModelClaim(c, d, pod, claim, r, now, version, again);
  }

  lemma SilentDataset(d: Draft, pod: Pod, r: Reply, now: Time, version: nat, again: Time)
    requires d.cur == d.read && !IsFinished(d.cur.conditions) && Clean(AdvanceDataset(d, pod, r, now))
    ensures AdvanceDataset(d.(version := version), pod, r, again) == Moved(AdvanceDataset(d, pod, r, now), version)
  {
    hide Missing, IsFinished;
    MissingIsDirty(d, now);
  }

  lemma SilentDatasetClaim(c: Config, d: Draft, pod: Pod, claim: string, r: Reply, now: Time, version: nat, again: Time)
    requires d.cur == d.read && !IsFinished(d.cur.conditions) && Clean(AdvanceDatasetClaim(c, d, pod, claim, r, now))
    ensures AdvanceDatasetClaim(c, d.(version := version), pod, claim, r, again)
            == Moved(AdvanceDatasetClaim(c, d, pod, claim, r, now), version)
  {
    hide Missing, AddVolume, IsFinished, WantsModel;
    MissingIsDirty(d, now);
  }

  lemma SilentModel(d: Draft, pod: Pod, r: Reply, now: Time, version: nat, again: Time)
    requires d.cur == d.read && !IsFinished(d.cur.conditions) && Clean(AdvanceModel(d, pod, r, now))
    ensures AdvanceModel(d.(version := version), pod, r, again) == Moved(AdvanceModel(d, pod, r, now), version)
  {
    hide Missing, IsFinished;
    MissingIsDirty(d, now);
  }

  lemma SilentModelClaim(c: Config, d: Draft, pod: Pod, claim: string, r: Reply, now: Time, version: nat, again: Time)
    requires d.cur == d.read && !IsFinished(d.cur.conditions) && Clean(AdvanceModelClaim(c, d, pod, claim, r, now))
    ensures AdvanceModelClaim(c, d.(version := version), pod, claim, r, again)
            == Moved(AdvanceModelClaim(c, d, pod, claim, r, now), version)
  {
    hide Missing, AddVolume, IsFinished;
    MissingIsDirty(d, now);
  }

  lemma MissingIsDirty(d: Draft, now: Time)
    requires d.cur == d.read && !IsFinished(d.cur.conditions)
    ensures forall reason, message {:trigger Missing(d, reason, message, now)} ::
              !Clean(Missing(d, reason, message, now))
  {
    hide Missing, IsFinished;
    MissingAnyReason(d, now);
  }

  lemma SilentBaseJob(c: Config, d: Draft, r: Reply, now: Time, version: nat, again: Time)
    requires d.cur == d.read && !IsFinished(d.cur.conditions) && Clean(AdvanceBaseJob(c, d, r, now))
    ensures AdvanceBaseJob(c, d.(version := version), r, again) == Moved(AdvanceBaseJob(c, d, r, now), version)
  {
    hide Recorded, Observed, SaysRunning;
    var seen := Observed(c.spec, r);
    if seen.Some? && !r.NotFound? {
      RecordedFlags(d.cur, seen.value, now);
      RunningSaid(d.cur, now);
      if SaysRunning(d.cur) {
        RunningAgain(d.cur, now);
        RunningAgain(d.cur, again);
      }
    }
  }

  lemma SilentUploading(c: Config, d: Draft, now: Time, again: Time)
    requires Uploadable(c, d) && Uploading(d.cur, now) == d.cur
    ensures Uploading(d.cur, again) == d.cur
  {
    hide Uploading;
    UploadingSaid(d.cur, now);
    UploadingAgain(d.cur, again);
  }

  lemma SilentUpload(c: Config, d: Draft, r: Reply, now: Time, version: nat, again: Time)
    requires Uploadable(c, d) && d.cur == d.read && Clean(AdvanceUpload(c, d, r, now))
    ensures AdvanceUpload(c, d.(version := version), r, again) == Moved(AdvanceUpload(c, d, r, now), version)
  {
    hide Uploading, UploadDone, UploadGivenUp, IsFailed, IsSucceeded, Terminal;
    UploadFlags(d.cur, now);
    TerminalByUpload(c, UploadDone(d.cur, now));
    TerminalByUpload(c, UploadGivenUp(d.cur, now));
    if Uploading(d.cur, now) == d.cur {
      SilentUploading(c, d, now, again);
    }
  }

  lemma MovedCall(c: Config, p: Phase, version: nat)
    requires Clean(p) && !p.Finished?
    ensures CallOf(c, Moved(p, version)) == CallOf(c, p) && !Moved(p, version).Finished?
    ensures !CallOf(c, p).UpdateStatus? && (CallOf(c, p).GetJob? ==> p.FetchJob?)
  {
    hide BuildBaseJob, CheckpointClaimName, ModelSaveClaimName, UploadJobName;
  }

  // A silent reconcile goes through the same phases at any other time and over
  // any other version of the same status.
  lemma {:induction false} SilentAgain(c: Config, a: Call -> Reply, clock: nat -> Time, b: Call -> Reply,
                                       later: nat -> Time, n: nat)
    requires !Writes(c, a, clock) && SameCluster(a, b)
    requires a(GetJob).JobFound? && b(GetJob).JobFound? && b(GetJob).status == a(GetJob).status
    ensures PhaseAfter(c, b, later, n) == Moved(PhaseAfter(c, a, clock, n), b(GetJob).version)
  {
    hide Advance, Writes, Moved, Clean, Sound, CallOf;
    var version := b(GetJob).version;
    MovedEnds(c, version);
    if n > 0 {
      SilentAgain(c, a, clock, b, later, n - 1);
      SilentIsClean(c, a, clock, n - 1);
      SilentIsClean(c, a, clock, n);
      SoundAlways(c, a, clock, n - 1);
      var p := PhaseAfter(c, a, clock, n - 1);
      if !p.Finished? {
        MovedCall(c, p, version);
        if p.FetchJob? {
          SilentEntered(c, a(GetJob), b(GetJob), clock(n - 1), later(n - 1));
        } else {
          SilentStep(c, p, a(CallOf(c, p)), clock(n - 1), version, later(n - 1));
        }
      }
    }
  }

  lemma MovedEnds(c: Config, version: nat)
    ensures Moved(FetchJob, version) == FetchJob && CallOf(c, FetchJob) == GetJob
    ensures forall r :: Moved(Finished(r), version) == Finished(r)
  {
  }

  lemma SilentEntered(c: Config, a: Reply, b: Reply, now: Time, again: Time)
    requires a.JobFound? && b.JobFound? && a.status == b.status
    ensures Advance(c, FetchJob, b, again) == Moved(Advance(c, FetchJob, a, now), b.version)
  {
    hide NeedReconcile, IsFinished, IsSucceeded;
  }

  lemma SilentStaysSilent(c: Config, a: Call -> Reply, clock: nat -> Time, b: Call -> Reply, later: nat -> Time)
    requires !Writes(c, a, clock) && SameCluster(a, b)
    requires a(GetJob).JobFound? && b(GetJob).JobFound? && b(GetJob).status == a(GetJob).status
    ensures !Writes(c, b, later)
  {
    hide PhaseAfter, Sent, SameCluster;
    forall version, s
      ensures Call.UpdateStatus(version, s) !in Calls(c, b, later)
    {
      if Call.UpdateStatus(version, s) in Calls(c, b, later) {
        var k := SentFrom(c, b, later, 9, Call.UpdateStatus(version, s));
        SilentAgain(c, a, clock, b, later, k);
        SilentIsClean(c, a, clock, k);
      }
    }
  }

  /** Reconciling again in an unchanged cluster, at whatever times: what a
      reconcile has sent to be stored is never written over by the next; and a
      reconcile of the very status the first one read writes again exactly when
      the first one wrote, that is, it writes nothing after nothing, and sends a
      write that was refused once more. */
  lemma RepeatStoresNothing(c: Config, a: Call -> Reply, clock: nat -> Time, b: Call -> Reply, later: nat -> Time)
    requires SameCluster(a, b) && a(GetJob).JobFound? && b(GetJob).JobFound?
    ensures forall version :: Call.UpdateStatus(version, b(GetJob).status) in Calls(c, a, clock) ==>
              !Writes(c, b, later)
    ensures b(GetJob).status == a(GetJob).status ==> (Writes(c, b, later) <==> Writes(c, a, clock))
  {
    hide PhaseAfter, Sent, Writes;
    forall version | Call.UpdateStatus(version, b(GetJob).status) in Calls(c, a, clock)
      ensures !Writes(c, b, later)
    {
      var n := SentFrom(c, a, clock, 9, Call.UpdateStatus(version, b(GetJob).status));
      StoredStatusSettles(c, a, clock, n, b, later);
    }
    if b(GetJob).status == a(GetJob).status {
      if !Writes(c, a, clock) {
        SilentStaysSilent(c, a, clock, b, later);
      }
      if !Writes(c, b, later) {
        SilentStaysSilent(c, b, later, a, clock);
      }
    }
  }
}
