/** When one reconcile puts the same question to the API server twice: calls carry
    the role of a claim here, the API server sees only its name. */
module ReconcileReads {
  import opened Wrappers
  import opened Conditions
  import opened Cluster
  import opened ReconcileMachine
  import opened ReconcileLaws
  import opened ReconcileOutcomes

  // A call as the API server sees it.
  function OnWire(call: Call): Call {
    match call
    case GetClaim(_, name) => GetClaim(Checkpoint, name)
    case CreateClaim(_, name, bytes) => CreateClaim(Checkpoint, name, bytes)
    case _ => call
  }

  ghost predicate AsksTwice(calls: seq<Call>) {
    exists i, j :: 0 <= i < j < |calls| && OnWire(calls[i]) == OnWire(calls[j])
  }

  // The claims a job has of its own and mounts.
  function OwnClaims(s: Spec): set<string> {
    (if s.ckptPath != "" then {CheckpointClaimName(s)} else {})
    + (if WantsModelSave(s) then {ModelSaveClaimName(s)} else {})
  }

  function DatasetClaimName(c: Config, answers: Call -> Reply): string {
    ClaimOf(answers(Call.GetDataset(c.spec.datasetName)))
  }

  function ModelClaimName(c: Config, answers: Call -> Reply): string {
    ClaimOf(answers(Call.GetModel(c.spec.pretrainModelName)))
  }

  // The reconcile gets as far as reading the claim of the dataset, or the model.
  ghost predicate ReadsDatasetClaim(c: Config, answers: Call -> Reply) {
    && Unstarted(c, answers) && CheckpointReady(c, answers) && ModelSaveReady(c, answers)
    && WantsDataset(c.spec) && Done(answers(Call.GetDataset(c.spec.datasetName)))
  }

  ghost predicate ReadsModelClaim(c: Config, answers: Call -> Reply) {
    && Unstarted(c, answers) && CheckpointReady(c, answers) && ModelSaveReady(c, answers) && DatasetReady(c, answers)
    && WantsModel(c.spec) && Done(answers(Call.GetModel(c.spec.pretrainModelName)))
  }

  // An artifact's claim is one read before it.
  ghost predicate SharesClaim(c: Config, answers: Call -> Reply) {
    || (ReadsDatasetClaim(c, answers) && DatasetClaimName(c, answers) in OwnClaims(c.spec))
    || (ReadsModelClaim(c, answers)
        && (|| ModelClaimName(c, answers) in OwnClaims(c.spec)
            || (WantsDataset(c.spec) && ModelClaimName(c, answers) == DatasetClaimName(c, answers))))
  }

  // ------------------------------------------------- calls by their position

  lemma {:induction false} CallAt(c: Config, answers: Call -> Reply, clock: nat -> Time, n: nat, i: nat)
    requires i < |Sent(c, answers, clock, n)|
    ensures !PhaseAfter(c, answers, clock, i).Finished?
    ensures Sent(c, answers, clock, n)[i] == CallOf(c, PhaseAfter(c, answers, clock, i))
  {
    hide Advance, CallOf;
    if i < |Sent(c, answers, clock, n - 1)| {
      CallAt(c, answers, clock, n - 1, i);
    } else {
      NineCallsSuffice(c, answers, clock, n - 1);
    }
  }

  lemma TwoPlaces(calls: seq<Call>, x: Call, y: Call)
    requires x in calls && y in calls && x != y && OnWire(x) == OnWire(y)
    ensures AsksTwice(calls)
  {
    hide OnWire;
    var i :| 0 <= i < |calls| && calls[i] == x;
    var j :| 0 <= j < |calls| && calls[j] == y;
    assert i < j || j < i;
  }

  // --------------------------------------------------------- the two directions

  ghost predicate Known(c: Config, answers: Call -> Reply, p: Phase) {
    Sound(c, p) && Tracks(answers, p) && Gated(c, answers, p) && !p.Finished?
  }

  lemma KnownAt(c: Config, answers: Call -> Reply, clock: nat -> Time, n: nat)
    requires !PhaseAfter(c, answers, clock, n).Finished?
    ensures Known(c, answers, PhaseAfter(c, answers, clock, n))
  {
    hide PhaseAfter, Sound, Tracks, Gated;
    SoundAlways(c, answers, clock, n);
    GatedAlways(c, answers, clock, n);
  }

  lemma SameQuestion(c: Config, answers: Call -> Reply, p: Phase, q: Phase)
    requires Known(c, answers, p) && Known(c, answers, q) && Remaining(q) < Remaining(p)
    requires OnWire(CallOf(c, p)) == OnWire(CallOf(c, q))
    ensures SharesClaim(c, answers)
  {
    hide BuildBaseJob, UploadJobName, PodAfterDataset, PodAfterModelSave, PodAfterCheckpoint, FinalPod, Terminal;
    OwnNamesDiffer(c.spec);
  }

  lemma OwnNamesDiffer(s: Spec)
    ensures CheckpointClaimName(s) != ModelSaveClaimName(s)
  {
    assert |CheckpointClaimName(s)| != |ModelSaveClaimName(s)|;
  }

  lemma ReadsOwnClaims(c: Config, answers: Call -> Reply, clock: nat -> Time)
    requires Unstarted(c, answers) && CheckpointReady(c, answers)
    ensures c.spec.ckptPath != "" ==> GetClaim(Checkpoint, CheckpointClaimName(c.spec)) in Calls(c, answers, clock)
    ensures WantsModelSave(c.spec) ==> GetClaim(ModelSave, ModelSaveClaimName(c.spec)) in Calls(c, answers, clock)
  {
    hide PhaseAfter, Sent, AddVolume;
    var d := ReachNoBaseJob(c, answers, clock);
    var n := 2;
    if c.spec.ckptPath != "" {
      SentGrows(c, answers, clock, 2, 9);
      OneReply(c, answers, clock, 2);
      n := 3;
    }
    if WantsModelSave(c.spec) {
      SentGrows(c, answers, clock, n, 9);
    }
  }

  lemma ReadsDatasetClaimThen(c: Config, answers: Call -> Reply, clock: nat -> Time)
    requires ReadsDatasetClaim(c, answers)
    ensures GetClaim(DatasetClaim, DatasetClaimName(c, answers)) in Calls(c, answers, clock)
  {
    hide PhaseAfter, Sent;
    var _, n := ReachAfterModelSave(c, answers, clock);
    OneReply(c, answers, clock, n);
    SentGrows(c, answers, clock, n + 1, 9);
  }

  lemma ReadsModelClaimThen(c: Config, answers: Call -> Reply, clock: nat -> Time)
    requires ReadsModelClaim(c, answers)
    ensures GetClaim(ModelClaim, ModelClaimName(c, answers)) in Calls(c, answers, clock)
  {
    hide PhaseAfter, Sent, PodAfterDataset;
    var _, n := ReachAfterDataset(c, answers, clock);
    OneReply(c, answers, clock, n);
    SentGrows(c, answers, clock, n + 1, 9);
  }

  lemma SharedClaimAskedTwice(c: Config, answers: Call -> Reply, clock: nat -> Time)
    requires SharesClaim(c, answers)
    ensures AsksTwice(Calls(c, answers, clock))
  {
    hide Calls, AsksTwice, CheckpointClaimName, ModelSaveClaimName, WantsModelSave;
    var calls := Calls(c, answers, clock);
    var dataset, model := DatasetClaimName(c, answers), ModelClaimName(c, answers);
    ReadsOwnClaims(c, answers, clock);
    var shared := if ReadsDatasetClaim(c, answers) && dataset in OwnClaims(c.spec)
                  then GetClaim(DatasetClaim, dataset) else GetClaim(ModelClaim, model);
    if shared.role.DatasetClaim? {
      ReadsDatasetClaimThen(c, answers, clock);
    } else {
      ReadsModelClaimThen(c, answers, clock);
    }
    if c.spec.ckptPath != "" && shared.name == CheckpointClaimName(c.spec) {
      TwoPlaces(calls, GetClaim(Checkpoint, shared.name), shared);
    } else if WantsModelSave(c.spec) && shared.name == ModelSaveClaimName(c.spec) {
      TwoPlaces(calls, GetClaim(ModelSave, shared.name), shared);
    } else {
      ReadsDatasetClaimThen(c, answers, clock);
      TwoPlaces(calls, GetClaim(DatasetClaim, dataset), shared);
    }
  }

  /** Of what the API server sees, a reconcile asks something twice exactly when it
      reads the claim of a dataset or a model under a name it has read before: one
      of the job's own claims, or, for the model, the dataset's.  Every other call
      is sent once. */
  lemma AsksTwiceExactly(c: Config, answers: Call -> Reply, clock: nat -> Time)
    ensures AsksTwice(Calls(c, answers, clock)) <==> SharesClaim(c, answers)
  {
    hide PhaseAfter, Sent, CallOf, Known, Remaining, OnWire, SharesClaim;
    var calls := Calls(c, answers, clock);
    if AsksTwice(calls) {
      var i, j :| 0 <= i < j < |calls| && OnWire(calls[i]) == OnWire(calls[j]);
      CallAt(c, answers, clock, 9, i);
      CallAt(c, answers, clock, 9, j);
      KnownAt(c, answers, clock, i);
      KnownAt(c, answers, clock, j);
      RemainingFalls(c, answers, clock, i, j);
      SameQuestion(c, answers, PhaseAfter(c, answers, clock, i), PhaseAfter(c, answers, clock, j));
    }
    if SharesClaim(c, answers) {
      SharedClaimAskedTwice(c, answers, clock);
    }
  }

  /** It does happen: a dataset and a model on one claim. */
  lemma SharedClaimIsReadTwice(clock: nat -> Time) returns (c: Config, answers: Call -> Reply)
    ensures GetClaim(DatasetClaim, "p") in Calls(c, answers, clock)
            && GetClaim(ModelClaim, "p") in Calls(c, answers, clock)
  {
    hide Calls;
    c := Config(Spec("a", MPI, "", 0, "", 0, "/d", "d", "/m", "m", false, 1, 8), 3);
    answers := (call: Call) =>
      if call.GetJob? then JobFound(0, Status([], None, None))
      else if call.GetClaim? then ClaimFound(true)
      else if call.GetDataset? || call.GetModel? then ArtifactFound("done", "p")
      else NotFound;
    assert Unstarted(c, answers) && CheckpointReady(c, answers) && ModelSaveReady(c, answers);
    assert ReadsDatasetClaim(c, answers) && ReadsModelClaim(c, answers);
    ReadsDatasetClaimThen(c, answers, clock);
    ReadsModelClaimThen(c, answers, clock);
  }
}
