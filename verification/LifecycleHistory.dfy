/** What every run of a job's life keeps, when it starts with an empty or
    Created-only status: the shape of the stored status and its steady progress. */
module LifecycleHistory {
  import opened Wrappers
  import opened Conditions
  import opened Cluster
  import opened ReconcileMachine
  import opened ReconcileLaws
  import opened StatusShape
  import opened Lifecycle

  predicate Initial(s: Status) {
    && |s.conditions| <= 1 && (forall c :: c in s.conditions ==> c.kind.Created?)
    && s.startTime.None?
  }

  lemma InitialIsWellFormed(s: Status)
    requires Initial(s)
    ensures WellFormed(s) && Rank(s) == 0
  {
  }

  // ---------------------------------------------------------- shape and progress

  ghost predicate Shaped(p: Phase) {
    HasDraft(p) ==>
      && WellFormed(p.d.read) && WellFormed(p.d.cur)
      && (p.d.cur == p.d.read || Rank(p.d.cur) > Rank(p.d.read))
      && (p.FetchUpload? || p.MakeUpload? ==> !Has(p.d.cur.conditions, ModelUploaded))
  }

  lemma ShapedExit(d: Draft, r: Result)
    requires WellFormed(d.read) && WellFormed(d.cur)
    requires d.cur == d.read || Rank(d.cur) > Rank(d.read)
    ensures Shaped(Exit(d, r))
  {
  }

  lemma ShapedMissing(d: Draft, now: Time)
    requires d.cur == d.read && WellFormed(d.cur) && !IsFinished(d.cur.conditions)
    ensures forall reason, message {:trigger Missing(d, reason, message, now)} ::
              Shaped(Missing(d, reason, message, now))
  {
    hide Edit, WellFormed, Rank;
    forall reason, message
      ensures Shaped(Missing(d, reason, message, now))
    {
      MissingShape(d.cur, reason, message, now);
    }
  }

  lemma ShapedBaseJob(c: Config, d: Draft, r: Reply, now: Time)
    requires d.cur == d.read && WellFormed(d.cur) && !IsFinished(d.cur.conditions)
    ensures Shaped(AdvanceBaseJob(c, d, r, now))
  {
    hide Recorded, WellFormed, Rank, Observed, IsFinished, IsSucceeded;
    var seen := Observed(c.spec, r);
    if seen.Some? {
      RecordedShape(d.cur, seen.value, now);
    }
  }

  lemma ShapedUpload(c: Config, d: Draft, r: Reply, now: Time)
    requires Shaped(FetchUpload(d)) && Uploadable(c, d)
    ensures Shaped(AdvanceUpload(c, d, r, now))
    ensures Shaped(Exit(d.(cur := Uploading(d.cur, now)), FAILURE))
    ensures Shaped(Exit(d, FAILURE))
  {
    hide Edit, WellFormed, Rank, IsSucceeded, IsFailed;
    UploadingShape(d.cur, now);
    UploadedShape(d.cur, True, "Upload model succeed", now);
    UploadedShape(d.cur, False, "modelupload backofflimit exceed", now);
  }

  lemma ShapedEntered(c: Config, d: Draft)
    requires d.cur == d.read && WellFormed(d.cur)
    ensures Shaped(Entered(c, d))
  {
    hide WellFormed, Rank;
  }

  lemma ShapedArtifact(c: Config, p: Phase, r: Reply, now: Time)
    requires AtArtifact(p) && p.d.cur == p.d.read && WellFormed(p.d.cur) && !IsFinished(p.d.cur.conditions)
    ensures Shaped(Advance(c, p, r, now))
  {
    hide Advance, Missing, WellFormed, Rank, IsFinished;
    ArtifactStep(c, p, r, now);
    ShapedMissing(p.d, now);
    ShapedExit(p.d, FAILURE);
  }

  lemma ShapedStep(c: Config, p: Phase, r: Reply, now: Time)
    requires Sound(c, p) && Shaped(p) && !p.Finished?
    requires p.FetchJob? && r.JobFound? ==> WellFormed(r.status)
    ensures Shaped(Advance(c, p, r, now))
  {
    hide AdvanceBaseJob, AdvanceUpload, Missing, Entered, Uploading, WellFormed, Rank, AddVolume, IsFinished;
    hide Terminal, IsSucceeded, IsFailed;
    match p
    case FetchJob =>
      if r.JobFound? {
        ShapedEntered(c, Draft(r.version, r.status, r.status));
      }
    case FetchBaseJob(d) => ShapedBaseJob(c, d, r, now);
    case FetchUpload(d) => ShapedUpload(c, d, r, now);
    case MakeUpload(d) => ShapedUpload(c, d, r, now);
    case _ =>
      if AtArtifact(p) {
        ShapedArtifact(c, p, r, now);
      }
  }

  // A worker's draft was read from a version of the same rank.
  ghost predicate WorkerShaped(store: seq<Status>, p: Phase) {
    Shaped(p) && (HasDraft(p) ==> p.d.version < |store| && Rank(p.d.read) == Rank(store[p.d.version]))
  }

  ghost predicate Progressing(world: World) {
    && (forall i :: 0 <= i < |world.store| ==> WellFormed(world.store[i]))
    && (forall i, j :: 0 <= i < j < |world.store| ==> Rank(world.store[i]) < Rank(world.store[j]))
    && (forall w :: w in world.workers ==> WorkerShaped(world.store, world.workers[w]))
  }

  lemma SeenShape(c: Config, s: Status, created: Option<Time>)
    requires WellFormed(s)
    ensures WellFormed(Seen(c, s, created)) && Rank(Seen(c, s, created)) == Rank(s)
  {
    hide Edit, WellFormed;
    if created.Some? {
      CreatedShape(s, "CpodjobCreated", "Cpodjob " + c.spec.name + " is created", created.value);
    }
  }

  lemma ProgressStep(c: Config, world: World, w: nat, r: Reply, now: Time)
    requires Progressing(world) && w in world.workers && !world.workers[w].Finished? && Sound(c, world.workers[w])
    requires world.workers[w].FetchJob? && r.JobFound? ==>
               r.version < |world.store| && WellFormed(r.status) && Rank(r.status) == Rank(world.store[r.version])
    ensures Progressing(Step(c, world, w, r, now))
  {
    hide Advance, Shaped, Rank, WellFormed, CallOf, Sound;
    var p := world.workers[w];
    ShapedStep(c, p, r, now);
    if HasDraft(Advance(c, p, r, now)) {
      DraftCarried(c, p, r, now);
    }
  }

  lemma ProgressWrite(c: Config, world: World, w: nat, fate: Fate)
    requires Progressing(world) && Safe(c, world) && w in world.workers && world.workers[w].StoreStatus?
    ensures Progressing(ApplyWrite(c, world, w, fate))
  {
    hide Advance, Terminal, Rank, WellFormed, CallOf, Step;
    var d := world.workers[w].d;
    var current := d.version == |world.store| - 1;
    var stored := if current && !fate.Refused? then world.store + [d.cur] else world.store;
    assert WorkerSafe(c, world.store, world.workers[w]) && WorkerShaped(world.store, world.workers[w]);
    forall v | v in world.workers
      ensures WorkerShaped(stored, world.workers[v])
    {
      assert WorkerShaped(world.store, world.workers[v]);
    }
    ProgressStep(c, world.(store := stored), w, if current && fate.Delivered? then Accepted else Error, 0);
  }

  lemma ProgressApply(c: Config, world: World, e: Event)
    requires Progressing(world) && Safe(c, world)
    ensures Progressing(Apply(c, world, e))
  {
    hide Advance, Terminal, Rank, WellFormed, CallOf, Step, Seen, Sound;
    match e
    case Begin(w) =>
    case Crash(_) =>
    case Deliver(w, version, created) =>
      if w in world.workers && world.workers[w].FetchJob? && version < |world.store| {
        SeenShape(c, world.store[version], created);
        ProgressStep(c, world, w, JobFound(version, Seen(c, world.store[version], created)), 0);
      }
    case Answer(w, reply, now) =>
      if w in world.workers && !world.workers[w].Finished? && !world.workers[w].StoreStatus? {
        ProgressStep(c, world, w, if world.workers[w].FetchJob? then Error else reply, now);
      }
    case Write(w, fate) =>
      if w in world.workers && world.workers[w].StoreStatus? {
        ProgressWrite(c, world, w, fate);
      }
  }

  lemma {:induction false} ProgressRun(c: Config, s0: Status, es: seq<Event>)
    requires Initial(s0)
    ensures Progressing(Run(c, s0, es))
  {
    hide Apply, WellFormed, Rank;
    if es == [] {
      InitialIsWellFormed(s0);
    } else {
      ProgressRun(c, s0, es[..|es| - 1]);
      SafeRun(c, s0, es[..|es| - 1]);
      ProgressApply(c, Run(c, s0, es[..|es| - 1]), es[|es| - 1]);
    }
  }

  /** Every version ever stored, in every run: types are distinct, Failed and
      Succeeded never both True, a finished job not Running, an upload only of a
      succeeded job, and never both uploading and uploaded. */
  lemma StoredStatusInvariant(c: Config, s0: Status, es: seq<Event>, i: nat)
    requires Initial(s0) && i < |Run(c, s0, es).store|
    ensures var cs := Run(c, s0, es).store[i].conditions;
            && Distinct(cs)
            && !(IsFailed(cs) && IsSucceeded(cs))
            && (IsFinished(cs) ==> !IsStatusConditionTrue(cs, Running))
            && (Has(cs, ModelUploading) || Has(cs, ModelUploaded) ==> IsSucceeded(cs))
            && !(Has(cs, ModelUploading) && Has(cs, ModelUploaded))
    ensures WellFormed(Run(c, s0, es).store[i])
  {
    hide Run, WellFormed;
    ProgressRun(c, s0, es);
    WellFormedMeans(Run(c, s0, es).store[i]);
  }

  lemma {:induction false} RankBoundsLength(store: seq<Status>)
    requires forall i, j :: 0 <= i < j < |store| ==> Rank(store[i]) < Rank(store[j])
    ensures store != [] ==> |store| - 1 <= Rank(store[|store| - 1])
  {
    hide Rank;
    if |store| > 1 {
      RankBoundsLength(store[..|store| - 1]);
      assert Rank(store[|store| - 2]) < Rank(store[|store| - 1]);
    }
  }

  /** Every status write takes the job strictly further, so a run of any length,
      with any number of reconciles, makes at most four. */
  lemma AtMostFourWrites(c: Config, s0: Status, es: seq<Event>)
    requires Initial(s0)
    ensures var store := Run(c, s0, es).store;
            (forall i, j :: 0 <= i < j < |store| ==> Rank(store[i]) < Rank(store[j])) && |store| <= 5
  {
    hide Run, WellFormed;
    ProgressRun(c, s0, es);
    RankBoundsLength(Run(c, s0, es).store);
  }
}
