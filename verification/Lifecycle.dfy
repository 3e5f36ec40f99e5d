/** A job's life over whole runs: any number of reconciles in flight, each from a
    possibly stale snapshot, interleaved call by call, crashing anywhere, with
    arbitrary replies from the API server.  Assumed is that a status write goes
    through only against the version it was read at, that only reconciles write
    the status, and that the job keeps its spec and is not deleted and made anew. */
module Lifecycle {
  import opened Wrappers
  import opened Conditions
  import opened Cluster
  import opened ReconcileMachine
  import opened ReconcileLaws

  datatype Exchange = Exchange(call: Call, reply: Reply)

  // Every version of the stored status, the reconciles in flight, and every
  // call ever answered.
  datatype World = World(store: seq<Status>, workers: map<nat, Phase>, log: seq<Exchange>)

  datatype Event =
    | Begin(w: nat)
    | Crash(w: nat)
    | Deliver(w: nat, version: nat, created: Option<Time>)
    | Answer(w: nat, reply: Reply, now: Time)
    | Write(w: nat, fate: Fate)

  // A snapshot from the informer cache: a stored version, possibly with the
  // Created condition that the create handler adds to the cached object.
  function Seen(c: Config, s: Status, created: Option<Time>): Status {
    if created.None? then s
    else Edit(s, Created, True, "CpodjobCreated", "Cpodjob " + c.spec.name + " is created", created.value)
  }

  function Step(c: Config, world: World, w: nat, reply: Reply, now: Time): World
    requires w in world.workers && !world.workers[w].Finished?
  {
    var p := world.workers[w];
    world.(workers := world.workers[w := Advance(c, p, reply, now)], log := world.log + [Exchange(CallOf(c, p), reply)])
  }

  // An event that does not apply changes nothing.
  function Apply(c: Config, world: World, e: Event): World {
    match e
    case Begin(w) => world.(workers := world.workers[w := FetchJob])
    case Crash(w) => world.(workers := world.workers - {w})
    case Deliver(w, version, created) =>
      if w in world.workers && world.workers[w].FetchJob? && version < |world.store|
      then Step(c, world, w, JobFound(version, Seen(c, world.store[version], created)), 0) else world
    case Answer(w, reply, now) =>
      if w in world.workers && !world.workers[w].Finished? && !world.workers[w].StoreStatus?
      then Step(c, world, w, if world.workers[w].FetchJob? then Error else reply, now) else world
    case Write(w, fate) =>
      if w in world.workers && world.workers[w].StoreStatus? then ApplyWrite(c, world, w, fate) else world
  }

  function ApplyWrite(c: Config, world: World, w: nat, fate: Fate): World
    requires w in world.workers && world.workers[w].StoreStatus?
  {
    var d := world.workers[w].d;
    var current := d.version == |world.store| - 1;
    var stored := if current && !fate.Refused? then world.store + [d.cur] else world.store;
    Step(c, world.(store := stored), w, if current && fate.Delivered? then Accepted else Error, 0)
  }

  function Run(c: Config, s0: Status, es: seq<Event>): World {
    if es == [] then World([s0], map[], []) else Apply(c, Run(c, s0, es[..|es| - 1]), es[|es| - 1])
  }

  function Stored(world: World): Status
    requires world.store != []
  {
    world.store[|world.store| - 1]
  }

  // ------------------------------------------- runs from any starting status

  lemma SeenKeepsVerdict(c: Config, s: Status, created: Option<Time>)
    ensures Terminal(c, Seen(c, s, created)) <==> Terminal(c, s)
    ensures IsSucceeded(Seen(c, s, created).conditions) <==> IsSucceeded(s.conditions)
  {
    hide FilterOut;
    if created.Some? && !IsFailed(s.conditions) {
      SetLookups(s.conditions,
        Condition(Created, True, "CpodjobCreated", "Cpodjob " + c.spec.name + " is created", created.value));
    }
  }

  predicate HasDraft(p: Phase) {
    !p.FetchJob? && !p.Finished?
  }

  ghost predicate WorkerSafe(c: Config, store: seq<Status>, p: Phase)
    requires store != []
  {
    && Sound(c, p)
    && (HasDraft(p) ==> p.d.version < |store| && (Terminal(c, p.d.read) <==> Terminal(c, store[p.d.version])))
    && (p == Finished(QUIET) ==> Terminal(c, store[|store| - 1]))
  }

  ghost predicate Safe(c: Config, world: World) {
    && world.store != []
    && (forall i :: 0 <= i < |world.store| - 1 ==> !Terminal(c, world.store[i]))
    && (forall w :: w in world.workers ==> WorkerSafe(c, world.store, world.workers[w]))
  }

  // The draft a phase carries on, if it carries one on.
  lemma DraftCarried(c: Config, p: Phase, r: Reply, now: Time)
    requires !p.Finished? && HasDraft(Advance(c, p, r, now))
    ensures var q := Advance(c, p, r, now);
            if p.FetchJob? then r.JobFound? && q.d.version == r.version && q.d.read == r.status
            else q.d.version == p.d.version && q.d.read == p.d.read
  {
    hide UploadDone, UploadGivenUp, Uploading, Recorded, Edit, AddVolume, NeedReconcile, Observed, IsFinished;
    hide IsSucceeded;
  }

  lemma SafeStep(c: Config, store: seq<Status>, p: Phase, r: Reply, now: Time)
    requires store != [] && WorkerSafe(c, store, p) && !p.Finished?
    requires p.FetchJob? && r.JobFound? ==>
               r.version < |store| && (Terminal(c, r.status) <==> Terminal(c, store[r.version]))
    requires p.FetchJob? ==> forall i :: 0 <= i < |store| - 1 ==> !Terminal(c, store[i])
    requires p.StoreStatus? && r.Accepted? ==> store[|store| - 1] == p.d.cur
    ensures WorkerSafe(c, store, Advance(c, p, r, now))
  {
    hide Advance, Terminal;
    SoundStep(c, p, r, now);
    if HasDraft(Advance(c, p, r, now)) {
      DraftCarried(c, p, r, now);
    }
  }

  lemma SafeApply(c: Config, world: World, e: Event)
    requires Safe(c, world)
    ensures Safe(c, Apply(c, world, e))
  {
    hide Advance, Terminal, Sound, Seen, CallOf;
    match e
    case Begin(w) => SoundAtStart(c);
    case Crash(_) =>
    case Deliver(w, version, created) =>
      if w in world.workers && world.workers[w].FetchJob? && version < |world.store| {
        SeenKeepsVerdict(c, world.store[version], created);
        SafeStep(c, world.store, world.workers[w], JobFound(version, Seen(c, world.store[version], created)), 0);
      }
    case Answer(w, reply, now) =>
      if w in world.workers && !world.workers[w].Finished? && !world.workers[w].StoreStatus? {
        SafeStep(c, world.store, world.workers[w], if world.workers[w].FetchJob? then Error else reply, now);
      }
    case Write(w, fate) =>
      if w in world.workers && world.workers[w].StoreStatus? {
        SafeWrite(c, world, w, fate);
      }
  }

  lemma SafeWrite(c: Config, world: World, w: nat, fate: Fate)
    requires Safe(c, world) && w in world.workers && world.workers[w].StoreStatus?
    ensures Safe(c, ApplyWrite(c, world, w, fate))
  {
    hide Advance, Terminal, CallOf;
    var d := world.workers[w].d;
    var current := d.version == |world.store| - 1;
    var stored := if current && !fate.Refused? then world.store + [d.cur] else world.store;
    if current && !fate.Refused? {
      // The version written over was not terminal, so no reconcile is content.
      assert !Terminal(c, world.store[|world.store| - 1]);
      forall v | v in world.workers
        ensures WorkerSafe(c, stored, world.workers[v])
      {
        assert WorkerSafe(c, world.store, world.workers[v]);
      }
    }
    SafeStep(c, stored, world.workers[w], if current && fate.Delivered? then Accepted else Error, 0);
  }

  lemma {:induction false} SafeRun(c: Config, s0: Status, es: seq<Event>)
    ensures Safe(c, Run(c, s0, es))
  {
    hide Apply, Terminal;
    if es != [] {
      SafeRun(c, s0, es[..|es| - 1]);
      SafeApply(c, Run(c, s0, es[..|es| - 1]), es[|es| - 1]);
    }
  }

  /** No lost wake-up over runs: at any moment of any run, from any starting
      status, if some reconcile has returned without error and without asking to
      be called again, the stored status is terminal. */
  lemma NoLostWakeupInRuns(c: Config, s0: Status, es: seq<Event>, w: nat)
    requires w in Run(c, s0, es).workers && Run(c, s0, es).workers[w] == Finished(QUIET)
    ensures Run(c, s0, es).store != [] && Terminal(c, Stored(Run(c, s0, es)))
  {
    SafeRun(c, s0, es);
  }

  lemma {:induction false} StoreGrows(c: Config, s0: Status, es: seq<Event>, more: seq<Event>)
    ensures Run(c, s0, es).store <= Run(c, s0, es + more).store
  {
    hide Advance, CallOf, Seen;
    if more == [] {
      assert es + more == es;
    } else {
      var init := more[..|more| - 1];
      assert (es + more)[..|es + more| - 1] == es + init;
      StoreGrows(c, s0, es, init);
    }
  }

  /** A terminal status is final: no event after it changes what is stored. */
  lemma TerminalIsFinal(c: Config, s0: Status, es: seq<Event>, more: seq<Event>)
    requires Run(c, s0, es).store != [] && Terminal(c, Stored(Run(c, s0, es)))
    ensures Run(c, s0, es + more).store == Run(c, s0, es).store
  {
    hide Terminal, Run;
    StoreGrows(c, s0, es, more);
    SafeRun(c, s0, es + more);
    var short, long := Run(c, s0, es).store, Run(c, s0, es + more).store;
    assert long[|short| - 1] == short[|short| - 1];
  }
}
