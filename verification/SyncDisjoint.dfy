/** When a job is both in the cluster and in the buffer of failed creations, over
    every interleaving of module SyncProtocol. */
module SyncDisjoint {
  import opened Wrappers
  import opened FailureBuffer
  import opened SyncProtocol
  import opened SyncSolo
  import SyncPass

  // No job of a known type is followed by another of its name.
  predicate RepeatsHarmless(portal: seq<PortalJob>) {
    forall i, j | 0 <= i < j < |portal| :: portal[i].name == portal[j].name ==> !HasKnownType(portal[i])
  }

  ghost predicate HarmlessLists(es: seq<Event>) {
    forall e :: e in es && e.Fetch? && e.portal.Some? ==> RepeatsHarmless(e.portal.value)
  }

  // The jobs created without an acknowledgement and in the cluster since.
  ghost function LostNames(es: seq<Event>): set<string> {
    if es == [] then {}
    else
      var init, e := es[..|es| - 1], es[|es| - 1];
      LostAfter(Run(EMPTY, init), LostNames(init), e)
  }

  ghost function LostAfter(sys: System, lost: set<string>, e: Event): set<string> {
    var after := Apply(sys, e);
    var made := if e.Sync? && e.fate.Lost? then after.jobs.Keys - sys.jobs.Keys else {};
    (lost + made) * after.jobs.Keys
  }

  // The job just created and not yet removed from the buffer.
  function Pending(p: Pc): Option<string> {
    if (p.Testing? || p.Locking? || p.Writing?) && p.op.Drop? then Some(p.op.name) else None
  }

  // The failed creation not yet remembered.
  function Putting(p: Pc): Option<string> {
    if (p.Testing? || p.Locking? || p.Writing?) && p.op.Put? then Some(p.op.job.name) else None
  }

  // In the cluster, and taken for a failure.
  predicate TwoFaced(sys: System, name: string) {
    name in sys.jobs && name in sys.buffer && Pending(sys.pc) != Some(name)
  }

  // ------------------------------------------------------------ the invariant

  // In the create loop: no job is in the cluster but those listed and those the
  // loop has already dealt with.
  ghost predicate OnlyKnown(sys: System, lost: set<string>) {
    match sys.pc
    case Idle => true
    case Listed(items) => sys.jobs.Keys <= SyncPass.NamesOf(items)
    case Creating(items, portal, i) => i <= |portal| && RepeatsHarmless(portal) && Known(sys.jobs, items, portal[..i])
    case Testing(items, portal, i, op) => AtJob(sys.jobs, lost, items, portal, i, op)
    case Locking(items, portal, i, op) => AtJob(sys.jobs, lost, items, portal, i, op)
    case Writing(items, portal, i, op) => AtJob(sys.jobs, lost, items, portal, i, op)
    case Deleting(_, _, _) => true
  }

  ghost predicate Known(jobs: map<string, Item>, items: seq<Item>, portal: seq<PortalJob>) {
    forall n :: n in jobs ==> n in SyncPass.NamesOf(items) || exists j :: j in portal && j.name == n && HasKnownType(j)
  }

  ghost predicate AtJob(jobs: map<string, Item>, lost: set<string>, items: seq<Item>, portal: seq<PortalJob>, i: nat,
                        op: Op)
  {
    && i < |portal| && RepeatsHarmless(portal) && Known(jobs, items, portal[..i + 1])
    && (op.Put? ==> op.job == portal[i] && (op.job.name in jobs ==> op.job.name in lost))
    && (op.Drop? ==> op.name == portal[i].name && op.name !in lost)
  }

  // Two-faced are those created without an acknowledgement, and they only.
  ghost predicate Faces(sys: System, lost: set<string>) {
    && lost <= sys.jobs.Keys
    && (forall n :: TwoFaced(sys, n) ==> n in lost)
    && (forall n :: n in lost ==> n in sys.buffer || Putting(sys.pc) == Some(n))
  }

  ghost predicate Consistent(sys: System, lost: set<string>) {
    Faces(sys, lost) && OnlyKnown(sys, lost)
  }

  lemma KnownLater(jobs: map<string, Item>, items: seq<Item>, portal: seq<PortalJob>, i: nat)
    requires i < |portal| && Known(jobs, items, portal[..i])
    ensures Known(jobs, items, portal[..i + 1])
  {
    assert portal[..i + 1] == portal[..i] + [portal[i]];
  }

  lemma NotYetThere(jobs: map<string, Item>, items: seq<Item>, portal: seq<PortalJob>, i: nat)
    requires i < |portal| && Known(jobs, items, portal[..i]) && RepeatsHarmless(portal)
    requires portal[i].name !in SyncPass.NamesOf(items)
    ensures portal[i].name !in jobs
  {
  }

  // A job about to be created is not there yet, and what its creation adds.
  lemma TryNextNames(sys: System, lost: set<string>, fate: Fate)
    requires Consistent(sys, lost) && sys.pc.Creating? && sys.pc.i < |sys.pc.portal|
    ensures var p := sys.pc;
            var job := p.portal[p.i];
            && Known(sys.jobs, p.items, p.portal[..p.i + 1]) && job in p.portal[..p.i + 1]
            && (job.name !in SyncPass.NamesOf(p.items) ==> job.name !in sys.jobs)
            && LostAfter(sys, lost, Sync(fate))
               == if job.name !in SyncPass.NamesOf(p.items) && fate.Lost? && HasKnownType(job)
                  then lost + {job.name} else lost
  {
    hide HasKnownType, NewItem, RepeatsHarmless, TwoFaced, Putting, SyncPass.NamesOf;
    var p := sys.pc;
    KnownLater(sys.jobs, p.items, p.portal, p.i);
    if p.portal[p.i].name !in SyncPass.NamesOf(p.items) {
      NotYetThere(sys.jobs, p.items, p.portal, p.i);
    }
  }

  lemma TryNextFaces(sys: System, lost: set<string>, fate: Fate)
    requires Consistent(sys, lost) && sys.pc.Creating? && sys.pc.i < |sys.pc.portal|
    ensures Faces(TryNext(sys, fate), LostAfter(sys, lost, Sync(fate)))
  {
    hide HasKnownType, NewItem, RepeatsHarmless, Known, LostAfter, SyncPass.NamesOf;
    TryNextNames(sys, lost, fate);
  }

  lemma TryNextKnown(sys: System, lost: set<string>, fate: Fate)
    requires Consistent(sys, lost) && sys.pc.Creating? && sys.pc.i < |sys.pc.portal|
    ensures OnlyKnown(TryNext(sys, fate), LostAfter(sys, lost, Sync(fate)))
  {
    hide HasKnownType, NewItem, RepeatsHarmless, LostAfter, SyncPass.NamesOf, TwoFaced, Putting;
    TryNextNames(sys, lost, fate);
    assert sys.pc.portal[sys.pc.i] in sys.pc.portal[..sys.pc.i + 1];
  }

  lemma WriteFaces(sys: System, lost: set<string>)
    requires Consistent(sys, lost) && sys.pc.Writing?
    ensures Faces(SyncStep(sys, Delivered), lost)
  {
    hide Known, RepeatsHarmless;
  }

  // Steps that send no creation lose no name but those removed.
  lemma LostBySync(sys: System, lost: set<string>, fate: Fate)
    requires lost <= sys.jobs.Keys && !(sys.pc.Creating? && sys.pc.i < |sys.pc.portal|)
    ensures LostAfter(sys, lost, Sync(fate)) == lost * SyncStep(sys, fate).jobs.Keys
    ensures !sys.pc.Deleting? ==> SyncStep(sys, fate).jobs == sys.jobs && LostAfter(sys, lost, Sync(fate)) == lost
  {
    hide SyncPass.Keeps, Update, Needed;
  }

  lemma SyncConsistent(sys: System, lost: set<string>, fate: Fate)
    requires Consistent(sys, lost)
    ensures Consistent(SyncStep(sys, fate), LostAfter(sys, lost, Sync(fate)))
  {
    hide SyncPass.Keeps, TryNext, SyncPass.NamesOf, Known, RepeatsHarmless, LostAfter, Update, Needed;
    if sys.pc.Creating? && sys.pc.i < |sys.pc.portal| {
      TryNextFaces(sys, lost, fate);
      TryNextKnown(sys, lost, fate);
    } else {
      LostBySync(sys, lost, fate);
      if sys.pc.Writing? {
        WriteFaces(sys, lost);
      } else {
        QuietFaces(sys, lost, fate);
      }
    }
  }

  lemma QuietFaces(sys: System, lost: set<string>, fate: Fate)
    requires Faces(sys, lost) && !sys.pc.Writing? && !(sys.pc.Creating? && sys.pc.i < |sys.pc.portal|)
    ensures Faces(SyncStep(sys, fate), lost * SyncStep(sys, fate).jobs.Keys)
  {
    hide SyncPass.Keeps, Update;
  }

  lemma ConsistentStep(sys: System, lost: set<string>, e: Event)
    requires Consistent(sys, lost)
    requires e.Fetch? && e.portal.Some? ==> RepeatsHarmless(e.portal.value)
    ensures Consistent(Apply(sys, e), LostAfter(sys, lost, e))
  {
    hide SyncStep, SyncPass.Lists, RepeatsHarmless, SyncPass.NamesOf;
    match e
    case List(items) => ListedAll(sys, items);
    case Sync(fate) => SyncConsistent(sys, lost, fate);
    case StatusChanges(_, _) => ConsistentElsewhere(sys, lost, e);
    case UserDeletes(_) => ConsistentElsewhere(sys, lost, e);
    case _ => ConsistentReaders(sys, lost, e);
  }

  lemma ConsistentElsewhere(sys: System, lost: set<string>, e: Event)
    requires Consistent(sys, lost) && (e.StatusChanges? || e.UserDeletes?)
    ensures Consistent(Apply(sys, e), LostAfter(sys, lost, e))
  {
    hide RepeatsHarmless, HasKnownType, SyncPass.NamesOf;
  }

  lemma ConsistentReaders(sys: System, lost: set<string>, e: Event)
    requires Consistent(sys, lost) && (e.Fetch? || e.Enter? || e.Leave?)
    requires e.Fetch? && e.portal.Some? ==> RepeatsHarmless(e.portal.value)
    ensures Consistent(Apply(sys, e), LostAfter(sys, lost, e))
  {
    hide RepeatsHarmless, HasKnownType, SyncPass.NamesOf;
  }

  lemma ListedAll(sys: System, items: seq<Item>)
    ensures SyncPass.Lists(items, sys.jobs) ==> sys.jobs.Keys <= SyncPass.NamesOf(items)
  {
    if SyncPass.Lists(items, sys.jobs) {
      forall n | n in sys.jobs
        ensures n in SyncPass.NamesOf(items)
      {
        assert sys.jobs[n] in items;
      }
    }
  }

  lemma {:induction false} ConsistentRun(es: seq<Event>)
    requires HarmlessLists(es)
    ensures Consistent(Run(EMPTY, es), LostNames(es))
  {
    hide Apply, Consistent, LostAfter;
    if es == [] {
      ConsistentAtStart();
    } else {
      ConsistentRun(es[..|es| - 1]);
      ConsistentStep(Run(EMPTY, es[..|es| - 1]), LostNames(es[..|es| - 1]), es[|es| - 1]);
    }
  }

  lemma ConsistentAtStart()
    ensures Consistent(EMPTY, {})
  {
  }

  /** When in no list of the portal a job of a known type is followed by another
      of its name, at every step of every interleaving a job is both in the
      cluster and in the buffer of failed creations, the one just created aside,
      only if its creation was not acknowledged; and such a job always is, from
      the moment its failure has been remembered. */
  lemma TwoFacedExactly(es: seq<Event>, name: string)
    requires HarmlessLists(es)
    ensures var sys := Run(EMPTY, es);
            && (TwoFaced(sys, name) ==> name in LostNames(es))
            && (Putting(sys.pc) != Some(name) ==> (TwoFaced(sys, name) <==> name in LostNames(es)))
  {
    hide Run, LostNames;
    ConsistentRun(es);
  }

  lemma {:induction false} NothingLost(es: seq<Event>)
    requires Acknowledged(es)
    ensures LostNames(es) == {}
  {
    hide Apply;
    if es != [] {
      NothingLost(es[..|es| - 1]);
      assert es[|es| - 1] in es;
    }
  }

  /** In particular, when every request is acknowledged or refused cluster and
      buffer are disjoint at every step, the job just created aside. */
  lemma BufferAndClusterDisjoint(es: seq<Event>, name: string)
    requires HarmlessLists(es) && Acknowledged(es)
    ensures var sys := Run(EMPTY, es);
            name in sys.buffer && name in sys.jobs ==> Pending(sys.pc) == Some(name)
  {
    hide Run;
    TwoFacedExactly(es, name);
    NothingLost(es);
  }

  // --------------------------------------------------- exactly which lists do it

  // Every list the portal sends in the run is this one.
  ghost predicate FetchesOnly(es: seq<Event>, portal: seq<PortalJob>) {
    forall e :: e in es && e.Fetch? && e.portal.Some? ==> e.portal.value == portal
  }

  // The create loop over a quiet, empty cluster.
  function AfterLoop(portal: seq<PortalJob>, fates: SyncPass.Fates): SyncPass.State {
    SyncPass.CreateAll(SyncPass.State(map[], map[], 0, 0), portal, {}, fates)
  }

  ghost predicate NeverRefused(fates: SyncPass.Fates) {
    forall k: nat :: !fates(k).Refused?
  }

  // A job of a known type that has had its turn is in the cluster.
  lemma {:induction false} CreatedIsThere(portal: seq<PortalJob>, i: nat, fates: SyncPass.Fates)
    requires i < |portal| && HasKnownType(portal[i]) && NeverRefused(fates)
    ensures portal[i].name in AfterLoop(portal, fates).jobs
  {
    hide HasKnownType, NewItem;
    if i < |portal| - 1 {
      CreatedIsThere(portal[..|portal| - 1], i, fates);
    }
  }

  // A run of the create loop over an empty cluster, up to the n-th job.
  lemma LoopRun(portal: seq<PortalJob>, n: nat, fates: SyncPass.Fates) returns (es: seq<Event>)
    requires n <= |portal|
    ensures FetchesOnly(es, portal) && (NeverLost(fates) ==> Acknowledged(es))
    ensures Run(EMPTY, es) == With(EMPTY, AfterLoop(portal[..n], fates), Creating([], portal, n))
  {
    hide Run, HasKnownType, SyncPass.CreateAll;
    RunNothing(EMPTY);
    es := Then(EMPTY, [], List([]), EMPTY.(pc := Listed([])));
    es := Then(EMPTY, es, Fetch(Some(portal)), EMPTY.(pc := Creating([], portal, 0)));
    var loop := SoloCreate(Run(EMPTY, es), [], portal, n, 0, 0, fates);
    RunAppend(EMPTY, es, loop);
    es := es + loop;
    assert SyncPass.NamesOf([]) == {};
  }

  /** A job of a known type followed by another of its name: a run, all of it
      acknowledged, after which it is created and still taken for a failure. */
  lemma NamedTwiceBreaksIt(portal: seq<PortalJob>, i: nat, j: nat) returns (es: seq<Event>)
    requires i < j < |portal| && portal[i].name == portal[j].name && HasKnownType(portal[i])
    ensures FetchesOnly(es, portal) && Acknowledged(es) && TwoFaced(Run(EMPTY, es), portal[i].name)
  {
    hide Run, HasKnownType, NewItem;
    var fates := k => Delivered;
    es := LoopRun(portal, j + 1, fates);
    var done := portal[..j + 1];
    assert done[..j] == portal[..j];
    CreatedIsThere(portal[..j], i, fates);
  }

  /** One creation without an acknowledgement: after it the job is created and
      taken for a failure, in whatever list it stands. */
  lemma LostCreateBreaksIt(portal: seq<PortalJob>, i: nat) returns (es: seq<Event>)
    requires i < |portal| && HasKnownType(portal[i])
    ensures FetchesOnly(es, portal) && TwoFaced(Run(EMPTY, es), portal[i].name)
  {
    hide Run, HasKnownType, NewItem;
    var fates := k => Lost;
    es := LoopRun(portal, i + 1, fates);
    CreatedIsThere(portal[..i + 1], i, fates);
    assert portal[..i + 1][..i] == portal[..i];
  }

  /** For a list the portal keeps sending: with every request acknowledged or
      refused no job is ever created and taken for a failure, exactly when no job
      of a known type is followed in it by another of its name; come what may
      with the requests, exactly when it asks for no job of a known type. */
  lemma DisjointExactly(portal: seq<PortalJob>)
    ensures (forall es, name :: FetchesOnly(es, portal) && Acknowledged(es) ==> !TwoFaced(Run(EMPTY, es), name))
            <==> RepeatsHarmless(portal)
    ensures (forall es, name :: FetchesOnly(es, portal) ==> !TwoFaced(Run(EMPTY, es), name))
            <==> forall j :: j in portal ==> !HasKnownType(j)
  {
    hide Run, HasKnownType, TwoFaced, RepeatsHarmless;
    if RepeatsHarmless(portal) {
      forall es, name | FetchesOnly(es, portal) && Acknowledged(es)
        ensures !TwoFaced(Run(EMPTY, es), name)
      {
        TwoFacedExactly(es, name);
        NothingLost(es);
      }
    } else {
      HarmfulRepeat(portal);
    }
    if forall j :: j in portal ==> !HasKnownType(j) {
      forall es, name | FetchesOnly(es, portal)
        ensures !TwoFaced(Run(EMPTY, es), name)
      {
        NoJobs(es, portal);
        TwoFacedIsThere(Run(EMPTY, es), name);
      }
    } else {
      var i :| 0 <= i < |portal| && HasKnownType(portal[i]);
      var es := LostCreateBreaksIt(portal, i);
    }
  }

  lemma HarmfulRepeat(portal: seq<PortalJob>)
    requires !RepeatsHarmless(portal)
    ensures exists es, name :: FetchesOnly(es, portal) && Acknowledged(es) && TwoFaced(Run(EMPTY, es), name)
  {
    hide Run, HasKnownType, TwoFaced;
    var i, j :| 0 <= i < j < |portal| && portal[i].name == portal[j].name && HasKnownType(portal[i]);
    var es := NamedTwiceBreaksIt(portal, i, j);
  }

  lemma TwoFacedIsThere(sys: System, name: string)
    ensures TwoFaced(sys, name) ==> name in sys.jobs
  {
  }

  // The list the synchroniser works from.
  predicate WorksFrom(p: Pc, portal: seq<PortalJob>) {
    match p
    case Creating(_, ptl, _) => ptl == portal
    case Testing(_, ptl, _, _) => ptl == portal
    case Locking(_, ptl, _, _) => ptl == portal
    case Writing(_, ptl, _, _) => ptl == portal
    case _ => true
  }

  lemma {:induction false} NoJobs(es: seq<Event>, portal: seq<PortalJob>)
    requires FetchesOnly(es, portal) && forall j :: j in portal ==> !HasKnownType(j)
    ensures Run(EMPTY, es).jobs == map[] && WorksFrom(Run(EMPTY, es).pc, portal)
  {
    hide HasKnownType, SyncPass.Lists, SyncPass.Keeps;
    if es != [] {
      NoJobs(es[..|es| - 1], portal);
      assert es[|es| - 1] in es;
    }
  }
}
