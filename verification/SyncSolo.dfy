/** The step-by-step synchroniser left alone: its own steps, whatever becomes of
    its requests, compute exactly the pass of module SyncPass. */
module SyncSolo {
  import opened Wrappers
  import opened FailureBuffer
  import opened SyncProtocol
  import SyncPass

  ghost predicate OnlySyncs(es: seq<Event>) {
    forall e :: e in es ==> e.Sync?
  }

  ghost predicate Acknowledged(es: seq<Event>) {
    forall e :: e in es && e.Sync? ==> !e.fate.Lost?
  }

  ghost predicate NeverLost(fates: SyncPass.Fates) {
    forall k: nat :: !fates(k).Lost?
  }

  function StateOf(sys: System, calls: nat, done: nat): SyncPass.State {
    SyncPass.State(sys.jobs, sys.buffer, calls, done)
  }

  function With(sys: System, t: SyncPass.State, pc: Pc): System {
    sys.(jobs := t.jobs, buffer := t.buffer, pc := pc)
  }

  // What the source's add and delete make of the buffer, look and update together.
  function Recorded(m: map<string, PortalJob>, op: Op): map<string, PortalJob> {
    match op
    case Put(job) => Remember(m, job)
    case Drop(name) => Forget(m, name)
  }

  // ------------------------------------------------ every pass is such a run

  // The locked update of the buffer after an attempt.
  lemma SoloUpdate(start: System, es: seq<Event>) returns (r: seq<Event>)
    requires OnlySyncs(es) && Run(start, es).pc.Testing? && Run(start, es).readers == map[]
    ensures OnlySyncs(r) && (Acknowledged(es) ==> Acknowledged(r))
    ensures var sys := Run(start, es);
            Run(start, r) == sys.(buffer := Recorded(sys.buffer, sys.pc.op),
                                  pc := Creating(sys.pc.items, sys.pc.portal, sys.pc.i + 1))
  {
    hide Run;
    r := Then(start, es, Sync(Delivered), SyncStep(Run(start, es), Delivered));
    if Run(start, r).pc.Locking? {
      r := Then(start, r, Sync(Delivered), SyncStep(Run(start, r), Delivered));
      r := Then(start, r, Sync(Delivered), SyncStep(Run(start, r), Delivered));
    }
  }

  // One round of the create loop, from one job of the list to the next.
  lemma SoloRound(start: System, es: seq<Event>, calls: nat, done: nat, fates: SyncPass.Fates) returns (r: seq<Event>)
    requires OnlySyncs(es) && Run(start, es).pc.Creating? && Run(start, es).readers == map[]
    requires Run(start, es).pc.i < |Run(start, es).pc.portal|
    ensures OnlySyncs(r) && (NeverLost(fates) && Acknowledged(es) ==> Acknowledged(r))
    ensures var sys := Run(start, es);
            var job := sys.pc.portal[sys.pc.i];
            var st := StateOf(sys, calls, done);
            var t := if job.name in SyncPass.NamesOf(sys.pc.items) then st else SyncPass.TryCreate(st, job, fates);
            Run(start, r) == With(sys, t, Creating(sys.pc.items, sys.pc.portal, sys.pc.i + 1))
  {
    hide Run, NewItem, HasKnownType, SyncPass.NamesOf, Remember, Forget;
    var sys := Run(start, es);
    r := Then(start, es, Sync(fates(calls)), SyncStep(sys, fates(calls)));
    if sys.pc.portal[sys.pc.i].name !in SyncPass.NamesOf(sys.pc.items) {
      r := SoloUpdate(start, r);
    }
  }

  lemma {:induction false} SoloCreate(sys: System, items: seq<Item>, portal: seq<PortalJob>, n: nat,
                                      calls: nat, done: nat, fates: SyncPass.Fates) returns (es: seq<Event>)
    requires sys.pc == Creating(items, portal, 0) && sys.readers == map[] && n <= |portal|
    ensures OnlySyncs(es) && (NeverLost(fates) ==> Acknowledged(es))
    ensures var t := SyncPass.CreateAll(StateOf(sys, calls, done), portal[..n], SyncPass.NamesOf(items), fates);
            Run(sys, es) == With(sys, t, Creating(items, portal, n))
  {
    hide Run, SyncPass.TryCreate, SyncPass.NamesOf;
    if n == 0 {
      es := [];
      RunNothing(sys);
    } else {
      es := SoloCreate(sys, items, portal, n - 1, calls, done, fates);
      var st := SyncPass.CreateAll(StateOf(sys, calls, done), portal[..n - 1], SyncPass.NamesOf(items), fates);
      assert portal[..n][..n - 1] == portal[..n - 1];
      es := SoloRound(sys, es, st.calls, st.done, fates);
    }
  }

  lemma {:induction false} SoloDelete(start: System, es: seq<Event>, items: seq<Item>, portal: seq<PortalJob>, n: nat,
                                      st: SyncPass.State, fates: SyncPass.Fates) returns (r: seq<Event>)
    requires OnlySyncs(es) && n <= |items|
    requires Run(start, es) == With(Run(start, es), st, Deleting(items, portal, 0))
    ensures OnlySyncs(r)
    ensures var (t, stopped) := SyncPass.DeleteAll(st, items[..n], portal, fates);
            Run(start, r) == With(Run(start, es), t, if stopped then Idle else Deleting(items, portal, n))
  {
    hide Run, SyncPass.Keeps;
    if n == 0 {
      r := es;
    } else {
      r := SoloDelete(start, es, items, portal, n - 1, st, fates);
      assert items[..n][..n - 1] == items[..n - 1];
      var (before, stopped) := SyncPass.DeleteAll(st, items[..n - 1], portal, fates);
      if !stopped {
        r := Then(start, r, Sync(fates(before.calls)), SyncStep(Run(start, r), fates(before.calls)));
      }
    }
  }

  /** From the moment it has both lists, whatever becomes of the requests, some
      schedule of the synchroniser's own steps ends the pass as `Pass` says. */
  lemma PassIsSoloRun(sys: System, items: seq<Item>, portal: seq<PortalJob>, calls: nat, done: nat,
                      fates: SyncPass.Fates)
    returns (es: seq<Event>)
    requires sys.pc == Creating(items, portal, 0) && sys.readers == map[]
    ensures OnlySyncs(es)
    ensures Run(sys, es) == With(sys, SyncPass.Pass(StateOf(sys, calls, done), items, portal, fates), Idle)
  {
    hide Run, SyncPass.CreateAll, SyncPass.DeleteAll, SyncPass.NamesOf;
    es := SoloCreate(sys, items, portal, |portal|, calls, done, fates);
    assert portal[..|portal|] == portal && items[..|items|] == items;
    var mid := SyncPass.CreateAll(StateOf(sys, calls, done), portal, SyncPass.NamesOf(items), fates);
    es := Then(sys, es, Sync(Delivered), With(sys, mid, Deleting(items, portal, 0)));
    es := SoloDelete(sys, es, items, portal, |items|, mid, fates);
    if Run(sys, es).pc.Deleting? {
      es := Then(sys, es, Sync(Delivered), Run(sys, es).(pc := Idle));
    }
  }

  // ------------------------------------------------- every such run is a pass

  // The next step sends a request.
  predicate Asks(sys: System) {
    var p := sys.pc;
    || (p.Creating? && p.i < |p.portal| && p.portal[p.i].name !in SyncPass.NamesOf(p.items)
      && HasKnownType(p.portal[p.i]))
    || (p.Deleting? && p.i < |p.items| && !SyncPass.Keeps(p.portal, p.items[p.i]))
  }

  // What became of the requests of a run, in order.
  ghost function Fates(start: System, es: seq<Event>): seq<Fate> {
    if es == [] then []
    else
      var init, e := es[..|es| - 1], es[|es| - 1];
      Fates(start, init) + if e.Sync? && Asks(Run(start, init)) then [e.fate] else []
  }

  ghost function FateOf(calls: nat, fs: seq<Fate>): SyncPass.Fates {
    k => if calls <= k < calls + |fs| then fs[k - calls] else Delivered
  }

  // How far the pass has come, the buffer's update in progress counted in.
  ghost predicate OnTrack(sys: System, st: SyncPass.State, items: seq<Item>, portal: seq<PortalJob>,
                          fates: SyncPass.Fates, asked: nat) {
    && sys.readers == map[]
    && match sys.pc
       case Idle => With(sys, SyncPass.Pass(st, items, portal, fates), Idle) == sys
       case Listed(_) => false
       case Creating(its, ptl, i) =>
         && its == items && ptl == portal && i <= |portal|
         && AfterCreates(sys.jobs, st, items, portal[..i], fates, asked, sys.buffer)
       case Testing(its, ptl, i, op) =>
         && its == items && ptl == portal && i < |portal|
         && AfterCreates(sys.jobs, st, items, portal[..i + 1], fates, asked, Recorded(sys.buffer, op))
       case Locking(its, ptl, i, op) =>
         && its == items && ptl == portal && i < |portal| && Needed(sys.buffer, op)
         && AfterCreates(sys.jobs, st, items, portal[..i + 1], fates, asked, Recorded(sys.buffer, op))
       case Writing(its, ptl, i, op) =>
         && its == items && ptl == portal && i < |portal| && Needed(sys.buffer, op)
         && AfterCreates(sys.jobs, st, items, portal[..i + 1], fates, asked, Recorded(sys.buffer, op))
       case Deleting(its, ptl, i) =>
         && its == items && ptl == portal && i <= |items|
         && AfterDeletes(sys, st, items, i, portal, fates, asked)
  }

  ghost predicate AfterCreates(jobs: map<string, Item>, st: SyncPass.State, items: seq<Item>, portal: seq<PortalJob>,
                               fates: SyncPass.Fates, asked: nat, buffer: map<string, PortalJob>) {
    var t := SyncPass.CreateAll(st, portal, SyncPass.NamesOf(items), fates);
    t.jobs == jobs && t.buffer == buffer && t.calls == st.calls + asked
  }

  ghost predicate AfterDeletes(sys: System, st: SyncPass.State, items: seq<Item>, i: nat, portal: seq<PortalJob>,
                               fates: SyncPass.Fates, asked: nat)
    requires i <= |items|
  {
    var mid := SyncPass.CreateAll(st, portal, SyncPass.NamesOf(items), fates);
    var (t, stopped) := SyncPass.DeleteAll(mid, items[..i], portal, fates);
    !stopped && t.jobs == sys.jobs && t.buffer == sys.buffer && t.calls == st.calls + asked
  }

  lemma OnTrackStep(sys: System, st: SyncPass.State, items: seq<Item>, portal: seq<PortalJob>,
                    fates: SyncPass.Fates, asked: nat, fate: Fate)
    requires OnTrack(sys, st, items, portal, fates, asked)
    requires Asks(sys) ==> fates(st.calls + asked) == fate
    ensures OnTrack(SyncStep(sys, fate), st, items, portal, fates, asked + if Asks(sys) then 1 else 0)
  {
    hide AfterCreates, AfterDeletes, TryNext, TryDelete, SyncPass.Keeps, SyncPass.Pass, SyncPass.NamesOf, HasKnownType;
    match sys.pc
    case Creating(_, _, i) =>
      if i < |portal| {
        OnTrackCreate(sys, st, items, portal, fates, asked, fate);
      } else {
        CreatesDone(sys, st, items, portal, fates, asked);
      }
    case Deleting(_, _, i) =>
      if i < |items| {
        OnTrackDelete(sys, st, items, portal, fates, asked, fate);
      } else {
        DeletesDone(sys, st, items, portal, fates, asked);
      }
    case Testing(_, _, _, op) => RecordedIsUpdate(sys.buffer, op);
    case Writing(_, _, _, op) => RecordedIsUpdate(sys.buffer, op);
    case _ =>
  }

  lemma RecordedIsUpdate(m: map<string, PortalJob>, op: Op)
    ensures Recorded(m, op) == if Needed(m, op) then Update(m, op) else m
  {
    if op.Drop? && op.name !in m {
      assert m - {op.name} == m;
    }
  }

  lemma OnTrackCreate(sys: System, st: SyncPass.State, items: seq<Item>, portal: seq<PortalJob>,
                      fates: SyncPass.Fates, asked: nat, fate: Fate)
    requires OnTrack(sys, st, items, portal, fates, asked) && sys.pc.Creating? && sys.pc.i < |portal|
    requires Asks(sys) ==> fates(st.calls + asked) == fate
    ensures OnTrack(TryNext(sys, fate), st, items, portal, fates, asked + if Asks(sys) then 1 else 0)
  {
    hide SyncPass.Keeps, SyncPass.Pass, SyncPass.NamesOf, HasKnownType, NewItem, AfterDeletes, Remember, Forget, Needed;
    var i := sys.pc.i;
    assert portal[..i + 1][..i] == portal[..i];
  }

  lemma CreatesDone(sys: System, st: SyncPass.State, items: seq<Item>, portal: seq<PortalJob>,
                    fates: SyncPass.Fates, asked: nat)
    requires AfterCreates(sys.jobs, st, items, portal[..|portal|], fates, asked, sys.buffer)
    ensures AfterDeletes(sys.(pc := Deleting(items, portal, 0)), st, items, 0, portal, fates, asked)
  {
    assert portal[..|portal|] == portal;
  }

  lemma OnTrackDelete(sys: System, st: SyncPass.State, items: seq<Item>, portal: seq<PortalJob>,
                      fates: SyncPass.Fates, asked: nat, fate: Fate)
    requires OnTrack(sys, st, items, portal, fates, asked) && sys.pc.Deleting? && sys.pc.i < |items|
    requires Asks(sys) ==> fates(st.calls + asked) == fate
    ensures OnTrack(SyncStep(sys, fate), st, items, portal, fates, asked + if Asks(sys) then 1 else 0)
  {
    hide SyncPass.Keeps, SyncPass.NamesOf, SyncPass.CreateAll, AfterCreates;
    var i := sys.pc.i;
    assert items[..i + 1][..i] == items[..i];
    var mid := SyncPass.CreateAll(st, portal, SyncPass.NamesOf(items), fates);
    if SyncPass.DeleteAll(mid, items[..i + 1], portal, fates).1 {
      SyncPass.StoppedStays(mid, items, portal, fates, i + 1);
    }
  }

  lemma DeletesDone(sys: System, st: SyncPass.State, items: seq<Item>, portal: seq<PortalJob>,
                    fates: SyncPass.Fates, asked: nat)
    requires AfterDeletes(sys, st, items, |items|, portal, fates, asked)
    ensures With(sys, SyncPass.Pass(st, items, portal, fates), Idle) == sys.(pc := Idle)
  {
    assert items[..|items|] == items;
  }

  lemma {:induction false} FatesGrow(start: System, es: seq<Event>, n: nat)
    requires n <= |es|
    ensures Fates(start, es[..n]) <= Fates(start, es)
  {
    hide Run, Asks;
    if n < |es| {
      assert es[..|es| - 1][..n] == es[..n];
      FatesGrow(start, es[..|es| - 1], n);
    } else {
      assert es[..n] == es;
    }
  }

  lemma {:induction false} OnTrackRun(start: System, es: seq<Event>, n: nat, st: SyncPass.State,
                                      items: seq<Item>, portal: seq<PortalJob>)
    requires OnlySyncs(es) && n <= |es| && start.pc == Creating(items, portal, 0) && start.readers == map[]
    requires st.jobs == start.jobs && st.buffer == start.buffer
    ensures OnTrack(Run(start, es[..n]), st, items, portal, FateOf(st.calls, Fates(start, es)), |Fates(start, es[..n])|)
  {
    hide SyncStep, OnTrack, Asks;
    var fates := FateOf(st.calls, Fates(start, es));
    if n == 0 {
      OnTrackAtStart(start, st, items, portal, fates);
      RunNothing(start);
    } else {
      OnTrackRun(start, es, n - 1, st, items, portal);
      assert es[..n][..n - 1] == es[..n - 1];
      assert es[n - 1] in es;
      FatesGrow(start, es, n);
      OnTrackStep(Run(start, es[..n - 1]), st, items, portal, fates, |Fates(start, es[..n - 1])|, es[n - 1].fate);
    }
  }

  lemma OnTrackAtStart(start: System, st: SyncPass.State, items: seq<Item>, portal: seq<PortalJob>,
                       fates: SyncPass.Fates)
    requires start.pc == Creating(items, portal, 0) && start.readers == map[]
    requires st.jobs == start.jobs && st.buffer == start.buffer
    ensures OnTrack(start, st, items, portal, fates, 0)
  {
  }

  /** Left alone, the step-by-step synchroniser computes exactly the pass: every
      run of its own steps, from the moment it has both lists until it is idle,
      ends with the cluster and the buffer that `Pass` gives when each request
      fares as it did in the run. */
  lemma SoloRunIsPass(start: System, es: seq<Event>, items: seq<Item>, portal: seq<PortalJob>, calls: nat, done: nat)
    requires start.pc == Creating(items, portal, 0) && start.readers == map[]
    requires OnlySyncs(es) && Run(start, es).pc.Idle?
    ensures Run(start, es).jobs
            == SyncPass.Pass(StateOf(start, calls, done), items, portal, FateOf(calls, Fates(start, es))).jobs
    ensures Run(start, es).buffer
            == SyncPass.Pass(StateOf(start, calls, done), items, portal, FateOf(calls, Fates(start, es))).buffer
  {
    hide Run, Fates, SyncPass.Pass;
    OnTrackRun(start, es, |es|, StateOf(start, calls, done), items, portal);
    assert es[..|es|] == es;
  }

  /** So the laws of a pass carry over.  Undisturbed, and with every request
      delivered, the synchroniser leaves no wanted job missing and no unfinished
      job that is not wanted. */
  lemma SoloRunConverges(start: System, es: seq<Event>, items: seq<Item>, portal: seq<PortalJob>)
    requires start.pc == Creating(items, portal, 0) && start.readers == map[] && SyncPass.Lists(items, start.jobs)
    requires OnlySyncs(es) && Run(start, es).pc.Idle? && forall e :: e in es ==> e.fate.Delivered?
    ensures SyncPass.Gap(portal, Run(start, es).jobs) == 0
  {
    hide Run, SyncPass.Pass, SyncPass.Gap, SyncPass.Lists;
    SoloRunIsPass(start, es, items, portal, 0, 0);
    AllDelivered(start, es);
    SyncPass.CleanPassConverges(StateOf(start, 0, 0), items, portal, FateOf(0, Fates(start, es)));
  }

  lemma {:induction false} AllDelivered(start: System, es: seq<Event>)
    requires OnlySyncs(es) && forall e :: e in es ==> e.fate.Delivered?
    ensures forall f :: f in Fates(start, es) ==> f.Delivered?
  {
    hide Run, Asks;
    if es != [] {
      AllDelivered(start, es[..|es| - 1]);
    }
  }
}
