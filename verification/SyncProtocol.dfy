/** The synchroniser's loop and the readers of its failure buffer, interleaved step
    by step (internal/synchronizer/syncjob.go, cpodobserver.go, manager.go): one
    goroutine runs the passes, any number of others copy the buffer under the read
    lock, the reconciler changes statuses and users delete jobs.  A request may
    take effect without being acknowledged; nobody else creates labelled jobs. */
module SyncProtocol {
  import opened Wrappers
  import opened Conditions
  import opened FailureBuffer
  import SyncPass
  import Observer

  // The update of the buffer a creation attempt calls for.
  datatype Op = Put(job: PortalJob) | Drop(name: string)

  // Where the synchroniser stands.
  datatype Pc =
    | Idle
    | Listed(items: seq<Item>)
    | Creating(items: seq<Item>, portal: seq<PortalJob>, i: nat)
    | Testing(items: seq<Item>, portal: seq<PortalJob>, i: nat, op: Op)   // about to look without the lock
    | Locking(items: seq<Item>, portal: seq<PortalJob>, i: nat, op: Op)   // waiting for the write lock
    | Writing(items: seq<Item>, portal: seq<PortalJob>, i: nat, op: Op)   // holding it
    | Deleting(items: seq<Item>, portal: seq<PortalJob>, i: nat)

  // `readers` holds the read lock; each remembers the buffer as it found it.
  datatype System = System(
    jobs: map<string, Item>, buffer: map<string, PortalJob>, pc: Pc, readers: map<nat, map<string, PortalJob>>)

  datatype Event =
    | List(items: seq<Item>)
    | Fetch(portal: Option<seq<PortalJob>>)
    | Sync(fate: Fate)   // a step of the synchroniser, and what becomes of its request
    | Enter(r: nat)
    | Leave(r: nat)
    | StatusChanges(name: string, conditions: seq<Condition>)
    | UserDeletes(name: string)

  function Update(m: map<string, PortalJob>, op: Op): map<string, PortalJob> {
    match op
    case Put(job) => m[job.name := job]
    case Drop(name) => m - {name}
  }

  // What the unlocked look at the buffer tells: there is something to do.
  predicate Needed(m: map<string, PortalJob>, op: Op) {
    match op
    case Put(job) => job.name !in m
    case Drop(name) => name in m
  }

  // One job of the portal's list: skipped, found of no known type, or requested.
  function TryNext(sys: System, fate: Fate): System
    requires sys.pc.Creating? && sys.pc.i < |sys.pc.portal|
  {
    var p := sys.pc;
    var job := p.portal[p.i];
    var failed := Testing(p.items, p.portal, p.i, Put(job));
    if job.name in SyncPass.NamesOf(p.items) then sys.(pc := Creating(p.items, p.portal, p.i + 1))
    else if !HasKnownType(job) || job.name in sys.jobs then sys.(pc := failed)
    else
      match fate
      case Refused => sys.(pc := failed)
      case Lost => sys.(jobs := sys.jobs[job.name := NewItem(job)], pc := failed)
      case Delivered =>
        sys.(jobs := sys.jobs[job.name := NewItem(job)], pc := Testing(p.items, p.portal, p.i, Drop(job.name)))
  }

  function SyncStep(sys: System, fate: Fate): System {
    var p := sys.pc;
    match p
    case Idle => sys
    case Listed(_) => sys
    case Creating(items, portal, i) =>
      if i < |portal| then TryNext(sys, fate) else sys.(pc := Deleting(items, portal, 0))
    case Testing(items, portal, i, op) =>
      sys.(pc := if Needed(sys.buffer, op) then Locking(items, portal, i, op) else Creating(items, portal, i + 1))
    case Locking(items, portal, i, op) =>
      if sys.readers == map[] then sys.(pc := Writing(items, portal, i, op)) else sys
    case Writing(items, portal, i, op) =>
      sys.(buffer := Update(sys.buffer, op), pc := Creating(items, portal, i + 1))
    case Deleting(items, portal, i) =>
      if i >= |items| then sys.(pc := Idle)
      else if SyncPass.Keeps(portal, items[i]) then sys.(pc := Deleting(items, portal, i + 1))
      else TryDelete(sys, fate)
  }

  // A delete that is not acknowledged ends the pass.
  function TryDelete(sys: System, fate: Fate): System
    requires sys.pc.Deleting? && sys.pc.i < |sys.pc.items|
  {
    var p := sys.pc;
    var name := p.items[p.i].name;
    if name !in sys.jobs || fate.Refused? then sys.(pc := Idle)
    else sys.(jobs := sys.jobs - {name}, pc := if fate.Delivered? then Deleting(p.items, p.portal, p.i + 1) else Idle)
  }

  ghost function Apply(sys: System, e: Event): System {
    match e
    case List(items) => if sys.pc.Idle? && SyncPass.Lists(items, sys.jobs) then sys.(pc := Listed(items)) else sys
    case Fetch(portal) =>
      if sys.pc.Listed? then
        sys.(pc := if portal.Some? then Creating(sys.pc.items, portal.value, 0) else Idle)
      else sys
    case Sync(fate) => SyncStep(sys, fate)
    case Enter(r) => if sys.pc.Writing? || r in sys.readers then sys else sys.(readers := sys.readers[r := sys.buffer])
    case Leave(r) => sys.(readers := sys.readers - {r})
    case StatusChanges(name, conditions) =>
      if name in sys.jobs then sys.(jobs := sys.jobs[name := sys.jobs[name].(conditions := conditions)]) else sys
    case UserDeletes(name) => sys.(jobs := sys.jobs - {name})
  }

  ghost function Run(start: System, es: seq<Event>): System {
    if es == [] then start else Apply(Run(start, es[..|es| - 1]), es[|es| - 1])
  }

  const EMPTY := System(map[], map[], Idle, map[])

  // ------------------------------------------------------------- building runs

  lemma RunSnoc(start: System, es: seq<Event>, e: Event)
    ensures Run(start, es + [e]) == Apply(Run(start, es), e)
  {
    assert (es + [e])[..|es|] == es;
  }

  lemma RunNothing(start: System)
    ensures Run(start, []) == start
  {
  }

  lemma Then(start: System, es: seq<Event>, e: Event, next: System) returns (r: seq<Event>)
    requires Apply(Run(start, es), e) == next
    ensures Run(start, r) == next && r == es + [e]
  {
    r := es + [e];
    RunSnoc(start, es, e);
  }

  lemma {:induction false} RunAppend(start: System, es: seq<Event>, more: seq<Event>)
    ensures Run(start, es + more) == Run(Run(start, es), more)
  {
    hide Apply;
    if more == [] {
      assert es + more == es;
    } else {
      var init := more[..|more| - 1];
      RunAppend(start, es, init);
      assert es + more == (es + init) + [more[|more| - 1]];
      RunSnoc(start, es + init, more[|more| - 1]);
    }
  }

  // ----------------------------------------------------------- lock discipline

  ghost predicate Locked(sys: System) {
    && (forall r :: r in sys.readers ==> sys.readers[r] == sys.buffer)
    && (sys.pc.Writing? ==> sys.readers == map[])
    && (sys.pc.Locking? || sys.pc.Writing? ==> Needed(sys.buffer, sys.pc.op))
  }

  lemma LockedStep(sys: System, e: Event)
    requires Locked(sys)
    ensures Locked(Apply(sys, e))
  {
    hide SyncPass.Lists, SyncPass.Keeps, HasKnownType;
  }

  lemma {:induction false} LockedRun(start: System, es: seq<Event>)
    requires Locked(start)
    ensures Locked(Run(start, es))
  {
    hide Apply, Locked;
    if es != [] {
      LockedRun(start, es[..|es| - 1]);
      LockedStep(Run(start, es[..|es| - 1]), es[|es| - 1]);
    }
  }

  /** No write ever overlaps a read, in any interleaving; a reader copies the buffer
      as it was when it took the lock; and what the synchroniser found out without
      the lock still holds when it writes. */
  lemma LockDiscipline(es: seq<Event>)
    ensures var sys := Run(EMPTY, es);
            && (sys.pc.Writing? ==> sys.readers == map[])
            && (forall r :: r in sys.readers ==> sys.readers[r] == sys.buffer)
            && (sys.pc.Locking? || sys.pc.Writing? ==> Needed(sys.buffer, sys.pc.op))
  {
    LockedRun(EMPTY, es);
  }

  // ------------------------------------------------- what a step may remove

  // The listing the pass works from.
  function ListedItems(p: Pc): seq<Item> {
    match p
    case Idle => []
    case Listed(items) => items
    case Creating(items, _, _) => items
    case Testing(items, _, _, _) => items
    case Locking(items, _, _, _) => items
    case Writing(items, _, _, _) => items
    case Deleting(items, _, _) => items
  }

  // The pass in progress after `es` listed the cluster at its k-th event.
  ghost predicate ListedAt(es: seq<Event>, k: nat, items: seq<Item>) {
    && k < |es| && es[k] == List(items) && Run(EMPTY, es[..k]).pc.Idle?
    && SyncPass.Lists(items, Run(EMPTY, es[..k]).jobs)
  }

  lemma ItemsKept(sys: System, e: Event)
    requires !Apply(sys, e).pc.Idle?
    ensures if sys.pc.Idle? then e == List(ListedItems(Apply(sys, e).pc)) && SyncPass.Lists(e.items, sys.jobs)
            else ListedItems(Apply(sys, e).pc) == ListedItems(sys.pc)
  {
    hide SyncPass.Lists, SyncPass.Keeps, HasKnownType, NewItem;
  }

  lemma {:induction false} ItemsWereListed(es: seq<Event>) returns (k: nat)
    requires !Run(EMPTY, es).pc.Idle?
    ensures ListedAt(es, k, ListedItems(Run(EMPTY, es).pc))
  {
    hide Apply, SyncPass.Lists, ListedItems;
    var init, e := es[..|es| - 1], es[|es| - 1];
    ItemsKept(Run(EMPTY, init), e);
    if Run(EMPTY, init).pc.Idle? {
      k := |es| - 1;
    } else {
      k := ItemsWereListed(init);
      assert init[..k] == es[..k];
    }
  }

  /** Whatever happens in between, the synchroniser removes a job only if, when the
      pass in progress listed it, its work was not over, and the portal's list of
      this pass does not name it. */
  lemma RemovedWasUnsettled(es: seq<Event>, fate: Fate, name: string) returns (k: nat)
    requires name in Run(EMPTY, es).jobs && name !in SyncStep(Run(EMPTY, es), fate).jobs
    ensures Run(EMPTY, es).pc.Deleting? && !SyncPass.Assigned(Run(EMPTY, es).pc.portal, name)
    ensures ListedAt(es, k, ListedItems(Run(EMPTY, es).pc))
    ensures var listed := Run(EMPTY, es[..k]).jobs;
            name in listed && !Observer.Settled(Observer.Parsed(listed[name].conditions).0)
  {
    hide Run, Observer.Parsed, SyncStep;
    RemovedByDelete(Run(EMPTY, es), fate, name);
    k := ItemsWereListed(es);
    var p := Run(EMPTY, es).pc;
    assert p.items[p.i] in p.items;
  }

  lemma RemovedByDelete(sys: System, fate: Fate, name: string)
    requires name in sys.jobs && name !in SyncStep(sys, fate).jobs
    ensures sys.pc.Deleting? && sys.pc.i < |sys.pc.items|
    ensures sys.pc.items[sys.pc.i].name == name && !SyncPass.Keeps(sys.pc.portal, sys.pc.items[sys.pc.i])
  {
    hide SyncPass.Keeps, HasKnownType, NewItem, Update, Needed;
  }
}
