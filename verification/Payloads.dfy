/** What one heartbeat says of a job.  The observer lists the cluster first and
    copies the buffer of failed creations afterwards
    (internal/synchronizer/cpodobserver.go), while the synchroniser goes on. */
module Payloads {
  import opened Wrappers
  import opened FailureBuffer
  import opened SyncProtocol
  import opened SyncSolo
  import opened SyncDisjoint
  import Observer
  import SyncPass

  // ------------------------------------------------------------ the job states

  function FailedReport(j: PortalJob): Observer.Report {
    Observer.Report(j.name, "createfailed", "")
  }

  function StatesOf(jobs: seq<Observer.Job>, failed: seq<PortalJob>): (js: seq<Observer.Report>)
    ensures |js| == |jobs| + |failed|
    ensures forall i :: 0 <= i < |jobs| ==> js[i] == Observer.ReportOf(jobs[i])
    ensures forall i :: 0 <= i < |failed| ==> js[|jobs| + i] == FailedReport(failed[i])
  {
    seq(|jobs|, i requires 0 <= i < |jobs| => Observer.ReportOf(jobs[i]))
    + seq(|failed|, i requires 0 <= i < |failed| => FailedReport(failed[i]))
  }

  /** The states of a payload: the listed jobs, then the failed creations. */
  method CollectStates(jobs: seq<Observer.Job>, failed: seq<PortalJob>) returns (js: seq<Observer.Report>)
    ensures js == StatesOf(jobs, failed)
  {
    hide Observer.ReportOf;
    js := Observer.GetJobStates(jobs);
    for i := 0 to |failed|
      invariant |js| == |jobs| + i
      invariant forall h :: 0 <= h < |jobs| ==> js[h] == Observer.ReportOf(jobs[h])
      invariant forall h :: 0 <= h < i ==> js[|jobs| + h] == FailedReport(failed[h])
    {
      js := js + [FailedReport(failed[i])];
    }
    assert js == StatesOf(jobs, failed);
  }

  // The listed jobs as the observer reads them, with the clock's verdicts.
  ghost predicate Reads(jobs: seq<Observer.Job>, items: seq<Item>) {
    && |jobs| == |items|
    && forall i :: 0 <= i < |jobs| ==> jobs[i].name == items[i].name && jobs[i].conditions == items[i].conditions
  }

  /** The portal can tell a failed creation from every state of a job. */
  lemma FailedReportStandsOut(i: Observer.Job, j: PortalJob)
    ensures Observer.ReportOf(i).status != FailedReport(j).status
  {
    hide Observer.Parsed;
    Observer.ParsedIsKnown(i.conditions);
    assert |Observer.ReportOf(i).status| == |Observer.KindName(Observer.Reported(i).0)|;
  }

  // How often a name stands in a list of names.
  function Count(names: seq<string>, name: string): nat {
    if names == [] then 0
    else Count(names[..|names| - 1], name) + if names[|names| - 1] == name then 1 else 0
  }

  lemma {:induction false} CountAppend(a: seq<string>, b: seq<string>, name: string)
    ensures Count(a + b, name) == Count(a, name) + Count(b, name)
  {
    if b == [] {
      assert a + b == a;
    } else {
      assert (a + b)[..|a + b| - 1] == a + b[..|b| - 1];
      CountAppend(a, b[..|b| - 1], name);
    }
  }

  lemma {:induction false} CountDistinct(names: seq<string>, name: string)
    requires forall i, j :: 0 <= i < j < |names| ==> names[i] != names[j]
    ensures Count(names, name) == if name in names then 1 else 0
  {
    if names != [] {
      CountDistinct(names[..|names| - 1], name);
      assert names == names[..|names| - 1] + [names[|names| - 1]];
    }
  }

  // How often a payload built from these two names a job.
  function Mentions(jobs: map<string, Item>, failed: map<string, PortalJob>, name: string): nat {
    (if name in jobs then 1 else 0) + (if name in failed then 1 else 0)
  }

  // The copy of the buffer: each remembered job once, in the map's own order.
  ghost predicate Copies(failed: seq<PortalJob>, buffer: map<string, PortalJob>) {
    && (forall i, j :: 0 <= i < j < |failed| ==> failed[i].name != failed[j].name)
    && (forall j :: j in failed ==> j.name in buffer)
    && (forall n :: n in buffer ==> exists j :: j in failed && j.name == n)
  }

  /** In whatever order the listing and the copy come, the payload names each job
      as often as the two maps do together. */
  lemma MentionsAreCounted(listed: seq<Observer.Job>, items: seq<Item>, jobs: map<string, Item>,
                           failed: seq<PortalJob>, buffer: map<string, PortalJob>, name: string)
    requires Reads(listed, items) && SyncPass.Lists(items, jobs) && Copies(failed, buffer)
    ensures Count(NamesIn(StatesOf(listed, failed)), name) == Mentions(jobs, buffer, name)
  {
    hide Count, SyncPass.Lists, Copies, Observer.Reported;
    var js := StatesOf(listed, failed);
    var a, b := seq(|items|, i requires 0 <= i < |items| => items[i].name), NamesOfFailed(failed);
    assert NamesIn(js) == a + b;
    CountAppend(a, b, name);
    CountListed(items, jobs, name);
    CountFailed(failed, buffer, name);
  }

  function NamesIn(js: seq<Observer.Report>): seq<string> {
    seq(|js|, i requires 0 <= i < |js| => js[i].name)
  }

  function NamesOfFailed(failed: seq<PortalJob>): seq<string> {
    seq(|failed|, i requires 0 <= i < |failed| => failed[i].name)
  }

  lemma CountListed(items: seq<Item>, jobs: map<string, Item>, name: string)
    requires SyncPass.Lists(items, jobs)
    ensures Count(seq(|items|, i requires 0 <= i < |items| => items[i].name), name) == if name in jobs then 1 else 0
  {
    hide Count;
    var names := seq(|items|, i requires 0 <= i < |items| => items[i].name);
    CountDistinct(names, name);
    if name in jobs {
      var i :| 0 <= i < |items| && items[i] == jobs[name];
      assert names[i] == name;
    }
  }

  lemma CountFailed(failed: seq<PortalJob>, buffer: map<string, PortalJob>, name: string)
    requires Copies(failed, buffer)
    ensures Count(NamesOfFailed(failed), name) == if name in buffer then 1 else 0
  {
    hide Count;
    var names := NamesOfFailed(failed);
    CountDistinct(names, name);
    if name in buffer {
      var j :| j in failed && j.name == name;
      var i :| 0 <= i < |failed| && failed[i] == j;
      assert names[i] == name;
    }
  }

  // ------------------------------------------------ what happens in between

  function NameOf(op: Op): string {
    match op
    case Put(job) => job.name
    case Drop(name) => name
  }

  // The updates of the buffer made for a name in a run.
  ghost function Written(start: System, es: seq<Event>, name: string): seq<Op> {
    if es == [] then []
    else
      var init, e := es[..|es| - 1], es[|es| - 1];
      var sys := Run(start, init);
      Written(start, init, name)
      + if e.Sync? && sys.pc.Writing? && NameOf(sys.pc.op) == name then [sys.pc.op] else []
  }

  lemma BufferStep(sys: System, e: Event, name: string)
    ensures name in Apply(sys, e).buffer
            <==> if e.Sync? && sys.pc.Writing? && NameOf(sys.pc.op) == name then sys.pc.op.Put? else name in sys.buffer
  {
    hide SyncPass.Lists, SyncPass.Keeps, HasKnownType, NewItem;
  }

  lemma {:induction false} BufferTellsWritten(start: System, es: seq<Event>, name: string)
    ensures var ws := Written(start, es, name);
            name in Run(start, es).buffer <==> if ws == [] then name in start.buffer else ws[|ws| - 1].Put?
  {
    hide Apply;
    if es != [] {
      BufferTellsWritten(start, es[..|es| - 1], name);
      BufferStep(Run(start, es[..|es| - 1]), es[|es| - 1], name);
    }
  }

  /** A payload whose cluster was listed after `k` events and whose copy of the
      buffer reader `r` holds now, in any interleaving.  It names a job twice
      exactly when the job was listed and either its creation had not been
      acknowledged or its failure not yet been struck off, and nothing was written
      for it in between, or the last thing written for it in between was a failure;
      and not at all exactly when it was not listed and either was not remembered
      and nothing was written for it, or the last thing written for it was the end
      of its failures. */
  lemma MentionsExactly(es: seq<Event>, k: nat, r: nat, name: string)
    requires HarmlessLists(es) && k <= |es| && r in Run(EMPTY, es).readers
    requires Putting(Run(EMPTY, es[..k]).pc) != Some(name)
    ensures var listed, copy := Run(EMPTY, es[..k]), Run(EMPTY, es).readers[r];
            var ws := Written(listed, es[k..], name);
            && (Mentions(listed.jobs, copy, name) == 2
                <==> && name in listed.jobs
                     && if ws == []
                        then name in LostNames(es[..k]) || (Pending(listed.pc) == Some(name) && name in listed.buffer)
                        else ws[|ws| - 1].Put?)
            && (Mentions(listed.jobs, copy, name) == 0
                <==> && name !in listed.jobs
                     && if ws == [] then name !in listed.buffer else ws[|ws| - 1].Drop?)
  {
    hide Run, LostNames, Written;
    var listed := Run(EMPTY, es[..k]);
    LockDiscipline(es);
    assert es == es[..k] + es[k..];
    RunAppend(EMPTY, es[..k], es[k..]);
    BufferTellsWritten(listed, es[k..], name);
    TwoFacedExactly(es[..k], name);
    ConsistentRun(es[..k]);
  }

  // ------------------------------------------------------------- both happen

  // The first creation refused and remembered, the second pass about to try again.
  lemma SecondTry(j: PortalJob) returns (es: seq<Event>)
    requires HasKnownType(j)
    ensures FetchesOnly(es, [j]) && Acknowledged(es)
    ensures Run(EMPTY, es) == System(map[], map[j.name := j], Creating([], [j], 0), map[])
  {
    hide Run, HasKnownType, NewItem;
    var buffer := map[j.name := j];
    var fates := k => Refused;
    es := LoopRun([j], 1, fates);
    assert [j][..1] == [j];
    RefusedOnce(j, fates);
    assert Run(EMPTY, es) == System(map[], buffer, Creating([], [j], 1), map[]);
    es := Then(EMPTY, es, Sync(Delivered), System(map[], buffer, Deleting([], [j], 0), map[]));
    es := Then(EMPTY, es, Sync(Delivered), System(map[], buffer, Idle, map[]));
    es := Then(EMPTY, es, List([]), System(map[], buffer, Listed([]), map[]));
    es := Then(EMPTY, es, Fetch(Some([j])), System(map[], buffer, Creating([], [j], 0), map[]));
  }

  lemma RefusedOnce(j: PortalJob, fates: SyncPass.Fates)
    requires HasKnownType(j) && fates(0).Refused?
    ensures AfterLoop([j], fates) == SyncPass.State(map[], map[j.name := j], 1, 0)
  {
    hide HasKnownType, NewItem;
    var st := SyncPass.State(map[], map[], 0, 0);
    var portal := [j];
    assert portal[..|portal| - 1] == [] && portal[|portal| - 1] == j;
    assert SyncPass.CreateAll(st, [], {}, fates) == st;
    assert AfterLoop(portal, fates) == SyncPass.TryCreate(st, j, fates);
  }

  /** One acknowledged run, two heartbeats.  Listing just after the job is created
      and copying at once names it twice; listing just before and copying after
      its failure is struck off does not name it at all. */
  lemma BothHappen(j: PortalJob) returns (es: seq<Event>, before: nat, after: nat, twice: seq<Event>, never: seq<Event>)
    requires HasKnownType(j)
    ensures FetchesOnly(es, [j]) && Acknowledged(es) && before <= after <= |es|
    ensures twice == es[..after] + [Enter(0)] && never == es + [Enter(0)]
    ensures 0 in Run(EMPTY, twice).readers && 0 in Run(EMPTY, never).readers
    ensures Mentions(Run(EMPTY, es[..after]).jobs, Run(EMPTY, twice).readers[0], j.name) == 2
    ensures Mentions(Run(EMPTY, es[..before]).jobs, Run(EMPTY, never).readers[0], j.name) == 0
  {
    hide Run, HasKnownType, NewItem;
    var buffer, created := map[j.name := j], map[j.name := NewItem(j)];
    var first := SecondTry(j);
    before, after := |first|, |first| + 1;
    var drop := Drop(j.name);
    var second := Then(EMPTY, first, Sync(Delivered), System(created, buffer, Testing([], [j], 0, drop), map[]));
    twice := Then(EMPTY, second, Enter(0), Run(EMPTY, second).(readers := map[0 := buffer]));
    es := Then(EMPTY, second, Sync(Delivered), System(created, buffer, Locking([], [j], 0, drop), map[]));
    es := Then(EMPTY, es, Sync(Delivered), System(created, buffer, Writing([], [j], 0, drop), map[]));
    es := Then(EMPTY, es, Sync(Delivered), System(created, map[], Creating([], [j], 1), map[]));
    never := Then(EMPTY, es, Enter(0), Run(EMPTY, es).(readers := map[0 := map[]]));
    assert es[..before] == first && es[..after] == second;
  }
}
