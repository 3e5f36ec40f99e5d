/** One pass of the synchroniser over the portal's list
    (internal/synchronizer/syncjob.go) as a function, and what a pass achieves. */
module SyncPass {
  import opened Wrappers
  import opened FailureBuffer
  import Observer

  // The labelled jobs in the cluster, the buffer, how many requests have been
  // sent and how many of them took effect.
  datatype State = State(jobs: map<string, Item>, buffer: map<string, PortalJob>, calls: nat, done: nat)

  // What becomes of the requests, by number.
  type Fates = nat -> Fate

  function Request(st: State, jobs: map<string, Item>, fate: Fate): State {
    if fate.Refused? then st.(calls := st.calls + 1)
    else st.(jobs := jobs, calls := st.calls + 1, done := st.done + 1)
  }

  // A create is refused for a name already there, a delete for one that is not.
  function CreateFate(st: State, name: string, fates: Fates): Fate {
    if name in st.jobs then Refused else fates(st.calls)
  }

  function DeleteFate(st: State, name: string, fates: Fates): Fate {
    if name !in st.jobs then Refused else fates(st.calls)
  }

  function TryCreate(st: State, j: PortalJob, fates: Fates): State {
    if !HasKnownType(j) then st.(buffer := Remember(st.buffer, j))
    else
      var fate := CreateFate(st, j.name, fates);
      Request(st, st.jobs[j.name := NewItem(j)], fate)
        .(buffer := if fate.Delivered? then Forget(st.buffer, j.name) else Remember(st.buffer, j))
  }

  // The attempts the create loop makes; jobs whose name was listed are skipped.
  function CreateAll(st: State, portal: seq<PortalJob>, listed: set<string>, fates: Fates): State {
    if portal == [] then st
    else
      var before, j := CreateAll(st, portal[..|portal| - 1], listed, fates), portal[|portal| - 1];
      if j.name in listed then before else TryCreate(before, j, fates)
  }

  function Attempts(st: State, portal: seq<PortalJob>, listed: set<string>, fates: Fates): seq<Attempt> {
    if portal == [] then []
    else
      var init, j := portal[..|portal| - 1], portal[|portal| - 1];
      var before := CreateAll(st, init, listed, fates);
      Attempts(st, init, listed, fates)
      + if j.name in listed then [] else [AttemptOf(before, j, fates)]
  }

  // An unknown job type counts as a failed attempt, and so does a creation that
  // is not acknowledged.
  function AttemptOf(st: State, j: PortalJob, fates: Fates): Attempt {
    Attempt(j, HasKnownType(j) && CreateFate(st, j.name, fates).Delivered?)
  }

  predicate Assigned(portal: seq<PortalJob>, name: string) {
    exists j | j in portal :: j.name == name
  }

  // A job the pass leaves alone: its work is over, or the portal still wants it.
  predicate Keeps(portal: seq<PortalJob>, it: Item) {
    Observer.Settled(Observer.Parsed(it.conditions).0) || Assigned(portal, it.name)
  }

  // The delete loop over the listed jobs; the first failure ends the pass.
  function DeleteAll(st: State, items: seq<Item>, portal: seq<PortalJob>, fates: Fates): (State, bool) {
    if items == [] then (st, false)
    else
      var (before, stopped), it := DeleteAll(st, items[..|items| - 1], portal, fates), items[|items| - 1];
      if stopped || Keeps(portal, it) then (before, stopped)
      else
        var fate := DeleteFate(before, it.name, fates);
        (Request(before, before.jobs - {it.name}, fate), !fate.Delivered?)
  }

  // Once a delete has not been acknowledged the rest of the list makes no difference.
  lemma {:induction false} StoppedStays(st: State, items: seq<Item>, portal: seq<PortalJob>, fates: Fates, n: nat)
    requires n <= |items| && DeleteAll(st, items[..n], portal, fates).1
    ensures DeleteAll(st, items, portal, fates) == DeleteAll(st, items[..n], portal, fates)
    decreases |items| - n
  {
    if n < |items| {
      assert items[..n + 1][..n] == items[..n];
      StoppedStays(st, items, portal, fates, n + 1);
    } else {
      assert items[..n] == items;
    }
  }

  function NamesOf(items: seq<Item>): set<string> {
    set it | it in items :: it.name
  }

  function Pass(st: State, items: seq<Item>, portal: seq<PortalJob>, fates: Fates): State {
    DeleteAll(CreateAll(st, portal, NamesOf(items), fates), items, portal, fates).0
  }

  // Jobs of the cluster, each listed once.
  ghost predicate Found(items: seq<Item>, jobs: map<string, Item>) {
    && (forall i, j :: 0 <= i < j < |items| ==> items[i].name != items[j].name)
    && (forall it :: it in items ==> it.name in jobs && jobs[it.name] == it)
  }

  // The listing of the cluster, in any order.
  ghost predicate Lists(items: seq<Item>, jobs: map<string, Item>) {
    && Found(items, jobs)
    && (forall n :: n in jobs ==> jobs[n] in items && jobs[n].name == n)
  }

  // ------------------------------------------------------------- convergence

  // Wanted but not there, and there but no longer wanted.
  ghost function Missing(portal: seq<PortalJob>, jobs: map<string, Item>): set<string> {
    set j | j in portal && HasKnownType(j) && j.name !in jobs :: j.name
  }

  ghost function Extra(portal: seq<PortalJob>, jobs: map<string, Item>): set<string> {
    set n | n in jobs && !Observer.Settled(Observer.Parsed(jobs[n].conditions).0) && !Assigned(portal, n)
  }

  ghost function Gap(portal: seq<PortalJob>, jobs: map<string, Item>): nat {
    |Missing(portal, jobs)| + |Extra(portal, jobs)|
  }

  lemma CreateClosesGap(portal: seq<PortalJob>, st: State, j: PortalJob, fates: Fates)
    requires j in portal
    ensures var t := TryCreate(st, j, fates);
            Gap(portal, t.jobs) + (t.done - st.done) == Gap(portal, st.jobs)
  {
    hide Observer.Parsed, JobTypeCheck;
    if HasKnownType(j) && !CreateFate(st, j.name, fates).Refused? {
      var jobs := st.jobs[j.name := NewItem(j)];
      assert Missing(portal, st.jobs) == Missing(portal, jobs) + {j.name};
      assert j.name !in Missing(portal, jobs);
      assert Assigned(portal, j.name);
      assert Extra(portal, st.jobs) == Extra(portal, jobs);
    }
  }

  lemma DeleteClosesGap(portal: seq<PortalJob>, jobs: map<string, Item>, name: string)
    requires name in jobs && jobs[name].name == name && !Keeps(portal, jobs[name])
    ensures Gap(portal, jobs - {name}) + 1 == Gap(portal, jobs)
  {
    hide Observer.Parsed, JobTypeCheck;
    assert Extra(portal, jobs) == Extra(portal, jobs - {name}) + {name};
    assert name !in Extra(portal, jobs - {name});
    forall j | j in portal && HasKnownType(j)
      ensures j.name != name
    {
    }
    assert Missing(portal, jobs - {name}) == Missing(portal, jobs);
  }

  ghost predicate DeliveredFrom(fates: Fates, n: nat) {
    forall i: nat :: i >= n ==> fates(i).Delivered?
  }

  ghost predicate SelfNamed(jobs: map<string, Item>) {
    forall n :: n in jobs ==> jobs[n].name == n
  }

  lemma TryCreateKeeps(st: State, j: PortalJob, fates: Fates)
    requires SelfNamed(st.jobs)
    ensures var t := TryCreate(st, j, fates);
            && SelfNamed(t.jobs) && t.calls >= st.calls && t.done >= st.done
            && (forall n :: n in st.jobs ==> n in t.jobs && t.jobs[n] == st.jobs[n])
            && (forall n :: n in t.jobs && n !in st.jobs ==> n == j.name)
            && (HasKnownType(j) && !fates(st.calls).Refused? ==> j.name in t.jobs)
  {
    hide JobTypeCheck;
  }

  // What the create loop has done after the jobs of `p`, part of the list.
  lemma {:induction false} CreateAllKeeps(st: State, p: seq<PortalJob>, portal: seq<PortalJob>, listed: set<string>,
                                          fates: Fates)
    requires SelfNamed(st.jobs) && forall j :: j in p ==> j in portal
    ensures var t := CreateAll(st, p, listed, fates);
            && SelfNamed(t.jobs) && t.calls >= st.calls && t.done >= st.done
            && (forall n :: n in st.jobs ==> n in t.jobs && t.jobs[n] == st.jobs[n])
            && (forall n :: n in t.jobs && n !in st.jobs ==> Assigned(portal, n))
            && Gap(portal, t.jobs) + (t.done - st.done) == Gap(portal, st.jobs)
            && (DeliveredFrom(fates, st.calls) ==>
                  forall j :: j in p && HasKnownType(j) ==> j.name in listed || j.name in t.jobs)
  {
    hide TryCreate, JobTypeCheck, Gap, HasKnownType;
    if p != [] {
      var init, j := p[..|p| - 1], p[|p| - 1];
      var before := CreateAll(st, init, listed, fates);
      CreateAllKeeps(st, init, portal, listed, fates);
      assert forall i :: i in p <==> i in init || i == j;
      if j.name !in listed {
        TryCreateKeeps(before, j, fates);
        CreateClosesGap(portal, before, j, fates);
      }
    }
  }

  // What the delete loop has done after `items`, found in the cluster before it.
  lemma {:induction false} DeleteAllKeeps(st: State, items: seq<Item>, portal: seq<PortalJob>, fates: Fates)
    requires SelfNamed(st.jobs) && Found(items, st.jobs)
    ensures var (t, stopped) := DeleteAll(st, items, portal, fates);
            && t.calls >= st.calls && t.done >= st.done && t.buffer == st.buffer
            && t.jobs.Keys <= st.jobs.Keys && (forall n :: n in t.jobs ==> t.jobs[n] == st.jobs[n])
            && (forall n :: n in st.jobs && n !in t.jobs ==> !Keeps(portal, st.jobs[n]) && st.jobs[n] in items)
            && Gap(portal, t.jobs) + (t.done - st.done) == Gap(portal, st.jobs)
            && (stopped ==> !DeliveredFrom(fates, st.calls))
            && (!stopped ==> forall it :: it in items && !Keeps(portal, it) ==> it.name !in t.jobs)
            && (t.calls > st.calls ==> exists it :: it in items && !Keeps(portal, it))
  {
    hide Gap, Keeps;
    if items != [] {
      var init, it := items[..|items| - 1], items[|items| - 1];
      var (before, stopped) := DeleteAll(st, init, portal, fates);
      assert items == init + [it];
      DeleteAllKeeps(st, init, portal, fates);
      assert it !in init;
      assert it in items;
      if !stopped && !Keeps(portal, it) {
        assert it.name in before.jobs;
        DeleteClosesGap(portal, before.jobs, it.name);
      }
    }
  }

  /** A pass closes the gap between the portal and the cluster by exactly one for
      every request that takes effect, and never widens it. */
  lemma PassClosesGap(st: State, items: seq<Item>, portal: seq<PortalJob>, fates: Fates)
    requires Lists(items, st.jobs)
    ensures var t := Pass(st, items, portal, fates);
            t.done >= st.done && Gap(portal, t.jobs) + (t.done - st.done) == Gap(portal, st.jobs)
  {
    hide Gap, Keeps;
    CreateAllKeeps(st, portal, portal, NamesOf(items), fates);
    DeleteAllKeeps(CreateAll(st, portal, NamesOf(items), fates), items, portal, fates);
  }

  lemma NoGap(portal: seq<PortalJob>, jobs: map<string, Item>)
    requires forall j :: j in portal && HasKnownType(j) ==> j.name in jobs
    requires forall n :: n in jobs ==> Keeps(portal, jobs[n]) && jobs[n].name == n
    ensures Gap(portal, jobs) == 0
  {
    assert Missing(portal, jobs) == {};
    assert Extra(portal, jobs) == {};
  }

  /** After a pass whose requests all went through the gap is closed. */
  lemma CleanPassConverges(st: State, items: seq<Item>, portal: seq<PortalJob>, fates: Fates)
    requires Lists(items, st.jobs) && DeliveredFrom(fates, st.calls)
    ensures Gap(portal, Pass(st, items, portal, fates).jobs) == 0
  {
    hide Gap, Keeps, HasKnownType;
    var mid := CreateAll(st, portal, NamesOf(items), fates);
    CreateAllKeeps(st, portal, portal, NamesOf(items), fates);
    DeleteAllKeeps(mid, items, portal, fates);
    var t := Pass(st, items, portal, fates);
    forall n | n in t.jobs
      ensures Keeps(portal, t.jobs[n]) && t.jobs[n].name == n
    {
      if n in st.jobs {
        assert st.jobs[n] in items;
      } else {
        AssignedKept(portal, t.jobs[n]);
      }
    }
    forall j | j in portal && HasKnownType(j)
      ensures j.name in t.jobs
    {
      if j.name in NamesOf(items) {
        assert j.name in st.jobs;
      }
      AssignedKept(portal, mid.jobs[j.name]);
    }
    NoGap(portal, t.jobs);
  }

  lemma AssignedKept(portal: seq<PortalJob>, it: Item)
    requires Assigned(portal, it.name) || exists j :: j in portal && j.name == it.name
    ensures Keeps(portal, it)
  {
  }

  lemma ClosedGapMeans(portal: seq<PortalJob>, jobs: map<string, Item>)
    requires Gap(portal, jobs) == 0 && SelfNamed(jobs)
    ensures forall j :: j in portal && HasKnownType(j) ==> j.name in jobs
    ensures forall n :: n in jobs ==> Keeps(portal, jobs[n])
  {
    hide Observer.Parsed, JobTypeCheck;
    assert Missing(portal, jobs) == {} && Extra(portal, jobs) == {};
    forall j | j in portal && HasKnownType(j)
      ensures j.name in jobs
    {
      assert j.name !in Missing(portal, jobs);
    }
    forall n | n in jobs
      ensures Keeps(portal, jobs[n])
    {
      assert n !in Extra(portal, jobs);
    }
  }

  lemma {:induction false} NothingToCreate(st: State, p: seq<PortalJob>, listed: set<string>, fates: Fates)
    requires forall j :: j in p && HasKnownType(j) ==> j.name in listed
    ensures var t := CreateAll(st, p, listed, fates);
            t.jobs == st.jobs && t.calls == st.calls && t.done == st.done
  {
    hide JobTypeCheck;
    if p != [] {
      NothingToCreate(st, p[..|p| - 1], listed, fates);
    }
  }

  /** A pass over a closed gap sends no request at all and leaves the cluster as
      it is; in particular the pass after a clean one, statuses unchanged. */
  lemma ClosedGapPassIsSilent(st: State, items: seq<Item>, portal: seq<PortalJob>, fates: Fates)
    requires Lists(items, st.jobs) && Gap(portal, st.jobs) == 0
    ensures var t := Pass(st, items, portal, fates);
            t.jobs == st.jobs && t.calls == st.calls
  {
    hide Keeps, Gap, HasKnownType;
    ClosedGapMeans(portal, st.jobs);
    forall j | j in portal && HasKnownType(j)
      ensures j.name in NamesOf(items)
    {
      assert st.jobs[j.name] in items;
    }
    NothingToCreate(st, portal, NamesOf(items), fates);
    var mid := CreateAll(st, portal, NamesOf(items), fates);
    DeleteAllKeeps(mid, items, portal, fates);
    var t := Pass(st, items, portal, fates);
    assert t.jobs == st.jobs;
  }

  /** A pass deletes only listed jobs whose work is not over and which the portal
      no longer wants, and creates only jobs the portal wants. */
  lemma PassTouchesOnly(st: State, items: seq<Item>, portal: seq<PortalJob>, fates: Fates)
    requires Lists(items, st.jobs)
    ensures var t := Pass(st, items, portal, fates);
            && (forall n :: n in st.jobs && Keeps(portal, st.jobs[n]) ==> n in t.jobs && t.jobs[n] == st.jobs[n])
            && (forall n :: n in t.jobs && n !in st.jobs ==> Assigned(portal, n))
  {
    hide Gap, Keeps;
    CreateAllKeeps(st, portal, portal, NamesOf(items), fates);
    DeleteAllKeeps(CreateAll(st, portal, NamesOf(items), fates), items, portal, fates);
  }

  /** The first delete that is not acknowledged ends the pass: of the deletes a
      pass requests only the last may not have gone through. */
  lemma {:induction false} FailedDeleteEndsPass(st: State, items: seq<Item>, portal: seq<PortalJob>, fates: Fates)
    requires SelfNamed(st.jobs) && Found(items, st.jobs)
    ensures var (t, stopped) := DeleteAll(st, items, portal, fates);
            && (forall k: nat :: st.calls <= k < t.calls - 1 ==> fates(k).Delivered?)
            && (stopped <==> t.calls > st.calls && !fates(t.calls - 1).Delivered?)
  {
    hide Gap, Keeps;
    if items != [] {
      var init, it := items[..|items| - 1], items[|items| - 1];
      assert items == init + [it];
      FailedDeleteEndsPass(st, init, portal, fates);
      DeleteAllKeeps(st, init, portal, fates);
      assert it !in init;
      assert it in items;
    }
  }

  // --------------------------------------------------- the buffer over passes

  lemma AttemptRemembered(st: State, j: PortalJob, fates: Fates, log: seq<Attempt>)
    requires st.buffer == Buffer(log)
    ensures TryCreate(st, j, fates).buffer == Buffer(log + [AttemptOf(st, j, fates)])
  {
    hide JobTypeCheck, HasKnownType;
    assert (log + [AttemptOf(st, j, fates)])[..|log|] == log;
  }

  /** A pass extends the history by its attempts and nothing else. */
  lemma {:induction false} CreateAllExtendsHistory(st: State, p: seq<PortalJob>, listed: set<string>, fates: Fates,
                                                   log: seq<Attempt>)
    requires st.buffer == Buffer(log)
    ensures CreateAll(st, p, listed, fates).buffer == Buffer(log + Attempts(st, p, listed, fates))
  {
    hide TryCreate, AttemptOf, Buffer;
    if p == [] {
      assert log + [] == log;
    } else {
      var init, j := p[..|p| - 1], p[|p| - 1];
      CreateAllExtendsHistory(st, init, listed, fates, log);
      if j.name in listed {
        assert Attempts(st, p, listed, fates) == Attempts(st, init, listed, fates);
      } else {
        var before := CreateAll(st, init, listed, fates);
        var past := log + Attempts(st, init, listed, fates);
        AttemptRemembered(before, j, fates, past);
        assert log + Attempts(st, p, listed, fates) == past + [AttemptOf(before, j, fates)];
      }
    }
  }
}
