/** The condition list of a CPodJob and the only routine that edits it
    (pkg/util/status.go).  The list is compared with a map from condition type
    to condition, and the recorded transition times with the history of updates. */
module Conditions {
  import opened Wrappers

  // An opaque instant; the environment supplies it.
  type Time = int

  // The six types the operator writes, and any other string found in the list.
  datatype Kind =
    | Created
    | Running
    | Succeeded
    | ModelUploading
    | ModelUploaded
    | Failed
    | Other(name: string)

  datatype Truth = True | False | Unknown

  datatype Condition = Condition(kind: Kind, status: Truth, reason: string, message: string, transition: Time)

  datatype Status = Status(conditions: seq<Condition>, startTime: Option<Time>, completionTime: Option<Time>)

  /** The first condition of the given type. */
  function GetCondition(cs: seq<Condition>, k: Kind): (r: Option<Condition>)
    ensures r.Some? ==> r.value in cs && r.value.kind == k
    ensures r.None? <==> forall c :: c in cs ==> c.kind != k
  {
    if cs == [] then None
    else if cs[0].kind == k then Some(cs[0])
    else GetCondition(cs[1..], k)
  }

  /** The verdict of the first condition of the given type. */
  predicate IsStatusConditionTrue(cs: seq<Condition>, k: Kind)
    ensures IsStatusConditionTrue(cs, k) <==> GetCondition(cs, k).Some? && GetCondition(cs, k).value.status.True?
  {
    if cs == [] then false
    else if cs[0].kind == k then cs[0].status.True?
    else IsStatusConditionTrue(cs[1..], k)
  }

  predicate IsSucceeded(cs: seq<Condition>) {
    IsStatusConditionTrue(cs, Succeeded)
  }

  predicate IsFailed(cs: seq<Condition>) {
    IsStatusConditionTrue(cs, Failed)
  }

  predicate IsFinished(cs: seq<Condition>) {
    IsSucceeded(cs) || IsFailed(cs)
  }

  predicate Has(cs: seq<Condition>, k: Kind) {
    GetCondition(cs, k).Some?
  }

  /** What becomes of one condition when type `k` is about to be written. */
  function Kept(c: Condition, k: Kind): seq<Condition> {
    if c.kind == k || (k.ModelUploaded? && c.kind.ModelUploading?) then []
    else if (k.Failed? || k.Succeeded?) && c.kind.Running? then [c.(status := False)]
    else [c]
  }

  function FilterOut(cs: seq<Condition>, k: Kind): seq<Condition> {
    if cs == [] then [] else FilterOut(cs[..|cs| - 1], k) + Kept(cs[|cs| - 1], k)
  }

  predicate SameContent(a: Condition, b: Condition) {
    a.status == b.status && a.reason == b.reason && a.message == b.message
  }

  /** The list after one update.  The new condition carries the current time. */
  function SetCondition(cs: seq<Condition>, c: Condition): seq<Condition> {
    var current := GetCondition(cs, c.kind);
    if IsFailed(cs) || (current.Some? && SameContent(current.value, c)) then cs
    else FilterOut(cs, c.kind) + [Stamp(current, c)]
  }

  // The transition time moves only when the status does.
  function Stamp(current: Option<Condition>, c: Condition): Condition {
    if current.Some? && current.value.status == c.status then c.(transition := current.value.transition) else c
  }

  method FilterOutCondition(cs: seq<Condition>, k: Kind) returns (r: seq<Condition>)
    ensures r == FilterOut(cs, k)
  {
    r := [];
    for i := 0 to |cs|
      invariant r == FilterOut(cs[..i], k)
    {
      assert cs[..i + 1][..i] == cs[..i];
      var c := cs[i];
      if c.kind == k {
        continue;
      }
      if (k.Failed? || k.Succeeded?) && c.kind.Running? {
        c := c.(status := False);
      }
      if k.ModelUploaded? && c.kind.ModelUploading? {
        continue;
      }
      r := r + [c];
    }
    assert cs[..|cs|] == cs;
  }

  /** The status a reconcile edits in memory. */
  class JobStatus {
    var conditions: seq<Condition>
    var startTime: Option<Time>
    var completionTime: Option<Time>

    constructor (s: Status)
      ensures Value() == s
    {
      conditions, startTime, completionTime := s.conditions, s.startTime, s.completionTime;
    }

    function Value(): Status
      reads this
    {
      Status(conditions, startTime, completionTime)
    }

    method UpdateJobConditions(k: Kind, status: Truth, reason: string, message: string, now: Time)
      modifies this`conditions
      ensures conditions == SetCondition(old(conditions), Condition(k, status, reason, message, now))
    {
      SetJobCondition(Condition(k, status, reason, message, now));
    }

    method SetJobCondition(c: Condition)
      modifies this`conditions
      ensures conditions == SetCondition(old(conditions), c)
    {
      if IsFailed(conditions) {
        return;
      }
      var current := GetCondition(conditions, c.kind);
      if current.Some? && SameContent(current.value, c) {
        return;
      }
      var written := c;
      if current.Some? && current.value.status == c.status {
        written := c.(transition := current.value.transition);
      }
      var rest := FilterOutCondition(conditions, c.kind);
      conditions := rest + [written];
    }
  }

  // ---------------------------------------------------------------- lookups

  lemma {:induction false} GetAppend(a: seq<Condition>, b: seq<Condition>, k: Kind)
    ensures GetCondition(a + b, k) == if Has(a, k) then GetCondition(a, k) else GetCondition(b, k)
  {
    if a == [] {
      assert a + b == b;
    } else {
      assert (a + b)[1..] == a[1..] + b;
      GetAppend(a[1..], b, k);
    }
  }

  // What the filter makes of a looked-up condition.
  function KeptOption(c: Option<Condition>, k: Kind): Option<Condition> {
    if c.None? || Kept(c.value, k) == [] then None else Some(Kept(c.value, k)[0])
  }

  lemma GetSnoc(cs: seq<Condition>, c: Condition, k: Kind, u: Kind)
    ensures GetCondition(cs + [c], u)
            == if Has(cs, u) then GetCondition(cs, u) else if c.kind == u then Some(c) else None
    ensures GetCondition(cs + Kept(c, k), u)
            == if Has(cs, u) then GetCondition(cs, u) else if c.kind == u then KeptOption(Some(c), k) else None
  {
    GetAppend(cs, [c], u);
    GetAppend(cs, Kept(c, k), u);
    assert [c][1..] == [] && forall d: Condition :: [d][1..] == [];
  }

  /** Lookup after the filter is lookup before it, passed through `Kept`. */
  lemma {:induction false} GetFiltered(cs: seq<Condition>, k: Kind, u: Kind)
    ensures GetCondition(FilterOut(cs, k), u) == KeptOption(GetCondition(cs, u), k)
  {
    if cs != [] {
      var init, last := cs[..|cs| - 1], cs[|cs| - 1];
      assert cs == init + [last];
      GetFiltered(init, k, u);
      FilteredSnoc(init, last, FilterOut(init, k), k, u);
    }
  }

  lemma FilteredSnoc(cs: seq<Condition>, c: Condition, filtered: seq<Condition>, k: Kind, u: Kind)
    requires GetCondition(filtered, u) == KeptOption(GetCondition(cs, u), k)
    ensures GetCondition(filtered + Kept(c, k), u) == KeptOption(GetCondition(cs + [c], u), k)
  {
    GetSnoc(cs, c, k, u);
    GetSnoc(filtered, c, k, u);
  }

  /** One update, seen through lookups; the two lists may hold duplicates. */
  lemma GetAfterSet(cs: seq<Condition>, c: Condition, u: Kind)
    ensures var current := GetCondition(cs, c.kind);
            var before, after := GetCondition(cs, u), GetCondition(SetCondition(cs, c), u);
            if IsFailed(cs) || (current.Some? && SameContent(current.value, c)) then after == before
            else if u == c.kind then after == Some(Stamp(current, c))
            else after == KeptOption(before, c.kind)
  {
    var written := Stamp(GetCondition(cs, c.kind), c);
    GetFiltered(cs, c.kind, u);
    GetSnoc(FilterOut(cs, c.kind), written, c.kind, u);
  }

  /** It is the first condition of its type. */
  lemma {:induction false} GetIsFirst(cs: seq<Condition>, k: Kind, i: nat)
    requires i < |cs| && cs[i].kind == k && forall h :: 0 <= h < i ==> cs[h].kind != k
    ensures GetCondition(cs, k) == Some(cs[i])
  {
    if i > 0 {
      GetIsFirst(cs[1..], k, i - 1);
    }
  }

  // A status says so of a type: the first condition of the type has this content.
  predicate Holds(cs: seq<Condition>, k: Kind, status: Truth, reason: string, message: string) {
    var c := GetCondition(cs, k);
    c.Some? && c.value.status == status && c.value.reason == reason && c.value.message == message
  }

  /** What an update of a list that has not failed does to it, type by type: what
      was written is there, finishing turns Running False and leaves the rest of it
      alone, recording the end of an upload removes its progress, and every other
      type is as it was. */
  lemma UpdateEffects(cs: seq<Condition>, c: Condition, u: Kind)
    requires !IsStatusConditionTrue(cs, Failed)
    ensures Holds(SetCondition(cs, c), c.kind, c.status, c.reason, c.message)
    ensures u != c.kind && !Holds(cs, c.kind, c.status, c.reason, c.message) ==>
              var before, after := GetCondition(cs, u), GetCondition(SetCondition(cs, c), u);
              if u.Running? && (c.kind.Failed? || c.kind.Succeeded?) && before.Some?
              then after == Some(before.value.(status := False))
              else if u.ModelUploading? && c.kind.ModelUploaded? then after == None
              else after == before
    ensures Holds(cs, c.kind, c.status, c.reason, c.message) ==> SetCondition(cs, c) == cs
  {
    hide SetCondition, FilterOut;
    GetAfterSet(cs, c, u);
    GetAfterSet(cs, c, c.kind);
    if Holds(cs, c.kind, c.status, c.reason, c.message) {
      SetAgain(cs, c);
    }
  }

  // Writing the content already there changes nothing.
  lemma SetAgain(cs: seq<Condition>, c: Condition)
    requires Holds(cs, c.kind, c.status, c.reason, c.message)
    ensures SetCondition(cs, c) == cs
  {
  }

  // ------------------------------------------------------ the list as a map

  function AsMap(cs: seq<Condition>): map<Kind, Condition> {
    map k | k in Kinds(cs) :: GetCondition(cs, k).value
  }

  function Kinds(cs: seq<Condition>): (r: set<Kind>)
    ensures forall k :: k in r <==> Has(cs, k)
  {
    set c | c in cs :: c.kind
  }

  /** The reference: Failed=True freezes everything, finishing turns Running
      False, ModelUploaded removes ModelUploading, and writing the content
      already there does nothing. */
  function MapUpdate(m: map<Kind, Condition>, c: Condition): map<Kind, Condition> {
    if Failed in m && m[Failed].status.True? then m
    else if c.kind in m && SameContent(m[c.kind], c) then m
    else
      var written := if c.kind in m && m[c.kind].status == c.status then c.(transition := m[c.kind].transition) else c;
      var pruned := if c.kind.ModelUploaded? then m - {ModelUploading} else m;
      var calmed := if (c.kind.Failed? || c.kind.Succeeded?) && Running in pruned
                    then pruned[Running := pruned[Running].(status := False)] else pruned;
      calmed[c.kind := written]
  }

  function Lookup(m: map<Kind, Condition>, k: Kind): Option<Condition> {
    if k in m then Some(m[k]) else None
  }

  lemma MapUpdateAt(m: map<Kind, Condition>, c: Condition, u: Kind)
    requires forall k :: k in m ==> m[k].kind == k
    ensures var current := Lookup(m, c.kind);
            Lookup(MapUpdate(m, c), u)
            == if (Failed in m && m[Failed].status.True?) || (current.Some? && SameContent(current.value, c))
               then Lookup(m, u)
               else if u == c.kind then Some(Stamp(current, c))
               else KeptOption(Lookup(m, u), c.kind)
  {
  }

  /** The list refines the map, for every list, with or without duplicates. */
  lemma SetConditionRefinesMap(cs: seq<Condition>, c: Condition)
    ensures AsMap(SetCondition(cs, c)) == MapUpdate(AsMap(cs), c)
  {
    var l, r := AsMap(SetCondition(cs, c)), MapUpdate(AsMap(cs), c);
    forall u
      ensures Lookup(l, u) == Lookup(r, u)
    {
      GetAfterSet(cs, c, u);
      MapUpdateAt(AsMap(cs), c, u);
    }
    SameLookups(l, r);
  }

  lemma SameLookups(l: map<Kind, Condition>, r: map<Kind, Condition>)
    requires forall u :: Lookup(l, u) == Lookup(r, u)
    ensures l == r
  {
    assert forall u :: u in l <==> Lookup(l, u).Some?;
    assert forall u :: u in r <==> Lookup(r, u).Some?;
  }

  ghost predicate Distinct(cs: seq<Condition>) {
    forall i, j :: 0 <= i < j < |cs| ==> cs[i].kind != cs[j].kind
  }

  lemma FilteredKind(cs: seq<Condition>, k: Kind, c: Condition)
    requires c in FilterOut(cs, k)
    ensures c.kind != k && exists b :: b in cs && b.kind == c.kind
  {
    hide FilterOut;
    GetFiltered(cs, k, c.kind);
  }

  lemma {:induction false} FilterKeepsDistinct(cs: seq<Condition>, k: Kind)
    requires Distinct(cs)
    ensures Distinct(FilterOut(cs, k))
    ensures forall c :: c in FilterOut(cs, k) ==> c.kind != k
  {
    if cs != [] {
      var init, last := cs[..|cs| - 1], cs[|cs| - 1];
      FilterKeepsDistinct(init, k);
      forall c | c in FilterOut(init, k)
        ensures c.kind != last.kind
      {
        FilteredKind(init, k, c);
      }
    }
  }

  lemma SetKeepsDistinct(cs: seq<Condition>, c: Condition)
    requires Distinct(cs)
    ensures Distinct(SetCondition(cs, c))
  {
    FilterKeepsDistinct(cs, c.kind);
  }

  /** The list after a sequence of updates. */
  function Updated(cs: seq<Condition>, us: seq<Condition>): seq<Condition> {
    if us == [] then cs else SetCondition(Updated(cs, us[..|us| - 1]), us[|us| - 1])
  }

  function MapUpdated(m: map<Kind, Condition>, us: seq<Condition>): map<Kind, Condition> {
    if us == [] then m else MapUpdate(MapUpdated(m, us[..|us| - 1]), us[|us| - 1])
  }

  /** Over any sequence of updates the list and the map stay in step, and types
      that start distinct stay distinct. */
  lemma {:induction false} UpdatesRefineMap(cs: seq<Condition>, us: seq<Condition>)
    ensures AsMap(Updated(cs, us)) == MapUpdated(AsMap(cs), us)
    ensures Distinct(cs) ==> Distinct(Updated(cs, us))
  {
    if us != [] {
      var init := us[..|us| - 1];
      UpdatesRefineMap(cs, init);
      SetConditionRefinesMap(Updated(cs, init), us[|us| - 1]);
      if Distinct(cs) {
        SetKeepsDistinct(Updated(cs, init), us[|us| - 1]);
      }
    }
  }

  /** Once Failed=True is there no update changes anything. */
  lemma {:induction false} FailedFreezes(cs: seq<Condition>, us: seq<Condition>)
    requires IsFailed(cs)
    ensures Updated(cs, us) == cs
  {
    if us != [] {
      FailedFreezes(cs, us[..|us| - 1]);
    }
  }

  // ------------------------------------------------------- transition times

  /** Walking back from the end of the history while `k` keeps the status it
      ends with: the index of the update that began this stretch, or -1 when
      the stretch reaches back to the initial list. */
  function StretchStart(cs: seq<Condition>, us: seq<Condition>, k: Kind): (r: int)
    requires Has(Updated(cs, us), k)
    ensures -1 <= r < |us|
  {
    if us == [] then -1
    else
      var before := GetCondition(Updated(cs, us[..|us| - 1]), k);
      if before.Some? && before.value.status == GetCondition(Updated(cs, us), k).value.status
      then StretchStart(cs, us[..|us| - 1], k)
      else |us| - 1
  }

  /** The recorded transition time is the time of the update that began the
      current stretch, for every type, unless that update was a write of Failed
      or Succeeded that turned Running False on the side: then the time of the
      stretch before is kept. */
  lemma {:induction false} TransitionTime(cs: seq<Condition>, us: seq<Condition>, k: Kind)
    requires Has(Updated(cs, us), k)
    ensures var s := StretchStart(cs, us, k);
            var t := GetCondition(Updated(cs, us), k).value.transition;
            if s == -1 then Has(cs, k) && t == GetCondition(cs, k).value.transition
            else if us[s].kind == k then t == us[s].transition
            else k.Running? && (us[s].kind.Failed? || us[s].kind.Succeeded?) && Has(Updated(cs, us[..s]), k)
                 && t == GetCondition(Updated(cs, us[..s]), k).value.transition
  {
    hide SetCondition, FilterOut, IsFailed;
    if us != [] {
      var init, last := us[..|us| - 1], us[|us| - 1];
      var s := StretchStart(cs, us, k);
      GetAfterSet(Updated(cs, init), last, k);
      if s < |init| {
        TransitionTime(cs, init, k);
        if s >= 0 {
          assert init[..s] == us[..s];
        }
      }
    }
  }

  /** The law the documentation gives: the last time the condition moved from
      one status to another.  It holds of every type but Running. */
  lemma TransitionTimeIsStretchStart(cs: seq<Condition>, us: seq<Condition>, k: Kind)
    requires Has(Updated(cs, us), k) && !k.Running?
    ensures StretchStart(cs, us, k) == -1 ==> Has(cs, k)
    ensures var s := StretchStart(cs, us, k);
            GetCondition(Updated(cs, us), k).value.transition
            == if s == -1 then GetCondition(cs, k).value.transition else us[s].transition
  {
    TransitionTime(cs, us, k);
  }

  lemma {:induction false} RecordedTimesArePast(cs: seq<Condition>, us: seq<Condition>, k: Kind, t: Time)
    requires forall c :: c in cs ==> c.transition < t
    requires forall i :: 0 <= i < |us| ==> us[i].transition < t
    requires Has(Updated(cs, us), k)
    ensures GetCondition(Updated(cs, us), k).value.transition < t
  {
    if us != [] {
      var init, last := us[..|us| - 1], us[|us| - 1];
      GetAfterSet(Updated(cs, init), last, k);
      if Has(Updated(cs, init), k) {
        RecordedTimesArePast(cs, init, k, t);
      }
    }
  }

  /** For Running the law fails exactly when the stretch was begun by a write of
      another type, that is by Failed or Succeeded.  The clock only has to move
      between updates. */
  lemma RunningTimeExactly(cs: seq<Condition>, us: seq<Condition>)
    requires forall i, j :: 0 <= i < j < |us| ==> us[i].transition < us[j].transition
    requires forall c, i :: c in cs && 0 <= i < |us| ==> c.transition < us[i].transition
    requires Has(Updated(cs, us), Running) && StretchStart(cs, us, Running) >= 0
    ensures var s := StretchStart(cs, us, Running);
            GetCondition(Updated(cs, us), Running).value.transition == us[s].transition <==> us[s].kind.Running?
  {
    var s := StretchStart(cs, us, Running);
    TransitionTime(cs, us, Running);
    if !us[s].kind.Running? {
      RecordedTimesArePast(cs, us[..s], Running, us[s].transition);
    }
  }

  /** A run that shows it: Running=True at time 1, Succeeded at time 2.  Running
      is now False and still carries time 1. */
  lemma RunningTimeCanLag(now: Time)
    ensures var us := [Condition(Running, True, "", "", now), Condition(Succeeded, True, "", "", now + 1)];
            GetCondition(Updated([], us), Running) == Some(Condition(Running, False, "", "", now))
            && StretchStart([], us, Running) == 1
  {
    hide SetCondition, FilterOut;
    var r, s := Condition(Running, True, "", "", now), Condition(Succeeded, True, "", "", now + 1);
    var one := SetCondition([], r);
    TwoUpdates(r, s);
    assert [r, s][..1] == [r];
    GetAfterSet([], r, Running);
    GetAfterSet([], r, Succeeded);
    GetAfterSet([], r, Failed);
    GetAfterSet(one, s, Running);
  }

  lemma TwoUpdates(r: Condition, s: Condition)
    ensures Updated([], [r]) == SetCondition([], r)
    ensures Updated([], [r, s]) == SetCondition(SetCondition([], r), s)
  {
    hide SetCondition;
    assert [r, s][..1] == [r] && [r][..0] == [];
    assert Updated([], []) == [];
  }
}
