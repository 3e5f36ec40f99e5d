/** The stream of heartbeats: the observer builds payloads and sends them on a
    channel with one slot, the uploader takes what is there without waiting and
    reports the last payload it has, again and again
    (internal/synchronizer/manager.go, cpodobserver.go, uploader.go). */
module Heartbeat {
  import opened Wrappers

  // What is reported; `body` stands for job states, resources and time.
  datatype Payload = Payload(cpodId: string, body: int)

  const NO_PAYLOAD := Payload("", 0)

  // ------------------------------------------------------------- the uploader

  // One call of the uploader: the slot and the cached payload after it, and the
  // payload handed to the portal.  When the context is done and a payload is
  // waiting, the runtime picks either; `stop` is its choice.
  function Round(slot: Option<Payload>, cached: Payload, cancelled: bool, stop: bool)
    : (Option<Payload>, Payload, Option<Payload>)
  {
    if slot.Some? && !(cancelled && stop) then
      (None, slot.value, if slot.value.cpodId == "" then None else Some(slot.value))
    else
      (slot, cached, if cancelled || cached.cpodId == "" then None else Some(cached))
  }

  class Channel {
    var slot: Option<Payload>

    constructor ()
      ensures slot == None
    {
      slot := None;
    }

    method TryReceive() returns (p: Option<Payload>)
      modifies this
      ensures p == old(slot) && slot == None
    {
      p := slot;
      slot := None;
    }
  }

  class Uploader {
    const ch: Channel
    var cachedPayload: Payload

    constructor (ch: Channel)
      ensures this.ch == ch && cachedPayload == NO_PAYLOAD
    {
      this.ch := ch;
      cachedPayload := NO_PAYLOAD;
    }

    method Start(cancelled: bool, stop: bool) returns (beat: Option<Payload>)
      modifies this, ch
      ensures (ch.slot, cachedPayload, beat) == Round(old(ch.slot), old(cachedPayload), cancelled, stop)
    {
      if cancelled && (stop || ch.slot.None?) {
        return None;
      }
      var received := ch.TryReceive();
      if received.Some? {
        cachedPayload := received.value;
      }
      if cachedPayload.cpodId == "" {
        return None;
      }
      return Some(cachedPayload);
    }
  }

  // ------------------------------------------------------------ interleavings

  datatype System = System(
    produced: seq<Payload>,       // every payload the observer has built
    sending: Option<Payload>,     // the one it is blocked on
    slot: Option<Payload>,        // the channel
    consumed: seq<Payload>,       // every payload the uploader has taken
    cached: Payload,
    polled: bool,                 // the uploader is between its receive and its report
    attempts: seq<Payload>,       // every payload handed to the portal
    counts: seq<nat>,             // how often each consumed payload was
    cancelled: bool)

  const INITIAL := System([], None, None, [], NO_PAYLOAD, false, [], [], false)

  datatype Event =
    | Produce(body: int)
    | Send
    | Poll(stop: bool)
    | Report
    | Cancel

  function Apply(cpodId: string, sys: System, e: Event): System {
    match e
    case Produce(body) =>
      if sys.sending.Some? then sys
      else
        var p := Payload(cpodId, body);
        sys.(produced := sys.produced + [p], sending := Some(p))
    case Send =>
      if sys.sending.Some? && sys.slot.None? then sys.(slot := sys.sending, sending := None) else sys
    case Poll(stop) =>
      if sys.polled then sys
      else if sys.slot.Some? && !(sys.cancelled && stop) then
        sys.(slot := None, cached := sys.slot.value, consumed := sys.consumed + [sys.slot.value],
           counts := sys.counts + [0], polled := true)
      else if sys.cancelled then sys
      else sys.(polled := true)
    case Report =>
      if !sys.polled then sys
      else if sys.cached.cpodId == "" then sys.(polled := false)
      else sys.(polled := false, attempts := sys.attempts + [sys.cached], counts := Bump(sys.counts))
    case Cancel => sys.(cancelled := true)
  }

  function Bump(counts: seq<nat>): seq<nat> {
    if counts == [] then [] else counts[|counts| - 1 := counts[|counts| - 1] + 1]
  }

  function Run(cpodId: string, es: seq<Event>): System {
    if es == [] then INITIAL else Apply(cpodId, Run(cpodId, es[..|es| - 1]), es[|es| - 1])
  }

  function Repeat(p: Payload, n: nat): seq<Payload> {
    if n == 0 then [] else Repeat(p, n - 1) + [p]
  }

  // Each payload as often as its count says, in order.
  function Stutter(ps: seq<Payload>, counts: seq<nat>): seq<Payload>
    requires |ps| == |counts|
  {
    if ps == [] then []
    else Stutter(ps[..|ps| - 1], counts[..|ps| - 1]) + Repeat(ps[|ps| - 1], counts[|ps| - 1])
  }

  function AsSeq(p: Option<Payload>): seq<Payload> {
    if p.Some? then [p.value] else []
  }

  ghost predicate Flowing(cpodId: string, sys: System) {
    && sys.produced == sys.consumed + AsSeq(sys.slot) + AsSeq(sys.sending)
    && (forall p :: p in sys.produced ==> p.cpodId == cpodId)
    && sys.cached == (if sys.consumed == [] then NO_PAYLOAD else sys.consumed[|sys.consumed| - 1])
  }

  ghost predicate Counted(cpodId: string, sys: System) {
    && |sys.counts| == |sys.consumed|
    && sys.attempts == Stutter(sys.consumed, sys.counts)
    && (cpodId == "" ==> sys.attempts == [])
    && (cpodId != "" ==>
          && (forall i :: 0 <= i < |sys.counts| - 1 ==> sys.counts[i] >= 1)
          && (sys.counts != [] && !sys.polled ==> sys.counts[|sys.counts| - 1] >= 1))
  }

  lemma FlowingStep(cpodId: string, sys: System, e: Event)
    requires Flowing(cpodId, sys)
    ensures Flowing(cpodId, Apply(cpodId, sys, e))
  {
  }

  lemma StutterTaken(ps: seq<Payload>, counts: seq<nat>, p: Payload)
    requires |ps| == |counts|
    ensures Stutter(ps + [p], counts + [0]) == Stutter(ps, counts)
  {
    assert (ps + [p])[..|ps|] == ps && (counts + [0])[..|ps|] == counts;
  }

  lemma StutterReported(ps: seq<Payload>, counts: seq<nat>)
    requires |ps| == |counts| > 0
    ensures Stutter(ps, Bump(counts)) == Stutter(ps, counts) + [ps[|ps| - 1]]
  {
    var n := |ps| - 1;
    var bumped := Bump(counts);
    assert bumped[..n] == counts[..n] && bumped[n] == counts[n] + 1;
    assert Stutter(ps, bumped) == Stutter(ps[..n], bumped[..n]) + Repeat(ps[n], bumped[n]);
    assert Stutter(ps, counts) == Stutter(ps[..n], counts[..n]) + Repeat(ps[n], counts[n]);
    assert Repeat(ps[n], counts[n] + 1) == Repeat(ps[n], counts[n]) + [ps[n]];
  }

  lemma CachedId(cpodId: string, sys: System)
    requires Flowing(cpodId, sys)
    ensures sys.consumed != [] ==> sys.cached.cpodId == cpodId
    ensures sys.consumed == [] ==> sys.cached.cpodId == ""
  {
    if sys.consumed != [] {
      assert sys.consumed[|sys.consumed| - 1] in sys.produced;
    }
  }

  lemma CountedStep(cpodId: string, sys: System, e: Event)
    requires Flowing(cpodId, sys) && Counted(cpodId, sys)
    ensures Counted(cpodId, Apply(cpodId, sys, e))
  {
    hide Stutter, Repeat, AsSeq;
    CachedId(cpodId, sys);
    match e
    case Poll(stop) =>
      if !sys.polled && sys.slot.Some? && !(sys.cancelled && stop) {
        StutterTaken(sys.consumed, sys.counts, sys.slot.value);
      }
    case Report =>
      if sys.polled && sys.cached.cpodId != "" {
        StutterReported(sys.consumed, sys.counts);
      }
    case _ =>
  }

  lemma {:induction false} RunKeeps(cpodId: string, es: seq<Event>)
    ensures Flowing(cpodId, Run(cpodId, es)) && Counted(cpodId, Run(cpodId, es))
  {
    hide Apply;
    if es != [] {
      RunKeeps(cpodId, es[..|es| - 1]);
      FlowingStep(cpodId, Run(cpodId, es[..|es| - 1]), es[|es| - 1]);
      CountedStep(cpodId, Run(cpodId, es[..|es| - 1]), es[|es| - 1]);
    }
  }

  /** No payload is lost, duplicated or overtaken: at every moment of every
      interleaving those built are those taken, then at most one in the channel,
      then at most one still being sent. */
  lemma NothingLost(cpodId: string, es: seq<Event>)
    ensures var sys := Run(cpodId, es); sys.produced == sys.consumed + AsSeq(sys.slot) + AsSeq(sys.sending)
  {
    RunKeeps(cpodId, es);
  }

  /** The portal sees the payloads taken, in order, each repeated some number of
      times, and with a pod id each at least once before the next one is taken;
      without a pod id it sees nothing. */
  lemma HeartbeatsStutter(cpodId: string, es: seq<Event>)
    ensures var sys := Run(cpodId, es);
            && |sys.counts| == |sys.consumed|
            && sys.attempts == Stutter(sys.consumed, sys.counts)
            && (cpodId != "" ==> forall i :: 0 <= i < |sys.counts| - 1 ==> sys.counts[i] >= 1)
            && (cpodId == "" ==> sys.attempts == [])
  {
    RunKeeps(cpodId, es);
  }

  /** A call of the uploader is its two steps in a row. */
  lemma RoundIsPollAndReport(cpodId: string, sys: System, stop: bool)
    requires !sys.polled
    ensures var after := Apply(cpodId, Apply(cpodId, sys, Poll(stop)), Report);
            var (slot, cached, beat) := Round(sys.slot, sys.cached, sys.cancelled, stop);
            && after.slot == slot && after.cached == cached && !after.polled
            && after.attempts == sys.attempts + AsSeq(beat)
  {
  }

  /** Every call that is not cancelled reports: with a pod id and a payload taken
      before or waiting, it hands one payload to the portal, the waiting one, or
      the last one taken again if none waits; with a pod id and nothing taken yet
      it hands over nothing. */
  lemma EveryCallReports(cpodId: string, es: seq<Event>, stop: bool)
    requires cpodId != "" && !Run(cpodId, es).polled && !Run(cpodId, es).cancelled
    ensures var sys, after := Run(cpodId, es), Run(cpodId, es + [Poll(stop), Report]);
            && after.consumed == sys.consumed + AsSeq(sys.slot) && after.slot == None && !after.polled
            && after.attempts
               == sys.attempts + if after.consumed == [] then [] else [after.consumed[|after.consumed| - 1]]
  {
    hide Apply;
    var sys := Run(cpodId, es);
    TwoEvents(cpodId, es, Poll(stop), Report);
    RunKeeps(cpodId, es + [Poll(stop)]);
    CachedId(cpodId, Run(cpodId, es + [Poll(stop)]));
    RunKeeps(cpodId, es);
    CallSteps(cpodId, sys, stop);
  }

  lemma TwoEvents(cpodId: string, es: seq<Event>, a: Event, b: Event)
    ensures Run(cpodId, es + [a]) == Apply(cpodId, Run(cpodId, es), a)
    ensures Run(cpodId, es + [a, b]) == Apply(cpodId, Apply(cpodId, Run(cpodId, es), a), b)
  {
    assert (es + [a])[..|es|] == es && (es + [a, b])[..|es| + 1] == es + [a];
  }

  lemma CallSteps(cpodId: string, sys: System, stop: bool)
    requires Flowing(cpodId, sys) && !sys.polled && !sys.cancelled
    ensures var mid := Apply(cpodId, sys, Poll(stop));
            var after := Apply(cpodId, mid, Report);
            && mid.consumed == after.consumed == sys.consumed + AsSeq(sys.slot)
            && after.slot == None && !after.polled
            && Flowing(cpodId, mid)
            && after.attempts == sys.attempts + if mid.cached.cpodId == "" then [] else [mid.cached]
  {
    FlowingStep(cpodId, sys, Poll(stop));
  }

  /** A payload built with nothing before it on its way reaches the portal: the
      observer sends it, and the next call takes it and reports it. */
  lemma BuiltPayloadArrives(cpodId: string, es: seq<Event>, body: int, stop: bool)
    requires cpodId != "" && !Run(cpodId, es).polled && !Run(cpodId, es).cancelled
    requires Run(cpodId, es).sending.None? && Run(cpodId, es).slot.None?
    ensures var attempts := Run(cpodId, es + [Produce(body), Send] + [Poll(stop), Report]).attempts;
            attempts == Run(cpodId, es).attempts + [Payload(cpodId, body)]
  {
    TwoEvents(cpodId, es, Produce(body), Send);
    EveryCallReports(cpodId, es + [Produce(body), Send], stop);
  }
}
