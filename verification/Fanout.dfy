/** From a Redis publication to the socket, through two bounded stages that drop rather than block:
    internal/realtime/hub.go (pump) and internal/realtime/server.go (forwardToSocket).

    A socket merges several hub subscriptions, its lanes. A frame carries the position at which it was published on
    its lane; the program does not look at it, it only serves to say where a frame came from. */
module Fanout {
  import opened Wrappers

  const SUBSCRIBER_SLOTS := 16
  const SOCKET_SLOTS := 32

  type Data = string

  datatype Frame = Frame(lane: nat, serial: nat, data: Data)

  /** hand: the frame a forwarder has received and not sent on yet. */
  datatype Lane = Lane(published: seq<Data>, buffer: seq<Frame>, hand: Option<Frame>, dropped: nat)

  datatype State = State(lanes: seq<Lane>, out: seq<Frame>, written: seq<Frame>)

  datatype Event =
    | Publish(lane: nat, data: Data)
    | Take(lane: nat)
    | Put(lane: nat)
    | Write

  /** A send with a default branch. */
  function Offered<T>(buffer: seq<T>, slots: nat, x: T): seq<T> {
    if |buffer| < slots then buffer + [x] else buffer
  }

  function Apply(s: State, e: Event): State {
    match e
    case Publish(i, data) =>
      if i >= |s.lanes| then s
      else
        var l := s.lanes[i];
        var frame := Frame(i, |l.published|, data);
        s.(lanes := s.lanes[i := l.(published := l.published + [data],
                                    buffer := Offered(l.buffer, SUBSCRIBER_SLOTS, frame),
                                    dropped := if |l.buffer| < SUBSCRIBER_SLOTS then l.dropped else l.dropped + 1)])
    case Take(i) =>
      if i >= |s.lanes| || |s.lanes[i].buffer| == 0 || s.lanes[i].hand.Some? then s
      else
        var l := s.lanes[i];
        s.(lanes := s.lanes[i := l.(buffer := l.buffer[1..], hand := Some(l.buffer[0]))])
    case Put(i) =>
      if i >= |s.lanes| || s.lanes[i].hand.None? then s
      else
        var l := s.lanes[i];
        s.(lanes := s.lanes[i := l.(hand := None,
                                    dropped := if |s.out| < SOCKET_SLOTS then l.dropped else l.dropped + 1)],
           out := Offered(s.out, SOCKET_SLOTS, l.hand.value))
    case Write => if |s.out| == 0 then s else s.(out := s.out[1..], written := s.written + [s.out[0]])
  }

  function Run(s: State, events: seq<Event>): State
    decreases |events|
  {
    if |events| == 0 then s else Run(Apply(s, events[0]), events[1..])
  }

  predicate Idle(s: State) {
    |s.out| == 0 && |s.written| == 0 && forall i :: 0 <= i < |s.lanes| ==> s.lanes[i] == Lane([], [], None, 0)
  }

  // ---------------------------------------------------------------- what is on its way

  /** The frames of one lane, in order. */
  function Of(frames: seq<Frame>, lane: nat): seq<Frame> {
    if |frames| == 0 then []
    else if frames[0].lane == lane then [frames[0]] + Of(frames[1..], lane)
    else Of(frames[1..], lane)
  }

  lemma {:induction false} OfConcat(a: seq<Frame>, b: seq<Frame>, lane: nat)
    ensures Of(a + b, lane) == Of(a, lane) + Of(b, lane)
    decreases |a|
  {
    if |a| == 0 {
      assert a + b == b;
    } else {
      assert (a + b)[1..] == a[1..] + b;
      OfConcat(a[1..], b, lane);
    }
  }

  function InHand(l: Lane): seq<Frame> {
    if l.hand.Some? then [l.hand.value] else []
  }

  /** Everything of a lane that was not dropped, from the oldest written frame to the newest buffered one. */
  function Wire(s: State, i: nat): seq<Frame>
    requires i < |s.lanes|
  {
    Of(s.written, i) + Of(s.out, i) + InHand(s.lanes[i]) + s.lanes[i].buffer
  }

  ghost predicate Faithful(frames: seq<Frame>, lane: nat, published: seq<Data>) {
    && (forall k :: 0 <= k < |frames| ==>
          frames[k].lane == lane && frames[k].serial < |published| && frames[k].data == published[frames[k].serial])
    && (forall j, k :: 0 <= j < k < |frames| ==> frames[j].serial < frames[k].serial)
  }

  ghost predicate LaneOk(s: State, i: nat)
    requires i < |s.lanes|
  {
    && Faithful(Wire(s, i), i, s.lanes[i].published)
    && |s.lanes[i].buffer| <= 16
    && |Wire(s, i)| + s.lanes[i].dropped == |s.lanes[i].published|
  }

  ghost predicate Inv(s: State) {
    |s.out| <= 32 && forall i :: 0 <= i < |s.lanes| ==> LaneOk(s, i)
  }

  lemma PublishKeepsLane(s: State, i: nat, data: Data, k: nat)
    requires Inv(s) && i < |s.lanes| && k < |s.lanes|
    ensures LaneOk(Apply(s, Publish(i, data)), k)
  {
    var s', l := Apply(s, Publish(i, data)), s.lanes[i];
    assert LaneOk(s, k);
    if k != i {
      assert Wire(s', k) == Wire(s, k);
    } else if |l.buffer| < 16 {
      assert Wire(s', i) == Wire(s, i) + [Frame(i, |l.published|, data)];
    } else {
      assert Wire(s', i) == Wire(s, i);
    }
  }

  lemma TakeKeepsLane(s: State, i: nat, k: nat)
    requires Inv(s) && i < |s.lanes| && k < |s.lanes|
    ensures LaneOk(Apply(s, Take(i)), k)
  {
    assert LaneOk(s, k);
    var s' := Apply(s, Take(i));
    assert Wire(s', k) == Wire(s, k);
  }

  /** Leaving out one frame of an ordered line keeps it ordered. */
  lemma DropKeepsFaithful(before: seq<Frame>, x: Frame, after: seq<Frame>, lane: nat, published: seq<Data>)
    requires Faithful(before + [x] + after, lane, published)
    ensures Faithful(before + after, lane, published)
  {
    var long, short := before + [x] + after, before + after;
    assert forall k :: 0 <= k < |short| ==> short[k] == long[if k < |before| then k else k + 1];
  }

  lemma SentOnKeepsLane(s: State, i: nat, k: nat)
    requires Inv(s) && i < |s.lanes| && k < |s.lanes| && s.lanes[i].hand.Some? && |s.out| < 32
    requires s.lanes[i].hand.value.lane == i
    ensures LaneOk(Apply(s, Put(i)), k)
  {
    assert LaneOk(s, k);
    OfConcat(s.out, [s.lanes[i].hand.value], k);
    assert Wire(Apply(s, Put(i)), k) == Wire(s, k);
  }

  lemma DroppedKeepsLane(s: State, i: nat, k: nat)
    requires Inv(s) && i < |s.lanes| && k < |s.lanes| && s.lanes[i].hand.Some? && |s.out| >= 32
    ensures LaneOk(Apply(s, Put(i)), k)
  {
    var s', x := Apply(s, Put(i)), s.lanes[i].hand.value;
    assert LaneOk(s, k);
    if k == i {
      var before, after := Of(s.written, i) + Of(s.out, i), s.lanes[i].buffer;
      assert Wire(s, i) == before + [x] + after;
      assert Wire(s', i) == before + after;
      DropKeepsFaithful(before, x, after, i, s.lanes[i].published);
    } else {
      assert Wire(s', k) == Wire(s, k);
    }
  }

  lemma PutKeepsLane(s: State, i: nat, k: nat)
    requires Inv(s) && i < |s.lanes| && k < |s.lanes| && s.lanes[i].hand.Some?
    ensures LaneOk(Apply(s, Put(i)), k)
  {
    if |s.out| < 32 {
      assert LaneOk(s, i);
      assert s.lanes[i].hand.value == Wire(s, i)[|Of(s.written, i) + Of(s.out, i)|];
      SentOnKeepsLane(s, i, k);
    } else {
      DroppedKeepsLane(s, i, k);
    }
  }

  /** Writing the oldest frame of the socket buffer moves it across, whatever its lane. */
  lemma OfMoves(written: seq<Frame>, out: seq<Frame>, k: nat)
    requires |out| > 0
    ensures Of(written + [out[0]], k) + Of(out[1..], k) == Of(written, k) + Of(out, k)
  {
    OfConcat(written, [out[0]], k);
    assert Of(out, k) == Of([out[0]], k) + Of(out[1..], k);
  }

  lemma WriteKeepsLane(s: State, k: nat)
    requires Inv(s) && k < |s.lanes| && |s.out| > 0
    ensures LaneOk(Apply(s, Write), k)
  {
    assert LaneOk(s, k);
    OfMoves(s.written, s.out, k);
    assert Wire(Apply(s, Write), k) == Wire(s, k);
  }

  lemma StepKeepsInv(s: State, e: Event)
    requires Inv(s)
    ensures Inv(Apply(s, e))
  {
    var s' := Apply(s, e);
    forall k | 0 <= k < |s'.lanes| ensures LaneOk(s', k) {
      match e
      case Publish(i, data) => if i < |s.lanes| { PublishKeepsLane(s, i, data, k); }
      case Take(i) => if i < |s.lanes| { TakeKeepsLane(s, i, k); }
      case Put(i) => if i < |s.lanes| && s.lanes[i].hand.Some? { PutKeepsLane(s, i, k); }
      case Write => if |s.out| > 0 { WriteKeepsLane(s, k); }
    }
  }

  lemma {:induction false} RunKeepsInv(s: State, events: seq<Event>)
    requires Inv(s)
    ensures Inv(Run(s, events))
    decreases |events|
  {
    if |events| > 0 {
      StepKeepsInv(s, events[0]);
      RunKeepsInv(Apply(s, events[0]), events[1..]);
    }
  }

  // ---------------------------------------------------------------- bursts that fit

  function Total(lanes: seq<Lane>, n: nat): nat
    requires n <= |lanes|
  {
    if n == 0 then 0 else Total(lanes, n - 1) + |lanes[n - 1].published|
  }

  function PerLane(frames: seq<Frame>, n: nat): nat {
    if n == 0 then 0 else PerLane(frames, n - 1) + |Of(frames, n - 1)|
  }

  lemma {:induction false} HeadCountsOnce(frames: seq<Frame>, n: nat)
    requires |frames| > 0
    ensures PerLane(frames, n) == PerLane(frames[1..], n) + (if frames[0].lane < n then 1 else 0)
    decreases n
  {
    if n > 0 {
      HeadCountsOnce(frames, n - 1);
    }
  }

  lemma {:induction false} EmptyCountsNone(n: nat)
    ensures PerLane([], n) == 0
    decreases n
  {
    if n > 0 {
      EmptyCountsNone(n - 1);
    }
  }

  lemma {:induction false} LanesPartition(frames: seq<Frame>, n: nat)
    requires forall k :: 0 <= k < |frames| ==> frames[k].lane < n
    ensures PerLane(frames, n) == |frames|
    decreases |frames|
  {
    if |frames| == 0 {
      EmptyCountsNone(n);
    } else {
      HeadCountsOnce(frames, n);
      LanesPartition(frames[1..], n);
    }
  }

  /** A lane with a frame in hand has published one more than it has in the socket buffer. */
  lemma {:induction false} OutIsPublished(s: State, n: nat, i: nat)
    requires Inv(s) && n <= |s.lanes|
    ensures PerLane(s.out, n) + (if i < n && s.lanes[i].hand.Some? then 1 else 0) <= Total(s.lanes, n)
    decreases n
  {
    if n > 0 {
      OutIsPublished(s, n - 1, i);
      assert LaneOk(s, n - 1);
    }
  }

  predicate Fits(s: State) {
    && Total(s.lanes, |s.lanes|) <= 32
    && forall i :: 0 <= i < |s.lanes| ==> |s.lanes[i].published| <= 16
  }

  predicate NothingDropped(s: State) {
    forall i :: 0 <= i < |s.lanes| ==> s.lanes[i].dropped == 0
  }

  predicate LanesKnown(s: State) {
    && (forall k :: 0 <= k < |s.out| ==> s.out[k].lane < |s.lanes|)
    && (forall i :: 0 <= i < |s.lanes| && s.lanes[i].hand.Some? ==> s.lanes[i].hand.value.lane < |s.lanes|)
    && (forall i, k :: 0 <= i < |s.lanes| && 0 <= k < |s.lanes[i].buffer| ==> s.lanes[i].buffer[k].lane < |s.lanes|)
  }

  lemma StepKeepsLanesKnown(s: State, e: Event)
    requires LanesKnown(s)
    ensures LanesKnown(Apply(s, e))
  {
  }

  lemma StepDropsNothing(s: State, e: Event)
    requires Inv(s) && LanesKnown(s) && NothingDropped(s) && Fits(s) && Fits(Apply(s, e))
    ensures NothingDropped(Apply(s, e))
  {
    match e
    case Publish(i, data) =>
      if i < |s.lanes| {
        assert LaneOk(s, i);
        assert Apply(s, e).lanes[i].published == s.lanes[i].published + [data];
      }
    case Put(i) =>
      if i < |s.lanes| && s.lanes[i].hand.Some? {
        LanesPartition(s.out, |s.lanes|);
        OutIsPublished(s, |s.lanes|, i);
      }
    case Take(_) =>
    case Write =>
  }

  lemma {:induction false} TotalGrows(a: seq<Lane>, b: seq<Lane>, n: nat)
    requires n <= |a| == |b| && forall i :: 0 <= i < n ==> |a[i].published| <= |b[i].published|
    ensures Total(a, n) <= Total(b, n)
    decreases n
  {
    if n > 0 {
      TotalGrows(a, b, n - 1);
    }
  }

  lemma {:induction false} FitsEarlier(s: State, events: seq<Event>)
    requires Fits(Run(s, events))
    ensures Fits(s)
    decreases |events|
  {
    if |events| > 0 {
      var s' := Apply(s, events[0]);
      FitsEarlier(s', events[1..]);
      assert forall i :: 0 <= i < |s.lanes| ==> |s.lanes[i].published| <= |s'.lanes[i].published|;
      TotalGrows(s.lanes, s'.lanes, |s.lanes|);
    }
  }

  lemma {:induction false} SmallBurstsLoseNothing(s: State, events: seq<Event>)
    requires Inv(s) && LanesKnown(s) && NothingDropped(s) && Fits(Run(s, events))
    ensures NothingDropped(Run(s, events))
    decreases |events|
  {
    if |events| > 0 {
      FitsEarlier(s, events);
      FitsEarlier(Apply(s, events[0]), events[1..]);
      StepKeepsInv(s, events[0]);
      StepKeepsLanesKnown(s, events[0]);
      StepDropsNothing(s, events[0]);
      SmallBurstsLoseNothing(Apply(s, events[0]), events[1..]);
    }
  }

  // ---------------------------------------------------------------- main results

  ghost predicate Embeds(f: seq<nat>, sub: seq<Data>, all: seq<Data>) {
    && |f| == |sub|
    && (forall k :: 0 <= k < |f| ==> f[k] < |all| && sub[k] == all[f[k]])
    && (forall j, k :: 0 <= j < k < |f| ==> f[j] < f[k])
  }

  ghost predicate Subsequence(sub: seq<Data>, all: seq<Data>) {
    exists f: seq<nat> :: Embeds(f, sub, all)
  }

  function Payloads(frames: seq<Frame>): seq<Data> {
    seq(|frames|, k requires 0 <= k < |frames| => frames[k].data)
  }

  /** In every interleaving of publishing, forwarding and writing: what reaches the socket from one lane is an ordered
      subsequence of what was published on it, nothing twice and nothing overtaking. */
  lemma WrittenIsSubsequence(s: State, events: seq<Event>, i: nat)
    requires Idle(s) && i < |s.lanes|
    ensures var s' := Run(s, events);
            i < |s'.lanes| && Subsequence(Payloads(Of(s'.written, i)), s'.lanes[i].published)
  {
    LanesStay(s, events);
    RunKeepsInv(s, events);
    var s' := Run(s, events);
    var frames := Of(s'.written, i);
    assert LaneOk(s', i) && frames == Wire(s', i)[..|frames|];
    var f: seq<nat> := seq(|frames|, k requires 0 <= k < |frames| => frames[k].serial);
    assert Embeds(f, Payloads(frames), s'.lanes[i].published);
  }

  lemma {:induction false} LanesStay(s: State, events: seq<Event>)
    ensures |Run(s, events).lanes| == |s.lanes|
    decreases |events|
  {
    if |events| > 0 {
      LanesStay(Apply(s, events[0]), events[1..]);
    }
  }

  /** Every published frame is written, on its way, or counted as dropped; at most 16 + 1 of a lane and 32 of the
      socket are on their way; while a lane has dropped nothing, nothing of it is missing; and a burst of at most 16
      frames a lane and 32 a socket drops nothing, however slow the forwarders and the writer. */
  lemma FramesAreAccountedFor(s: State, events: seq<Event>, i: nat)
    requires Idle(s) && i < |s.lanes|
    ensures var s' := Run(s, events);
            && i < |s'.lanes|
            && |s'.lanes[i].buffer| <= 16 && |s'.out| <= 32
            && |Wire(s', i)| + s'.lanes[i].dropped == |s'.lanes[i].published|
            && (s'.lanes[i].dropped == 0 ==> Payloads(Wire(s', i)) == s'.lanes[i].published)
            && (Fits(s') ==> s'.lanes[i].dropped == 0)
  {
    LanesStay(s, events);
    RunKeepsInv(s, events);
    var s' := Run(s, events);
    if Fits(s') {
      SmallBurstsLoseNothing(s, events);
    }
    assert LaneOk(s', i);
    if s'.lanes[i].dropped == 0 {
      var wire := Wire(s', i);
      forall k | 0 <= k < |wire| ensures wire[k].serial == k {
        SerialsAreDense(wire, i, s'.lanes[i].published, k);
      }
    }
  }

  /** Strictly increasing positions below n, n of them, leave no gap. */
  lemma {:induction false} SerialsAtLeast(frames: seq<Frame>, lane: nat, published: seq<Data>, k: nat)
    requires Faithful(frames, lane, published) && k < |frames|
    ensures frames[k].serial >= k
    decreases k
  {
    if k > 0 {
      SerialsAtLeast(frames, lane, published, k - 1);
    }
  }

  lemma {:induction false} SerialsAtMost(frames: seq<Frame>, lane: nat, published: seq<Data>, k: nat)
    requires Faithful(frames, lane, published) && k < |frames|
    ensures frames[k].serial <= |published| - |frames| + k
    decreases |frames| - k
  {
    if k < |frames| - 1 {
      SerialsAtMost(frames, lane, published, k + 1);
    }
  }

  lemma SerialsAreDense(frames: seq<Frame>, lane: nat, published: seq<Data>, k: nat)
    requires Faithful(frames, lane, published) && k < |frames| == |published|
    ensures frames[k].serial == k
  {
    SerialsAtLeast(frames, lane, published, k);
    SerialsAtMost(frames, lane, published, k);
  }

  /** A forwarder that meets no writer: the socket buffer takes the oldest frames that fit, the rest are lost. */
  method ForwardToSocket(incoming: seq<Data>, out: seq<Data>) returns (after: seq<Data>)
    requires |out| <= 32
    ensures var room := 32 - |out|;
            after == out + (if |incoming| <= room then incoming else incoming[..room])
  {
    after := out;
    var i := 0;
    while i < |incoming|
      invariant i <= |incoming|
      invariant after == out + (if i <= 32 - |out| then incoming[..i] else incoming[..32 - |out|])
    {
      if |after| < 32 {
        after := after + [incoming[i]];
      }
      i := i + 1;
    }
  }
}
