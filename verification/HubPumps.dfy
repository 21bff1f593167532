/** The pumps of the realtime hub beside its subscribers: internal/realtime/hub.go.

    A pump copies the subscriber list under the lock and sends without it, so a channel can be closed between the copy
    and its send; a send on a closed channel panics and ends the process. Tearing down a channel cancels its pump
    without waiting for it, so it can go on receiving beside the pump of the next subscriber. */
module HubPumps {
  import Hub

  /** seen: the number of the last message received; todo: the copied subscribers it has not been sent to yet. */
  datatype Pump = Pump(channel: string, seen: nat, todo: seq<Hub.Chan>)

  datatype Sent = Sent(chan: Hub.Chan, pump: nat, number: nat)

  /** published: how many messages each channel has had; they are numbered from 1. */
  datatype World = World(hub: Hub.State, published: map<string, nat>, pumps: seq<Pump>, sent: seq<Sent>, panicked: bool)

  datatype Event =
    | Use(use: Hub.Event)
    | Publish(channel: string)
    | Receive(pump: nat, number: nat)
    | Send(pump: nat)

  function Start(): World {
    World(Hub.State(map[], {}, {}, false, 0, multiset{}), map[], [], [], false)
  }

  function Count(w: World, channel: string): nat {
    if channel in w.published then w.published[channel] else 0
  }

  predicate StartsPump(s: Hub.State, use: Hub.Event) {
    use.Subscribe? && !s.closed && use.channel !in s.pubsubs
  }

  /** The Redis client may drop messages, so a pump may skip numbers but never goes back. */
  predicate CanReceive(w: World, p: nat, number: nat) {
    p < |w.pumps| && |w.pumps[p].todo| == 0 && w.pumps[p].seen < number <= Count(w, w.pumps[p].channel)
  }

  function Received(w: World, p: nat, number: nat): World
    requires p < |w.pumps|
  {
    var pump := w.pumps[p];
    w.(pumps := w.pumps[p := pump.(seen := number, todo := Hub.ListOf(w.hub.subs, pump.channel))])
  }

  function SentNext(w: World, p: nat): World
    requires p < |w.pumps| && |w.pumps[p].todo| > 0
  {
    var pump := w.pumps[p];
    if w.hub.closes[pump.todo[0]] > 0 then w.(panicked := true)
    else w.(pumps := w.pumps[p := pump.(todo := pump.todo[1..])],
            sent := w.sent + [Sent(pump.todo[0], p, pump.seen)])
  }

  function Used(w: World, use: Hub.Event): World {
    w.(hub := Hub.Apply(w.hub, use),
       pumps := if StartsPump(w.hub, use) then w.pumps + [Pump(use.channel, Count(w, use.channel), [])] else w.pumps)
  }

  function Apply(w: World, e: Event): World {
    if w.panicked then w
    else
      match e
      case Use(use) => Used(w, use)
      case Publish(channel) => w.(published := w.published[channel := Count(w, channel) + 1])
      case Receive(p, number) => if CanReceive(w, p, number) then Received(w, p, number) else w
      case Send(p) => if p < |w.pumps| && |w.pumps[p].todo| > 0 then SentNext(w, p) else w
  }

  function Run(w: World, events: seq<Event>): World
    decreases |events|
  {
    if |events| == 0 then w else Run(Apply(w, events[0]), events[1..])
  }

  // ---------------------------------------------------------------- what every run keeps

  predicate ListedIn(s: Hub.State, c: Hub.Chan) {
    c in Hub.Listed(s.subs)
  }

  predicate ListedOn(s: Hub.State, channel: string, c: Hub.Chan) {
    c in Hub.ListOf(s.subs, channel)
  }

  ghost predicate Inv(w: World) {
    && Hub.Inv(w.hub)
    && (forall p :: 0 <= p < |w.pumps| ==>
          Hub.NoRepeats(w.pumps[p].todo) && w.pumps[p].seen <= Count(w, w.pumps[p].channel))
    && (forall p: nat, c: Hub.Chan :: p < |w.pumps| && c in w.pumps[p].todo ==> c < w.hub.next)
    && (forall k :: 0 <= k < |w.sent| ==> w.sent[k].chan < w.hub.next)
  }

  lemma HubStep(s: Hub.State, use: Hub.Event)
    requires Hub.Inv(s)
    ensures Hub.Inv(Hub.Apply(s, use)) && s.next <= Hub.Apply(s, use).next
  {
    Hub.RunKeepsInv(s, [use]);
    assert Hub.Run(s, [use]) == Hub.Run(Hub.Apply(s, use), []);
  }

  lemma ListOfIsListed(s: Hub.State, channel: string)
    requires Hub.Inv(s)
    ensures Hub.NoRepeats(Hub.ListOf(s.subs, channel))
    ensures forall c: Hub.Chan :: c in Hub.ListOf(s.subs, channel) ==> ListedIn(s, c) && c < s.next
  {
    forall c: Hub.Chan | c in Hub.ListOf(s.subs, channel) ensures ListedIn(s, c) && c < s.next {
      Hub.IsListed(s.subs, channel, c);
    }
  }

  lemma SentKeepsInv(w: World, p: nat)
    requires Inv(w) && p < |w.pumps| && |w.pumps[p].todo| > 0
    ensures Inv(SentNext(w, p))
  {
    var todo := w.pumps[p].todo;
    assert todo[0] in todo && forall c :: c in todo[1..] ==> c in todo;
  }

  lemma StepKeepsInv(w: World, e: Event)
    requires Inv(w)
    ensures Inv(Apply(w, e))
  {
    match e {
      case Use(use) => HubStep(w.hub, use);
      case Publish(_) =>
      case Receive(p, _) => if p < |w.pumps| { ListOfIsListed(w.hub, w.pumps[p].channel); }
      case Send(p) => if p < |w.pumps| && |w.pumps[p].todo| > 0 { SentKeepsInv(w, p); }
    }
  }

  /** A pump's next send panics exactly if the subscriber has left since the list was copied. */
  lemma SendPanicsIff(w: World, p: nat)
    requires Inv(w) && !w.panicked && p < |w.pumps| && |w.pumps[p].todo| > 0
    ensures Apply(w, Send(p)).panicked <==> !ListedIn(w.hub, w.pumps[p].todo[0])
  {
    assert w.pumps[p].todo[0] in w.pumps[p].todo;
  }

  // ---------------------------------------------------------------- leaving while a send is under way

  predicate Pending(w: World, c: Hub.Chan) {
    exists p :: 0 <= p < |w.pumps| && c in w.pumps[p].todo
  }

  ghost predicate PendingListed(w: World) {
    forall p: nat, c: Hub.Chan :: p < |w.pumps| && c in w.pumps[p].todo ==> ListedIn(w.hub, c)
  }

  /** An unsubscription or Close takes away a subscriber some pump has copied and not served. */
  ghost predicate Removes(w: World, e: Event) {
    e.Use? && exists c :: Pending(w, c) && ListedIn(w.hub, c) && !ListedIn(Hub.Apply(w.hub, e.use), c)
  }

  ghost predicate Gentle(w: World, events: seq<Event>)
    decreases |events|
  {
    |events| == 0 || (!Removes(w, events[0]) && Gentle(Apply(w, events[0]), events[1..]))
  }

  lemma GentleStep(w: World, e: Event)
    requires Inv(w) && !w.panicked && PendingListed(w) && !Removes(w, e)
    ensures var w' := Apply(w, e); Inv(w') && !w'.panicked && PendingListed(w')
  {
    StepKeepsInv(w, e);
    match e {
      case Use(use) =>
        var w' := Apply(w, e);
        forall p: nat, c: Hub.Chan | p < |w'.pumps| && c in w'.pumps[p].todo ensures ListedIn(w'.hub, c) {
          assert p < |w.pumps| && Pending(w, c);
        }
      case Publish(_) =>
      case Receive(p, _) => if p < |w.pumps| { ListOfIsListed(w.hub, w.pumps[p].channel); }
      case Send(p) => if p < |w.pumps| && |w.pumps[p].todo| > 0 { SendPanicsIff(w, p); }
    }
  }

  lemma {:induction false} GentleRun(w: World, events: seq<Event>)
    requires Inv(w) && !w.panicked && PendingListed(w) && Gentle(w, events)
    ensures var w' := Run(w, events); Inv(w') && !w'.panicked && PendingListed(w')
    decreases |events|
  {
    if |events| > 0 {
      GentleStep(w, events[0]);
      GentleRun(Apply(w, events[0]), events[1..]);
    }
  }

  /** Only somebody leaving between a copy and its send can make the process panic. */
  lemma GentleIsSafe(events: seq<Event>)
    requires Gentle(Start(), events)
    ensures !Run(Start(), events).panicked
  {
    GentleRun(Start(), events);
  }

  predicate OnlySends(events: seq<Event>) {
    forall i :: 0 <= i < |events| ==> events[i].Send?
  }

  lemma {:induction false} SendsAreGentle(w: World, sends: seq<Event>)
    requires OnlySends(sends)
    ensures Gentle(w, sends)
    decreases |sends|
  {
    if |sends| > 0 {
      SendsAreGentle(Apply(w, sends[0]), sends[1..]);
    }
  }

  lemma {:induction false} Drained(w: World, p: nat, i: nat) returns (sends: seq<Event>)
    requires Inv(w) && !w.panicked && p < |w.pumps| && i < |w.pumps[p].todo| && !ListedIn(w.hub, w.pumps[p].todo[i])
    ensures OnlySends(sends) && Run(w, sends).panicked
    decreases i
  {
    var w' := Apply(w, Send(p));
    StepKeepsInv(w, Send(p));
    SendPanicsIff(w, p);
    var rest: seq<Event> := [];
    if !w'.panicked {
      rest := Drained(w', p, i - 1);
    }
    sends := [Send(p)] + rest;
    assert sends[1..] == rest;
  }

  /** And in every state reached without that, a step lets the sends under way panic if and only if it is one. */
  lemma RemovalIsTheExactDanger(events: seq<Event>, e: Event)
    requires Gentle(Start(), events)
    ensures var w := Run(Start(), events);
            Removes(w, e) <==> exists sends :: OnlySends(sends) && Run(Apply(w, e), sends).panicked
  {
    GentleRun(Start(), events);
    var w := Run(Start(), events);
    var w' := Apply(w, e);
    StepKeepsInv(w, e);
    if Removes(w, e) {
      var c :| Pending(w, c) && ListedIn(w.hub, c) && !ListedIn(w'.hub, c);
      var p :| 0 <= p < |w.pumps| && c in w.pumps[p].todo;
      assert w'.pumps[p] == w.pumps[p];
      var i :| 0 <= i < |w'.pumps[p].todo| && w'.pumps[p].todo[i] == c;
      var sends := Drained(w', p, i);
    } else {
      GentleStep(w, e);
      forall sends | OnlySends(sends) ensures !Run(w', sends).panicked {
        SendsAreGentle(w', sends);
        GentleRun(w', sends);
      }
    }
  }

  /** One subscriber, and it leaves between the copy and the send. */
  lemma LeavingCanPanic()
    ensures Run(Start(), [Use(Hub.Subscribe("a")), Publish("a"), Receive(0, 1), Use(Hub.Unsubscribe("a", 0)), Send(0)])
            .panicked
  {
    var s1 := Hub.State(map["a" := [0]], {"a"}, {"a"}, false, 1, multiset{});
    var subscribed := Hub.Subscribed(Start().hub, "a");
    assert subscribed.subs["a"] == [0];
    assert subscribed == s1;
    var w3 := World(s1, map["a" := 1], [Pump("a", 1, [0])], [], false);
    Unfolded(Start(), [Use(Hub.Subscribe("a")), Publish("a")],
             [Receive(0, 1), Use(Hub.Unsubscribe("a", 0)), Send(0)]);
  }

  lemma {:induction false} Unfolded(w: World, a: seq<Event>, b: seq<Event>)
    ensures Run(w, a + b) == Run(Run(w, a), b)
    decreases |a|
  {
    if |a| == 0 {
      assert a + b == b;
    } else {
      assert (a + b)[1..] == a[1..] + b;
      Unfolded(Apply(w, a[0]), a[1..], b);
    }
  }

  // ---------------------------------------------------------------- one pump at a time

  predicate Newest(w: World, p: nat) {
    p < |w.pumps| && forall q :: p < q < |w.pumps| ==> w.pumps[q].channel != w.pumps[p].channel
  }

  /** Another pump has been started for its channel, which has subscribers. */
  predicate Overtaken(w: World, p: nat) {
    p < |w.pumps| && !Newest(w, p) && |Hub.ListOf(w.hub.subs, w.pumps[p].channel)| > 0
  }

  /** No pump receives beside its successor. */
  predicate OneAtATime(w: World, events: seq<Event>)
    decreases |events|
  {
    |events| == 0
    || ((events[0].Receive? ==> !Overtaken(w, events[0].pump)) && OneAtATime(Apply(w, events[0]), events[1..]))
  }

  ghost predicate InOrder(sent: seq<Sent>) {
    forall i, j :: 0 <= i < j < |sent| && sent[i].chan == sent[j].chan ==> sent[i].number < sent[j].number
  }

  /** A copied subscriber that is still listed is its newest pump's. */
  ghost predicate CopiesAreCurrent(w: World) {
    forall p: nat, c: Hub.Chan :: p < |w.pumps| && c in w.pumps[p].todo && ListedIn(w.hub, c) ==>
      Newest(w, p) && ListedOn(w.hub, w.pumps[p].channel, c)
  }

  /** What a listed subscriber was sent lies behind its pump, and strictly behind while a send to it is due. */
  ghost predicate SentIsSeen(w: World) {
    forall p: nat, k: nat ::
      (p < |w.pumps| && k < |w.sent| && Newest(w, p) && ListedOn(w.hub, w.pumps[p].channel, w.sent[k].chan)) ==>
      && w.sent[k].number <= w.pumps[p].seen
      && (w.sent[k].chan in w.pumps[p].todo ==> w.sent[k].number < w.pumps[p].seen)
  }

  ghost predicate Ordered(w: World) {
    Inv(w) && CopiesAreCurrent(w) && SentIsSeen(w) && InOrder(w.sent)
  }

  /** Using the hub lists no old channel anew, nor on another name; a name that gets a pump had no subscribers. */
  lemma UseOnlyAddsNext(s: Hub.State, use: Hub.Event)
    requires Hub.Inv(s)
    ensures forall channel, c: Hub.Chan ::
              ListedOn(Hub.Apply(s, use), channel, c) && c < s.next ==> ListedOn(s, channel, c)
    ensures StartsPump(s, use) ==> forall c: Hub.Chan :: !ListedOn(s, use.channel, c)
  {
    if use.Unsubscribe? && ListedOn(s, use.channel, use.c) {
      Hub.RemovedHas(s.subs[use.channel], use.c);
    }
  }

  lemma ListedSomewhere(s: Hub.State, c: Hub.Chan) returns (channel: string)
    requires ListedIn(s, c)
    ensures ListedOn(s, channel, c)
  {
    channel := Hub.ListedOn(s.subs, c);
  }

  lemma ListedOnce(s: Hub.State, a: string, b: string, c: Hub.Chan)
    requires Hub.Inv(s) && ListedOn(s, a, c) && ListedOn(s, b, c)
    ensures a == b
  {
  }

  lemma StillNewest(w: World, use: Hub.Event, p: nat)
    requires p < |w.pumps| && Newest(Used(w, use), p)
    ensures Newest(w, p) && Used(w, use).pumps[p] == w.pumps[p]
  {
    var w' := Used(w, use);
    forall q | p < q < |w.pumps| ensures w.pumps[q].channel != w.pumps[p].channel {
      assert w'.pumps[q] == w.pumps[q];
    }
  }

  lemma UseKeepsCopies(w: World, use: Hub.Event)
    requires Inv(w) && CopiesAreCurrent(w)
    ensures CopiesAreCurrent(Used(w, use))
  {
    var w' := Used(w, use);
    HubStep(w.hub, use);
    UseOnlyAddsNext(w.hub, use);
    forall p: nat, c: Hub.Chan | p < |w'.pumps| && c in w'.pumps[p].todo && ListedIn(w'.hub, c)
      ensures Newest(w', p) && ListedOn(w'.hub, w'.pumps[p].channel, c)
    {
      var channel := ListedSomewhere(w'.hub, c);
      assert ListedOn(w.hub, channel, c);
      ListOfIsListed(w.hub, channel);
      assert Newest(w, p) && ListedOn(w.hub, w.pumps[p].channel, c);
      ListedOnce(w.hub, channel, w.pumps[p].channel, c);
    }
  }

  lemma UseKeepsSeen(w: World, use: Hub.Event)
    requires Inv(w) && SentIsSeen(w)
    ensures SentIsSeen(Used(w, use))
  {
    var w' := Used(w, use);
    UseOnlyAddsNext(w.hub, use);
    forall p: nat, k: nat | p < |w'.pumps| && k < |w.sent| && Newest(w', p)
                            && ListedOn(w'.hub, w'.pumps[p].channel, w.sent[k].chan)
      ensures w.sent[k].number <= w'.pumps[p].seen
      ensures w.sent[k].chan in w'.pumps[p].todo ==> w.sent[k].number < w'.pumps[p].seen
    {
      assert ListedOn(w.hub, w'.pumps[p].channel, w.sent[k].chan);
      if p < |w.pumps| {
        StillNewest(w, use, p);
      }
    }
  }

  lemma SameChannelsSameNewest(w: World, w': World, p: nat)
    requires |w.pumps| == |w'.pumps|
    requires forall q: nat :: q < |w.pumps| ==> w'.pumps[q].channel == w.pumps[q].channel
    ensures Newest(w', p) == Newest(w, p)
  {
  }

  lemma ReceiveKeepsOrder(w: World, p: nat, number: nat)
    requires Inv(w) && CopiesAreCurrent(w) && SentIsSeen(w) && CanReceive(w, p, number) && !Overtaken(w, p)
    ensures CopiesAreCurrent(Received(w, p, number)) && SentIsSeen(Received(w, p, number))
  {
    var w' := Received(w, p, number);
    forall q: nat ensures Newest(w', q) == Newest(w, q) {
      SameChannelsSameNewest(w, w', q);
    }
  }

  lemma SendKeepsCopies(w: World, p: nat)
    requires CopiesAreCurrent(w) && p < |w.pumps| && |w.pumps[p].todo| > 0
    ensures CopiesAreCurrent(SentNext(w, p))
  {
    var w' := SentNext(w, p);
    forall q: nat ensures Newest(w', q) == Newest(w, q) {
      SameChannelsSameNewest(w, w', q);
    }
  }

  lemma SendKeepsSeen(w: World, p: nat)
    requires Ordered(w) && p < |w.pumps| && |w.pumps[p].todo| > 0 && ListedIn(w.hub, w.pumps[p].todo[0])
    ensures SentIsSeen(SentNext(w, p)) && InOrder(SentNext(w, p).sent)
  {
    var w', pump := SentNext(w, p), w.pumps[p];
    var c := pump.todo[0];
    assert c in pump.todo && c !in pump.todo[1..];
    assert Newest(w, p) && ListedOn(w.hub, pump.channel, c);
    forall q: nat, k: nat | q < |w'.pumps| && k < |w'.sent| && Newest(w', q)
                            && ListedOn(w'.hub, w'.pumps[q].channel, w'.sent[k].chan)
      ensures w'.sent[k].number <= w'.pumps[q].seen
      ensures w'.sent[k].chan in w'.pumps[q].todo ==> w'.sent[k].number < w'.pumps[q].seen
    {
      SameChannelsSameNewest(w, w', q);
      if k == |w.sent| {
        ListedOnce(w.hub, w.pumps[q].channel, pump.channel, c);
        assert q == p;
      } else {
        assert w'.sent[k] == w.sent[k];
      }
    }
  }

  lemma StepKeepsOrder(w: World, e: Event)
    requires Ordered(w) && !w.panicked && (e.Receive? ==> !Overtaken(w, e.pump))
    ensures Ordered(Apply(w, e))
  {
    StepKeepsInv(w, e);
    match e {
      case Use(use) =>
        UseKeepsCopies(w, use);
        UseKeepsSeen(w, use);
      case Publish(_) => PublishKeepsOrder(w, e);
      case Receive(p, number) => if CanReceive(w, p, number) { ReceiveKeepsOrder(w, p, number); }
      case Send(p) =>
        if p < |w.pumps| && |w.pumps[p].todo| > 0 {
          SendKeepsCopies(w, p);
          SendPanicsIff(w, p);
          if ListedIn(w.hub, w.pumps[p].todo[0]) { SendKeepsSeen(w, p); }
        }
    }
  }

  lemma PublishKeepsOrder(w: World, e: Event)
    requires Ordered(w) && !w.panicked && e.Publish?
    ensures CopiesAreCurrent(Apply(w, e)) && SentIsSeen(Apply(w, e))
  {
    forall q: nat ensures Newest(Apply(w, e), q) == Newest(w, q) {
      SameChannelsSameNewest(w, Apply(w, e), q);
    }
  }

  lemma {:induction false} RunKeepsOrder(w: World, events: seq<Event>)
    requires Ordered(w) && OneAtATime(w, events)
    ensures Ordered(Run(w, events))
    decreases |events|
  {
    if |events| > 0 {
      if !w.panicked {
        StepKeepsOrder(w, events[0]);
      }
      RunKeepsOrder(Apply(w, events[0]), events[1..]);
    }
  }

  /** As long as no pump receives beside its successor, every subscriber is sent each message at most once and in the
      order of publication. */
  lemma SentInOrder(events: seq<Event>)
    requires OneAtATime(Start(), events)
    ensures InOrder(Run(Start(), events).sent)
  {
    RunKeepsOrder(Start(), events);
  }

  // ---------------------------------------------------------------- a pump beside its successor

  predicate NoUse(events: seq<Event>) {
    forall i :: 0 <= i < |events| ==> !events[i].Use?
  }

  lemma QuietStep(w: World, e: Event)
    requires !e.Use?
    ensures var w' := Apply(w, e);
            w'.hub == w.hub && |w'.pumps| == |w.pumps| && forall p: nat :: Overtaken(w', p) == Overtaken(w, p)
  {
    var w' := Apply(w, e);
    assert forall q: nat :: q < |w.pumps| ==> w'.pumps[q].channel == w.pumps[q].channel;
    forall p: nat ensures Overtaken(w', p) == Overtaken(w, p) {
      SameChannelsSameNewest(w, w', p);
    }
  }

  lemma {:induction false} NobodyOvertakenStays(w: World, events: seq<Event>)
    requires NoUse(events) && forall p: nat :: !Overtaken(w, p)
    ensures OneAtATime(w, events)
    decreases |events|
  {
    if |events| > 0 {
      QuietStep(w, events[0]);
      NobodyOvertakenStays(Apply(w, events[0]), events[1..]);
    }
  }

  predicate Logged(sent: seq<Sent>, from: nat, x: Sent) {
    exists i :: from <= i < |sent| && sent[i] == x
  }

  /** Serving the copied list to its end: nothing but that pump and the log change. */
  lemma {:induction false} Served(w: World, p: nat) returns (sends: seq<Event>)
    requires Inv(w) && !w.panicked && p < |w.pumps| && forall c :: c in w.pumps[p].todo ==> ListedIn(w.hub, c)
    ensures NoUse(sends)
    ensures var w' := Run(w, sends);
            && w' == w.(pumps := w.pumps[p := w.pumps[p].(todo := [])], sent := w'.sent)
            && w.sent <= w'.sent
            && forall c :: c in w.pumps[p].todo ==> Logged(w'.sent, |w.sent|, Sent(c, p, w.pumps[p].seen))
    decreases |w.pumps[p].todo|
  {
    var pump := w.pumps[p];
    if |pump.todo| == 0 {
      sends := [];
      assert w.pumps[p := pump.(todo := [])] == w.pumps;
    } else {
      SendPanicsIff(w, p);
      StepKeepsInv(w, Send(p));
      var w1 := Apply(w, Send(p));
      assert w1.sent[|w.sent|] == Sent(pump.todo[0], p, pump.seen);
      var rest := Served(w1, p);
      sends := [Send(p)] + rest;
      assert sends[1..] == rest;
      var w' := Run(w1, rest);
      assert w'.sent[|w.sent|] == w1.sent[|w.sent|];
      forall c | c in pump.todo ensures Logged(w'.sent, |w.sent|, Sent(c, p, pump.seen)) {
        if c != pump.todo[0] {
          assert c in pump.todo[1..];
        }
      }
    }
  }

  /** Receiving a message and serving everybody who is listed. */
  lemma Passed(w: World, p: nat, number: nat) returns (events: seq<Event>)
    requires Inv(w) && !w.panicked && CanReceive(w, p, number)
    ensures NoUse(events)
    ensures var w' := Run(w, events);
            && w' == w.(pumps := w.pumps[p := Pump(w.pumps[p].channel, number, [])], sent := w'.sent)
            && w.sent <= w'.sent
            && forall c :: ListedOn(w.hub, w.pumps[p].channel, c) ==> Logged(w'.sent, |w.sent|, Sent(c, p, number))
  {
    var w1 := Apply(w, Receive(p, number));
    StepKeepsInv(w, Receive(p, number));
    ListOfIsListed(w.hub, w.pumps[p].channel);
    var sends := Served(w1, p);
    events := [Receive(p, number)] + sends;
    assert events[1..] == sends;
  }

  lemma {:induction false} NewestBeyond(w: World, p: nat) returns (q: nat)
    requires p < |w.pumps|
    ensures p <= q && Newest(w, q) && w.pumps[q].channel == w.pumps[p].channel
    decreases |w.pumps| - p
  {
    q := p;
    if !Newest(w, p) {
      var next: nat :| p < next < |w.pumps| && w.pumps[next].channel == w.pumps[p].channel;
      q := NewestBeyond(w, next);
    }
  }

  lemma {:induction false} QuietKeepsInv(w: World, events: seq<Event>)
    requires Inv(w)
    ensures Inv(Run(w, events))
    decreases |events|
  {
    if |events| > 0 {
      StepKeepsInv(w, events[0]);
      QuietKeepsInv(Apply(w, events[0]), events[1..]);
    }
  }

  lemma BusyIsNewest(w: World, p: nat)
    requires CopiesAreCurrent(w) && PendingListed(w) && p < |w.pumps|
    ensures |w.pumps[p].todo| > 0 ==> Newest(w, p)
  {
    if |w.pumps[p].todo| > 0 {
      var c := w.pumps[p].todo[0];
      assert c in w.pumps[p].todo && ListedIn(w.hub, c);
    }
  }

  /** Both pumps pass on the next message. */
  lemma OvertakenRepeats(w: World, p: nat) returns (events: seq<Event>)
    requires Inv(w) && CopiesAreCurrent(w) && PendingListed(w) && !w.panicked && Overtaken(w, p)
    ensures NoUse(events) && !InOrder(Run(w, events).sent)
  {
    var channel := w.pumps[p].channel;
    var c := Hub.ListOf(w.hub.subs, channel)[0];
    assert ListedOn(w.hub, channel, c);
    var q := NewestBeyond(w, p);
    var n := Count(w, channel) + 1;
    BusyIsNewest(w, p);
    var w1 := Apply(w, Publish(channel));
    StepKeepsInv(w, Publish(channel));
    var a := Served(w1, q);
    QuietKeepsInv(w1, a);
    var w2 := Run(w1, a);
    var b := Passed(w2, q, n);
    QuietKeepsInv(w2, b);
    var w3 := Run(w2, b);
    var d := Passed(w3, p, n);
    var w4 := Run(w3, d);
    events := [Publish(channel)] + (a + (b + d));
    assert events[1..] == a + (b + d);
    Unfolded(w1, a, b + d);
    Unfolded(w2, b, d);
    RepeatIsOutOfOrder(w3.sent, w4.sent, c, q, p, n);
  }

  lemma RepeatIsOutOfOrder(before: seq<Sent>, after: seq<Sent>, c: Hub.Chan, q: nat, p: nat, n: nat)
    requires before <= after && Logged(before, 0, Sent(c, q, n)) && Logged(after, |before|, Sent(c, p, n))
    ensures !InOrder(after)
  {
    var i :| 0 <= i < |before| && before[i] == Sent(c, q, n);
    var j :| |before| <= j < |after| && after[j] == Sent(c, p, n);
    assert after[i] == before[i];
  }

  /** In every state reached without panic danger and in order, publishing and pumping alone can send somebody a message
      twice or late if and only if some pump has been overtaken. */
  lemma OvertakingIsTheExactDanger(events: seq<Event>)
    requires Gentle(Start(), events) && OneAtATime(Start(), events)
    ensures var w := Run(Start(), events);
            (exists p: nat :: Overtaken(w, p))
            <==> exists more :: NoUse(more) && !InOrder(Run(w, more).sent)
  {
    GentleRun(Start(), events);
    RunKeepsOrder(Start(), events);
    var w := Run(Start(), events);
    if p: nat :| Overtaken(w, p) {
      var more := OvertakenRepeats(w, p);
    } else {
      forall more | NoUse(more) ensures InOrder(Run(w, more).sent) {
        NobodyOvertakenStays(w, more);
        RunKeepsOrder(w, more);
      }
    }
  }

  /** It takes no more than leaving and coming back while the first pump has not noticed its cancellation. */
  lemma OvertakingHappens()
    ensures var events := [Use(Hub.Subscribe("a")), Use(Hub.Unsubscribe("a", 0)), Use(Hub.Subscribe("a"))];
            Gentle(Start(), events) && OneAtATime(Start(), events) && Overtaken(Run(Start(), events), 0)
  {
    var events := [Use(Hub.Subscribe("a")), Use(Hub.Unsubscribe("a", 0)), Use(Hub.Subscribe("a"))];
    var w1 := Apply(Start(), events[0]);
    assert w1.pumps == [Pump("a", 0, [])] && w1.hub.subs["a"] == [0];
    var w2 := Apply(w1, events[1]);
    assert Hub.Removed(w1.hub.subs["a"], 0) == [];
    assert w2.pumps == [Pump("a", 0, [])] && "a" !in w2.hub.pubsubs;
    var w3 := Apply(w2, events[2]);
    assert w3.pumps == [Pump("a", 0, []), Pump("a", 0, [])];
    assert w3.pumps[1].channel == w3.pumps[0].channel && |w3.hub.subs["a"]| > 0;
    assert events[1..][1..] == [events[2]];
  }
}
