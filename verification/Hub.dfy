/** The in-process side of the realtime hub: internal/realtime/hub.go.

    Go channels are numbers handed out in order. `closes` counts how often each was closed: closing a channel twice
    panics, so Close is only ever proved callable on a channel that was not closed yet. */
module Hub {
  import Fanout

  type Chan = nat

  function Removed(list: seq<Chan>, c: Chan): seq<Chan> {
    if |list| == 0 then []
    else if list[0] == c then list[1..]
    else [list[0]] + Removed(list[1..], c)
  }

  lemma {:induction false} RemovedAt(list: seq<Chan>, c: Chan, i: nat)
    requires i < |list| && list[i] == c && forall k :: 0 <= k < i ==> list[k] != c
    ensures Removed(list, c) == list[..i] + list[i + 1..]
    decreases i
  {
    if i > 0 {
      RemovedAt(list[1..], c, i - 1);
      assert list[..i] == [list[0]] + list[1..][..i - 1];
    }
  }

  datatype State = State(subs: map<string, seq<Chan>>, cancels: set<string>, pubsubs: set<string>, closed: bool,
                         next: Chan, closes: multiset<Chan>)

  function Listed(subs: map<string, seq<Chan>>): set<Chan> {
    set channel, c | channel in subs && c in subs[channel] :: c
  }

  function ListOf(subs: map<string, seq<Chan>>, channel: string): seq<Chan> {
    if channel in subs then subs[channel] else []
  }

  // ---------------------------------------------------------------- the steps

  function Subscribed(s: State, channel: string): State {
    s.(subs := s.subs[channel := ListOf(s.subs, channel) + [s.next]],
       cancels := s.cancels + {channel}, pubsubs := s.pubsubs + {channel}, next := s.next + 1)
  }

  function Unsubscribed(s: State, channel: string, c: Chan): State {
    if s.closed || c !in ListOf(s.subs, channel) then s
    else
      var rest := Removed(s.subs[channel], c);
      var shut := s.(closes := s.closes + multiset{c});
      if |rest| > 0 then shut.(subs := s.subs[channel := rest])
      else shut.(subs := s.subs - {channel}, cancels := s.cancels - {channel}, pubsubs := s.pubsubs - {channel})
  }

  function Shut(s: State): State {
    if s.closed then s
    else State(map[], {}, {}, true, s.next, s.closes + multiset(Listed(s.subs)))
  }

  // ---------------------------------------------------------------- the three maps agree

  ghost predicate NoRepeats(list: seq<Chan>) {
    forall i, j :: 0 <= i < j < |list| ==> list[i] != list[j]
  }

  ghost predicate MapsAgree(s: State) {
    s.subs.Keys == s.cancels == s.pubsubs
  }

  ghost predicate ListsOk(subs: map<string, seq<Chan>>) {
    && (forall channel :: channel in subs ==> |subs[channel]| > 0 && NoRepeats(subs[channel]))
    && (forall a, b, c :: a in subs && b in subs && c in subs[a] && c in subs[b] ==> a == b)
  }

  /** Every channel ever handed out is listed exactly while it is open, and closed exactly once otherwise. */
  ghost predicate OpenIffListed(s: State) {
    forall c: Chan :: s.closes[c] == if c < s.next && c !in Listed(s.subs) then 1 else 0
  }

  ghost predicate Inv(s: State) {
    && MapsAgree(s) && ListsOk(s.subs) && OpenIffListed(s)
    && (forall c :: c in Listed(s.subs) ==> c < s.next)
    && (s.closed ==> |s.subs| == 0)
  }

  // ---------------------------------------------------------------- the object

  class Hub {
    var subs: map<string, seq<Chan>>
    var cancels: set<string>
    var pubsubs: set<string>
    var closed: bool
    var next: Chan
    var closes: multiset<Chan>
    var buffers: map<Chan, seq<Fanout.Data>>

    constructor ()
      ensures Snapshot() == State(map[], {}, {}, false, 0, multiset{}) && Inv(Snapshot())
    {
      subs, cancels, pubsubs, closed := map[], {}, {}, false;
      next, closes, buffers := 0, multiset{}, map[];
    }

    function Snapshot(): State
      reads this
    {
      State(subs, cancels, pubsubs, closed, next, closes)
    }

    method CloseChan(c: Chan)
      requires closes[c] == 0
      modifies this`closes
      ensures closes == old(closes) + multiset{c}
    {
      closes := closes + multiset{c};
    }

    method Subscribe(channel: string) returns (ch: Chan)
      requires Inv(Snapshot()) && !closed
      modifies this
      ensures Snapshot() == Subscribed(old(Snapshot()), channel)
      ensures ch == old(next) && buffers == old(buffers)[ch := []]
      ensures subs == old(subs)[channel := (if channel in old(subs) then old(subs)[channel] else []) + [ch]]
      ensures next == old(next) + 1 && pubsubs == old(pubsubs) + {channel} && closes == old(closes)
      ensures Inv(Snapshot())
    {
      SubscribedKeepsInv(Snapshot(), channel);
      ch := next;
      next := next + 1;
      buffers := buffers[ch := []];
      subs := subs[channel := ListOf(subs, channel) + [ch]];
      if channel !in pubsubs {
        pubsubs := pubsubs + {channel};
        cancels := cancels + {channel};
      }
    }

    method Unsubscribe(channel: string, c: Chan)
      requires Inv(Snapshot())
      modifies this`subs, this`cancels, this`pubsubs, this`closes
      ensures Snapshot() == Unsubscribed(old(Snapshot()), channel, c)
      ensures closed || !(channel in old(subs) && c in old(subs)[channel]) ==> Snapshot() == old(Snapshot())
      ensures !closed && channel in old(subs) && c in old(subs)[channel] ==>
                && closes == old(closes) + multiset{c}
                && (old(subs)[channel] == [c] ==>
                      subs == old(subs) - {channel} && pubsubs == old(pubsubs) - {channel})
                && (old(subs)[channel] != [c] ==>
                      && channel in subs && subs == old(subs)[channel := subs[channel]] && pubsubs == old(pubsubs)
                      && exists i :: 0 <= i < |old(subs)[channel]| && old(subs)[channel][i] == c
                                     && subs[channel] == old(subs)[channel][..i] + old(subs)[channel][i + 1..])
      ensures Inv(Snapshot())
    {
      UnsubscribedKeepsInv(Snapshot(), channel, c);
      if closed {
        return;
      }
      var list := ListOf(subs, channel);
      var i := 0;
      while i < |list| && list[i] != c
        invariant i <= |list| && forall k :: 0 <= k < i ==> list[k] != c
      {
        i := i + 1;
      }
      if i == |list| {
        return;
      }
      RemovedAt(list, c, i);
      IsListed(subs, channel, c);
      subs := subs[channel := list[..i] + list[i + 1..]];
      CloseChan(c);
      if |subs[channel]| == 0 {
        cancels := cancels - {channel};
        pubsubs := pubsubs - {channel};
        subs := subs - {channel};
      }
    }

    /** Closes the channels of one list; none of them was closed before. */
    method CloseList(list: seq<Chan>)
      requires NoRepeats(list) && forall c :: c in list ==> closes[c] == 0
      modifies this`closes
      ensures closes == old(closes) + multiset(list)
    {
      var i := 0;
      while i < |list|
        invariant i <= |list| && closes == old(closes) + multiset(list[..i])
      {
        assert list[..i + 1] == list[..i] + [list[i]];
        assert list[i] !in list[..i];
        CloseChan(list[i]);
        i := i + 1;
      }
      assert list[..i] == list;
    }

    /** Closes every channel of every list, in whatever order the map is walked. */
    method CloseAll(lists: map<string, seq<Chan>>)
      requires ListsOk(lists) && forall c :: c in Listed(lists) ==> closes[c] == 0
      modifies this`closes
      ensures closes == old(closes) + multiset(Listed(lists))
    {
      var todo := lists.Keys;
      NothingDone(lists);
      while |todo| > 0
        invariant todo <= lists.Keys
        invariant closes == old(closes) + multiset(Listed(Others(lists, todo)))
        decreases |todo|
      {
        var channel :| channel in todo;
        ListIsUntouched(lists, todo, channel);
        CloseList(lists[channel]);
        ListIsNext(lists, todo, channel);
        todo := todo - {channel};
      }
      AllDone(lists, todo);
    }

    method Close()
      requires Inv(Snapshot())
      modifies this`subs, this`cancels, this`pubsubs, this`closed, this`closes
      ensures Snapshot() == Shut(old(Snapshot()))
      ensures closed && (old(closed) ==> Snapshot() == old(Snapshot()))
      ensures !old(closed) ==>
                && |subs| == |pubsubs| == |cancels| == 0
                && forall c :: closes[c] == old(closes)[c]
                                            + if exists k :: k in old(subs) && c in old(subs)[k] then 1 else 0
      ensures Inv(Snapshot())
    {
      ShutKeepsInv(Snapshot());
      if closed {
        return;
      }
      closed := true;
      CloseAll(subs);
      subs, cancels, pubsubs := map[], {}, {};
    }

    /** One message pumped to every subscriber that has room; the others miss it. */
    method Pump(channel: string, data: Fanout.Data)
      requires Inv(Snapshot()) && (forall c :: c in Listed(subs) ==> c in buffers)
      modifies this`buffers
      ensures buffers.Keys == old(buffers).Keys
      ensures forall c :: c in buffers ==>
                buffers[c] == if c in ListOf(subs, channel)
                              then (if |old(buffers)[c]| < 16 then old(buffers)[c] + [data] else old(buffers)[c])
                              else old(buffers)[c]
    {
      var list := ListOf(subs, channel);
      assert NoRepeats(list);
      forall k | 0 <= k < |list| ensures list[k] in buffers {
        IsListed(subs, channel, list[k]);
      }
      var i := 0;
      while i < |list|
        invariant i <= |list| && buffers.Keys == old(buffers).Keys
        invariant forall c :: c in buffers ==>
                    buffers[c] == if c in list[..i]
                                  then Fanout.Offered(old(buffers)[c], Fanout.SUBSCRIBER_SLOTS, data)
                                  else old(buffers)[c]
      {
        assert list[..i + 1] == list[..i] + [list[i]];
        assert list[i] !in list[..i];
        if |buffers[list[i]]| < Fanout.SUBSCRIBER_SLOTS {
          buffers := buffers[list[i] := buffers[list[i]] + [data]];
        }
        i := i + 1;
      }
      assert list[..i] == list;
    }
  }

  // ---------------------------------------------------------------- proofs

  function Others(subs: map<string, seq<Chan>>, todo: set<string>): map<string, seq<Chan>> {
    map channel | channel in subs && channel !in todo :: subs[channel]
  }

  lemma NothingDone(lists: map<string, seq<Chan>>)
    ensures Listed(Others(lists, lists.Keys)) == {}
  {
  }

  lemma AllDone(lists: map<string, seq<Chan>>, todo: set<string>)
    requires |todo| == 0
    ensures Others(lists, todo) == lists
  {
  }

  lemma IsListed(subs: map<string, seq<Chan>>, channel: string, c: Chan)
    requires channel in subs && c in subs[channel]
    ensures c in Listed(subs)
  {
  }

  ghost function ListedOn(subs: map<string, seq<Chan>>, c: Chan): (channel: string)
    requires c in Listed(subs)
    ensures channel in subs && c in subs[channel]
  {
    var channel :| channel in subs && c in subs[channel];
    channel
  }

  lemma ListIsUntouched(lists: map<string, seq<Chan>>, todo: set<string>, channel: string)
    requires ListsOk(lists) && channel in todo && todo <= lists.Keys
    ensures NoRepeats(lists[channel])
    ensures forall c :: c in lists[channel] ==> c in Listed(lists) && c !in Listed(Others(lists, todo))
  {
    forall c | c in lists[channel] ensures c in Listed(lists) && c !in Listed(Others(lists, todo)) {
      IsListed(lists, channel, c);
    }
  }

  lemma ListIsNext(lists: map<string, seq<Chan>>, todo: set<string>, channel: string)
    requires ListsOk(lists) && channel in todo && todo <= lists.Keys
    ensures multiset(Listed(Others(lists, todo - {channel})))
            == multiset(Listed(Others(lists, todo))) + multiset(lists[channel])
  {
    var before, after, list := Others(lists, todo), Others(lists, todo - {channel}), lists[channel];
    var bag: multiset<Chan>, more: multiset<Chan> := multiset(Listed(before)), multiset(Listed(after));
    ListIsUntouched(lists, todo, channel);
    forall c: Chan ensures more[c] == bag[c] + multiset(list)[c] {
      if c in Listed(before) {
        IsListed(after, ListedOn(before, c), c);
      } else if c in list {
        IsListed(after, channel, c);
      } else if c in Listed(after) {
        IsListed(before, ListedOn(after, c), c);
      }
      NoRepeatsCounts(list, c);
    }
  }

  lemma {:induction false} NoRepeatsCounts(list: seq<Chan>, c: Chan)
    requires NoRepeats(list)
    ensures multiset(list)[c] == if c in list then 1 else 0
    decreases |list|
  {
    if |list| > 0 {
      assert list == [list[0]] + list[1..];
      NoRepeatsCounts(list[1..], c);
    }
  }

  lemma SubscribedLists(s: State, channel: string, c: Chan)
    ensures c in Listed(Subscribed(s, channel).subs) <==> c in Listed(s.subs) || c == s.next
  {
    var after := Subscribed(s, channel).subs;
    if c == s.next {
      IsListed(after, channel, c);
    } else if c in Listed(s.subs) {
      IsListed(after, ListedOn(s.subs, c), c);
    } else if c in Listed(after) {
      IsListed(s.subs, ListedOn(after, c), c);
    }
  }

  lemma SubscribedKeepsInv(s: State, channel: string)
    requires Inv(s) && !s.closed
    ensures Inv(Subscribed(s, channel))
  {
    var s' := Subscribed(s, channel);
    forall c: Chan ensures c in Listed(s'.subs) <==> c in Listed(s.subs) || c == s.next {
      SubscribedLists(s, channel, c);
    }
    NextIsNew(s, channel);
    assert ListsOk(s'.subs) by {
      assert NoRepeats(ListOf(s.subs, channel));
      forall a, b, c | a in s'.subs && b in s'.subs && c in s'.subs[a] && c in s'.subs[b] ensures a == b {
        if c == s.next {
          NextIsNew(s, a);
          NextIsNew(s, b);
        }
      }
    }
  }

  lemma NextIsNew(s: State, channel: string)
    requires Inv(s)
    ensures s.next !in ListOf(s.subs, channel)
  {
    if s.next in ListOf(s.subs, channel) {
      IsListed(s.subs, channel, s.next);
    }
  }

  lemma {:induction false} RemovedHas(list: seq<Chan>, c: Chan)
    requires NoRepeats(list)
    ensures NoRepeats(Removed(list, c))
    ensures forall x :: x in Removed(list, c) <==> x in list && x != c
    decreases |list|
  {
    if |list| > 0 {
      assert NoRepeats(list[1..]) && list[0] !in list[1..];
      assert list == [list[0]] + list[1..];
      RemovedHas(list[1..], c);
    }
  }

  lemma UnsubscribedLists(s: State, channel: string, c: Chan, x: Chan)
    requires ListsOk(s.subs) && !s.closed && c in ListOf(s.subs, channel)
    ensures x in Listed(Unsubscribed(s, channel, c).subs) <==> x in Listed(s.subs) && x != c
  {
    var after := Unsubscribed(s, channel, c).subs;
    RemovedHas(s.subs[channel], c);
    if x in Listed(s.subs) && x != c {
      IsListed(after, ListedOn(s.subs, x), x);
    } else if x in Listed(after) {
      IsListed(s.subs, ListedOn(after, x), x);
    }
  }

  lemma UnsubscribedKeepsInv(s: State, channel: string, c: Chan)
    requires Inv(s)
    ensures Inv(Unsubscribed(s, channel, c))
  {
    if !s.closed && c in ListOf(s.subs, channel) {
      var s' := Unsubscribed(s, channel, c);
      RemovedHas(s.subs[channel], c);
      IsListed(s.subs, channel, c);
      forall x: Chan ensures x in Listed(s'.subs) <==> x in Listed(s.subs) && x != c {
        UnsubscribedLists(s, channel, c, x);
      }
    }
  }

  lemma ShutKeepsInv(s: State)
    requires Inv(s)
    ensures Inv(Shut(s))
  {
  }

  datatype Event =
    | Subscribe(channel: string)
    | Unsubscribe(channel: string, c: Chan)
    | Close

  /** A hub in use; subscribing is only considered while it is open. */
  function Apply(s: State, e: Event): State {
    match e
    case Subscribe(channel) => if s.closed then s else Subscribed(s, channel)
    case Unsubscribe(channel, c) => Unsubscribed(s, channel, c)
    case Close => Shut(s)
  }

  function Run(s: State, events: seq<Event>): State
    decreases |events|
  {
    if |events| == 0 then s else Run(Apply(s, events[0]), events[1..])
  }

  lemma {:induction false} RunKeepsInv(s: State, events: seq<Event>)
    requires Inv(s)
    ensures Inv(Run(s, events))
    decreases |events|
  {
    if |events| > 0 {
      match events[0] {
        case Subscribe(channel) => if !s.closed { SubscribedKeepsInv(s, channel); }
        case Unsubscribe(channel, c) => UnsubscribedKeepsInv(s, channel, c);
        case Close => ShutKeepsInv(s);
      }
      RunKeepsInv(Apply(s, events[0]), events[1..]);
    }
  }

  lemma {:induction false} ClosedIffClose(s: State, events: seq<Event>)
    ensures Run(s, events).closed <==> s.closed || Close in events
    decreases |events|
  {
    if |events| > 0 {
      ClosedIffClose(Apply(s, events[0]), events[1..]);
      assert Close in events <==> events[0] == Close || Close in events[1..];
    }
  }

  /** Whatever the order of subscribing, repeated and late unsubscribing and closing: no channel is closed twice, a
      channel no longer listed is closed, and after Close none is left open. */
  lemma ChannelsCloseOnce(events: seq<Event>, c: Chan)
    ensures var s := Run(State(map[], {}, {}, false, 0, multiset{}), events);
            && s.closes[c] <= 1
            && (s.closes[c] == 1 <==> c < s.next && c !in Listed(s.subs))
            && (Close in events && c < s.next ==> s.closes[c] == 1)
  {
    RunKeepsInv(State(map[], {}, {}, false, 0, multiset{}), events);
    ClosedIffClose(State(map[], {}, {}, false, 0, multiset{}), events);
  }
}
