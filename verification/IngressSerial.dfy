/** What ingress transactions side by side amount to: the serial history of their commits, when it is that, and
    exactly-once handling by any number of workers. */
module IngressSerial {
  import opened Wrappers
  import opened TicketState
  import opened Ingress
  import opened IngressProofs
  import opened IngressHistory
  import opened IngressWorkers

  // ---------------------------------------------------------------- serial histories

  /** A transaction commits on what has changed since it was read. */
  ghost predicate Slips(w: World, a: Act) {
    Ends(w, a) && (TicketMoved(w.db, w.txs[a.worker]) || MessageCame(w.db, w.txs[a.worker]))
  }

  ghost predicate SlipsAt(acts: seq<Act>, n: nat)
    requires n < |acts|
  {
    Slips(RunActs(acts[..n]), acts[n])
  }

  /** After n steps, conversations, tickets and messages are those of the serial history. */
  ghost predicate SerialAt(acts: seq<Act>, n: nat)
    requires n <= |acts|
  {
    Core(RunActs(acts[..n]).db) == Core(RunOps(History(acts[..n])))
  }

  lemma ActDoes(w: World, a: Act)
    requires Consistent(w)
    ensures |Did(w, a)| == 0 ==> Apply(w, a).db == w.db && !Slips(w, a)
    ensures |Did(w, a)| == 1 ==> (Core(Apply(w, a).db) == Core(Do(w.db, Did(w, a)[0])) <==> !Slips(w, a))
    ensures |Did(w, a)| <= 1
  {
    if Ends(w, a) {
      CommitIsSerialIff(w.db, w.txs[a.worker]);
    }
  }

  lemma FollowsIff(db: Db, db': Db, ops: seq<Op>, did: seq<Op>, slips: bool)
    requires Core(db) == Core(RunOps(ops)) && |did| <= 1
    requires |did| == 0 ==> db' == db && !slips
    requires |did| == 1 ==> (Core(db') == Core(Do(db, did[0])) <==> !slips)
    ensures Core(db') == Core(RunOps(ops + did)) <==> !slips
  {
    if |did| == 1 {
      assert ops + did == ops + [did[0]];
      RunOpsAppended(ops, did[0]);
      DoReadsCore(db, RunOps(ops), did[0]);
    } else {
      assert ops + did == ops;
    }
  }

  lemma ActAppended(acts: seq<Act>, a: Act)
    ensures RunActs(acts + [a]) == Apply(RunActs(acts), a)
    ensures History(acts + [a]) == History(acts) + Did(RunActs(acts), a)
  {
    assert (acts + [a])[..|acts|] == acts;
  }

  lemma OneMoreAct(acts: seq<Act>, a: Act)
    requires Core(RunActs(acts).db) == Core(RunOps(History(acts)))
    ensures Core(RunActs(acts + [a]).db) == Core(RunOps(History(acts + [a]))) <==> !Slips(RunActs(acts), a)
  {
    var w := RunActs(acts);
    ActAppended(acts, a);
    ActsKeepConsistent(acts);
    ActDoes(w, a);
    FollowsIff(w.db, Apply(w, a).db, History(acts), Did(w, a), Slips(w, a));
  }

  lemma SerialStep(acts: seq<Act>, n: nat)
    requires n < |acts| && SerialAt(acts, n)
    ensures SerialAt(acts, n + 1) <==> !SlipsAt(acts, n)
  {
    assert acts[..n + 1] == acts[..n] + [acts[n]];
    OneMoreAct(acts[..n], acts[n]);
  }

  lemma {:induction false} SerialUpTo(acts: seq<Act>, n: nat)
    requires n <= |acts| && forall i :: 0 <= i < n ==> !SlipsAt(acts, i)
    ensures SerialAt(acts, n)
    decreases n
  {
    if n > 0 {
      SerialUpTo(acts, n - 1);
      SerialStep(acts, n - 1);
    }
  }

  /** At every moment the tables are those of the events handled one after the other in the order of their commits, if
      and only if no transaction commits on a ticket moved or a message arrived since it looked. */
  lemma SideBySideIsSerialIff(acts: seq<Act>)
    ensures (forall n :: 0 <= n <= |acts| ==> SerialAt(acts, n))
            <==> (forall n :: 0 <= n < |acts| ==> !SlipsAt(acts, n))
  {
    if forall n :: 0 <= n <= |acts| ==> SerialAt(acts, n) {
      forall n | 0 <= n < |acts| ensures !SlipsAt(acts, n) {
        assert SerialAt(acts, n) && SerialAt(acts, n + 1);
        SerialStep(acts, n);
      }
    } else {
      var n :| 0 <= n <= |acts| && !SerialAt(acts, n);
      if forall i :: 0 <= i < n ==> !SlipsAt(acts, i) {
        SerialUpTo(acts, n);
      }
    }
  }

  // ---------------------------------------------------------------- one thread per message id

  predicate SameMessage(e: Event, f: Event) {
    e.msgId != "" && e.msgId == f.msgId && e.tenant == f.tenant
  }

  /** Events with one message id are on one thread; deliveries of the same event are. */
  predicate OneThreadPerId(acts: seq<Act>) {
    forall a, b :: (a in acts && b in acts && a.Begin? && b.Begin? && Handled(a.e) && Handled(b.e)
                    && SameMessage(a.e, b.e)) ==>
      a.e.thread != "" && ThreadKey(a.e) == ThreadKey(b.e)
  }

  ghost predicate AllBegun(w: World, acts: seq<Act>) {
    forall k :: k in w.txs ==> Begin(k, w.txs[k].e) in acts
  }

  lemma {:induction false} RunsWhatBegan(acts: seq<Act>)
    ensures AllBegun(RunActs(acts), acts)
    decreases |acts|
  {
    if acts != [] {
      var init, last := acts[..|acts| - 1], acts[|acts| - 1];
      assert acts == init + [last];
      RunsWhatBegan(init);
      var w := RunActs(init);
      forall k | k in Apply(w, last).txs ensures Begin(k, Apply(w, last).txs[k].e) in acts {
        if k in w.txs {
          assert Apply(w, last).txs[k].e == w.txs[k].e;
        }
      }
    }
  }

  /** A message found missing is still missing. */
  ghost predicate StillMissing(w: World) {
    forall k :: k in w.txs && w.txs[k].step >= 5 ==> !MessageCame(w.db, w.txs[k])
  }

  lemma SeenAfter(messages: seq<Message>, m: Message, tenant: nat, msgId: string)
    requires Seen(messages + [m], tenant, msgId)
    ensures Seen(messages, tenant, msgId) || (m.tenant == tenant && m.msgId == Some(msgId))
  {
  }

  lemma CommitMessages(db: Db, tx: Tx) returns (ticket: nat)
    requires Sound(db) && TxOk(db, tx) && tx.step == 5
    ensures AfterCommit(db, tx).messages
            == if tx.seen then db.messages else db.messages + [MessageOf(tx.e, ticket)]
  {
    if tx.conversation.Some? {
      ticket := OldTicketCommit(db, tx);
    } else {
      ticket := NewTicketCommit(db, tx);
    }
  }

  lemma CommitKeepsMissing(w: World, acts: seq<Act>, k: nat)
    requires Consistent(w) && AllBegun(w, acts) && OneThreadPerId(acts) && StillMissing(w)
    requires k in w.txs && w.txs[k].step == 5
    ensures StillMissing(Apply(w, Next(k)))
  {
    var tx, w' := w.txs[k], Apply(w, Next(k));
    var ticket := CommitMessages(w.db, tx);
    forall j | j in w'.txs && w'.txs[j].step >= 5 ensures !MessageCame(w'.db, w'.txs[j]) {
      var other := w.txs[j];
      if MessageCame(w'.db, other) {
        SeenAfter(w.db.messages, MessageOf(tx.e, ticket), other.e.tenant.value, other.e.msgId);
        assert SameMessage(tx.e, other.e);
        assert Begin(k, tx.e) in acts && Begin(j, other.e) in acts;
        assert Holds(tx, ThreadKey(other.e));
      }
    }
  }

  lemma ActKeepsMissing(w: World, acts: seq<Act>, a: Act)
    requires Consistent(w) && AllBegun(w, acts) && OneThreadPerId(acts) && StillMissing(w)
    ensures StillMissing(Apply(w, a))
  {
    if Ends(w, a) {
      CommitKeepsMissing(w, acts, a.worker);
    } else {
      assert Apply(w, a).db.messages == w.db.messages;
      forall k | k in Apply(w, a).txs && Apply(w, a).txs[k].step >= 5 ensures !MessageCame(w.db, Apply(w, a).txs[k]) {
      }
    }
  }

  lemma {:induction false} RunKeepsMissing(acts: seq<Act>)
    requires OneThreadPerId(acts)
    ensures StillMissing(RunActs(acts))
    decreases |acts|
  {
    if acts != [] {
      var init, last := acts[..|acts| - 1], acts[|acts| - 1];
      assert acts == init + [last];
      RunKeepsMissing(init);
      ActsKeepConsistent(init);
      RunsWhatBegan(init);
      ActKeepsMissing(RunActs(init), init, last);
    }
  }

  // ---------------------------------------------------------------- message ids

  ghost predicate Came(w: World, a: Act) {
    Ends(w, a) && MessageCame(w.db, w.txs[a.worker])
  }

  ghost predicate CameAt(acts: seq<Act>, n: nat)
    requires n < |acts|
  {
    Came(RunActs(acts[..n]), acts[n])
  }

  lemma PrefixIsUnique(messages: seq<Message>, m: Message)
    requires MessagesUnique(messages + [m])
    ensures MessagesUnique(messages)
  {
    var after := messages + [m];
    forall i, j | 0 <= i < j < |messages| && messages[i].msgId.Some?
      ensures messages[i].tenant != messages[j].tenant || messages[i].msgId != messages[j].msgId
    {
      assert after[i] == messages[i] && after[j] == messages[j];
    }
  }

  lemma RepeatIsNotUnique(messages: seq<Message>, m: Message)
    requires m.msgId.Some? && Seen(messages, m.tenant, m.msgId.value)
    ensures !MessagesUnique(messages + [m])
  {
    var x :| x in messages && x.tenant == m.tenant && x.msgId == m.msgId;
    var i :| 0 <= i < |messages| && messages[i] == x;
    var after := messages + [m];
    assert after[i] == x && after[|messages|] == m;
  }

  lemma UniqueAppended(messages: seq<Message>, m: Message)
    ensures MessagesUnique(messages + [m])
            <==> MessagesUnique(messages) && (m.msgId.Some? ==> !Seen(messages, m.tenant, m.msgId.value))
  {
    if m.msgId.Some? && Seen(messages, m.tenant, m.msgId.value) {
      RepeatIsNotUnique(messages, m);
    } else if MessagesUnique(messages) {
      MessagesStayUnique(messages, m);
    } else if MessagesUnique(messages + [m]) {
      PrefixIsUnique(messages, m);
    }
  }

  lemma ActKeepsUniqueIff(w: World, a: Act)
    requires Consistent(w)
    ensures MessagesUnique(Apply(w, a).db.messages)
            <==> MessagesUnique(w.db.messages) && !Came(w, a)
  {
    if Ends(w, a) {
      var tx := w.txs[a.worker];
      var ticket := CommitMessages(w.db, tx);
      UniqueAppended(w.db.messages, MessageOf(tx.e, ticket));
    }
  }

  ghost predicate NeverCame(acts: seq<Act>) {
    forall n :: 0 <= n < |acts| ==> !CameAt(acts, n)
  }

  lemma CameByPrefix(acts: seq<Act>, a: Act)
    ensures NeverCame(acts + [a]) <==> NeverCame(acts) && !Came(RunActs(acts), a)
  {
    var m, all := |acts|, acts + [a];
    assert all[..m] == acts;
    forall n | 0 <= n < m ensures CameAt(all, n) <==> CameAt(acts, n) {
      assert all[..n] == acts[..n];
    }
    assert CameAt(all, m) <==> Came(RunActs(acts), a);
  }

  /** No tenant has a message id twice, if and only if no transaction commits a message that came since it looked. */
  lemma {:induction false} NoMessageTwiceIff(acts: seq<Act>)
    ensures MessagesUnique(RunActs(acts).db.messages) <==> NeverCame(acts)
    decreases |acts|
  {
    if acts != [] {
      var init, last := acts[..|acts| - 1], acts[|acts| - 1];
      assert acts == init + [last];
      NoMessageTwiceIff(init);
      ActsKeepConsistent(init);
      ActKeepsUniqueIff(RunActs(init), last);
      CameByPrefix(init, last);
    }
  }

  // ---------------------------------------------------------------- tickets left alone

  /** A state change to a ticket that an open transaction has read. */
  ghost predicate Disturbs(w: World, a: Act) {
    a.SetState? && exists k :: k in w.txs && w.txs[k].step >= 3 && w.txs[k].ticket == Some(a.i)
  }

  ghost predicate DisturbsAt(acts: seq<Act>, n: nat)
    requires n < |acts|
  {
    Disturbs(RunActs(acts[..n]), acts[n])
  }

  /** The ticket a transaction has read is as it was. */
  predicate AsRead(db: Db, tx: Tx) {
    tx.step >= 3 && tx.ticket.Some? ==>
      tx.ticket.value < |db.tickets| && (tx.reopen <==> Done(db.tickets[tx.ticket.value].state))
  }

  ghost predicate AllAsRead(w: World) {
    forall k :: k in w.txs ==> AsRead(w.db, w.txs[k])
  }

  lemma CommitKeepsAsRead(w: World, k: nat)
    requires Consistent(w) && AllAsRead(w) && k in w.txs && w.txs[k].step == 5
    ensures AllAsRead(Apply(w, Next(k)))
  {
    var tx, w' := w.txs[k], Apply(w, Next(k));
    CommitEffect(w.db, tx);
    forall j | j in w'.txs ensures AsRead(w'.db, w'.txs[j]) {
      var other := w.txs[j];
      if other.step >= 3 && other.ticket.Some? {
        assert Apart(tx.e, other.e);
        EffectKeepsNewest(w.db, tx, w'.db, other.e);
      }
    }
  }

  lemma AdvancedAsRead(w: World, k: nat)
    requires k in w.txs && AsRead(w.db, w.txs[k]) && w.txs[k].step < 5
    ensures AsRead(w.db, Advanced(w, k))
  {
  }

  lemma SetStateKeepsAsRead(db: Db, i: nat, to: State, tx: Tx)
    requires AsRead(db, tx) && (tx.step >= 3 ==> tx.ticket != Some(i))
    ensures AsRead(StateSet(db, i, to), tx)
  {
  }

  lemma ActKeepsAsRead(w: World, a: Act)
    requires Consistent(w) && AllAsRead(w) && !Disturbs(w, a)
    ensures AllAsRead(Apply(w, a))
  {
    if Ends(w, a) {
      CommitKeepsAsRead(w, a.worker);
    } else if a.Next? && a.worker in w.txs {
      AdvancedAsRead(w, a.worker);
    } else if a.SetState? {
      forall k | k in w.txs ensures AsRead(StateSet(w.db, a.i, a.to), w.txs[k]) {
        SetStateKeepsAsRead(w.db, a.i, a.to, w.txs[k]);
      }
    }
  }

  lemma {:induction false} UndisturbedIsAsRead(acts: seq<Act>)
    requires forall n :: 0 <= n < |acts| ==> !DisturbsAt(acts, n)
    ensures AllAsRead(RunActs(acts))
    decreases |acts|
  {
    if acts != [] {
      var init, m := acts[..|acts| - 1], |acts| - 1;
      forall n | 0 <= n < m ensures !DisturbsAt(init, n) {
        assert acts[..n] == init[..n] && !DisturbsAt(acts, n);
      }
      UndisturbedIsAsRead(init);
      ActsKeepConsistent(init);
      assert !DisturbsAt(acts, m);
      ActKeepsAsRead(RunActs(init), acts[m]);
    }
  }

  lemma NothingSlips(acts: seq<Act>, n: nat)
    requires OneThreadPerId(acts) && n < |acts|
    requires forall i :: 0 <= i < |acts| ==> !DisturbsAt(acts, i)
    ensures !SlipsAt(acts, n)
  {
    var init := acts[..n];
    assert forall a :: a in init ==> a in acts;
    forall i | 0 <= i < n ensures !DisturbsAt(init, i) {
      assert acts[..i] == init[..i] && !DisturbsAt(acts, i);
    }
    RunKeepsMissing(init);
    UndisturbedIsAsRead(init);
  }

  // ---------------------------------------------------------------- exactly once

  predicate AllKeyedActs(acts: seq<Act>) {
    forall a :: a in acts && a.Begin? && Handled(a.e) ==> Keyed(a.e)
  }

  lemma {:induction false} HistoryIsKeyed(acts: seq<Act>)
    requires AllKeyedActs(acts)
    ensures AllKeyed(History(acts))
    decreases |acts|
  {
    if acts != [] {
      var init, last := acts[..|acts| - 1], acts[|acts| - 1];
      assert acts == init + [last];
      HistoryIsKeyed(init);
      RunsWhatBegan(init);
      var w := RunActs(init);
      if Ends(w, last) {
        assert Begin(last.worker, w.txs[last.worker].e) in acts;
      }
    }
  }

  /** Any number of workers, with rollbacks and redeliveries at any time, leave the conversations, tickets and messages
      of the history without its later duplicates, provided every event has a thread and a message id, nobody changes a
      ticket between a transaction's reading it and its commit, and none is done when a duplicate is committed. */
  lemma ExactlyOnceSideBySide(acts: seq<Act>)
    requires AllKeyedActs(acts) && OneThreadPerId(acts)
    requires forall n :: 0 <= n < |acts| ==> !DisturbsAt(acts, n)
    requires forall n :: 0 <= n < |History(acts)| ==> !LateAt(History(acts), n)
    ensures Core(RunActs(acts).db) == Core(RunOps(Dedup(History(acts))))
  {
    var ops := History(acts);
    forall n | 0 <= n < |acts| ensures !SlipsAt(acts, n) {
      NothingSlips(acts, n);
    }
    SerialUpTo(acts, |acts|);
    HistoryIsKeyed(acts);
    SameUpTo(ops, |ops|);
    assert acts[..|acts|] == acts && ops[..|ops|] == ops;
  }
}
