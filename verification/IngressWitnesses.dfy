/** Runs of ingress transactions side by side: one alone, one that fails, and three that part from any serial order. */
module IngressWitnesses {
  import opened Wrappers
  import opened TicketState
  import opened Ingress
  import opened IngressProofs
  import opened IngressWorkers
  import opened IngressSerial

  /** What a transaction has found when nothing comes between its statements. */
  function Found(db: Db, tx: Tx): Tx {
    Checked(db, Looked(db, Attached(db, tx)).(step := 4))
  }

  lemma OneAct(acts: seq<Act>, a: Act) returns (more: seq<Act>)
    ensures more == acts + [a] && RunActs(more) == Apply(RunActs(acts), a)
  {
    more := acts + [a];
    ActAppended(acts, a);
  }

  lemma Begins(acts: seq<Act>, k: nat, e: Event) returns (more: seq<Act>)
    requires Handled(e) && k !in RunActs(acts).txs
    ensures var w := RunActs(acts);
            RunActs(more) == w.(txs := w.txs[k := Tx(e, 1, Known(w.db, e), None, None, false, false)])
  {
    more := OneAct(acts, Begin(k, e));
    more := OneAct(more, Next(k));
  }

  lemma ReadsAll(acts: seq<Act>, k: nat) returns (more: seq<Act>)
    requires var w := RunActs(acts); k in w.txs && w.txs[k].step == 1 && !Blocked(w, k, w.txs[k].e)
    ensures var w := RunActs(acts); RunActs(more) == w.(txs := w.txs[k := Found(w.db, w.txs[k])])
  {
    more := OneAct(acts, Next(k));
    more := OneAct(more, Next(k));
    more := OneAct(more, Next(k));
    more := OneAct(more, Next(k));
  }

  lemma Closes(acts: seq<Act>, k: nat) returns (more: seq<Act>)
    requires var w := RunActs(acts); k in w.txs && w.txs[k].step == 5
    ensures var w := RunActs(acts);
            && RunActs(more).db == AfterCommit(w.db, w.txs[k]) && RunActs(more).txs == w.txs - {k}
            && RunActs(more).doubles
               == if w.txs[k].customer.None? && CustomerKey(w.txs[k].e) in w.db.customers
                  then w.doubles + [CustomerKey(w.txs[k].e)] else w.doubles
  {
    more := OneAct(acts, Next(k));
  }

  lemma FoundIsFresh(db: Db, tx: Tx)
    requires tx.step == 1 && TxOk(db, tx)
    ensures TxOk(db, Found(db, tx)) && !TicketMoved(db, Found(db, tx)) && !MessageCame(db, Found(db, tx))
    ensures Found(db, tx).step == 5 && Found(db, tx).e == tx.e
  {
  }

  /** A transaction that nobody disturbs does what the event handled in one go does. */
  lemma AloneIsHandle(acts: seq<Act>, k: nat, e: Event) returns (more: seq<Act>)
    requires Handled(e) && k !in RunActs(acts).txs && !Blocked(RunActs(acts), k, e)
    ensures Core(RunActs(more).db) == Core(Handle(RunActs(acts).db, e)) && RunActs(more).txs == RunActs(acts).txs
  {
    var w := RunActs(acts);
    more := Begins(acts, k, e);
    ActsKeepConsistent(more);
    var tx := RunActs(more).txs[k];
    FoundIsFresh(w.db, tx);
    more := ReadsAll(more, k);
    CommitIsSerialIff(w.db, Found(w.db, tx));
    more := Closes(more, k);
    assert RunActs(more).txs == w.txs;
  }

  function Nexts(k: nat, n: nat): seq<Act> {
    seq(n, i => Next(k))
  }

  lemma {:induction false} ReadsOnly(acts: seq<Act>, k: nat, n: nat) returns (tx: Tx)
    requires var w := RunActs(acts); k in w.txs && w.txs[k].step + n <= 5
    ensures var w := RunActs(acts); RunActs(acts + Nexts(k, n)) == w.(txs := w.txs[k := tx])
    decreases n
  {
    var w := RunActs(acts);
    if n == 0 {
      tx := w.txs[k];
      assert acts + Nexts(k, 0) == acts;
    } else {
      var more := OneAct(acts, Next(k));
      tx := ReadsOnly(more, k, n - 1);
      assert more + Nexts(k, n - 1) == acts + Nexts(k, n);
    }
  }

  /** A transaction that fails at any of its statements, or before its commit, leaves everything as it was, whatever
      others are doing: no row, no lock. */
  lemma FailedLeavesNothing(acts: seq<Act>, k: nat, e: Event, n: nat)
    requires k !in RunActs(acts).txs && n <= 5
    ensures RunActs(acts + [Begin(k, e)] + Nexts(k, n) + [Rollback(k)]) == RunActs(acts)
  {
    var w := RunActs(acts);
    var begun := OneAct(acts, Begin(k, e));
    var read := begun + Nexts(k, n);
    if Handled(e) {
      var tx := ReadsOnly(begun, k, n);
      var _ := OneAct(read, Rollback(k));
      assert RunActs(begun).txs == w.txs[k := Tx(e, 0, None, None, None, false, false)];
      assert w.txs[k := tx] - {k} == w.txs;
    } else {
      IdleStays(begun, k, n);
      var _ := OneAct(read, Rollback(k));
      assert w.txs - {k} == w.txs;
    }
  }

  lemma {:induction false} IdleStays(acts: seq<Act>, k: nat, n: nat)
    requires k !in RunActs(acts).txs
    ensures RunActs(acts + Nexts(k, n)) == RunActs(acts)
    decreases n
  {
    if n == 0 {
      assert acts + Nexts(k, 0) == acts;
    } else {
      var more := OneAct(acts, Next(k));
      IdleStays(more, k, n - 1);
      assert more + Nexts(k, n - 1) == acts + Nexts(k, n);
    }
  }

  /** Two deliveries of one event at once, each looking for the customer before the other commits, leave two customer
      rows. */
  lemma CustomerCanDouble(e: Event) returns (acts: seq<Act>)
    requires Handled(e)
    ensures RunActs(acts).doubles == [CustomerKey(e)] && CustomerKey(e) in RunActs(acts).db.customers
  {
    acts := Begins([], 0, e);
    acts := Begins(acts, 1, e);
    acts := ReadsAll(acts, 0);
    ActsKeepConsistent(acts);
    CommitEffect(EMPTY, RunActs(acts).txs[0]);
    acts := Closes(acts, 0);
    acts := ReadsAll(acts, 1);
    ActsKeepConsistent(acts);
    CommitEffect(RunActs(acts).db, RunActs(acts).txs[1]);
    acts := Closes(acts, 1);
  }

  /** Two transactions on one event have both found its message missing, and nothing is stored yet. */
  ghost predicate BothMissing(w: World, e: Event) {
    && w.db == EMPTY && 0 in w.txs && 1 in w.txs && e.msgId != ""
    && w.txs[0].e == w.txs[1].e == e && w.txs[0].step == w.txs[1].step == 5 && !w.txs[0].seen && !w.txs[1].seen
  }

  lemma BothWrite(acts: seq<Act>, e: Event) returns (more: seq<Act>)
    requires BothMissing(RunActs(acts), e)
    ensures !MessagesUnique(RunActs(more).db.messages)
  {
    ActsKeepConsistent(acts);
    var t := CommitMessages(EMPTY, RunActs(acts).txs[0]);
    more := Closes(acts, 0);
    ActsKeepConsistent(more);
    var db := RunActs(more).db;
    var u := CommitMessages(db, RunActs(more).txs[1]);
    assert db.messages == [MessageOf(e, t)] && db.messages[0] in db.messages;
    more := Closes(more, 1);
    RepeatIsNotUnique(db.messages, MessageOf(e, u));
  }

  /** Without a thread nothing makes two deliveries of one event wait for each other: both can find its message missing
      and write it. */
  lemma MessageCanDouble(e: Event) returns (acts: seq<Act>)
    requires Handled(e) && e.thread == "" && e.msgId != ""
    ensures !MessagesUnique(RunActs(acts).db.messages)
  {
    acts := Begins([], 0, e);
    acts := Begins(acts, 1, e);
    acts := ReadsAll(acts, 0);
    acts := ReadsAll(acts, 1);
    acts := BothWrite(acts, e);
  }

  /** The tables after one event, and what the next transaction on its thread finds. */
  lemma SecondFinds(e: Event, f: Taken, db: Db, tx: Tx)
    requires Handled(e) && Keyed(e) && Keyed(f) && ThreadKey(e) == ThreadKey(f) && e.msgId != f.msgId && tx.e == f
    requires Core(db) == Core(Handle(EMPTY, e))
    ensures |db.tickets| == |db.messages| == 1
    ensures Found(db, tx).ticket == Some(0) && !Found(db, tx).reopen && !Found(db, tx).seen
  {
    assert db.tickets[0].state == New && db.messages[0].msgId == Some(e.msgId);
    assert Latest(db.tickets, e.tenant.value, db.threads[ThreadKey(e)]) == Some(0);
  }

  lemma LeavesResolved(db: Db, tx: Tx)
    requires Sound(db) && TxOk(db, tx) && tx.step == 5 && tx.ticket == Some(0) && !tx.reopen && !tx.seen
    requires |db.tickets| == |db.messages| == 1 && db.tickets[0].state == Resolved
    ensures var d := AfterCommit(db, tx);
            |d.tickets| == 1 && d.tickets[0].state == Resolved && |d.messages| == 2
  {
    var t := CommitMessages(db, tx);
    CommitEffect(db, tx);
  }

  /** Its one open transaction has found the one ticket open and its message missing. */
  ghost predicate AboutToLeave(w: World, k: nat) {
    && k in w.txs && w.txs == map[k := w.txs[k]] && w.txs[k].step == 5
    && w.txs[k].ticket == Some(0) && !w.txs[k].reopen && !w.txs[k].seen
    && |w.db.tickets| == |w.db.messages| == 1
  }

  lemma SecondReads(acts: seq<Act>, e: Event, f: Event) returns (more: seq<Act>)
    requires Handled(e) && Handled(f) && Keyed(e) && Keyed(f) && ThreadKey(e) == ThreadKey(f) && e.msgId != f.msgId
    requires RunActs(acts).txs == map[] && Core(RunActs(acts).db) == Core(Handle(EMPTY, e))
    ensures AboutToLeave(RunActs(more), 1)
  {
    more := Begins(acts, 1, f);
    SecondFinds(e, f, RunActs(acts).db, RunActs(more).txs[1]);
    more := ReadsAll(more, 1);
  }

  lemma ResolvesUnder(acts: seq<Act>) returns (more: seq<Act>)
    requires AboutToLeave(RunActs(acts), 1)
    ensures var db := RunActs(more).db; |db.tickets| == 1 && db.tickets[0].state == Resolved && |db.messages| == 2
    ensures RunActs(more).txs == map[]
  {
    more := OneAct(acts, Act.SetState(0, Resolved));
    ActsKeepConsistent(more);
    LeavesResolved(RunActs(more).db, RunActs(more).txs[1]);
    more := Closes(more, 1);
  }

  /** A message arrives while its ticket is being resolved: the transaction has found the ticket open and leaves it, so
      the ticket stays resolved with the new message on it. */
  lemma ReopeningCanBeMissed(e: Event, f: Event) returns (acts: seq<Act>)
    requires Handled(e) && Handled(f) && Keyed(e) && Keyed(f) && ThreadKey(e) == ThreadKey(f) && e.msgId != f.msgId
    ensures var db := RunActs(acts).db; |db.tickets| == 1 && db.tickets[0].state == Resolved && |db.messages| == 2
    ensures RunActs(acts).txs == map[]
  {
    acts := AloneIsHandle([], 0, e);
    acts := SecondReads(acts, e, f);
    acts := ResolvesUnder(acts);
  }
}
