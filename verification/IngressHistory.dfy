/** Ingress deliveries with agents' state changes in between: internal/ticket/ingress.go beside repo.go. */
module IngressHistory {
  import opened TicketState
  import opened Ingress
  import opened IngressProofs

  /** An event handled in one go, or some writer giving the i-th ticket a state. */
  datatype Op = Deliver(e: Event) | SetState(i: nat, to: State)

  function StateSet(db: Db, i: nat, to: State): Db {
    if i < |db.tickets| then db.(tickets := db.tickets[i := db.tickets[i].(state := to)]) else db
  }

  function Do(db: Db, op: Op): Db {
    match op
    case Deliver(e) => Handle(db, e)
    case SetState(i, to) => StateSet(db, i, to)
  }

  function RunOps(ops: seq<Op>): Db {
    if ops == [] then EMPTY else Do(RunOps(ops[..|ops| - 1]), ops[|ops| - 1])
  }

  predicate AllKeyed(ops: seq<Op>) {
    forall op :: op in ops && op.Deliver? && Handled(op.e) ==> Keyed(op.e)
  }

  lemma RunOpsAppended(ops: seq<Op>, op: Op)
    ensures RunOps(ops + [op]) == Do(RunOps(ops), op)
  {
    assert (ops + [op])[..|ops|] == ops;
  }

  // ---------------------------------------------------------------- what every run keeps

  lemma StateSetKeepsSound(db: Db, i: nat, to: State)
    requires Sound(db)
    ensures Sound(StateSet(db, i, to))
  {
    if i < |db.tickets| {
      var d := StateSet(db, i, to);
      forall k | k in d.threads ensures Latest(d.tickets, k.0, d.threads[k]).Some? {
        LatestUpdated(db.tickets, i, d.tickets[i], k.0, d.threads[k]);
      }
      forall c | c in d.conversations ensures exists j :: 0 <= j < |d.tickets| && d.tickets[j].conversation == c {
        var j :| 0 <= j < |db.tickets| && db.tickets[j].conversation == c;
        assert d.tickets[j].conversation == c;
      }
    }
  }

  lemma {:induction false} RunOpsKeepsInv(ops: seq<Op>)
    ensures Inv(RunOps(ops))
    decreases |ops|
  {
    if ops != [] {
      var init, last := ops[..|ops| - 1], ops[|ops| - 1];
      RunOpsKeepsInv(init);
      match last {
        case Deliver(e) => HandleKeepsInv(RunOps(init), e);
        case SetState(i, to) => StateSetKeepsSound(RunOps(init), i, to);
      }
    }
  }

  lemma DoReadsCore(a: Db, b: Db, op: Op)
    requires Core(a) == Core(b)
    ensures Core(Do(a, op)) == Core(Do(b, op))
  {
    match op
    case Deliver(e) => HandleReadsCore(a, b, e);
    case SetState(_, _) => assert b == a.(owner := b.owner);
  }

  /** Nothing that happens later makes a delivered event look new. */
  lemma DoKeepsRecorded(db: Db, e: Event, op: Op)
    requires Inv(db) && Recorded(db, e) && Keyed(e)
    ensures Recorded(Do(db, op), e)
  {
    match op
    case Deliver(f) =>
      if Handled(f) {
        var ticket := HandleShape(db, f);
        HandleKeepsInv(db, f);
        SeenGrows(db, f, Handle(db, f), ticket, e.tenant.value, e.msgId);
        assert ThreadKey(e) in Handle(db, f).threads;
      }
    case SetState(i, to) => StateSetKeepsSound(db, i, to);
  }

  lemma {:induction false} DeliveredIsRecorded(ops: seq<Op>, e: Event)
    requires AllKeyed(ops) && Deliver(e) in ops && Handled(e)
    ensures Recorded(RunOps(ops), e)
    decreases |ops|
  {
    var init, last := ops[..|ops| - 1], ops[|ops| - 1];
    assert ops == init + [last];
    RunOpsKeepsInv(init);
    if last == Deliver(e) {
      HandlingRecords(RunOps(init), e);
    } else {
      DeliveredIsRecorded(init, e);
      DoKeepsRecorded(RunOps(init), e, last);
    }
  }

  // ---------------------------------------------------------------- duplicates

  /** The same history with every later duplicate of a delivery removed. */
  function Dedup(ops: seq<Op>): seq<Op> {
    if ops == [] then []
    else
      var init, last := ops[..|ops| - 1], ops[|ops| - 1];
      if last.Deliver? && last in init then Dedup(init) else Dedup(init) + [last]
  }

  /** The next delivery repeats one of the history whose ticket is now resolved or closed. */
  ghost predicate LateDuplicate(ops: seq<Op>, op: Op) {
    && op.Deliver? && op in ops && Recorded(RunOps(ops), op.e) && Keyed(op.e)
    && TicketDone(RunOps(ops), op.e)
  }

  ghost predicate LateAt(ops: seq<Op>, n: nat)
    requires n < |ops|
  {
    LateDuplicate(ops[..n], ops[n])
  }

  /** After n steps duplicates have made no difference to conversations, tickets and messages. */
  ghost predicate SameAt(ops: seq<Op>, n: nat)
    requires n <= |ops|
  {
    Core(RunOps(ops[..n])) == Core(RunOps(Dedup(ops[..n])))
  }

  lemma OneMoreOp(ops: seq<Op>, op: Op)
    requires AllKeyed(ops + [op]) && Core(RunOps(ops)) == Core(RunOps(Dedup(ops)))
    ensures Core(RunOps(ops + [op])) == Core(RunOps(Dedup(ops + [op]))) <==> !LateDuplicate(ops, op)
  {
    assert (ops + [op])[..|ops|] == ops;
    RunOpsAppended(ops, op);
    if op.Deliver? && op in ops {
      if Handled(op.e) {
        assert op in ops + [op];
        DeliveredIsRecorded(ops, op.e);
        RedeliveryIsAbsorbedIff(RunOps(ops), op.e);
      }
    } else {
      RunOpsAppended(Dedup(ops), op);
      DoReadsCore(RunOps(ops), RunOps(Dedup(ops)), op);
    }
  }

  lemma SameStep(ops: seq<Op>, n: nat)
    requires AllKeyed(ops) && n < |ops| && SameAt(ops, n)
    ensures SameAt(ops, n + 1) <==> !LateAt(ops, n)
  {
    assert ops[..n + 1] == ops[..n] + [ops[n]];
    OneMoreOp(ops[..n], ops[n]);
  }

  lemma {:induction false} SameUpTo(ops: seq<Op>, n: nat)
    requires AllKeyed(ops) && n <= |ops| && forall i :: 0 <= i < n ==> !LateAt(ops, i)
    ensures SameAt(ops, n)
    decreases n
  {
    if n > 0 {
      SameUpTo(ops, n - 1);
      SameStep(ops, n - 1);
    }
  }

  /** With agents resolving and closing tickets in between, redeliveries of keyed events make no difference at any time
      if and only if none arrives while its ticket is done. */
  lemma DuplicatesAreHarmlessIff(ops: seq<Op>)
    requires AllKeyed(ops)
    ensures (forall n :: 0 <= n <= |ops| ==> SameAt(ops, n)) <==> (forall n :: 0 <= n < |ops| ==> !LateAt(ops, n))
  {
    if forall n :: 0 <= n <= |ops| ==> SameAt(ops, n) {
      forall n | 0 <= n < |ops| ensures !LateAt(ops, n) {
        assert SameAt(ops, n) && SameAt(ops, n + 1);
        SameStep(ops, n);
      }
    } else {
      var n :| 0 <= n <= |ops| && !SameAt(ops, n);
      if forall i :: 0 <= i < n ==> !LateAt(ops, i) {
        SameUpTo(ops, n);
      }
    }
  }
}
