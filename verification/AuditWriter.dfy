/** The single appender of the audit ledger over whole runs: internal/audit/writer.go.

    One Writer is alive at a time. A run is any sequence of bootstraps, appends (each possibly failing before
    it commits) and process restarts; every append carries the clock reading it takes. */
module AuditWriter {
  import opened Wrappers
  import opened AuditEvent
  import opened AuditChain

  /** Where an append fails, if it does; only the late failure has burnt a sequence value. */
  datatype Fault = NoFault | BeforeNextval | AfterNextval

  /** The database table and sequence, and the writer's cached fields. */
  datatype Ledger = Ledger(rows: seq<Row>, nextSeq: int, prevHash: Bytes, prevSeq: int, ready: bool)

  datatype Op = Boot(ok: bool) | Append(e: Event, now: int, fault: Fault) | Restart

  const EMPTY := Ledger([], 1, [], 0, false)

  /** TIMESTAMPTZ keeps microseconds. */
  function TruncMicro(now: int): int {
    now - now % 1000
  }

  function Events(l: Ledger): seq<Event> {
    ScanAll(l.rows)
  }

  function Filled(H: Hash, l: Ledger, e: Event, now: int): Event {
    var bare := e.(seqNo := l.nextSeq, ts := TruncMicro(now), prevHash := l.prevHash);
    bare.(hash := H(Canonical(bare)))
  }

  function Outcome(l: Ledger, e: Event, fault: Fault): Option<Error> {
    if Validate(e).Some? then Validate(e)
    else if !l.ready then Some(NotBootstrapped)
    else if fault != NoFault then Some(Database)
    else None
  }

  function Apply(H: Hash, l: Ledger, op: Op): Ledger {
    match op
    case Restart => l.(prevHash := [], prevSeq := 0, ready := false)
    // A tail query that fails leaves the writer as it was.
    case Boot(ok) =>
      var es := ByTime(Events(l));
      if !ok then l
      else l.(prevHash := Head(es), prevSeq := if es == [] then 0 else es[|es| - 1].seqNo, ready := true)
    case Append(e, now, fault) =>
      if Validate(e).Some? || !l.ready || fault == BeforeNextval then l
      else if fault == AfterNextval then l.(nextSeq := l.nextSeq + 1)
      else
        var full := Filled(H, l, e, now);
        Ledger(l.rows + [Store(full)], l.nextSeq + 1, full.hash, full.seqNo, true)
  }

  function Run(H: Hash, ops: seq<Op>): Ledger {
    if ops == [] then EMPTY else Apply(H, Run(H, ops[..|ops| - 1]), ops[|ops| - 1])
  }

  lemma NewestIsLast(es: seq<Event>)
    requires SeqIncreasing(es)
    ensures |ByTime(es)| == |es|
    ensures es != [] ==>
              var last := ByTime(es)[|es| - 1];
              && last in es
              && forall x :: x in es ==>
                   x == last || x.ts < last.ts || (x.ts == last.ts && x.seqNo < last.seqNo)
  {
    ByTimeSorts(es);
    var view := ByTime(es);
    if es != [] {
      assert view[|es| - 1] in view;
      forall x | x in es ensures x == view[|es| - 1] || Before(x, view[|es| - 1]) {
        var i :| 0 <= i < |view| && view[i] == x;
      }
    }
  }

  /** What a bootstrap leaves: the hash and number of the row that comes last by time, then number, or 32 zero bytes. */
  lemma BootReadsNewest(H: Hash, l: Ledger)
    requires SeqIncreasing(Events(l))
    ensures Apply(H, l, Boot(false)) == l
    ensures var l' := Apply(H, l, Boot(true));
            && l'.ready && l'.rows == l.rows && l'.nextSeq == l.nextSeq
            && (l.rows == [] ==> l'.prevHash == Zeros(32) && l'.prevSeq == 0)
            && (l.rows != [] ==>
                  exists e :: e in Events(l) && l'.prevHash == e.hash && l'.prevSeq == e.seqNo
                              && forall x :: x in Events(l) ==>
                                   x == e || x.ts < e.ts || (x.ts == e.ts && x.seqNo < e.seqNo))
  {
    NewestIsLast(Events(l));
  }

  /** The row an append makes: the next number, the time in whole microseconds, the cached hash and its own. */
  lemma FilledSpelledOut(H: Hash, l: Ledger, e: Event, now: int)
    ensures var full := Filled(H, l, e, now);
            && full == e.(seqNo := l.nextSeq, ts := full.ts, prevHash := l.prevHash, hash := full.hash)
            && full.ts % 1000 == 0 && full.ts <= now < full.ts + 1000
            && full.hash == H(Canonical(full))
  {
    FilledIsLinked(H, l, e, now);
    MicrosOf(now);
  }

  lemma MicrosOf(now: int)
    ensures TruncMicro(now) % 1000 == 0 && TruncMicro(now) <= now < TruncMicro(now) + 1000
  {
  }

  /** An append is stored if the event is valid, the writer is ready and nothing fails; a failure after the number was
      taken burns it; any other leaves everything as it was. */
  lemma AppendSpelledOut(H: Hash, l: Ledger, e: Event, now: int, fault: Fault)
    ensures Outcome(l, e, fault).None? <==> Validate(e).None? && l.ready && fault == NoFault
    ensures Outcome(l, e, fault).Some? ==>
              Apply(H, l, Op.Append(e, now, fault))
              == l.(nextSeq := l.nextSeq + if Validate(e).None? && l.ready && fault == AfterNextval then 1 else 0)
    ensures Outcome(l, e, fault).None? ==>
              var full := Filled(H, l, e, now);
              Apply(H, l, Op.Append(e, now, fault))
              == Ledger(l.rows + [Store(full)], l.nextSeq + 1, full.hash, l.nextSeq, true)
  {
    var full := Filled(H, l, e, now);
    assert full.seqNo == l.nextSeq;
  }

  class Writer {
    const H: Hash
    // audit_events and its sequence
    var rows: seq<Row>
    var nextSeq: int
    // the cached tail
    var prevHash: Bytes
    var prevSeq: int
    var ready: bool

    constructor (H: Hash, rows: seq<Row>, nextSeq: int)
      ensures this.H == H && Snapshot() == Ledger(rows, nextSeq, [], 0, false)
    {
      this.H, this.rows, this.nextSeq := H, rows, nextSeq;
      prevHash, prevSeq, ready := [], 0, false;
    }

    function Snapshot(): Ledger
      reads this
    {
      Ledger(rows, nextSeq, prevHash, prevSeq, ready)
    }

    method Bootstrap(queryOk: bool) returns (r: Result<(), Error>)
      modifies this
      ensures Snapshot() == Apply(H, old(Snapshot()), Boot(queryOk))
      ensures r == if queryOk then Success(()) else Failure(Database)
    {
      if !queryOk {
        return Failure(Database);
      }
      var es := ByTime(ScanAll(rows));
      if es == [] {
        prevHash := GENESIS;
        prevSeq := 0;
      } else {
        prevHash := es[|es| - 1].hash;
        prevSeq := es[|es| - 1].seqNo;
      }
      ready := true;
      return Success(());
    }

    method Append(e: Event, now: int, fault: Fault) returns (r: Result<Event, Error>)
      modifies this
      ensures Snapshot() == Apply(H, old(Snapshot()), Op.Append(e, now, fault))
      ensures r == if Outcome(old(Snapshot()), e, fault).Some? then Failure(Outcome(old(Snapshot()), e, fault).value)
                   else Success(Filled(H, old(Snapshot()), e, now))
    {
      var invalid := Validate(e);
      if invalid.Some? {
        return Failure(invalid.value);
      }
      if !ready {
        return Failure(NotBootstrapped);
      }
      if fault == BeforeNextval {
        return Failure(Database);
      }
      var taken := nextSeq;
      nextSeq := nextSeq + 1;
      if fault == AfterNextval {
        return Failure(Database);
      }
      var full := e.(seqNo := taken, ts := TruncMicro(now), prevHash := prevHash);
      var h := ComputeHash(H, full);
      full := full.(hash := h);
      rows := rows + [Store(full)];
      prevHash := full.hash;
      prevSeq := full.seqNo;
      return Success(full);
    }
  }

  // ---------------------------------------------------------------- honest runs

  /** NULLing empty text on the way in and out loses nothing. */
  lemma StoreRoundTrips(e: Event)
    ensures Scan(Store(e)) == e
    ensures Store(e).resourceType.None? <==> |e.resourceType| == 0
    ensures Store(e).resourceId.None? <==> |e.resourceId| == 0
  {
  }

  lemma ScanAppended(rows: seq<Row>, e: Event)
    ensures ScanAll(rows + [Store(e)]) == ScanAll(rows) + [e]
  {
    assert (rows + [Store(e)])[..|rows|] == rows;
  }

  /** The clock never runs backwards between the appends of a run. */
  predicate ClockForward(ops: seq<Op>) {
    forall i, j :: 0 <= i < j < |ops| && ops[i].Append? && ops[j].Append? ==> ops[i].now <= ops[j].now
  }

  predicate NoLaterThan(es: seq<Event>, now: int) {
    forall i :: 0 <= i < |es| ==> es[i].ts <= TruncMicro(now)
  }

  predicate SeqBelow(es: seq<Event>, nextSeq: int) {
    forall i :: 0 <= i < |es| ==> es[i].seqNo < nextSeq
  }

  /** The rows are a chain in insertion order, that order is (ts, seq) order, and the cache is its tail. */
  predicate Consistent(H: Hash, l: Ledger) {
    && Sound(H, Events(l), l.nextSeq)
    && (l.ready ==> l.prevHash == Head(Events(l)))
    && (l.ready ==> l.prevSeq == if Events(l) == [] then 0 else Events(l)[|Events(l)| - 1].seqNo)
  }

  predicate Sound(H: Hash, es: seq<Event>, nextSeq: int) {
    Chain(H, es) && Chronological(es) && SeqIncreasing(es) && SeqBelow(es, nextSeq)
  }

  lemma SoundExtends(H: Hash, es: seq<Event>, e: Event, now: int)
    requires Sound(H, es, e.seqNo) && NoLaterThan(es, now) && e.ts == TruncMicro(now)
    requires e.prevHash == Head(es) && e.hash == H(Canonical(e))
    ensures Sound(H, es + [e], e.seqNo + 1) && Head(es + [e]) == e.hash
  {
    forall i | 0 <= i < |es| + 1 ensures Linked(H, es + [e], i) {
      if i < |es| {
        assert Linked(H, es, i);
      }
    }
  }

  lemma FilledIsLinked(H: Hash, l: Ledger, e: Event, now: int)
    ensures var full := Filled(H, l, e, now);
            && full.seqNo == l.nextSeq && full.ts == TruncMicro(now)
            && full.prevHash == l.prevHash && full.hash == H(Canonical(full))
  {
    var bare := e.(seqNo := l.nextSeq, ts := TruncMicro(now), prevHash := l.prevHash);
    assert Middle(Filled(H, l, e, now)) == Middle(bare);
  }

  /** An append that gets through stores exactly the filled event. */
  lemma AppendStores(H: Hash, l: Ledger, op: Op)
    requires op.Append? && Outcome(l, op.e, op.fault).None?
    ensures Events(Apply(H, l, op)) == Events(l) + [Filled(H, l, op.e, op.now)]
  {
    ScanAppended(l.rows, Filled(H, l, op.e, op.now));
  }

  lemma FailureKeepsConsistent(H: Hash, l: Ledger, op: Op)
    requires Consistent(H, l) && op.Append? && Outcome(l, op.e, op.fault).Some?
    ensures Consistent(H, Apply(H, l, op))
  {
    assert Events(Apply(H, l, op)) == Events(l);
  }

  lemma SuccessKeepsConsistent(H: Hash, l: Ledger, op: Op)
    requires Consistent(H, l) && op.Append? && Outcome(l, op.e, op.fault).None? && NoLaterThan(Events(l), op.now)
    ensures Consistent(H, Apply(H, l, op))
  {
    FilledIsLinked(H, l, op.e, op.now);
    AppendStores(H, l, op);
    SoundExtends(H, Events(l), Filled(H, l, op.e, op.now), op.now);
  }

  lemma AppendKeepsConsistent(H: Hash, l: Ledger, op: Op)
    requires Consistent(H, l) && op.Append? && NoLaterThan(Events(l), op.now)
    ensures Consistent(H, Apply(H, l, op))
  {
    if Outcome(l, op.e, op.fault).None? {
      SuccessKeepsConsistent(H, l, op);
    } else {
      FailureKeepsConsistent(H, l, op);
    }
  }

  lemma StepKeepsConsistent(H: Hash, l: Ledger, op: Op)
    requires Consistent(H, l) && (op.Append? ==> NoLaterThan(Events(l), op.now))
    ensures Consistent(H, Apply(H, l, op))
  {
    if op.Append? {
      AppendKeepsConsistent(H, l, op);
    } else {
      ByTimeOfChronological(Events(l));
    }
  }

  lemma TimesExtend(es: seq<Event>, e: Event, now: int, later: int)
    requires NoLaterThan(es, later) && e.ts == TruncMicro(now) && now <= later
    ensures NoLaterThan(es + [e], later)
  {
  }

  lemma StepReadsClock(H: Hash, l: Ledger, op: Op, later: int)
    requires NoLaterThan(Events(l), later) && (op.Append? ==> op.now <= later)
    ensures NoLaterThan(Events(Apply(H, l, op)), later)
  {
    if op.Append? {
      if Outcome(l, op.e, op.fault).None? {
        var full := Filled(H, l, op.e, op.now);
        assert full.ts == TruncMicro(op.now);
        AppendStores(H, l, op);
        TimesExtend(Events(l), full, op.now, later);
      } else {
        assert Apply(H, l, op).rows == l.rows;
      }
    }
  }

  /** Timestamps already stored come from earlier appends of the run. */
  lemma {:induction false} StoredTimesAreRead(H: Hash, ops: seq<Op>, later: int)
    requires forall i :: 0 <= i < |ops| && ops[i].Append? ==> ops[i].now <= later
    ensures NoLaterThan(Events(Run(H, ops)), later)
  {
    if ops != [] {
      StoredTimesAreRead(H, ops[..|ops| - 1], later);
      StepReadsClock(H, Run(H, ops[..|ops| - 1]), ops[|ops| - 1], later);
    }
  }

  lemma {:induction false} HonestRunIsConsistent(H: Hash, ops: seq<Op>)
    requires ClockForward(ops)
    ensures Consistent(H, Run(H, ops))
  {
    if ops != [] {
      var init, op := ops[..|ops| - 1], ops[|ops| - 1];
      HonestRunIsConsistent(H, init);
      if op.Append? {
        StoredTimesAreRead(H, init, op.now);
      }
      StepKeepsConsistent(H, Run(H, init), op);
    }
  }

  /** Every honest run under a clock that does not run backwards is accepted by Verify, restarts, failed
      appends and burnt sequence values included; the cached hash is the ledger's head throughout. */
  lemma HonestRunVerifies(H: Hash, ops: seq<Op>)
    requires ClockForward(ops)
    ensures var l := Run(H, ops);
            Chain(H, ByTime(Events(l))) && (l.ready ==> l.prevHash == Head(ByTime(Events(l))))
  {
    HonestRunIsConsistent(H, ops);
    ByTimeOfChronological(Events(Run(H, ops)));
  }

  // ---------------------------------------------------------------- clocks that run backwards

  ghost predicate Hashed(H: Hash, es: seq<Event>) {
    forall i :: 0 <= i < |es| ==> es[i].hash == H(Canonical(es[i]))
  }

  /** Row i is the first whose clock had run back. Up to there the cache was the latest row, so it links to that. */
  ghost predicate Regressed(es: seq<Event>, i: nat) {
    1 <= i < |es| && Chronological(es[..i]) && Before(es[i], es[i - 1]) && es[i].prevHash == es[i - 1].hash
  }

  ghost predicate Regresses(es: seq<Event>) {
    exists i: nat :: Regressed(es, i)
  }

  ghost predicate RowsOk(H: Hash, es: seq<Event>, nextSeq: int) {
    Hashed(H, es) && SeqIncreasing(es) && SeqBelow(es, nextSeq)
  }

  /** What every run keeps, whatever its clock does. */
  ghost predicate Written(H: Hash, l: Ledger) {
    RowsOk(H, Events(l), l.nextSeq) && (Consistent(H, l) || Regresses(Events(l)))
  }

  lemma RowsExtend(H: Hash, es: seq<Event>, e: Event)
    requires RowsOk(H, es, e.seqNo) && e.hash == H(Canonical(e))
    ensures RowsOk(H, es + [e], e.seqNo + 1)
  {
  }

  lemma RegressesStays(es: seq<Event>, e: Event)
    requires Regresses(es)
    ensures Regresses(es + [e])
  {
    var i: nat :| Regressed(es, i);
    assert (es + [e])[..i] == es[..i];
    assert Regressed(es + [e], i);
  }

  lemma RegressesIsNotChronological(es: seq<Event>)
    requires Regresses(es)
    ensures !Chronological(es)
  {
    var i: nat :| Regressed(es, i);
    assert !Before(es[i - 1], es[i]);
  }

  lemma LatestBounds(es: seq<Event>, now: int)
    requires Chronological(es) && |es| > 0 && es[|es| - 1].ts <= TruncMicro(now)
    ensures NoLaterThan(es, now)
  {
    forall i | 0 <= i < |es| ensures es[i].ts <= TruncMicro(now) {
      assert i < |es| - 1 ==> Before(es[i], es[|es| - 1]);
    }
  }

  /** While the rows are in time order the cache is the latest row: the next one follows it, or regresses. */
  lemma ExtendsOrRegresses(H: Hash, es: seq<Event>, e: Event, now: int)
    requires Sound(H, es, e.seqNo) && e.ts == TruncMicro(now) && e.prevHash == Head(es) && e.hash == H(Canonical(e))
    ensures (Sound(H, es + [e], e.seqNo + 1) && Head(es + [e]) == e.hash) || Regresses(es + [e])
  {
    if |es| > 0 && e.ts < es[|es| - 1].ts {
      assert (es + [e])[..|es|] == es;
      assert Regressed(es + [e], |es|);
    } else {
      if |es| > 0 {
        LatestBounds(es, now);
      }
      SoundExtends(H, es, e, now);
    }
  }

  lemma AppendKeepsWritten(H: Hash, l: Ledger, op: Op)
    requires Written(H, l) && op.Append? && Outcome(l, op.e, op.fault).None?
    ensures Written(H, Apply(H, l, op))
  {
    var es, full := Events(l), Filled(H, l, op.e, op.now);
    FilledIsLinked(H, l, op.e, op.now);
    AppendStores(H, l, op);
    RowsExtend(H, es, full);
    if Regresses(es) {
      RegressesStays(es, full);
    } else {
      ExtendsOrRegresses(H, es, full, op.now);
    }
  }

  /** A failed append stores nothing, though it may burn a seq. */
  lemma FailureKeepsWritten(H: Hash, l: Ledger, op: Op)
    requires Written(H, l) && op.Append? && Outcome(l, op.e, op.fault).Some?
    ensures Written(H, Apply(H, l, op))
  {
    assert Events(Apply(H, l, op)) == Events(l);
  }

  lemma OpenKeepsWritten(H: Hash, l: Ledger, op: Op)
    requires Written(H, l) && !op.Append?
    ensures Written(H, Apply(H, l, op))
  {
    var l' := Apply(H, l, op);
    assert l'.rows == l.rows && l'.nextSeq == l.nextSeq;
    if Consistent(H, l) {
      StepKeepsConsistent(H, l, op);
    }
  }

  lemma StepKeepsWritten(H: Hash, l: Ledger, op: Op)
    requires Written(H, l)
    ensures Written(H, Apply(H, l, op))
  {
    if !op.Append? {
      OpenKeepsWritten(H, l, op);
    } else if Outcome(l, op.e, op.fault).None? {
      AppendKeepsWritten(H, l, op);
    } else {
      FailureKeepsWritten(H, l, op);
    }
  }

  lemma {:induction false} EveryRunIsWritten(H: Hash, ops: seq<Op>)
    ensures Written(H, Run(H, ops))
    decreases |ops|
  {
    if |ops| > 0 {
      EveryRunIsWritten(H, ops[..|ops| - 1]);
      StepKeepsWritten(H, Run(H, ops[..|ops| - 1]), ops[|ops| - 1]);
    }
  }

  lemma MembersDiffer(es: seq<Event>, x: Event, y: Event)
    requires SeqIncreasing(es) && x in es && y in es && x != y && Stored(x) && Stored(y)
    ensures Canonical(x) != Canonical(y)
  {
    var i :| 0 <= i < |es| && es[i] == x;
    var j :| 0 <= j < |es| && es[j] == y;
    CanonicalEqualIff(x, y);
  }

  /** The row that links to a later one has no fitting place in time order. */
  lemma RegressedCollides(H: Hash, es: seq<Event>, i: nat)
    requires Hashed(H, es) && SeqIncreasing(es) && (forall e :: e in es ==> Stored(e))
    requires Regressed(es, i) && Chain(H, ByTime(es))
    ensures Collision(H, es, es)
  {
    ByTimeSorts(es);
    var sorted, later := ByTime(es), es[i - 1];
    assert es[i] in sorted && later in es;
    var j :| 0 <= j < |sorted| && sorted[j] == es[i];
    assert Linked(H, sorted, j);
    if j == 0 {
      assert later in es + es;
    } else {
      var p := sorted[j - 1];
      assert Before(p, es[i]) && p in sorted;
      assert Linked(H, sorted, j - 1);
      MembersDiffer(es, p, later);
    }
  }

  /** Verify is documented to walk in seq order but reads ORDER BY ts, seq. Whatever a run consists of, restarts after
      the clock ran back included, it accepts exactly when no stored row is earlier than the one stored before it,
      unless the rows exhibit a collision. */
  lemma VerifyAcceptsIffChronological(H: Hash, ops: seq<Op>)
    requires forall e :: e in Events(Run(H, ops)) ==> Stored(e)
    ensures var es := Events(Run(H, ops));
            && (Chronological(es) ==> Chain(H, ByTime(es)))
            && (Chain(H, ByTime(es)) ==> Chronological(es) || Collision(H, es, es))
  {
    var es := Events(Run(H, ops));
    EveryRunIsWritten(H, ops);
    if Chronological(es) {
      assert !Regresses(es) by {
        if Regresses(es) {
          RegressesIsNotChronological(es);
        }
      }
      ByTimeOfChronological(es);
    } else if Chain(H, ByTime(es)) {
      var i: nat :| Regressed(es, i);
      RegressedCollides(H, es, i);
    }
  }

  lemma RunThree(H: Hash, a: Op, b: Op, c: Op)
    ensures Run(H, [a, b, c]) == Apply(H, Apply(H, Apply(H, EMPTY, a), b), c)
  {
    assert [a, b, c][..2] == [a, b] && [a, b][..1] == [a] && [a][..0] == [];
    assert Run(H, []) == EMPTY && Run(H, [a]) == Apply(H, EMPTY, a);
    assert Run(H, [a, b]) == Apply(H, Run(H, [a]), b);
  }

  lemma TwoStored(H: Hash, l: Ledger, e: Event, now: int, earlier: int)
    requires Validate(e).None? && l.ready && l.rows == []
    ensures var l' := Apply(H, Apply(H, l, Append(e, now, NoFault)), Append(e, earlier, NoFault));
            var es := Events(l');
            && |es| == 2 && es[0].ts == TruncMicro(now) && es[1].ts == TruncMicro(earlier)
            && es[0].seqNo == l.nextSeq && es[1].seqNo == l.nextSeq + 1
            && es[0].prevHash == l.prevHash && es[1].prevHash == es[0].hash == H(Canonical(es[0]))
  {
    var next := Apply(H, l, Append(e, now, NoFault));
    FilledIsLinked(H, l, e, now);
    FilledIsLinked(H, next, e, earlier);
    AppendStores(H, l, Append(e, now, NoFault));
    AppendStores(H, next, Append(e, earlier, NoFault));
    assert Events(next) == [Filled(H, l, e, now)];
  }

  /** Two appends, the clock running back in between, are rejected, short of a collision. */
  lemma ClockBackIsRejected(H: Hash, e: Event, now: int, earlier: int)
    requires (forall b :: |H(b)| == 32) && Validate(e).None?
    requires TruncMicro(earlier) < TruncMicro(now) && Int64(TruncMicro(earlier)) && Int64(TruncMicro(now))
    ensures var es := Events(Run(H, [Boot(true), Append(e, now, NoFault), Append(e, earlier, NoFault)]));
            |es| == 2 && !Chronological(es) && (Chain(H, ByTime(es)) ==> Collision(H, es, es))
  {
    RunThree(H, Boot(true), Append(e, now, NoFault), Append(e, earlier, NoFault));
    TwoStored(H, Apply(H, EMPTY, Boot(true)), e, now, earlier);
    var es := Events(Run(H, [Boot(true), Append(e, now, NoFault), Append(e, earlier, NoFault)]));
    assert es == [es[0], es[1]] && Stored(es[0]) && Stored(es[1]);
    VerifyAcceptsIffChronological(H, [Boot(true), Append(e, now, NoFault), Append(e, earlier, NoFault)]);
    assert !Before(es[0], es[1]);
  }

  /** The same for any chain appended in seq order, however it came about. */
  lemma ChainAcceptedIffChronological(H: Hash, es: seq<Event>)
    requires Chain(H, es) && SeqIncreasing(es) && (forall e :: e in es ==> Stored(e))
    ensures Chronological(es) ==> Chain(H, ByTime(es))
    ensures Chain(H, ByTime(es)) ==> Chronological(es) || Collision(H, es, es)
  {
    if Chronological(es) {
      ByTimeOfChronological(es);
    } else if Chain(H, ByTime(es)) {
      ByTimeSorts(es);
      var sorted := ByTime(es);
      var i := FirstDifference(sorted, es);
      assert sorted[i] in es;
      var j :| 0 <= j < |es| && es[j] == sorted[i];
      ComesFromLater(sorted, es, i, j);
      assert i > 0 ==> sorted[..i][i - 1] == es[..i][i - 1];
      assert Linked(H, sorted, i) && Linked(H, es, j);
      MisplacedRowCollides(H, es, i, j);
    }
  }

  lemma FirstDifference(xs: seq<Event>, ys: seq<Event>) returns (i: nat)
    requires |xs| == |ys| && xs != ys
    ensures i < |xs| && xs[..i] == ys[..i] && xs[i] != ys[i]
  {
    i := 0;
    while xs[i] == ys[i]
      invariant i < |xs| && xs[..i] == ys[..i]
      decreases |xs| - i
    {
      assert xs[..i + 1] == ys[..i + 1];
      assert i + 1 < |xs|;
      i := i + 1;
    }
  }

  lemma ComesFromLater(sorted: seq<Event>, es: seq<Event>, i: nat, j: nat)
    requires Chronological(sorted) && i < |sorted| && i < |es| && j < |es|
    requires sorted[..i] == es[..i] && sorted[i] != es[i] && es[j] == sorted[i]
    ensures i < j
  {
    if j < i {
      assert false;
    }
  }

  /** A row accepted in an earlier place follows two different predecessors with one hash. */
  lemma MisplacedRowCollides(H: Hash, es: seq<Event>, i: nat, j: nat)
    requires Chain(H, es) && SeqIncreasing(es) && (forall e :: e in es ==> Stored(e))
    requires i < j < |es| && es[j].prevHash == Expected(es, i)
    ensures Collision(H, es, es)
  {
    assert Linked(H, es, j) && Linked(H, es, j - 1);
    assert es[j - 1] in es;
    if i == 0 {
      assert es[j - 1] in es + es;
    } else {
      assert Linked(H, es, i - 1) && es[i - 1] in es;
      CanonicalEqualIff(es[i - 1], es[j - 1]);
      assert es[i - 1].seqNo < es[j - 1].seqNo;
    }
  }
}
