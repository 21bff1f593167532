/** The audit table, its verifier and what the chain protects: internal/audit/writer.go.

    `rows` keeps the table in insertion order; the queries see it ordered by (ts, seq). */
module AuditChain {
  import opened Wrappers
  import opened AuditEvent

  // ---------------------------------------------------------------- the table

  /** A stored row: empty resource fields are NULL. */
  datatype Row = Row(e: Event, resourceType: Option<Bytes>, resourceId: Option<Bytes>)

  function NullableText(s: Bytes): Option<Bytes> {
    if s == [] then None else Some(s)
  }

  function Store(e: Event): Row {
    Row(e.(resourceType := [], resourceId := []), NullableText(e.resourceType), NullableText(e.resourceId))
  }

  function Scan(r: Row): Event {
    r.e.(resourceType := if r.resourceType.Some? then r.resourceType.value else [],
         resourceId := if r.resourceId.Some? then r.resourceId.value else [])
  }

  function ScanAll(rows: seq<Row>): (es: seq<Event>)
    ensures |es| == |rows| && forall i :: 0 <= i < |rows| ==> es[i] == Scan(rows[i])
  {
    if rows == [] then [] else ScanAll(rows[..|rows| - 1]) + [Scan(rows[|rows| - 1])]
  }

  predicate Before(a: Event, b: Event) {
    a.ts < b.ts || (a.ts == b.ts && a.seqNo < b.seqNo)
  }

  function Place(es: seq<Event>, e: Event): seq<Event> {
    if es == [] then [e]
    else if Before(e, es[|es| - 1]) then Place(es[..|es| - 1], e) + [es[|es| - 1]]
    else es + [e]
  }

  /** ORDER BY ts, seq */
  function ByTime(es: seq<Event>): seq<Event> {
    if es == [] then [] else Place(ByTime(es[..|es| - 1]), es[|es| - 1])
  }

  /** Rows in table order are already in (ts, seq) order. */
  predicate Chronological(es: seq<Event>) {
    forall i, j :: 0 <= i < j < |es| ==> Before(es[i], es[j])
  }

  predicate SeqIncreasing(es: seq<Event>) {
    forall i, j :: 0 <= i < j < |es| ==> es[i].seqNo < es[j].seqNo
  }

  lemma {:induction false} PlaceKeeps(es: seq<Event>, e: Event)
    requires Chronological(es) && forall x :: x in es ==> x.seqNo != e.seqNo
    ensures Chronological(Place(es, e)) && |Place(es, e)| == |es| + 1
    ensures forall x :: x in Place(es, e) <==> x in es || x == e
  {
    if es != [] {
      var init, last := es[..|es| - 1], es[|es| - 1];
      assert es == init + [last];
      if Before(e, last) {
        PlaceKeeps(init, e);
        forall x | x in Place(init, e) ensures Before(x, last) {
          if x != e {
            var i :| 0 <= i < |init| && init[i] == x;
          }
        }
      } else {
        forall i | 0 <= i < |es| ensures Before(es[i], e) {
          assert es[i] in es;
          assert i < |es| - 1 ==> Before(es[i], es[|es| - 1]);
        }
      }
    }
  }

  /** The sorted view has the same rows, in strictly increasing (ts, seq) order. */
  lemma {:induction false} ByTimeSorts(es: seq<Event>)
    requires SeqIncreasing(es)
    ensures Chronological(ByTime(es)) && |ByTime(es)| == |es|
    ensures forall x :: x in ByTime(es) <==> x in es
  {
    if es != [] {
      var init, last := es[..|es| - 1], es[|es| - 1];
      assert es == init + [last];
      ByTimeSorts(init);
      forall x | x in init ensures x.seqNo != last.seqNo {
        var i :| 0 <= i < |init| && init[i] == x;
        assert es[i].seqNo < es[|es| - 1].seqNo;
      }
      PlaceKeeps(ByTime(init), last);
    }
  }

  lemma {:induction false} ByTimeOfChronological(es: seq<Event>)
    requires Chronological(es)
    ensures ByTime(es) == es
  {
    if es != [] {
      var init, last := es[..|es| - 1], es[|es| - 1];
      assert es == init + [last];
      ByTimeOfChronological(init);
      if init != [] {
        assert Before(es[|es| - 2], es[|es| - 1]);
      }
    }
  }

  // ---------------------------------------------------------------- the chain

  function Expected(es: seq<Event>, i: nat): Bytes
    requires i <= |es|
  {
    if i == 0 then GENESIS else es[i - 1].hash
  }

  predicate Linked(H: Hash, es: seq<Event>, i: nat)
    requires i < |es|
  {
    es[i].prevHash == Expected(es, i) && es[i].hash == H(Canonical(es[i]))
  }

  predicate Chain(H: Hash, es: seq<Event>) {
    forall i :: 0 <= i < |es| ==> Linked(H, es, i)
  }

  function Head(es: seq<Event>): Bytes {
    Expected(es, |es|)
  }

  datatype BreakKind = PrevHashMismatch | HashMismatch

  datatype Break = Break(seqNo: int, kind: BreakKind)

  method EqualBytes(a: Bytes, b: Bytes) returns (same: bool)
    ensures same <==> a == b
  {
    if |a| != |b| {
      return false;
    }
    for i := 0 to |a|
      invariant a[..i] == b[..i]
    {
      if a[i] != b[i] {
        return false;
      }
      assert a[..i + 1] == a[..i] + [a[i]] && b[..i + 1] == b[..i] + [b[i]];
    }
    assert a == a[..|a|] && b == b[..|a|];
    return true;
  }

  ghost predicate FirstBreak(H: Hash, es: seq<Event>, i: nat, b: Break) {
    && i < |es| && !Linked(H, es, i) && (forall j :: 0 <= j < i ==> Linked(H, es, j))
    && b.seqNo == es[i].seqNo
    && (b.kind.PrevHashMismatch? <==> es[i].prevHash != Expected(es, i))
  }

  /** The walk accepts exactly the chains, and otherwise names the first row that is not linked,
      with the check that row fails first. */
  method Walk(H: Hash, es: seq<Event>) returns (r: Option<Break>, ghost at: nat)
    ensures r.None? ==> Chain(H, es)
    ensures r.Some? ==> FirstBreak(H, es, at, r.value)
  {
    var expectedPrev := GENESIS;
    for i := 0 to |es|
      invariant expectedPrev == Expected(es, i)
      invariant forall j :: 0 <= j < i ==> Linked(H, es, j)
    {
      var e := es[i];
      var same := EqualBytes(e.prevHash, expectedPrev);
      if !same {
        return Some(Break(e.seqNo, PrevHashMismatch)), i;
      }
      var h := ComputeHash(H, e);
      same := EqualBytes(e.hash, h);
      if !same {
        return Some(Break(e.seqNo, HashMismatch)), i;
      }
      expectedPrev := e.hash;
    }
    return None, 0;
  }

  method Verify(H: Hash, rows: seq<Row>) returns (r: Option<Break>)
    ensures r.None? <==> Chain(H, ByTime(ScanAll(rows)))
    ensures r.Some? ==> exists i :: FirstBreak(H, ByTime(ScanAll(rows)), i, r.value)
  {
    ghost var at;
    r, at := Walk(H, ByTime(ScanAll(rows)));
  }

  // ---------------------------------------------------------------- the head pins the past

  /** Two of these rows show that H is not collision resistant, or hits the genesis value. */
  ghost predicate Collision(H: Hash, xs: seq<Event>, ys: seq<Event>) {
    || (exists x, y :: x in xs && y in ys && Canonical(x) != Canonical(y) && H(Canonical(x)) == H(Canonical(y)))
    || (exists x :: x in xs + ys && H(Canonical(x)) == GENESIS)
  }

  ghost predicate SameBytes(xs: seq<Event>, ys: seq<Event>) {
    |xs| == |ys| && forall i :: 0 <= i < |xs| ==> Canonical(xs[i]) == Canonical(ys[i])
  }

  lemma CollisionGrows(H: Hash, xs: seq<Event>, ys: seq<Event>, us: seq<Event>, vs: seq<Event>)
    requires Collision(H, xs, ys)
    requires (forall x :: x in xs ==> x in us) && (forall y :: y in ys ==> y in vs)
    ensures Collision(H, us, vs)
  {
    if exists x, y :: x in xs && y in ys && Canonical(x) != Canonical(y) && H(Canonical(x)) == H(Canonical(y)) {
      var x, y :| x in xs && y in ys && Canonical(x) != Canonical(y) && H(Canonical(x)) == H(Canonical(y));
      assert x in us && y in vs;
    } else {
      var x :| x in xs + ys && H(Canonical(x)) == GENESIS;
      assert x in us + vs;
    }
  }

  /** A chain's prefix is a chain whose head is the next row's prev_hash; every link is 32 bytes. */
  lemma PrefixIsChain(H: Hash, es: seq<Event>)
    requires (forall b :: |H(b)| == 32) && Chain(H, es) && es != []
    ensures Chain(H, es[..|es| - 1]) && Head(es[..|es| - 1]) == es[|es| - 1].prevHash
    ensures |es[|es| - 1].prevHash| == 32
  {
    var init := es[..|es| - 1];
    assert Linked(H, es, |es| - 1);
    forall i | 0 <= i < |init| ensures Linked(H, init, i) {
      assert Linked(H, es, i);
    }
    if |es| >= 2 {
      assert Linked(H, es, |es| - 2);
    }
  }

  lemma PrevHashIsBound(x: Event, y: Event)
    requires |x.prevHash| == 32 && |y.prevHash| == 32 && Canonical(x) == Canonical(y)
    ensures x.prevHash == y.prevHash
  {
    SplitConcatTail(Uint64(x.seqNo) + Uint64(x.ts) + x.tenant + Middle(x), x.prevHash,
                    Uint64(y.seqNo) + Uint64(y.ts) + y.tenant + Middle(y), y.prevHash);
  }

  /** A ledger with rows whose head is the genesis value exhibits a preimage of it. */
  lemma GenesisHead(H: Hash, xs: seq<Event>, ys: seq<Event>)
    requires Chain(H, xs) && Chain(H, ys) && Head(xs) == Head(ys) && (xs == [] || ys == [])
    ensures SameBytes(xs, ys) || Collision(H, xs, ys)
  {
    if xs != [] {
      assert Linked(H, xs, |xs| - 1);
      assert xs[|xs| - 1] in xs + ys;
    } else if ys != [] {
      assert Linked(H, ys, |ys| - 1);
      assert ys[|ys| - 1] in xs + ys;
    }
  }

  /** Two ledgers that verify and end in the same hash hash the same bytes row by row, back to the genesis,
      unless they exhibit a collision. Any edit, deletion, insertion or reordering that keeps the head does. */
  lemma {:induction false} HeadPinsHistory(H: Hash, xs: seq<Event>, ys: seq<Event>)
    requires (forall b :: |H(b)| == 32) && Chain(H, xs) && Chain(H, ys) && Head(xs) == Head(ys)
    ensures SameBytes(xs, ys) || Collision(H, xs, ys)
    decreases |xs| + |ys|
  {
    if xs == [] || ys == [] {
      GenesisHead(H, xs, ys);
    } else {
      var x, y := xs[|xs| - 1], ys[|ys| - 1];
      var xs', ys' := xs[..|xs| - 1], ys[..|ys| - 1];
      assert x in xs && y in ys;
      if Canonical(x) == Canonical(y) {
        PrefixIsChain(H, xs);
        PrefixIsChain(H, ys);
        PrevHashIsBound(x, y);
        HeadPinsHistory(H, xs', ys');
        if Collision(H, xs', ys') {
          CollisionGrows(H, xs', ys', xs, ys);
        } else {
          SameBytesExtend(xs, ys);
        }
      } else {
        assert Linked(H, xs, |xs| - 1) && Linked(H, ys, |ys| - 1);
        assert H(Canonical(x)) == H(Canonical(y));
      }
    }
  }

  lemma SameBytesExtend(xs: seq<Event>, ys: seq<Event>)
    requires xs != [] && ys != [] && SameBytes(xs[..|xs| - 1], ys[..|ys| - 1])
    requires Canonical(xs[|xs| - 1]) == Canonical(ys[|ys| - 1])
    ensures SameBytes(xs, ys)
  {
    forall i | 0 <= i < |xs| ensures Canonical(xs[i]) == Canonical(ys[i]) {
      if i < |xs| - 1 {
        assert xs[..|xs| - 1][i] == xs[i] && ys[..|ys| - 1][i] == ys[i];
      }
    }
  }

  lemma LinksAreWide(H: Hash, es: seq<Event>, i: nat)
    requires (forall b :: |H(b)| == 32) && Chain(H, es) && i < |es|
    ensures |es[i].prevHash| == 32
  {
    assert Linked(H, es, i);
    if i > 0 {
      assert Linked(H, es, i - 1);
    }
  }

  /** In particular seq, timestamp, tenant and previous hash of every row are pinned. */
  lemma HeadPinsFixedFields(H: Hash, xs: seq<Event>, ys: seq<Event>)
    requires (forall b :: |H(b)| == 32) && Chain(H, xs) && Chain(H, ys) && Head(xs) == Head(ys)
    requires forall e :: e in xs + ys ==> Int64(e.seqNo) && Int64(e.ts)
    ensures || Collision(H, xs, ys)
            || (|xs| == |ys| && forall i :: 0 <= i < |xs| ==>
                  xs[i].seqNo == ys[i].seqNo && xs[i].ts == ys[i].ts && xs[i].tenant == ys[i].tenant
                  && xs[i].prevHash == ys[i].prevHash && xs[i].hash == ys[i].hash && Middle(xs[i]) == Middle(ys[i]))
  {
    HeadPinsHistory(H, xs, ys);
    if SameBytes(xs, ys) {
      forall i | 0 <= i < |xs|
        ensures xs[i].seqNo == ys[i].seqNo && xs[i].ts == ys[i].ts && xs[i].tenant == ys[i].tenant
        ensures xs[i].prevHash == ys[i].prevHash && xs[i].hash == ys[i].hash && Middle(xs[i]) == Middle(ys[i])
      {
        LinksAreWide(H, xs, i);
        LinksAreWide(H, ys, i);
        assert xs[i] in xs + ys && ys[i] in xs + ys;
        CanonicalEqualIff(xs[i], ys[i]);
        assert Linked(H, xs, i) && Linked(H, ys, i);
      }
    }
  }
}
