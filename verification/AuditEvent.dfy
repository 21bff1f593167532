/** Audit rows and the bytes their hash covers: internal/audit/event.go.

    SHA-256 is a parameter `H`. Nothing is assumed about it beyond its 32-byte output: results that need
    collision resistance end in "or these rows exhibit a collision". */
module AuditEvent {
  import opened Wrappers

  type Byte = b: int | 0 <= b < 256

  type Bytes = seq<Byte>

  function Zeros(n: nat): (s: Bytes)
    ensures |s| == n && forall i :: 0 <= i < n ==> s[i] == 0
  {
    if n == 0 then [] else Zeros(n - 1) + [0]
  }

  type Uuid = u: Bytes | |u| == 16 witness Zeros(16)

  type Hash = Bytes -> Bytes

  const TWO_64 := 0x1_0000_0000_0000_0000

  const NIL_UUID: Uuid := Zeros(16)

  const GENESIS: Bytes := Zeros(32)

  /** Times are nanoseconds since the epoch, strings are their UTF-8 bytes. */
  datatype Event = Event(seqNo: int, ts: int, tenant: Uuid, actorType: Bytes, actorId: Option<Uuid>, action: Bytes,
                         resourceType: Bytes, resourceId: Bytes, correlation: Uuid, payload: Bytes,
                         prevHash: Bytes, hash: Bytes)

  datatype Error = TenantRequired | InvalidActorType | ActionRequired | CorrelationRequired | NotBootstrapped | Database

  const AGENT: Bytes := [97, 103, 101, 110, 116]
  const SYSTEM: Bytes := [115, 121, 115, 116, 101, 109]
  const CUSTOMER: Bytes := [99, 117, 115, 116, 111, 109, 101, 114]
  const CONNECTOR: Bytes := [99, 111, 110, 110, 101, 99, 116, 111, 114]

  function Validate(e: Event): Option<Error> {
    if e.tenant == NIL_UUID then Some(TenantRequired)
    else if e.actorType !in [AGENT, SYSTEM, CUSTOMER, CONNECTOR] then Some(InvalidActorType)
    else if e.action == [] then Some(ActionRequired)
    else if e.correlation == NIL_UUID then Some(CorrelationRequired)
    else None
  }

  /** The text some bytes spell. */
  function Text(b: Bytes): string {
    seq(|b|, i requires 0 <= i < |b| => b[i] as char)
  }

  predicate IsNil(u: Uuid) {
    forall i :: 0 <= i < 16 ==> u[i] == 0
  }

  lemma TextTells(a: Bytes, b: Bytes)
    ensures Text(a) == Text(b) <==> a == b
  {
    if Text(a) == Text(b) {
      assert |a| == |Text(a)| == |b|;
      forall i | 0 <= i < |a| ensures a[i] == b[i] {
        assert Text(a)[i] == a[i] as char && Text(b)[i] == b[i] as char;
      }
    }
  }

  /** What a producer has to fill in, and which omission is reported first. */
  lemma ValidIff(e: Event)
    ensures var actor := Text(e.actorType) in {"agent", "system", "customer", "connector"};
            && (Validate(e).None? <==> !IsNil(e.tenant) && actor && |e.action| > 0 && !IsNil(e.correlation))
            && (Validate(e) == Some(TenantRequired) <==> IsNil(e.tenant))
            && (Validate(e) == Some(InvalidActorType) <==> !IsNil(e.tenant) && !actor)
            && (Validate(e) == Some(ActionRequired) <==> !IsNil(e.tenant) && actor && |e.action| == 0)
  {
    TextTells(e.actorType, AGENT);
    TextTells(e.actorType, SYSTEM);
    TextTells(e.actorType, CUSTOMER);
    TextTells(e.actorType, CONNECTOR);
    assert Text(AGENT) == "agent" && Text(SYSTEM) == "system";
    assert Text(CUSTOMER) == "customer" && Text(CONNECTOR) == "connector";
    assert IsNil(e.tenant) <==> e.tenant == NIL_UUID;
    assert IsNil(e.correlation) <==> e.correlation == NIL_UUID;
  }

  // ---------------------------------------------------------------- canonical bytes

  /** The low k bytes of n, most significant first. */
  function BigEndian(n: nat, k: nat): (s: Bytes)
    ensures |s| == k
  {
    if k == 0 then [] else BigEndian(n / 256, k - 1) + [n % 256]
  }

  /** PutUint64(uint64(x)): conversion wraps. */
  function Uint64(x: int): Bytes {
    BigEndian(x % TWO_64, 8)
  }

  /** The variable-width middle of the hashed bytes, written without separators. */
  function Middle(e: Event): Bytes {
    e.actorType + (if e.actorId.Some? then e.actorId.value else []) + e.action + e.resourceType + e.resourceId
    + e.correlation + e.payload
  }

  function Canonical(e: Event): Bytes {
    Uint64(e.seqNo) + Uint64(e.ts) + e.tenant + Middle(e) + e.prevHash
  }

  /** The hasher is fed field by field. */
  method ComputeHash(H: Hash, e: Event) returns (h: Bytes)
    ensures h == H(Canonical(e))
  {
    var fed: Bytes := Uint64(e.seqNo);
    fed := fed + Uint64(e.ts);
    fed := fed + e.tenant;
    ghost var head := fed;
    ghost var middle: Bytes := e.actorType;
    fed := fed + e.actorType;
    if e.actorId.Some? {
      fed := fed + e.actorId.value;
      middle := middle + e.actorId.value;
    }
    assert fed == head + middle;
    fed := fed + e.action;
    fed := fed + e.resourceType;
    fed := fed + e.resourceId;
    fed := fed + e.correlation;
    middle := middle + e.action + e.resourceType + e.resourceId + e.correlation;
    assert fed == head + middle;
    if |e.payload| > 0 {
      fed := fed + e.payload;
    }
    middle := middle + e.payload;
    assert fed == head + middle;
    assert middle == Middle(e);
    fed := fed + e.prevHash;
    h := H(fed);
  }

  /** The number some bytes write, most significant first. */
  function Number(b: Bytes): nat {
    if |b| == 0 then 0 else 256 * Number(b[..|b| - 1]) + b[|b| - 1]
  }

  lemma {:induction false} BigEndianWrites(n: nat, k: nat)
    ensures Number(BigEndian(n, k)) == n % Pow256(k)
    decreases k
  {
    if k > 0 {
      var rest := BigEndian(n / 256, k - 1);
      assert BigEndian(n, k)[..k - 1] == rest;
      BigEndianWrites(n / 256, k - 1);
      DigitShift(n, Pow256(k - 1));
    }
  }

  lemma AtLeastOne(d: int, m: int)
    requires m >= 0
    ensures d >= 1 ==> d * m >= m
    ensures d <= -1 ==> d * m <= -m
  {
  }

  lemma RemainderIsUnique(m: nat, c: int, low: int, q: int, r: int)
    requires c * m + low == q * m + r && 0 <= low < m && 0 <= r < m
    ensures low == r
  {
    assert (c - q) * m == r - low;
    AtLeastOne(c - q, m);
  }

  lemma DigitShift(n: nat, p: nat)
    requires p > 0
    ensures 256 * (n / 256 % p) + n % 256 == n % (256 * p)
  {
    var q, d, m := n / 256, n % 256, 256 * p;
    var c := q / p;
    assert q == c * p + q % p;
    assert 256 * (c * p) == c * m;
    RemainderIsUnique(m, c, 256 * (q % p) + d, n / m, n % m);
  }

  lemma Slices(a: Bytes, b: Bytes, t: Bytes, m: Bytes, p: Bytes)
    requires |a| == |b| == 8 && |t| == 16 && |p| == 32
    ensures var c := a + b + t + m + p;
            && |c| >= 64 && c[..8] == a && c[8..16] == b && c[16..32] == t && c[32..|c| - 32] == m
            && c[|c| - 32..] == p
  {
  }

  lemma Uint64Writes(x: int)
    ensures Number(Uint64(x)) == x % 0x1_0000_0000_0000_0000
  {
    assert Pow256(8) == 0x1_0000_0000_0000_0000;
    BigEndianWrites(x % TWO_64, 8);
  }

  /** What is hashed, byte for byte: sequence number and time in eight bytes each, the tenant in sixteen, the texts, ids
      and payload one after the other, and the previous hash. */
  lemma CanonicalLayout(e: Event)
    requires Stored(e)
    ensures var c := Canonical(e);
            && |c| >= 64
            && Number(c[..8]) == e.seqNo % 0x1_0000_0000_0000_0000 && Number(c[8..16]) == e.ts % 0x1_0000_0000_0000_0000
            && c[16..32] == e.tenant && c[|c| - 32..] == e.prevHash
            && c[32..|c| - 32] == e.actorType + (match e.actorId case None => [] case Some(id) => id) + e.action
                                  + e.resourceType + e.resourceId + e.correlation + e.payload
  {
    Uint64Writes(e.seqNo);
    Uint64Writes(e.ts);
    Slices(Uint64(e.seqNo), Uint64(e.ts), e.tenant, Middle(e), e.prevHash);
  }

  predicate Int64(x: int) {
    -0x8000_0000_0000_0000 <= x < 0x8000_0000_0000_0000
  }

  function Pow256(k: nat): (p: nat)
    ensures p > 0
  {
    if k == 0 then 1 else 256 * Pow256(k - 1)
  }

  lemma {:induction false} BigEndianInjective(m: nat, n: nat, k: nat)
    requires m < Pow256(k) && n < Pow256(k) && BigEndian(m, k) == BigEndian(n, k)
    ensures m == n
  {
    if k > 0 {
      var x, y := BigEndian(m / 256, k - 1), BigEndian(n / 256, k - 1);
      assert (x + [m % 256])[..k - 1] == x && (y + [n % 256])[..k - 1] == y;
      assert (x + [m % 256])[k - 1] == m % 256 && (y + [n % 256])[k - 1] == n % 256;
      BigEndianInjective(m / 256, n / 256, k - 1);
    }
  }

  lemma Uint64Injective(x: int, y: int)
    requires Int64(x) && Int64(y) && Uint64(x) == Uint64(y)
    ensures x == y
  {
    assert Pow256(8) == TWO_64;
    BigEndianInjective(x % TWO_64, y % TWO_64, 8);
  }

  lemma SplitConcat(a: Bytes, b: Bytes, c: Bytes, d: Bytes)
    requires |a| == |c| && a + b == c + d
    ensures a == c && b == d
  {
    assert a == (a + b)[..|a|] && c == (c + d)[..|c|];
    assert b == (a + b)[|a|..] && d == (c + d)[|c|..];
  }

  lemma SplitConcatTail(a: Bytes, b: Bytes, c: Bytes, d: Bytes)
    requires |b| == |d| && a + b == c + d
    ensures a == c && b == d
  {
    assert |a| == |c|;
    SplitConcat(a, b, c, d);
  }

  predicate Stored(e: Event) {
    Int64(e.seqNo) && Int64(e.ts) && |e.prevHash| == 32
  }

  /** The fixed-width head and tail can be read back; of the middle only the concatenation is bound. */
  lemma CanonicalEqualIff(x: Event, y: Event)
    requires Stored(x) && Stored(y)
    ensures Canonical(x) == Canonical(y) <==>
            x.seqNo == y.seqNo && x.ts == y.ts && x.tenant == y.tenant && Middle(x) == Middle(y)
            && x.prevHash == y.prevHash
  {
    if Canonical(x) == Canonical(y) {
      SplitConcatTail(Uint64(x.seqNo) + Uint64(x.ts) + x.tenant + Middle(x), x.prevHash,
                      Uint64(y.seqNo) + Uint64(y.ts) + y.tenant + Middle(y), y.prevHash);
      SplitConcat(Uint64(x.seqNo) + Uint64(x.ts) + x.tenant, Middle(x),
                  Uint64(y.seqNo) + Uint64(y.ts) + y.tenant, Middle(y));
      SplitConcatTail(Uint64(x.seqNo) + Uint64(x.ts), x.tenant, Uint64(y.seqNo) + Uint64(y.ts), y.tenant);
      SplitConcat(Uint64(x.seqNo), Uint64(x.ts), Uint64(y.seqNo), Uint64(y.ts));
      Uint64Injective(x.seqNo, y.seqNo);
      Uint64Injective(x.ts, y.ts);
    }
  }

  predicate SameShape(x: Event, y: Event) {
    && |x.actorType| == |y.actorType| && (x.actorId.Some? <==> y.actorId.Some?) && |x.action| == |y.action|
    && |x.resourceType| == |y.resourceType| && |x.resourceId| == |y.resourceId|
  }

  function Payload(x: Event): (Uuid, Uuid, Option<Uuid>, Bytes, Bytes, Bytes, Bytes, Bytes) {
    (x.tenant, x.correlation, x.actorId, x.actorType, x.action, x.resourceType, x.resourceId, x.payload)
  }

  /** Among rows whose text fields have the same widths, equal bytes mean equal rows, field by field. */
  lemma SameShapeIsBound(x: Event, y: Event)
    requires Stored(x) && Stored(y) && SameShape(x, y)
    ensures Canonical(x) == Canonical(y) <==>
            x.seqNo == y.seqNo && x.ts == y.ts && Payload(x) == Payload(y) && x.prevHash == y.prevHash
  {
    CanonicalEqualIff(x, y);
    if Canonical(x) == Canonical(y) {
      var ax := if x.actorId.Some? then x.actorId.value else [];
      var ay := if y.actorId.Some? then y.actorId.value else [];
      SplitConcat(x.actorType + ax + x.action + x.resourceType + x.resourceId + x.correlation, x.payload,
                  y.actorType + ay + y.action + y.resourceType + y.resourceId + y.correlation, y.payload);
      SplitConcat(x.actorType + ax + x.action + x.resourceType + x.resourceId, x.correlation,
                  y.actorType + ay + y.action + y.resourceType + y.resourceId, y.correlation);
      SplitConcat(x.actorType + ax + x.action + x.resourceType, x.resourceId,
                  y.actorType + ay + y.action + y.resourceType, y.resourceId);
      SplitConcat(x.actorType + ax + x.action, x.resourceType, y.actorType + ay + y.action, y.resourceType);
      SplitConcat(x.actorType + ax, x.action, y.actorType + ay, y.action);
      SplitConcat(x.actorType, ax, y.actorType, ay);
    }
  }

  /** "Any change to any field changes this row's hash" does not hold: a byte can move from the action
      to the resource type next to it without changing what is hashed. */
  lemma MiddleIsAmbiguous(x: Event)
    requires |x.action| >= 2
    ensures var k := |x.action| - 1;
            var y := x.(action := x.action[..k], resourceType := [x.action[k]] + x.resourceType);
            y != x && Canonical(y) == Canonical(x) && (Validate(x).None? ==> Validate(y).None?)
  {
    var k := |x.action| - 1;
    var y := x.(action := x.action[..k], resourceType := [x.action[k]] + x.resourceType);
    var a := x.actorType + (if x.actorId.Some? then x.actorId.value else []);
    assert x.action == x.action[..k] + [x.action[k]];
    assert a + y.action + y.resourceType == a + x.action + x.resourceType;
  }
}
