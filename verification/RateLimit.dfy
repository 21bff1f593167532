/** The per-key token bucket of internal/pkg/ratelimit/ratelimit.go.

    Tokens are reals and clock readings are integer milliseconds (`UnixMilli`). The Lua script
    is one atomic step; Redis' key expiry is driven by the same clock as the calls. */
module RateLimit {
  import opened Wrappers

  datatype Bucket = Bucket(capacity: int, refillPerSec: real)

  /** The two hash fields the script keeps under one key. */
  datatype Entry = Entry(tokens: real, updated: int)

  /** Retry delay: Lua's division by a zero refill rate yields infinity. */
  datatype Wait = Millis(ms: int) | Unbounded

  datatype Reply = Reply(allowed: bool, wait: Wait)

  function Ceil(x: real): int {
    -((-x).Floor)
  }

  function Trunc(x: real): int {
    if x >= 0.0 then x.Floor else Ceil(x)
  }

  function Max(a: int, b: int): int {
    if a < b then b else a
  }

  function TtlMillis(b: Bucket): int {
    if b.refillPerSec <= 0.0 then 60_000
    else Trunc(2.0 * b.capacity as real / b.refillPerSec * 1000.0)
  }

  /** Tokens that flow into a bucket over a span of milliseconds. */
  function Flow(b: Bucket, ms: int): real {
    ms as real / 1000.0 * b.refillPerSec
  }

  function Refilled(b: Bucket, e: Entry, now: int): real {
    var grown := e.tokens + Flow(b, Max(0, now - e.updated));
    if grown < b.capacity as real then grown else b.capacity as real
  }

  /** One run of the script on the remembered fields (None: no such key). */
  function Step(b: Bucket, stored: Option<Entry>, now: int): (Reply, Entry) {
    var e := if stored.Some? then stored.value else Entry(b.capacity as real, now);
    var tokens := Refilled(b, e, now);
    if tokens >= 1.0 then (Reply(true, Millis(0)), Entry(tokens - 1.0, now))
    else
      var wait := if b.refillPerSec == 0.0 then Unbounded
                  else Millis(Ceil((1.0 - tokens) / b.refillPerSec * 1000.0));
      (Reply(false, wait), Entry(tokens, now))
  }

  /** What every entry the script can have written looks like. */
  predicate Legal(b: Bucket, stored: Option<Entry>) {
    stored.Some? ==> 0.0 <= stored.value.tokens <= b.capacity as real
  }

  /** What is left of a key when the clock reads `now`: PEXPIRE has dropped it once `ttl` passed. */
  function Visible(b: Bucket, stored: Option<Entry>, now: int): Option<Entry> {
    if stored.Some? && now >= stored.value.updated + TtlMillis(b) then None else stored
  }

  /** PEXPIRE with a lifetime that is not positive deletes the key at once. */
  function Kept(b: Bucket, e: Entry): Option<Entry> {
    if TtlMillis(b) <= 0 then None else Some(e)
  }

  /** The Redis keyspace and the client's Allow call. */
  class Limiter {
    const bucket: Bucket
    var keys: map<string, Entry>

    constructor (b: Bucket)
      ensures bucket == b && keys == map[]
    {
      bucket, keys := b, map[];
    }

    function Lookup(key: string): Option<Entry>
      reads this
    {
      if key in keys then Some(keys[key]) else None
    }

    /** Refill by the time passed and clamp to the capacity. */
    method Refill(tokensBefore: real, updated: int, now: int) returns (tokens: real)
      ensures tokens == Refilled(bucket, Entry(tokensBefore, updated), now)
    {
      var delta := now - updated;
      if delta < 0 {
        delta := 0;
      }
      assert delta == Max(0, now - updated);
      var flow := (delta as real / 1000.0) * bucket.refillPerSec;
      assert flow == Flow(bucket, Max(0, now - updated));
      tokens := tokensBefore + flow;
      if tokens >= bucket.capacity as real {
        tokens := bucket.capacity as real;
      }
    }

    /** Refill, then deduct a token or compute the wait. */
    method Script(stored: Option<Entry>, now: int) returns (reply: Reply, after: Entry)
      ensures (reply, after) == Step(bucket, stored, now)
    {
      var tokens, updated := bucket.capacity as real, now;
      if stored.Some? {
        tokens, updated := stored.value.tokens, stored.value.updated;
      }
      tokens := Refill(tokens, updated, now);
      reply := Reply(false, Unbounded);
      if tokens >= 1.0 {
        tokens := tokens - 1.0;
        reply := Reply(true, Millis(0));
      } else if bucket.refillPerSec != 0.0 {
        reply := Reply(false, Millis(Ceil((1.0 - tokens) / bucket.refillPerSec * 1000.0)));
      }
      after := Entry(tokens, now);
    }

    /** Expire, read, run the script, write back, re-arm the expiry. Other keys are untouched. */
    method Allow(key: string, now: int) returns (reply: Reply)
      modifies this
      ensures reply == Step(bucket, Visible(bucket, old(Lookup(key)), now), now).0
      ensures Lookup(key) == Kept(bucket, Step(bucket, Visible(bucket, old(Lookup(key)), now), now).1)
      ensures forall k :: k != key ==> Lookup(k) == old(Lookup(k))
    {
      var ttl := TtlMillis(bucket);
      if key in keys && now >= keys[key].updated + ttl {
        keys := keys - {key};
      }
      var after;
      reply, after := Script(Lookup(key), now);
      keys := keys[key := after];
      if ttl <= 0 {
        keys := keys - {key};
      }
    }
  }

  // ---------------------------------------------------------------- whole runs on one key

  /** Answers of a limiter that never forgets a key. */
  function Replies(b: Bucket, stored: Option<Entry>, calls: seq<int>): seq<Reply>
    decreases |calls|
  {
    if calls == [] then []
    else
      var (reply, e) := Step(b, stored, calls[0]);
      [reply] + Replies(b, Some(e), calls[1..])
  }

  /** Answers of the limiter as it is deployed, with key expiry. */
  function ExpiringReplies(b: Bucket, stored: Option<Entry>, calls: seq<int>): seq<Reply>
    decreases |calls|
  {
    if calls == [] then []
    else
      var (reply, e) := Step(b, Visible(b, stored, calls[0]), calls[0]);
      [reply] + ExpiringReplies(b, Kept(b, e), calls[1..])
  }

  function CountAllowed(replies: seq<Reply>): nat {
    if replies == [] then 0
    else (if replies[0].allowed then 1 else 0) + CountAllowed(replies[1..])
  }

  /** Milliseconds by which the readings move forward, starting from `from`. Backward jumps count zero. */
  function ForwardMillis(from: int, calls: seq<int>): nat
    decreases |calls|
  {
    if calls == [] then 0 else Max(0, calls[0] - from) + ForwardMillis(calls[0], calls[1..])
  }

  lemma StepKeepsTokensInRange(b: Bucket, stored: Option<Entry>, now: int)
    requires b.capacity >= 0 && b.refillPerSec >= 0.0 && Legal(b, stored)
    ensures Legal(b, Some(Step(b, stored, now).1))
  {
    var e := if stored.Some? then stored.value else Entry(b.capacity as real, now);
    MulNonNegative(Max(0, now - e.updated) as real / 1000.0, b.refillPerSec);
  }

  lemma MulNonNegative(x: real, y: real)
    requires x >= 0.0 && y >= 0.0
    ensures x * y >= 0.0
  {
  }

  /** One call: what it grants plus what is left never exceeds what was there plus what flowed in. */
  lemma StepPays(b: Bucket, e: Entry, now: int)
    ensures var (reply, e') := Step(b, Some(e), now);
            (if reply.allowed then 1.0 else 0.0) + e'.tokens
            <= e.tokens + Flow(b, Max(0, now - e.updated))
  {
  }

  lemma FlowAdds(b: Bucket, x: int, y: int)
    ensures Flow(b, x + y) == Flow(b, x) + Flow(b, y)
  {
    assert (x + y) as real == x as real + y as real;
  }

  lemma MulOrder(x: real, y: real, r: real)
    requires r > 0.0
    ensures x <= y <==> x * r <= y * r
  {
    if x <= y {
      MulNonNegative(y - x, r);
    } else {
      assert (x - y) * r > 0.0;
    }
  }

  lemma CountStep(reply: Reply, tail: seq<Reply>)
    ensures CountAllowed([reply] + tail) as real == (if reply.allowed then 1.0 else 0.0) + CountAllowed(tail) as real
  {
    assert ([reply] + tail)[1..] == tail;
  }

  lemma {:induction false} AllowedIsBoundedFrom(b: Bucket, e: Entry, calls: seq<int>)
    requires b.capacity >= 0 && b.refillPerSec >= 0.0 && Legal(b, Some(e))
    ensures CountAllowed(Replies(b, Some(e), calls)) as real
            <= e.tokens + Flow(b, ForwardMillis(e.updated, calls))
    decreases |calls|
  {
    if calls == [] {
      assert Flow(b, 0) == 0.0;
    } else {
      var now, rest := calls[0], calls[1..];
      var (reply, e') := Step(b, Some(e), now);
      StepKeepsTokensInRange(b, Some(e), now);
      AllowedIsBoundedFrom(b, e', rest);
      BoundOneMore(b, e, now, Replies(b, Some(e'), rest), ForwardMillis(now, rest));
    }
  }

  lemma BoundOneMore(b: Bucket, e: Entry, now: int, tail: seq<Reply>, more: nat)
    requires CountAllowed(tail) as real <= Step(b, Some(e), now).1.tokens + Flow(b, more)
    ensures CountAllowed([Step(b, Some(e), now).0] + tail) as real
            <= e.tokens + Flow(b, Max(0, now - e.updated) + more)
  {
    var (reply, e') := Step(b, Some(e), now);
    StepPays(b, e, now);
    CountStep(reply, tail);
    FlowAdds(b, Max(0, now - e.updated), more);
  }

  /** Global rate bound: burst size plus refill over the total forward movement of the clock,
      for every sequence of readings, backward jumps included. */
  lemma AllowedIsBounded(b: Bucket, calls: seq<int>)
    requires b.capacity >= 0 && b.refillPerSec >= 0.0 && calls != []
    ensures CountAllowed(Replies(b, None, calls)) as real
            <= b.capacity as real + Flow(b, ForwardMillis(calls[0], calls))
  {
    var full := Entry(b.capacity as real, calls[0]);
    assert Replies(b, None, calls) == Replies(b, Some(full), calls);
    AllowedIsBoundedFrom(b, full, calls);
  }

  // ---------------------------------------------------------------- expiry is unobservable

  lemma TtlIsFloor(b: Bucket) returns (x: real)
    requires b.capacity >= 1 && b.refillPerSec > 0.0
    ensures x > 0.0 && x * b.refillPerSec == 2000.0 * b.capacity as real
    ensures 0 <= TtlMillis(b) && TtlMillis(b) as real <= x < TtlMillis(b) as real + 1.0
  {
    var c, r := b.capacity as real, b.refillPerSec;
    var y := 2.0 * c / r;
    assert y * r == 2.0 * c;
    MulOrder(y, 0.0, r);
    x := y * 1000.0;
    assert x * r == 1000.0 * (y * r);
  }

  lemma MulPositive(x: real, y: real)
    requires x > 0.0 && y > 0.0
    ensures x * y > 0.0
  {
  }

  /** What x leaves of one r. */
  lemma Remainder(x: real, r: real) returns (rest: real)
    requires x < 1.0 && r > 0.0
    ensures rest > 0.0 && rest == r - x * r
  {
    rest := (1.0 - x) * r;
    MulPositive(1.0 - x, r);
  }

  /** Below 1, x has no whole part and x * r stays below r. */
  lemma BelowOne(x: real, r: real, whole: real)
    requires 0.0 < x < 1.0 && r > 0.0 && whole == x * r
    ensures 0.0 < whole < r
  {
    MulPositive(x, r);
    var rest := Remainder(x, r);
  }

  /** From 1 on, the whole part is more than half of x. */
  lemma WholePartIsHalf(d: real, x: real, r: real, share: real, whole: real)
    requires 1.0 <= d <= x < d + 1.0 && r > 0.0 && share == d * r && whole == x * r
    ensures r <= whole < 2.0 * share
  {
    MulOrder(1.0, x, r);
    MulOrder(2.0 * d, x, r);
    Associate(2.0, d, r);
  }

  lemma Associate(a: real, b: real, c: real)
    ensures a * b * c == a * (b * c)
  {
  }

  lemma NoPart(t: int, r: real, share: real)
    requires t == 0 && share == t as real * r
    ensures share == 0.0
  {
  }

  /** The whole part of x reaches half of x * r exactly when x is at least 1. */
  lemma FloorCovers(t: int, x: real, r: real, share: real, whole: real)
    requires 0 <= t && t as real <= x < t as real + 1.0 && r > 0.0 && x > 0.0
    requires share == t as real * r && whole == x * r
    ensures 2.0 * share >= whole <==> r <= whole
    ensures t >= 1 <==> r <= whole
  {
    if t == 0 {
      BelowOne(x, r, whole);
      NoPart(t, r, share);
    } else {
      WholePartIsHalf(t as real, x, r, share, whole);
    }
  }

  /** The lifetime given to an idle key is long enough to fill the bucket, exactly when
      one token takes at least 1/2000 of the capacity per second to come back. */
  lemma TtlCoversRefillIff(b: Bucket)
    requires b.capacity >= 1 && b.refillPerSec > 0.0
    ensures TtlMillis(b) >= 0
    ensures Flow(b, TtlMillis(b)) >= b.capacity as real
            <==> b.refillPerSec <= 2000.0 * b.capacity as real
    ensures TtlMillis(b) >= 1 <==> b.refillPerSec <= 2000.0 * b.capacity as real
  {
    var x := TtlIsFloor(b);
    FlowIsShare(b, TtlMillis(b));
    FloorCovers(TtlMillis(b), x, b.refillPerSec, 1000.0 * Flow(b, TtlMillis(b)), 2000.0 * b.capacity as real);
  }

  lemma FlowIsShare(b: Bucket, ms: int)
    ensures Flow(b, ms) * 1000.0 == ms as real * b.refillPerSec
  {
  }

  lemma ExpiredEqualsFresh(b: Bucket, e: Entry, now: int)
    requires b.capacity >= 1 && 0.0 < b.refillPerSec <= 2000.0 * b.capacity as real
    requires Legal(b, Some(e)) && now >= e.updated + TtlMillis(b)
    ensures Step(b, None, now) == Step(b, Some(e), now)
  {
    TtlCoversRefillIff(b);
    var idle := now - e.updated;
    MulNonNegative((idle - TtlMillis(b)) as real / 1000.0, b.refillPerSec);
    FlowAdds(b, idle - TtlMillis(b), TtlMillis(b));
    assert Refilled(b, e, now) == b.capacity as real;
  }

  lemma {:induction false} ExpiryIsUnobservableFrom(b: Bucket, stored: Option<Entry>, calls: seq<int>)
    requires b.capacity >= 1 && 0.0 < b.refillPerSec <= 2000.0 * b.capacity as real && Legal(b, stored)
    ensures ExpiringReplies(b, stored, calls) == Replies(b, stored, calls)
    decreases |calls|
  {
    if calls != [] {
      var now := calls[0];
      TtlCoversRefillIff(b);
      if Visible(b, stored, now) != stored {
        ExpiredEqualsFresh(b, stored.value, now);
      }
      StepKeepsTokensInRange(b, stored, now);
      ExpiryIsUnobservableFrom(b, Some(Step(b, stored, now).1), calls[1..]);
    }
  }

  function Instant(n: nat): seq<int> {
    if n == 0 then [] else [0] + Instant(n - 1)
  }

  /** Without expiry, n calls in one instant on a bucket of t whole tokens are answered yes min(n, t) times. */
  lemma {:induction false} BurstDrains(b: Bucket, t: nat, n: nat)
    requires b.capacity >= t
    ensures CountAllowed(Replies(b, Some(Entry(t as real, 0)), Instant(n))) == if n <= t then n else t
    decreases n
  {
    if n > 0 {
      var e := Entry(t as real, 0);
      assert Instant(n)[1..] == Instant(n - 1);
      assert Refilled(b, e, 0) == t as real;
      BurstDrains(b, if t >= 1 then t - 1 else 0, n - 1);
    }
  }

  /** With a lifetime of zero every call starts from a full bucket, so nothing is ever rejected, whatever the clock. */
  lemma {:induction false} ZeroTtlNeverLimits(b: Bucket, calls: seq<int>)
    requires b.capacity >= 1 && TtlMillis(b) <= 0
    ensures CountAllowed(ExpiringReplies(b, None, calls)) == |calls|
    decreases |calls|
  {
    if calls != [] {
      ZeroTtlNeverLimits(b, calls[1..]);
    }
  }

  lemma {:induction false} InstantLength(n: nat)
    ensures |Instant(n)| == n
    decreases n
  {
    if n > 0 {
      InstantLength(n - 1);
    }
  }

  /** Key expiry changes no answer of any run if and only if the refill rate is at most
      2000 times the capacity. Above that the lifetime truncates to 0 ms. */
  lemma ExpiryIsUnobservableIff(b: Bucket)
    requires b.capacity >= 1 && b.refillPerSec > 0.0
    ensures (forall calls :: ExpiringReplies(b, None, calls) == Replies(b, None, calls))
            <==> b.refillPerSec <= 2000.0 * b.capacity as real
  {
    if b.refillPerSec <= 2000.0 * b.capacity as real {
      forall calls ensures ExpiringReplies(b, None, calls) == Replies(b, None, calls) {
        ExpiryIsUnobservableFrom(b, None, calls);
      }
    } else {
      TtlCoversRefillIff(b);
      var calls := Instant(b.capacity + 1);
      ZeroTtlNeverLimits(b, calls);
      InstantLength(b.capacity + 1);
      BurstDrains(b, b.capacity, b.capacity + 1);
      assert Replies(b, None, calls) == Replies(b, Some(Entry(b.capacity as real, 0)), calls);
      assert ExpiringReplies(b, None, calls) != Replies(b, None, calls);
    }
  }

  // ---------------------------------------------------------------- the rate bound with expiry

  /** What the bound is: burst size plus refill over the forward movement of the clock. */
  ghost predicate RateBound(b: Bucket, calls: seq<int>) {
    |calls| > 0 ==>
      CountAllowed(ExpiringReplies(b, None, calls)) as real
      <= b.capacity as real + Flow(b, ForwardMillis(calls[0], calls))
  }

  /** A bucket that refills completely in a minute. */
  function PerMinute(b: Bucket): Bucket {
    Bucket(b.capacity, b.capacity as real / 60.0)
  }

  lemma MinuteFills(b: Bucket, ms: int)
    requires b.capacity >= 0 && ms >= 60_000
    ensures Flow(PerMinute(b), ms) >= b.capacity as real
  {
    var rate := b.capacity as real / 60.0;
    MulNonNegative((ms - 60_000) as real / 1000.0, rate);
    FlowAdds(PerMinute(b), ms - 60_000, 60_000);
    assert Flow(PerMinute(b), 60_000) == 60.0 * rate;
  }

  lemma FrozenStep(b: Bucket, e: Entry, now: int)
    requires b.capacity >= 0 && b.refillPerSec == 0.0 && Legal(b, Some(e))
    ensures var (reply, after) := Step(b, Visible(b, Some(e), now), now);
            (if reply.allowed then 1.0 else 0.0) + after.tokens
            <= e.tokens + Flow(PerMinute(b), Max(0, now - e.updated))
  {
    var ms := Max(0, now - e.updated);
    MulNonNegative(ms as real / 1000.0, b.capacity as real / 60.0);
    if now >= e.updated + 60_000 {
      MinuteFills(b, ms);
    } else {
      StepPays(b, e, now);
      assert Flow(b, ms) == 0.0;
    }
  }

  lemma FrozenOneMore(b: Bucket, e: Entry, now: int, tail: seq<Reply>, more: nat)
    requires b.capacity >= 0 && b.refillPerSec == 0.0 && Legal(b, Some(e))
    requires var (reply, after) := Step(b, Visible(b, Some(e), now), now);
             CountAllowed(tail) as real <= after.tokens + Flow(PerMinute(b), more)
    ensures CountAllowed([Step(b, Visible(b, Some(e), now), now).0] + tail) as real
            <= e.tokens + Flow(PerMinute(b), Max(0, now - e.updated) + more)
  {
    var (reply, after) := Step(b, Visible(b, Some(e), now), now);
    FrozenStep(b, e, now);
    CountStep(reply, tail);
    FlowAdds(PerMinute(b), Max(0, now - e.updated), more);
  }

  lemma {:induction false} FrozenBoundFrom(b: Bucket, e: Entry, calls: seq<int>)
    requires b.capacity >= 0 && b.refillPerSec == 0.0 && Legal(b, Some(e))
    ensures CountAllowed(ExpiringReplies(b, Some(e), calls)) as real
            <= e.tokens + Flow(PerMinute(b), ForwardMillis(e.updated, calls))
    decreases |calls|
  {
    if |calls| == 0 {
      assert Flow(PerMinute(b), 0) == 0.0;
    } else {
      var now, rest := calls[0], calls[1..];
      var (reply, after) := Step(b, Visible(b, Some(e), now), now);
      StepKeepsTokensInRange(b, Visible(b, Some(e), now), now);
      FrozenBoundFrom(b, after, rest);
      FrozenOneMore(b, e, now, ExpiringReplies(b, Some(after), rest), ForwardMillis(now, rest));
    }
  }

  /** Without refill an idle minute still brings back a full bucket, because the key is gone by then. So the limiter
      as deployed is bounded like one that refills once a minute. */
  lemma FrozenBound(b: Bucket, calls: seq<int>)
    requires b.capacity >= 0 && b.refillPerSec == 0.0 && |calls| > 0
    ensures CountAllowed(ExpiringReplies(b, None, calls)) as real
            <= b.capacity as real + Flow(PerMinute(b), ForwardMillis(calls[0], calls))
  {
    var full := Entry(b.capacity as real, calls[0]);
    FirstCallIsFull(b, calls);
    FrozenBoundFrom(b, full, calls);
  }

  lemma FirstCallIsFull(b: Bucket, calls: seq<int>)
    requires |calls| > 0
    ensures ExpiringReplies(b, None, calls) == ExpiringReplies(b, Some(Entry(b.capacity as real, calls[0])), calls)
  {
    assert Step(b, Some(Entry(b.capacity as real, calls[0])), calls[0]) == Step(b, None, calls[0]);
  }

  function ThenMinute(n: nat): seq<int> {
    if n == 0 then [60_000] else [0] + ThenMinute(n - 1)
  }

  lemma {:induction false} MinuteBringsOneMore(b: Bucket, t: nat, n: nat)
    requires b.capacity >= t >= n && b.capacity >= 1 && b.refillPerSec == 0.0
    ensures CountAllowed(ExpiringReplies(b, Some(Entry(t as real, 0)), ThenMinute(n))) == n + 1
    decreases n
  {
    var e := Entry(t as real, 0);
    var calls := ThenMinute(n);
    if n == 0 {
      assert calls[1..] == [];
      assert Visible(b, Some(e), 60_000) == None;
    } else {
      assert calls[1..] == ThenMinute(n - 1);
      assert Refilled(b, e, 0) == t as real;
      MinuteBringsOneMore(b, t - 1, n - 1);
    }
  }

  lemma {:induction false} InstantTakesNoTime(n: nat)
    ensures ForwardMillis(0, Instant(n)) == 0
    decreases n
  {
    if n > 0 {
      assert Instant(n)[1..] == Instant(n - 1);
      InstantTakesNoTime(n - 1);
    }
  }

  /** As deployed, with key expiry, the rate bound holds for every run of calls if and only if the refill rate is
      positive and at most 2000 times the capacity. */
  lemma RateBoundIff(b: Bucket)
    requires b.capacity >= 1 && b.refillPerSec >= 0.0
    ensures (forall calls :: RateBound(b, calls)) <==> 0.0 < b.refillPerSec <= 2000.0 * b.capacity as real
  {
    var c := b.capacity;
    if b.refillPerSec == 0.0 {
      var full := Entry(c as real, 0);
      MinuteBringsOneMore(b, c, c);
      FirstCallIsFull(b, ThenMinute(c));
      assert Flow(b, ForwardMillis(0, ThenMinute(c))) == 0.0;
      assert !RateBound(b, ThenMinute(c));
    } else if b.refillPerSec > 2000.0 * c as real {
      TtlCoversRefillIff(b);
      ZeroTtlNeverLimits(b, Instant(c + 1));
      InstantLength(c + 1);
      InstantTakesNoTime(c + 1);
      assert Flow(b, 0) == 0.0;
      assert !RateBound(b, Instant(c + 1));
    } else {
      forall calls: seq<int> ensures RateBound(b, calls) {
        if |calls| > 0 {
          ExpiryIsUnobservableFrom(b, None, calls);
          AllowedIsBounded(b, calls);
        }
      }
    }
  }

  // ---------------------------------------------------------------- the retry delay

  lemma CeilShift(x: real, d: int)
    ensures x <= Ceil(x) as real < x + 1.0
    ensures Ceil(x - d as real) == Ceil(x) - d
  {
  }

  /** `need` milliseconds are exactly what a bucket holding `tokens` lacks for one whole token. */
  lemma NeedIsThreshold(tokens: real, r: real, d: int)
    requires r > 0.0 && tokens < 1.0
    ensures var need := (1.0 - tokens) / r * 1000.0;
            var grown := tokens + d as real / 1000.0 * r;
            && need > 0.0
            && (grown >= 1.0 <==> d as real >= need)
            && (1.0 - grown) / r * 1000.0 == need - d as real
  {
    var need := (1.0 - tokens) / r * 1000.0;
    var grown := tokens + d as real / 1000.0 * r;
    assert need * r == (1.0 - tokens) * 1000.0;
    MulOrder(need, 0.0, r);
    assert (1.0 - grown) * 1000.0 == (need - d as real) * r;
    MulOrder(0.0, need - d as real, r);
    MulOrder(need - d as real, 0.0, r);
    assert (1.0 - grown) * 1000.0 / r == need - d as real;
  }

  /** A call when `need` milliseconds were lacking. */
  lemma CallAfterRejection(b: Bucket, e: Entry, t: int)
    requires b.capacity >= 1 && b.refillPerSec > 0.0 && e.tokens < 1.0 && t >= e.updated
    ensures var need, d := (1.0 - e.tokens) / b.refillPerSec * 1000.0, t - e.updated;
            && need > 0.0
            && Step(b, Some(e), t).0 == if d as real >= need then Reply(true, Millis(0))
                                        else Reply(false, Millis(Ceil(need - d as real)))
  {
    var need, d := (1.0 - e.tokens) / b.refillPerSec * 1000.0, t - e.updated;
    var grown := e.tokens + Flow(b, d);
    NeedIsThreshold(e.tokens, b.refillPerSec, d);
    if d as real >= need {
      assert Refilled(b, e, t) >= 1.0;
    } else {
      assert Refilled(b, e, t) == grown;
      assert (1.0 - grown) / b.refillPerSec * 1000.0 == need - d as real;
    }
  }

  predicate Rejects(b: Bucket, stored: Option<Entry>, now: int) {
    !Step(b, stored, now).0.allowed
  }

  /** After a rejection at `now` with delay w, a call at t is let through exactly when t reaches
      now + w; a poll before that is told the same instant again. */
  lemma WaitIsTight(b: Bucket, stored: Option<Entry>, now: int, t: int)
    requires b.capacity >= 1 && b.refillPerSec > 0.0
    ensures var (reply, e) := Step(b, stored, now);
            var (again, _) := Step(b, Some(e), t);
            Rejects(b, stored, now) && t >= now ==>
              && reply.wait.Millis? && reply.wait.ms >= 1
              && (again.allowed <==> t >= now + reply.wait.ms)
              && (!again.allowed ==> again.wait == Millis(now + reply.wait.ms - t))
  {
    if Rejects(b, stored, now) && t >= now {
      var e := Step(b, stored, now).1;
      CallAfterRejection(b, e, t);
      CeilShift((1.0 - e.tokens) / b.refillPerSec * 1000.0, t - now);
    }
  }

  predicate Polls(calls: seq<int>, from: int, before: int) {
    forall i, j :: 0 <= i <= j < |calls| ==> from <= calls[i] <= calls[j] < before
  }

  /** Every poll before the promised instant, then the first call at or after it. */
  predicate WaitsItOut(b: Bucket, stored: Option<Entry>, now: int, polls: seq<int>, t: int) {
    var wait := Step(b, stored, now).0.wait;
    Rejects(b, stored, now) && wait.Millis? && Polls(polls, now, now + wait.ms) && t >= now + wait.ms
  }

  /** n + 1 rejections, then a call let through. */
  predicate LastOnly(replies: seq<Reply>, n: nat) {
    |replies| == n + 2 && (forall i :: 0 <= i <= n ==> !replies[i].allowed) && replies[n + 1].allowed
  }

  lemma RepliesOfCons(b: Bucket, stored: Option<Entry>, now: int, rest: seq<int>)
    ensures Replies(b, stored, [now] + rest)
            == [Step(b, stored, now).0] + Replies(b, Some(Step(b, stored, now).1), rest)
  {
    assert ([now] + rest)[1..] == rest;
  }

  lemma FirstTryAfterwards(b: Bucket, stored: Option<Entry>, now: int, t: int)
    requires b.capacity >= 1 && b.refillPerSec > 0.0 && WaitsItOut(b, stored, now, [], t)
    ensures LastOnly(Replies(b, stored, [now] + [t]), 0)
  {
    WaitIsTight(b, stored, now, t);
    RepliesOfCons(b, stored, now, [t]);
    RepliesOfCons(b, Some(Step(b, stored, now).1), t, []);
    assert [t] + [] == [t];
  }

  lemma OnePollMore(b: Bucket, stored: Option<Entry>, now: int, polls: seq<int>, t: int)
    requires b.capacity >= 1 && b.refillPerSec > 0.0 && |polls| > 0 && WaitsItOut(b, stored, now, polls, t)
    ensures WaitsItOut(b, Some(Step(b, stored, now).1), polls[0], polls[1..], t)
  {
    var wait := Step(b, stored, now).0.wait;
    PollsFollow(polls, now, now + wait.ms);
    WaitIsTight(b, stored, now, polls[0]);
  }

  /** Polling early costs nothing: every poll before the promised instant is rejected and the first
      call at or after it is let through, however many polls came between. */
  lemma {:induction false} PollingDoesNotDelay(b: Bucket, stored: Option<Entry>, now: int, polls: seq<int>, t: int)
    requires b.capacity >= 1 && b.refillPerSec > 0.0
    ensures WaitsItOut(b, stored, now, polls, t) ==> LastOnly(Replies(b, stored, [now] + polls + [t]), |polls|)
    decreases |polls|
  {
    if WaitsItOut(b, stored, now, polls, t) {
      if |polls| == 0 {
        assert polls == [] && [now] + polls + [t] == [now] + [t];
        FirstTryAfterwards(b, stored, now, t);
      } else {
        OnePollMore(b, stored, now, polls, t);
        PollingDoesNotDelay(b, Some(Step(b, stored, now).1), polls[0], polls[1..], t);
        assert [now] + polls + [t] == [now] + ([polls[0]] + polls[1..] + [t]);
        RepliesOfCons(b, stored, now, [polls[0]] + polls[1..] + [t]);
      }
    }
  }

  lemma PollsFollow(polls: seq<int>, from: int, before: int)
    requires |polls| > 0 && Polls(polls, from, before)
    ensures from <= polls[0] < before && Polls(polls[1..], polls[0], before)
  {
  }

  // ---------------------------------------------------------------- the Retry-After header

  function HeaderSeconds(waitMs: int): int
    requires waitMs >= 0
  {
    Max(waitMs / 1000, 1)
  }

  /** The header truncates to whole seconds although it is described as rounded up: a client that
      comes back exactly when told is let through iff the delay was at most a second or a whole number of seconds. */
  lemma RetryAfterSufficesIff(b: Bucket, stored: Option<Entry>, now: int)
    requires b.capacity >= 1 && b.refillPerSec > 0.0
    ensures var (reply, e) := Step(b, stored, now);
            Rejects(b, stored, now) ==>
              && reply.wait.Millis? && reply.wait.ms >= 1
              && (Step(b, Some(e), now + 1000 * HeaderSeconds(reply.wait.ms)).0.allowed <==>
                  (reply.wait.ms <= 1000 || reply.wait.ms % 1000 == 0))
  {
    WaitIsTight(b, stored, now, now);
    var wait := Step(b, stored, now).0.wait;
    if Rejects(b, stored, now) {
      WaitIsTight(b, stored, now, now + 1000 * HeaderSeconds(wait.ms));
    }
  }

  /** Capacity 1 at two tokens every three seconds: rejected for 1500 ms, told 1 s, rejected again. */
  lemma RetryAfterCanFallShort()
    ensures var b := Bucket(1, 2.0 / 3.0);
            var (reply, e) := Step(b, Some(Entry(0.0, 0)), 0);
            reply == Reply(false, Millis(1500)) && !Step(b, Some(e), 1000 * HeaderSeconds(1500)).0.allowed
  {
    var b := Bucket(1, 2.0 / 3.0);
    assert 1.0 / (2.0 / 3.0) * 1000.0 == 1500.0;
    assert Step(b, Some(Entry(0.0, 0)), 0).0 == Reply(false, Millis(1500));
  }
}
