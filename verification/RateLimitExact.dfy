/** Exactly when the limiter of internal/pkg/ratelimit/ratelimit.go refuses a call, over whole runs. */
module RateLimitExact {
  import opened Wrappers
  import opened RateLimit

  /** What a key holds after some calls. */
  function After(b: Bucket, stored: Option<Entry>, calls: seq<int>): Option<Entry>
    decreases |calls|
  {
    if calls == [] then stored else After(b, Some(Step(b, stored, calls[0]).1), calls[1..])
  }

  lemma {:induction false} OneCallMore(b: Bucket, stored: Option<Entry>, calls: seq<int>, now: int)
    ensures |Replies(b, stored, calls)| == |calls|
    ensures Replies(b, stored, calls + [now])
            == Replies(b, stored, calls) + [Step(b, After(b, stored, calls), now).0]
    ensures After(b, stored, calls + [now]) == Some(Step(b, After(b, stored, calls), now).1)
    decreases |calls|
  {
    if calls == [] {
      assert calls + [now] == [now] && [now][1..] == [];
    } else {
      assert (calls + [now])[1..] == calls[1..] + [now];
      OneCallMore(b, Some(Step(b, stored, calls[0]).1), calls[1..], now);
    }
  }

  /** What is left of a full bucket: the capacity, plus the refill for some milliseconds, less the calls let through. */
  function Left(b: Bucket, forward: nat, taken: nat): real {
    b.capacity as real + forward as real / 1000.0 * b.refillPerSec - taken as real
  }

  lemma LeftOneMore(b: Bucket, forward: nat, taken: nat, d: nat, more: nat)
    ensures Left(b, forward + d, taken + more) == Left(b, forward, taken) - more as real + Flow(b, d)
    ensures Left(b, 0, 0) == b.capacity as real
  {
    FlowAdds(b, forward, d);
  }

  /** What the calls from the i-th on have left when the k-th arrives, counting every millisecond by which the clock has
      moved forward since. */
  function Credit(b: Bucket, calls: seq<int>, replies: seq<Reply>, i: nat, k: nat): real
    requires i <= k < |calls| && k <= |replies|
  {
    Left(b, ForwardMillis(calls[i], calls[i..k + 1]), CountAllowed(replies[i..k]))
  }

  /** The tokens a call finds. */
  function Level(b: Bucket, stored: Option<Entry>, now: int): real {
    Refilled(b, if stored.Some? then stored.value else Entry(b.capacity as real, now), now)
  }

  lemma {:induction false} ForwardOneMore(from: int, calls: seq<int>, last: int, now: int)
    requires |calls| > 0 && calls[|calls| - 1] == last
    ensures ForwardMillis(from, calls + [now]) == ForwardMillis(from, calls) + if now > last then now - last else 0
    decreases |calls|
  {
    assert (calls + [now])[1..] == calls[1..] + [now];
    if |calls| == 1 {
      assert calls[1..] == [] && ForwardMillis(last, [now]) == (if now > last then now - last else 0);
    } else {
      ForwardOneMore(calls[0], calls[1..], last, now);
    }
  }

  lemma {:induction false} CountOneMore(replies: seq<Reply>, r: Reply)
    ensures CountAllowed(replies + [r]) == CountAllowed(replies) + if r.allowed then 1 else 0
    decreases |replies|
  {
    if replies == [] {
      assert [r][1..] == [];
    } else {
      assert (replies + [r])[1..] == replies[1..] + [r];
      CountOneMore(replies[1..], r);
    }
  }

  function Moved(from: int, now: int): nat {
    if now > from then now - from else 0
  }

  function Taken(r: Reply): nat {
    if r.allowed then 1 else 0
  }

  /** Every credit grows by the refill and shrinks by the call before. */
  lemma CreditOneMore(b: Bucket, calls: seq<int>, replies: seq<Reply>, i: nat, k: nat, r: Reply, now: int)
    requires i <= k && |calls| == k + 1 && |replies| == k
    ensures Credit(b, calls + [now], replies + [r], i, k + 1)
            == Credit(b, calls, replies, i, k) - Taken(r) as real + Flow(b, Moved(calls[k], now))
  {
    assert (calls + [now])[i..k + 2] == calls[i..] + [now] && calls[i..k + 1] == calls[i..];
    assert (replies + [r])[i..k + 1] == replies[i..] + [r] && replies[i..k] == replies[i..];
    ForwardOneMore(calls[i], calls[i..], calls[k], now);
    CountOneMore(replies[i..], r);
    LeftOneMore(b, ForwardMillis(calls[i], calls[i..]), CountAllowed(replies[i..]), Moved(calls[k], now), Taken(r));
  }

  function Credits(b: Bucket, calls: seq<int>, replies: seq<Reply>, k: nat): seq<real>
    requires k < |calls| && k <= |replies|
  {
    seq(k + 1, i requires 0 <= i <= k => Credit(b, calls, replies, i, k))
  }

  predicate IsLeast(x: real, xs: seq<real>) {
    x in xs && forall i :: 0 <= i < |xs| ==> x <= xs[i]
  }

  lemma NoCreditSpent(b: Bucket, calls: seq<int>, replies: seq<Reply>, k: nat)
    requires k < |calls| && k <= |replies|
    ensures Credit(b, calls, replies, k, k) == b.capacity as real
  {
    assert calls[k..k + 1] == [calls[k]] && [calls[k]][1..] == [] && replies[k..k] == [];
    assert ForwardMillis(calls[k], [calls[k]]) == 0;
    LeftOneMore(b, 0, 0, 0, 0);
  }

  /** All move by the same amount, and a new one is added. */
  lemma LeastMoves(xs: seq<real>, ys: seq<real>, x: real, step: real, full: real)
    requires IsLeast(x, xs) && |ys| == |xs| + 1 && ys[|xs|] == full
    requires forall i :: 0 <= i < |xs| ==> ys[i] == xs[i] + step
    ensures IsLeast(if x + step < full then x + step else full, ys)
  {
    var least :| 0 <= least < |xs| && xs[least] == x;
    assert ys[least] == x + step;
  }

  lemma LeastOneMore(b: Bucket, calls: seq<int>, replies: seq<Reply>, k: nat, x: real, r: Reply, now: int)
    requires |calls| == k + 1 && |replies| == k && IsLeast(x, Credits(b, calls, replies, k))
    ensures var grown := x - Taken(r) as real + Flow(b, Moved(calls[k], now));
            IsLeast(if grown < b.capacity as real then grown else b.capacity as real,
                    Credits(b, calls + [now], replies + [r], k + 1))
  {
    var step := Flow(b, Moved(calls[k], now)) - Taken(r) as real;
    var xs, ys := Credits(b, calls, replies, k), Credits(b, calls + [now], replies + [r], k + 1);
    NoCreditSpent(b, calls + [now], replies + [r], k + 1);
    forall i | 0 <= i < |xs| ensures ys[i] == xs[i] + step {
      CreditOneMore(b, calls, replies, i, k, r, now);
    }
    LeastMoves(xs, ys, x, step, b.capacity as real);
  }

  lemma FirstLevel(b: Bucket, now: int)
    ensures IsLeast(Level(b, None, now), Credits(b, [now], [], 0))
  {
    assert Flow(b, 0) == 0.0;
    NoCreditSpent(b, [now], [], 0);
    assert Credits(b, [now], [], 0) == [b.capacity as real];
  }

  lemma LevelAfter(b: Bucket, stored: Option<Entry>, last: int, now: int)
    ensures var (r, e) := Step(b, stored, last);
            var grown := Level(b, stored, last) - Taken(r) as real + Flow(b, Moved(last, now));
            Level(b, Some(e), now) == if grown < b.capacity as real then grown else b.capacity as real
  {
    assert Moved(last, now) == Max(0, now - last);
  }

  /** The tokens a call finds are the least of these credits. */
  lemma {:induction false} LevelIsLeastCredit(b: Bucket, init: seq<int>, now: int)
    ensures |Replies(b, None, init)| == |init|
    ensures IsLeast(Level(b, After(b, None, init), now), Credits(b, init + [now], Replies(b, None, init), |init|))
    decreases |init|
  {
    if init == [] {
      FirstLevel(b, now);
      assert init + [now] == [now];
    } else {
      var k, last := |init| - 1, init[|init| - 1];
      var before := After(b, None, init[..k]);
      assert init == init[..k] + [last];
      OneCallMore(b, None, init[..k], last);
      LevelIsLeastCredit(b, init[..k], last);
      LevelAfter(b, before, last, now);
      LeastOneMore(b, init, Replies(b, None, init[..k]), k, Level(b, before, last), Step(b, before, last).0, now);
    }
  }

  lemma {:induction false} PrefixAnswersAlike(b: Bucket, calls: seq<int>, k: nat)
    requires k < |calls|
    ensures |Replies(b, None, calls)| == |calls| && Replies(b, None, calls)[..k] == Replies(b, None, calls[..k])
    ensures Replies(b, None, calls)[k] == Step(b, After(b, None, calls[..k]), calls[k]).0
    decreases |calls| - k
  {
    if k == |calls| - 1 {
      assert calls == calls[..k] + [calls[k]];
      OneCallMore(b, None, calls[..k], calls[k]);
    } else {
      PrefixAnswersAlike(b, calls, k + 1);
      assert calls[..k + 1] == calls[..k] + [calls[k]];
      OneCallMore(b, None, calls[..k], calls[k]);
      var replies := Replies(b, None, calls);
      assert replies[..k] == replies[..k + 1][..k] && replies[k] == replies[..k + 1][k];
    }
  }

  lemma CreditReadsPrefix(b: Bucket, calls: seq<int>, replies: seq<Reply>, i: nat, k: nat)
    requires i <= k < |calls| && |replies| == |calls|
    ensures Credit(b, calls, replies, i, k) == Credit(b, calls[..k + 1], replies[..k], i, k)
  {
    assert calls[..k + 1][i..k + 1] == calls[i..k + 1] && replies[..k][i..k] == replies[i..k];
  }

  /** Some stretch of the run up to call k has used up all but less than one token. */
  ghost predicate Exhausted(b: Bucket, calls: seq<int>, replies: seq<Reply>, k: nat)
    requires k < |calls| && |replies| == |calls|
  {
    exists i :: 0 <= i <= k && Credit(b, calls, replies, i, k) < 1.0
  }

  /** A call is refused if and only if, since some earlier call or itself, the capacity and the refill for the time
      moved forward do not leave one whole token beside the calls let through: for every bucket and every clock. */
  lemma RefusedIff(b: Bucket, calls: seq<int>, k: nat)
    requires k < |calls|
    ensures var replies := Replies(b, None, calls);
            && |replies| == |calls|
            && (!replies[k].allowed <==> Exhausted(b, calls, replies, k))
            && (replies[k].allowed ==> replies[k].wait == Millis(0))
  {
    PrefixAnswersAlike(b, calls, k);
    var replies, now := Replies(b, None, calls), calls[..k + 1];
    assert now == calls[..k] + [calls[k]];
    LevelIsLeastCredit(b, calls[..k], calls[k]);
    var credits := Credits(b, now, replies[..k], k);
    forall i | 0 <= i <= k ensures Credit(b, calls, replies, i, k) == credits[i] {
      CreditReadsPrefix(b, calls, replies, i, k);
    }
    var x := Level(b, After(b, None, calls[..k]), calls[k]);
    assert replies[k].allowed <==> x >= 1.0;
    var least :| 0 <= least <= k && x == credits[least];
  }

  /** The same of the limiter as deployed, with key expiry, as long as expiry does not show. */
  lemma RefusedAsDeployedIff(b: Bucket, calls: seq<int>, k: nat)
    requires b.capacity >= 1 && 0.0 < b.refillPerSec <= 2000.0 * b.capacity as real && k < |calls|
    ensures var replies := ExpiringReplies(b, None, calls);
            |replies| == |calls| && (!replies[k].allowed <==> Exhausted(b, calls, replies, k))
  {
    ExpiryIsUnobservableFrom(b, None, calls);
    RefusedIff(b, calls, k);
  }

  lemma NothingFlows(b: Bucket, e: Entry, now: int)
    requires b.refillPerSec == 0.0 && e.tokens < 1.0 && e.tokens <= b.capacity as real
    ensures Step(b, Some(e), now) == (Reply(false, Unbounded), Entry(e.tokens, now))
  {
    assert Flow(b, Max(0, now - e.updated)) == 0.0;
  }

  /** Without refill a refused caller is told no time, and no later call is let through while the key lives. */
  lemma {:induction false} NeverRefills(b: Bucket, e: Entry, calls: seq<int>)
    requires b.refillPerSec == 0.0 && e.tokens < 1.0 && e.tokens <= b.capacity as real
    ensures Replies(b, Some(e), calls) == seq(|calls|, _ => Reply(false, Unbounded))
    decreases |calls|
  {
    if calls != [] {
      NothingFlows(b, e, calls[0]);
      NeverRefills(b, Entry(e.tokens, calls[0]), calls[1..]);
    }
  }
}
