/** One delivery attempt: classification, subscription health and backoff (internal/webhooks/deliver.go). */
module Deliver {

  const MAX_ATTEMPTS := 5
  const AUTO_DISABLE_THRESHOLD := 50
  const MAX_BACKOFF := 300

  /** What the HTTP client reports; a request that cannot be built is never sent. */
  datatype Response = Malformed | TransportError | Status(code: int)

  datatype Class = Delivered | Transient | Permanent

  function Classify(r: Response): Class {
    if r.Malformed? then Permanent
    else if r.TransportError? then Transient
    else if 200 <= r.code < 300 then Delivered
    else if r.code == 410 then Permanent
    else if r.code == 408 || r.code == 429 || r.code >= 500 then Transient
    else Permanent
  }

  /** A failed transport, a timeout, rate limiting and server errors are tried again, 2xx is delivered, the rest ends
      the subscription. */
  lemma ClassesByCode(r: Response)
    ensures Classify(r) == Transient <==> r == TransportError || (r.Status? && (r.code in {408, 429} || r.code >= 500))
    ensures Classify(r) == Delivered <==> r.Status? && r.code >= 200 && r.code <= 299
  {
  }

  // ---------------------------------------------------------------- backoff

  function Pow4(n: nat): nat {
    if n == 0 then 1 else 4 * Pow4(n - 1)
  }

  function Capped(seconds: nat): nat {
    if seconds > MAX_BACKOFF then MAX_BACKOFF else seconds
  }

  /** Closed form of the wait before attempt n, in seconds. */
  function Backoff(attempt: int): nat {
    Capped(Pow4(if attempt < 1 then 0 else attempt - 1))
  }

  /** The seconds from the end of one attempt to the next: 4, 16, 64 and 256, and never more than five minutes. */
  function Pause(attempt: int): nat {
    if attempt <= 0 then 1 else if attempt == 1 then 4 else if attempt == 2 then 16 else if attempt == 3 then 64
    else if attempt == 4 then 256 else 300
  }

  lemma WaitsInSeconds(attempt: int)
    ensures Backoff(attempt) == Pause(attempt - 1)
  {
    if attempt >= 6 {
      Pow4Grows(5, attempt - 1);
      assert Pow4(5) == 1024;
    }
  }

  lemma {:induction false} Pow4Grows(m: nat, n: nat)
    requires m <= n
    ensures 1 <= Pow4(m) <= Pow4(n)
    decreases n
  {
    if n == 0 {
    } else if m == n {
      Pow4Grows(0, n - 1);
    } else {
      Pow4Grows(m, n - 1);
    }
  }

  /** The multiplying loop with its early exit computes min(4^(n-1), 300) for every n. */
  method BackoffFor(attempt: int) returns (d: int)
    ensures d == Backoff(attempt)
  {
    var n := if attempt < 1 then 1 else attempt;
    d := 1;
    var i := 1;
    while i < n
      invariant 1 <= i <= n
      invariant d == Pow4(i - 1) && d <= MAX_BACKOFF
    {
      d := d * 4;
      if d > MAX_BACKOFF {
        Pow4Grows(i, n - 1);
        d := MAX_BACKOFF;
        break;
      }
      i := i + 1;
    }
  }

  // ---------------------------------------------------------------- subscription health

  datatype Health = Health(active: bool, failures: nat)

  /** The counter update recordOutcome issues after the attempt. */
  function Record(h: Health, c: Class): Health {
    match c
    case Delivered => h.(failures := 0)
    case Permanent => h.(active := false)
    case Transient => Health(h.active && h.failures + 1 < AUTO_DISABLE_THRESHOLD, h.failures + 1)
  }

  /** Health after the first n outcomes. */
  function RecordFirst(h: Health, cs: seq<Class>, n: nat): Health
    requires n <= |cs|
  {
    if n == 0 then h else Record(RecordFirst(h, cs, n - 1), cs[n - 1])
  }

  function RecordAll(h: Health, cs: seq<Class>): Health {
    RecordFirst(h, cs, |cs|)
  }

  lemma {:induction false} RecordPrefix(h: Health, cs: seq<Class>, ds: seq<Class>, n: nat)
    requires n <= |cs|
    ensures RecordFirst(h, cs + ds, n) == RecordFirst(h, cs, n)
    decreases n
  {
    if n > 0 {
      RecordPrefix(h, cs, ds, n - 1);
    }
  }

  lemma RecordAppended(h: Health, cs: seq<Class>, c: Class)
    ensures RecordAll(h, cs + [c]) == Record(RecordAll(h, cs), c)
  {
    RecordPrefix(h, cs, [c], |cs|);
  }

  function Transients(cs: seq<Class>, i: nat, j: nat): nat
    requires j <= |cs|
  {
    if j <= i then 0 else Transients(cs, i, j - 1) + (if cs[j - 1] == Transient then 1 else 0)
  }

  /** Where the outcomes after the last delivery begin. */
  function Since(cs: seq<Class>, n: nat): (i: nat)
    requires n <= |cs|
    ensures i <= n && (forall k :: i <= k < n ==> cs[k] != Delivered) && (i > 0 ==> cs[i - 1] == Delivered)
  {
    if n == 0 then 0 else if cs[n - 1] == Delivered then n else Since(cs, n - 1)
  }

  /** Outcomes i..j: none a delivery, and as many transients as the threshold. */
  predicate Stretch(cs: seq<Class>, i: nat, j: nat) {
    i <= j <= |cs| && (forall k :: i <= k < j ==> cs[k] != Delivered)
    && Transients(cs, i, j) >= 50
  }

  lemma {:induction false} TransientsShrink(cs: seq<Class>, i: nat, k: nat, j: nat)
    requires i <= k && j <= |cs|
    ensures Transients(cs, k, j) <= Transients(cs, i, j)
    decreases j
  {
    if j > i {
      TransientsShrink(cs, i, k, j - 1);
    }
  }

  lemma {:induction false} FailuresCountTransients(h: Health, cs: seq<Class>, n: nat)
    requires h.failures == 0 && n <= |cs|
    ensures RecordFirst(h, cs, n).failures == Transients(cs, Since(cs, n), n)
    decreases n
  {
    if n > 0 {
      FailuresCountTransients(h, cs, n - 1);
    }
  }

  ghost predicate HasStretch(cs: seq<Class>, n: nat) {
    exists i: nat, j: nat :: j <= n && Stretch(cs, i, j)
  }

  /** A stretch ends before the last outcome, or that outcome is the transient that completes one. */
  lemma StretchEnds(cs: seq<Class>, n: nat)
    requires n < |cs|
    ensures HasStretch(cs, n + 1) <==>
            || HasStretch(cs, n)
            || (cs[n] == Transient && Transients(cs, Since(cs, n + 1), n + 1) >= 50)
  {
    if HasStretch(cs, n + 1) {
      var i: nat, j: nat :| j <= n + 1 && Stretch(cs, i, j);
      if j <= n {
        assert HasStretch(cs, n);
      } else if cs[n] == Transient {
        TransientsShrink(cs, Since(cs, n + 1), i, n + 1);
      } else if i <= n {
        assert Stretch(cs, i, n);
      }
    }
    if cs[n] == Transient && Transients(cs, Since(cs, n + 1), n + 1) >= 50 {
      assert Stretch(cs, Since(cs, n + 1), n + 1);
    }
  }

  lemma {:induction false} ActiveAfter(cs: seq<Class>, n: nat)
    requires n <= |cs|
    ensures RecordFirst(Health(true, 0), cs, n).active <==>
            (forall k :: 0 <= k < n ==> cs[k] != Permanent) && !HasStretch(cs, n)
    decreases n
  {
    if n > 0 {
      ActiveAfter(cs, n - 1);
      StretchEnds(cs, n - 1);
      FailuresCountTransients(Health(true, 0), cs, n);
    }
  }

  /** A subscription that starts active with no failures counts the transients since its last delivery, and is
      active exactly while no outcome was permanent and no delivery-free stretch held 50 transients. */
  lemma ActiveIff(cs: seq<Class>)
    ensures RecordAll(Health(true, 0), cs).failures == Transients(cs, Since(cs, |cs|), |cs|)
    ensures RecordAll(Health(true, 0), cs).active <==>
            Permanent !in cs && forall i: nat, j: nat :: !Stretch(cs, i, j)
  {
    FailuresCountTransients(Health(true, 0), cs, |cs|);
    ActiveAfter(cs, |cs|);
  }

  /** No outcome turns a subscription back on. */
  lemma {:induction false} InactiveStaysInactive(h: Health, cs: seq<Class>, n: nat)
    requires !h.active && n <= |cs|
    ensures !RecordFirst(h, cs, n).active
    decreases n
  {
    if n > 0 {
      InactiveStaysInactive(h, cs, n - 1);
    }
  }
}
