/** One day of mart_tickets_daily: internal/analytics/materialise.go.

    Each channel gets a row straight from the tickets; the synthetic row for all channels is then built from those
    rows alone, out of averages that were already rounded once. Times are microseconds since the epoch in UTC. */
module Rollup {
  import opened Wrappers

  const MICROS_PER_DAY := 86_400_000_000
  const MICROS_PER_SECOND := 1_000_000.0

  /** offlineAt: when the ticket was reassigned because its agent went offline. */
  datatype Ticket = Ticket(id: nat, convo: nat, channel: nat, createdAt: int, resolvedAt: Option<int>,
                           closedAt: Option<int>, offlineAt: seq<int>)

  /** fcr is numeric(5,4): first-contact resolution in ten-thousandths. avgResolution is in whole seconds. */
  datatype Row = Row(created: int, resolved: int, closed: int, reopened: int, avgResolution: Option<int>,
                     fcr: Option<int>)

  datatype Measure = Created | Resolved | Closed | Reopened | Micros | Sole

  function DayOf(at: int): int {
    at / MICROS_PER_DAY
  }

  predicate OnDay(at: Option<int>, day: int) {
    at.Some? && DayOf(at.value) == day
  }

  /** The WHERE clause: only tickets created, resolved or closed that day are looked at. */
  predicate Touches(t: Ticket, day: int) {
    DayOf(t.createdAt) == day || OnDay(t.resolvedAt, day) || OnDay(t.closedAt, day)
  }

  predicate IsSole(ts: seq<Ticket>, t: Ticket) {
    forall r :: r in ts && r.convo == t.convo ==> r.id == t.id
  }

  predicate WentOffline(t: Ticket, day: int) {
    exists k :: 0 <= k < |t.offlineAt| && DayOf(t.offlineAt[k]) == day
  }

  function Value(ts: seq<Ticket>, t: Ticket, day: int, m: Measure): int {
    match m
    case Created => if DayOf(t.createdAt) == day then 1 else 0
    case Resolved => if OnDay(t.resolvedAt, day) then 1 else 0
    case Closed => if OnDay(t.closedAt, day) then 1 else 0
    case Reopened => if WentOffline(t, day) then 1 else 0
    case Micros => if OnDay(t.resolvedAt, day) then t.resolvedAt.value - t.createdAt else 0
    case Sole => if OnDay(t.resolvedAt, day) && IsSole(ts, t) then 1 else 0
  }

  // ---------------------------------------------------------------- per-channel rows

  /** The sum of a measure over one channel's tickets among the first n. */
  function GroupSum(ts: seq<Ticket>, n: nat, day: int, channel: nat, m: Measure): int
    requires n <= |ts|
  {
    if n == 0 then 0
    else GroupSum(ts, n - 1, day, channel, m)
         + (if ts[n - 1].channel == channel && Touches(ts[n - 1], day) then Value(ts, ts[n - 1], day, m) else 0)
  }

  /** The groups: channels of touched tickets, each once. */
  function Channels(ts: seq<Ticket>, n: nat, day: int): seq<nat>
    requires n <= |ts|
  {
    if n == 0 then []
    else
      var cs := Channels(ts, n - 1, day);
      if Touches(ts[n - 1], day) && ts[n - 1].channel !in cs then cs + [ts[n - 1].channel] else cs
  }

  /** Rounding half away from zero, as a cast from numeric does. */
  function Round(x: real): (r: int)
    ensures x - 0.5 <= r as real <= x + 0.5
    ensures r as real == x + 0.5 ==> x > 0.0
    ensures r as real == x - 0.5 ==> x < 0.0
  {
    if x >= 0.0 then (x + 0.5).Floor else -((0.5 - x).Floor)
  }

  function Average(total: real, count: int): Option<int> {
    if count == 0 then None else Some(Round(total / count as real))
  }

  /** How a summed measure is scaled before it is averaged: to seconds, or to ten-thousandths. */
  function Scaled(sum: int, m: Measure): real {
    if m == Micros then sum as real / MICROS_PER_SECOND else 10000.0 * sum as real
  }

  function GroupRow(ts: seq<Ticket>, day: int, channel: nat): Row {
    var n := |ts|;
    var resolved := GroupSum(ts, n, day, channel, Resolved);
    Row(GroupSum(ts, n, day, channel, Created), resolved, GroupSum(ts, n, day, channel, Closed),
        GroupSum(ts, n, day, channel, Reopened),
        Average(Scaled(GroupSum(ts, n, day, channel, Micros), Micros), resolved),
        Average(Scaled(GroupSum(ts, n, day, channel, Sole), Sole), resolved))
  }

  // ---------------------------------------------------------------- the row for all channels

  /** What one stored row adds to a sum; a missing average adds nothing. */
  function Term(r: Row, m: Measure): int {
    match m
    case Created => r.created
    case Resolved => r.resolved
    case Closed => r.closed
    case Reopened => r.reopened
    case Micros => if r.avgResolution.Some? then r.avgResolution.value * r.resolved else 0
    case Sole => if r.fcr.Some? then r.fcr.value * r.resolved else 0
  }

  function RowSum(rows: seq<Row>, n: nat, m: Measure): int
    requires n <= |rows|
  {
    if n == 0 then 0 else RowSum(rows, n - 1, m) + Term(rows[n - 1], m)
  }

  function AllRow(rows: seq<Row>): Row {
    var n := |rows|;
    var resolved := RowSum(rows, n, Resolved);
    Row(RowSum(rows, n, Created), resolved, RowSum(rows, n, Closed), RowSum(rows, n, Reopened),
        Average(RowSum(rows, n, Micros) as real, resolved), Average(RowSum(rows, n, Sole) as real, resolved))
  }

  function GroupRows(ts: seq<Ticket>, day: int, cs: seq<nat>): seq<Row> {
    seq(|cs|, i requires 0 <= i < |cs| => GroupRow(ts, day, cs[i]))
  }

  // ---------------------------------------------------------------- the groups partition the day's tickets

  ghost predicate Distinct(cs: seq<nat>) {
    forall i, j :: 0 <= i < j < |cs| ==> cs[i] != cs[j]
  }

  lemma {:induction false} ChannelsCover(ts: seq<Ticket>, n: nat, day: int)
    requires n <= |ts|
    ensures Distinct(Channels(ts, n, day))
    ensures forall i :: 0 <= i < n && Touches(ts[i], day) ==> ts[i].channel in Channels(ts, n, day)
    ensures Channels(ts, n, day) == [] <==> forall i :: 0 <= i < n ==> !Touches(ts[i], day)
    decreases n
  {
    if n > 0 {
      ChannelsCover(ts, n - 1, day);
    }
  }

  /** The measure summed over the first k groups. */
  ghost function GroupsSum(ts: seq<Ticket>, n: nat, day: int, cs: seq<nat>, k: nat, m: Measure): int
    requires n <= |ts| && k <= |cs|
  {
    if k == 0 then 0 else GroupsSum(ts, n, day, cs, k - 1, m) + GroupSum(ts, n, day, cs[k - 1], m)
  }

  ghost predicate Has(cs: seq<nat>, k: nat, c: nat)
    requires k <= |cs|
  {
    exists i :: 0 <= i < k && cs[i] == c
  }

  /** A touched ticket counts in exactly one group. */
  lemma {:induction false} TicketCountsOnce(ts: seq<Ticket>, n: nat, day: int, cs: seq<nat>, k: nat, m: Measure)
    requires 0 < n <= |ts| && k <= |cs| && Distinct(cs)
    ensures var t := ts[n - 1];
            GroupsSum(ts, n, day, cs, k, m)
            == GroupsSum(ts, n - 1, day, cs, k, m)
               + (if Touches(t, day) && Has(cs, k, t.channel) then Value(ts, t, day, m) else 0)
    decreases k
  {
    if k > 0 {
      var t := ts[n - 1];
      TicketCountsOnce(ts, n, day, cs, k - 1, m);
      assert Has(cs, k, t.channel) <==> Has(cs, k - 1, t.channel) || cs[k - 1] == t.channel;
      assert Has(cs, k - 1, t.channel) ==> cs[k - 1] != t.channel;
    }
  }

  ghost function TouchedSum(ts: seq<Ticket>, n: nat, day: int, m: Measure): int
    requires n <= |ts|
  {
    if n == 0 then 0
    else TouchedSum(ts, n - 1, day, m) + (if Touches(ts[n - 1], day) then Value(ts, ts[n - 1], day, m) else 0)
  }

  lemma NoTicketsNoSum(ts: seq<Ticket>, day: int, cs: seq<nat>, k: nat, m: Measure)
    requires k <= |cs|
    ensures GroupsSum(ts, 0, day, cs, k, m) == 0
  {
  }

  lemma {:induction false} GroupsPartition(ts: seq<Ticket>, n: nat, day: int, cs: seq<nat>, m: Measure)
    requires n <= |ts| && Distinct(cs)
    requires forall i :: 0 <= i < n && Touches(ts[i], day) ==> ts[i].channel in cs
    ensures GroupsSum(ts, n, day, cs, |cs|, m) == TouchedSum(ts, n, day, m)
    decreases n
  {
    if n == 0 {
      NoTicketsNoSum(ts, day, cs, |cs|, m);
    } else {
      GroupsPartition(ts, n - 1, day, cs, m);
      TicketCountsOnce(ts, n, day, cs, |cs|, m);
      assert Touches(ts[n - 1], day) ==> Has(cs, |cs|, ts[n - 1].channel);
    }
  }

  /** The measure straight from every ticket, with no grouping and no filter. */
  ghost function DirectSum(ts: seq<Ticket>, n: nat, day: int, m: Measure): int
    requires n <= |ts|
  {
    if n == 0 then 0 else DirectSum(ts, n - 1, day, m) + Value(ts, ts[n - 1], day, m)
  }

  /** The filter hides nothing from any measure but the reassignments. */
  lemma {:induction false} FilterIsHarmless(ts: seq<Ticket>, n: nat, day: int, m: Measure)
    requires n <= |ts|
    ensures m != Reopened ==> TouchedSum(ts, n, day, m) == DirectSum(ts, n, day, m)
    ensures m == Reopened ==> TouchedSum(ts, n, day, m) <= DirectSum(ts, n, day, m)
    decreases n
  {
    if n > 0 {
      FilterIsHarmless(ts, n - 1, day, m);
    }
  }

  lemma GroupsAreDirect(ts: seq<Ticket>, day: int, m: Measure)
    requires m != Reopened
    ensures var cs := Channels(ts, |ts|, day);
            GroupsSum(ts, |ts|, day, cs, |cs|, m) == DirectSum(ts, |ts|, day, m)
  {
    ChannelsCover(ts, |ts|, day);
    GroupsPartition(ts, |ts|, day, Channels(ts, |ts|, day), m);
    FilterIsHarmless(ts, |ts|, day, m);
  }

  // ---------------------------------------------------------------- counts are exact

  predicate IsCount(m: Measure) {
    m == Created || m == Resolved || m == Closed || m == Reopened
  }

  lemma {:induction false} CountsAddUp(ts: seq<Ticket>, day: int, cs: seq<nat>, k: nat, m: Measure)
    requires k <= |cs| && IsCount(m)
    ensures RowSum(GroupRows(ts, day, cs), k, m) == GroupsSum(ts, |ts|, day, cs, k, m)
    decreases k
  {
    if k > 0 {
      CountsAddUp(ts, day, cs, k - 1, m);
    }
  }

  // ---------------------------------------------------------------- what is counted

  /** The instants of a day: day times 86,400 seconds, in microseconds, and less than a day later. */
  predicate Within(at: int, day: int) {
    day * 86_400_000_000 <= at < day * 86_400_000_000 + 86_400_000_000
  }

  lemma DaysAreIntervals(at: int, day: int)
    ensures DayOf(at) == day <==> Within(at, day)
  {
  }

  /** Whether a ticket counts for a measure on a day, spelled out. */
  ghost predicate Counts(ts: seq<Ticket>, t: Ticket, day: int, m: Measure) {
    match m
    case Created => Within(t.createdAt, day)
    case Resolved => t.resolvedAt.Some? && Within(t.resolvedAt.value, day)
    case Closed => t.closedAt.Some? && Within(t.closedAt.value, day)
    case Reopened => exists at :: at in t.offlineAt && Within(at, day)
    case Micros => t.resolvedAt.Some? && Within(t.resolvedAt.value, day)
    case Sole =>
      && t.resolvedAt.Some? && Within(t.resolvedAt.value, day)
      && forall i :: 0 <= i < |ts| && ts[i].convo == t.convo ==> ts[i].id == t.id
  }

  lemma ValuesCount(ts: seq<Ticket>, t: Ticket, day: int, m: Measure)
    ensures Value(ts, t, day, m)
            == if !Counts(ts, t, day, m) then 0 else if m == Micros then t.resolvedAt.value - t.createdAt else 1
    ensures Touches(t, day)
            <==> Counts(ts, t, day, Created) || Counts(ts, t, day, Resolved) || Counts(ts, t, day, Closed)
  {
    DaysAreIntervals(t.createdAt, day);
    if t.resolvedAt.Some? {
      DaysAreIntervals(t.resolvedAt.value, day);
    }
    if t.closedAt.Some? {
      DaysAreIntervals(t.closedAt.value, day);
    }
    forall at ensures DayOf(at) == day <==> Within(at, day) {
      DaysAreIntervals(at, day);
    }
    if exists at :: at in t.offlineAt && Within(at, day) {
      var at :| at in t.offlineAt && Within(at, day);
      var k :| 0 <= k < |t.offlineAt| && t.offlineAt[k] == at;
      assert DayOf(t.offlineAt[k]) == day;
    }
  }

  ghost function Where(p: int -> bool, n: nat): set<int> {
    set i | 0 <= i < n && p(i)
  }

  lemma OneMorePlace(p: int -> bool, n: nat)
    requires n > 0
    ensures |Where(p, n)| == |Where(p, n - 1)| + if p(n - 1) then 1 else 0
  {
    assert Where(p, n) == Where(p, n - 1) + if p(n - 1) then {n - 1} else {};
  }

  ghost function CountsAt(ts: seq<Ticket>, day: int, channel: Option<nat>, m: Measure): int -> bool {
    (i: int) => 0 <= i < |ts| && Counts(ts, ts[i], day, m) && (channel.Some? ==> ts[i].channel == channel.value)
  }

  /** The places of the tickets that count, of one channel or of all. */
  ghost function Counted(ts: seq<Ticket>, n: nat, day: int, channel: Option<nat>, m: Measure): set<int> {
    Where(CountsAt(ts, day, channel, m), n)
  }

  /** The sums are numbers of tickets. */
  lemma {:induction false} SumsAreNumbers(ts: seq<Ticket>, n: nat, day: int, channel: nat, m: Measure)
    requires n <= |ts| && m != Micros
    ensures m != Reopened ==> GroupSum(ts, n, day, channel, m) == |Counted(ts, n, day, Some(channel), m)|
    ensures DirectSum(ts, n, day, m) == |Counted(ts, n, day, None, m)|
    decreases n
  {
    if n > 0 {
      SumsAreNumbers(ts, n - 1, day, channel, m);
      ValuesCount(ts, ts[n - 1], day, m);
      OneMorePlace(CountsAt(ts, day, Some(channel), m), n);
      OneMorePlace(CountsAt(ts, day, None, m), n);
    }
  }

  /** A channel's row: how many of its tickets were created, resolved and closed that day. */
  lemma ChannelRowNumbers(ts: seq<Ticket>, day: int, channel: nat)
    ensures var row, n := GroupRow(ts, day, channel), |ts|;
            && row.created == |Counted(ts, n, day, Some(channel), Created)|
            && row.resolved == |Counted(ts, n, day, Some(channel), Resolved)|
            && row.closed == |Counted(ts, n, day, Some(channel), Closed)|
  {
    SumsAreNumbers(ts, |ts|, day, channel, Created);
    SumsAreNumbers(ts, |ts|, day, channel, Resolved);
    SumsAreNumbers(ts, |ts|, day, channel, Closed);
  }

  lemma SoleNumber(ts: seq<Ticket>, day: int, channel: nat)
    ensures Scaled(GroupSum(ts, |ts|, day, channel, Sole), Sole)
            == 10000.0 * |Counted(ts, |ts|, day, Some(channel), Sole)| as real
  {
    SumsAreNumbers(ts, |ts|, day, channel, Sole);
  }

  // ---------------------------------------------------------------- averages are close

  lemma MulMono(a: real, b: real, c: real)
    requires a <= b && c >= 0.0
    ensures a * c <= b * c
  {
  }

  lemma Undivide(total: real, c: real)
    requires c > 0.0
    ensures total / c * c == total
  {
  }

  lemma Spread(x: real, d: real, c: real)
    ensures (x + d) * c == x * c + d * c
  {
  }

  /** x is total / c; a is at most half a unit above, or below. */
  lemma AtMostHalfAbove(total: real, x: real, a: real, c: real)
    requires a <= x + 0.5 && c > 0.0 && x * c == total
    ensures a * c <= total + 0.5 * c
  {
    MulMono(a, x + 0.5, c);
    Spread(x, 0.5, c);
  }

  lemma AtMostHalfBelow(total: real, x: real, a: real, c: real)
    requires x - 0.5 <= a && c > 0.0 && x * c == total
    ensures total - 0.5 * c <= a * c
  {
    MulMono(x - 0.5, a, c);
    Spread(x, -0.5, c);
  }

  /** One rounding moves an average by at most half a unit. */
  lemma RoundedAverage(total: real, count: int)
    requires count > 0
    ensures Average(total, count).Some?
    ensures var a := Average(total, count).value as real;
            Near(a * count as real, total, 0.5 * count as real)
  {
    var a, c := Average(total, count).value as real, count as real;
    var x := total / c;
    Undivide(total, c);
    AtMostHalfAbove(total, x, a, c);
    AtMostHalfBelow(total, x, a, c);
  }

  ghost predicate Near(a: real, b: real, slack: real) {
    b - slack <= a <= b + slack
  }

  lemma {:induction false} ResolvedIsNatural(ts: seq<Ticket>, n: nat, day: int, channel: nat, m: Measure)
    requires n <= |ts| && (m == Micros || m == Sole)
    ensures GroupSum(ts, n, day, channel, Resolved) >= 0
    ensures GroupSum(ts, n, day, channel, Resolved) == 0 ==> GroupSum(ts, n, day, channel, m) == 0
    decreases n
  {
    if n > 0 {
      ResolvedIsNatural(ts, n - 1, day, channel, m);
    }
  }

  /** The average of a row that a measure is carried in. */
  function AverageOf(row: Row, m: Measure): Option<int> {
    if m == Micros then row.avgResolution else row.fcr
  }

  lemma StoredAverageIsNear(row: Row, m: Measure, total: real)
    requires (m == Micros || m == Sole) && row.resolved >= 0 && AverageOf(row, m) == Average(total, row.resolved)
    requires row.resolved == 0 ==> total == 0.0
    ensures Near(Term(row, m) as real, total, 0.5 * row.resolved as real)
  {
    if row.resolved > 0 {
      RoundedAverage(total, row.resolved);
      var a := Average(total, row.resolved).value;
      assert Term(row, m) == a * row.resolved;
      ProductAsReal(a, row.resolved);
    }
  }

  lemma ProductAsReal(a: int, b: int)
    ensures (a * b) as real == a as real * b as real
  {
  }

  lemma TermIsNear(ts: seq<Ticket>, day: int, channel: nat, m: Measure)
    requires m == Micros || m == Sole
    ensures Near(Term(GroupRow(ts, day, channel), m) as real, Scaled(GroupSum(ts, |ts|, day, channel, m), m),
                 0.5 * GroupSum(ts, |ts|, day, channel, Resolved) as real)
  {
    ResolvedIsNatural(ts, |ts|, day, channel, m);
    StoredAverageIsNear(GroupRow(ts, day, channel), m, Scaled(GroupSum(ts, |ts|, day, channel, m), m));
  }

  /** And rounded averages over the resolved ones, each off by at most half a unit: of their age at resolution, in
      seconds; none if none was resolved. */
  lemma ChannelAverageIsAccurate(ts: seq<Ticket>, day: int, channel: nat)
    ensures var row, n := GroupRow(ts, day, channel), |ts|;
            && (row.avgResolution.Some? <==> row.resolved != 0)
            && (row.avgResolution.Some? ==>
                  Near((row.avgResolution.value * row.resolved) as real,
                       GroupSum(ts, n, day, channel, Micros) as real / 1_000_000.0,
                       0.5 * GroupSum(ts, n, day, channel, Resolved) as real))
  {
    TermIsNear(ts, day, channel, Micros);
  }

  /** And of how many are their conversation's only ticket, in ten-thousandths. */
  lemma ChannelRateIsAccurate(ts: seq<Ticket>, day: int, channel: nat)
    ensures var row, n := GroupRow(ts, day, channel), |ts|;
            && (row.fcr.Some? <==> row.resolved != 0)
            && (row.fcr.Some? ==>
                  Near((row.fcr.value * row.resolved) as real,
                       10000.0 * |Counted(ts, n, day, Some(channel), Sole)| as real,
                       0.5 * GroupSum(ts, n, day, channel, Resolved) as real))
  {
    TermIsNear(ts, day, channel, Sole);
    SoleNumber(ts, day, channel);
  }

  lemma ScaledAdds(a: int, b: int, m: Measure)
    ensures Scaled(a + b, m) == Scaled(a, m) + Scaled(b, m)
  {
  }

  /** The errors of the channels add up to at most half a unit per resolved ticket. */
  lemma {:induction false} TermsAreNear(ts: seq<Ticket>, day: int, cs: seq<nat>, k: nat, m: Measure)
    requires k <= |cs| && (m == Micros || m == Sole)
    ensures Near(RowSum(GroupRows(ts, day, cs), k, m) as real, Scaled(GroupsSum(ts, |ts|, day, cs, k, m), m),
                 0.5 * GroupsSum(ts, |ts|, day, cs, k, Resolved) as real)
    decreases k
  {
    if k > 0 {
      TermsAreNear(ts, day, cs, k - 1, m);
      TermIsNear(ts, day, cs[k - 1], m);
      ScaledAdds(GroupsSum(ts, |ts|, day, cs, k - 1, m), GroupSum(ts, |ts|, day, cs[k - 1], m), m);
    }
  }

  lemma DivMono(a: real, b: real, c: real)
    requires a <= b && c > 0.0
    ensures a / c <= b / c
  {
  }

  lemma Quotient(a: real, c: real, q: real)
    requires c > 0.0 && q * c == a
    ensures a / c == q
  {
  }

  /** Averaging near sums: half a unit from the first rounding, half from the second. */
  lemma SecondRounding(sum: int, exact: real, count: int)
    requires count > 0 && Near(sum as real, exact, 0.5 * count as real)
    ensures Average(sum as real, count).Some?
    ensures Near(Average(sum as real, count).value as real, exact / count as real, 1.0)
  {
    var c := count as real;
    var x := exact / c;
    DivMono(exact - 0.5 * c, sum as real, c);
    DivMono(sum as real, exact + 0.5 * c, c);
    Undivide(exact, c);
    Spread(x, 0.5, c);
    Spread(x, -0.5, c);
    Quotient(exact - 0.5 * c, c, x - 0.5);
    Quotient(exact + 0.5 * c, c, x + 0.5);
  }

  lemma {:induction false} DirectResolvedIsNatural(ts: seq<Ticket>, n: nat, day: int)
    requires n <= |ts|
    ensures DirectSum(ts, n, day, Resolved) >= 0
    decreases n
  {
    if n > 0 {
      DirectResolvedIsNatural(ts, n - 1, day);
    }
  }

  /** The row for all channels against the tickets themselves: exact counts; an average resolution within one second
      of the true mean over every ticket resolved that day; a first-contact rate within 0.0001 of the true rate. */
  lemma AllRowIsAccurate(ts: seq<Ticket>, day: int)
    ensures var all := AllRow(GroupRows(ts, day, Channels(ts, |ts|, day)));
            var resolved := DirectSum(ts, |ts|, day, Resolved);
            && all.created == DirectSum(ts, |ts|, day, Created)
            && all.resolved == resolved >= 0
            && all.closed == DirectSum(ts, |ts|, day, Closed)
            && all.reopened == TouchedSum(ts, |ts|, day, Reopened)
            && (resolved == 0 ==> all.avgResolution == None && all.fcr == None)
            && (resolved > 0 ==>
                  && all.avgResolution.Some? && all.fcr.Some?
                  && Near(all.avgResolution.value as real,
                          DirectSum(ts, |ts|, day, Micros) as real / 1_000_000.0 / resolved as real, 1.0)
                  && Near(all.fcr.value as real / 10000.0,
                          DirectSum(ts, |ts|, day, Sole) as real / resolved as real, 0.0001))
  {
    var cs := Channels(ts, |ts|, day);
    var rows := GroupRows(ts, day, cs);
    CountsAddUp(ts, day, cs, |cs|, Created);
    CountsAddUp(ts, day, cs, |cs|, Resolved);
    CountsAddUp(ts, day, cs, |cs|, Closed);
    CountsAddUp(ts, day, cs, |cs|, Reopened);
    GroupsAreDirect(ts, day, Created);
    GroupsAreDirect(ts, day, Resolved);
    GroupsAreDirect(ts, day, Closed);
    ChannelsCover(ts, |ts|, day);
    GroupsPartition(ts, |ts|, day, cs, Reopened);
    DirectResolvedIsNatural(ts, |ts|, day);
    var resolved := DirectSum(ts, |ts|, day, Resolved);
    if resolved > 0 {
      AverageIsAccurate(ts, day, Micros);
      AverageIsAccurate(ts, day, Sole);
      TenThousandths(AllRow(rows).fcr.value as real, DirectSum(ts, |ts|, day, Sole) as real, resolved as real);
    }
  }

  /** What those sums are: numbers of tickets, whatever their channel. */
  lemma DirectSumsAreNumbers(ts: seq<Ticket>, day: int, m: Measure)
    requires m != Micros
    ensures DirectSum(ts, |ts|, day, m) == |Counted(ts, |ts|, day, None, m)|
  {
    SumsAreNumbers(ts, |ts|, day, 0, m);
  }

  lemma AverageIsAccurate(ts: seq<Ticket>, day: int, m: Measure)
    requires (m == Micros || m == Sole) && DirectSum(ts, |ts|, day, Resolved) > 0
    ensures var cs := Channels(ts, |ts|, day);
            var sum := RowSum(GroupRows(ts, day, cs), |cs|, m);
            var resolved := DirectSum(ts, |ts|, day, Resolved);
            && Average(sum as real, resolved).Some?
            && Near(Average(sum as real, resolved).value as real,
                    Scaled(DirectSum(ts, |ts|, day, m), m) / resolved as real, 1.0)
  {
    var cs := Channels(ts, |ts|, day);
    TermsAreNear(ts, day, cs, |cs|, m);
    GroupsAreDirect(ts, day, m);
    GroupsAreDirect(ts, day, Resolved);
    SecondRounding(RowSum(GroupRows(ts, day, cs), |cs|, m), Scaled(DirectSum(ts, |ts|, day, m), m),
                   DirectSum(ts, |ts|, day, Resolved));
  }

  lemma TenThousandths(rate: real, sole: real, resolved: real)
    requires resolved > 0.0 && Near(rate, 10000.0 * sole / resolved, 1.0)
    ensures Near(rate / 10000.0, sole / resolved, 0.0001)
  {
    assert 10000.0 * sole / resolved == 10000.0 * (sole / resolved);
  }
}
