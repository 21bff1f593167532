/** The nightly refresh of one tenant's mart: internal/analytics/materialise.go.

    Days are numbered from the epoch. The tickets are fixed for the time the runs last. */
module Materialise {
  import opened Wrappers
  import opened Rollup

  const SEED_DAYS := 90

  datatype Scope = All | Channel(id: nat)

  datatype Key = Key(scope: Scope, day: int)

  datatype Mart = Mart(cursor: Option<int>, rows: map<Key, Row>)

  function ChannelKeys(ts: seq<Ticket>, day: int): set<Key> {
    set c | c in Channels(ts, |ts|, day) :: Key(Channel(c), day)
  }

  function ChannelRows(ts: seq<Ticket>, day: int): map<Key, Row> {
    map k | k in ChannelKeys(ts, day) :: GroupRow(ts, day, k.scope.id)
  }

  /** What mart_tickets_daily should hold for one day. */
  function DayRows(ts: seq<Ticket>, day: int): map<Key, Row> {
    var cs := Channels(ts, |ts|, day);
    if |cs| == 0 then map[] else ChannelRows(ts, day)[Key(All, day) := AllRow(GroupRows(ts, day, cs))]
  }

  function OtherDays(rows: map<Key, Row>, day: int): map<Key, Row> {
    map k | k in rows && k.day != day :: rows[k]
  }

  /** The day's rows are exactly its roll-up: none missing, none stale, none extra. */
  ghost predicate DayOk(rows: map<Key, Row>, ts: seq<Ticket>, day: int) {
    forall scope :: var k := Key(scope, day);
                    && (k in rows <==> k in DayRows(ts, day))
                    && (k in rows ==> rows[k] == DayRows(ts, day)[k])
  }

  /** The one transaction of refreshDay, committed. */
  function Refreshed(rows: map<Key, Row>, ts: seq<Ticket>, day: int): map<Key, Row> {
    OtherDays(rows, day) + DayRows(ts, day)
  }

  /** The guarded update of the cursor row, if there is one. */
  function Advanced(cursor: Option<int>, day: int): Option<int> {
    if cursor.Some? && cursor.value < day then Some(day) else cursor
  }

  function DayDone(m: Mart, ts: seq<Ticket>, day: int): Mart {
    Mart(Advanced(m.cursor, day), Refreshed(m.rows, ts, day))
  }

  /** Where a run stops early: before a day's refresh commits, or after it but before the cursor moves. */
  datatype Stop = Never | SeedFails | RefreshFails(day: int) | AdvanceFails(day: int)

  /** One day of a run, as far as it gets. */
  function AfterDay(m: Mart, ts: seq<Ticket>, day: int, stop: Stop): Mart {
    if stop == RefreshFails(day) then m
    else if stop == AdvanceFails(day) then m.(rows := Refreshed(m.rows, ts, day))
    else DayDone(m, ts, day)
  }

  /** The rest of a run, from `day` on. */
  function RunDays(m: Mart, ts: seq<Ticket>, day: int, today: int, stop: Stop): Mart
    decreases today - day
  {
    if day >= today then m
    else if stop == RefreshFails(day) || stop == AdvanceFails(day) then AfterDay(m, ts, day, stop)
    else RunDays(AfterDay(m, ts, day, stop), ts, day + 1, today, stop)
  }

  lemma OneDay(m: Mart, ts: seq<Ticket>, day: int, today: int, stop: Stop)
    requires day < today
    ensures RunDays(m, ts, day, today, stop)
            == if stop == RefreshFails(day) || stop == AdvanceFails(day) then AfterDay(m, ts, day, stop)
               else RunDays(AfterDay(m, ts, day, stop), ts, day + 1, today, stop)
  {
  }

  /** INSERT ... ON CONFLICT DO NOTHING of the seed. */
  function Seeded(m: Mart, today: int): Mart {
    if m.cursor.Some? then m else m.(cursor := Some(today - SEED_DAYS))
  }

  /** A run of RefreshTenant. A cursor that cannot be read is taken for a missing one: the run then starts from its
      own seed, whatever is stored. */
  function RunOf(m: Mart, ts: seq<Ticket>, today: int, readFails: bool, stop: Stop): Mart {
    if m.cursor.Some? && !readFails then RunDays(m, ts, m.cursor.value + 1, today, stop)
    else if stop.SeedFails? then m
    else RunDays(Seeded(m, today), ts, today - SEED_DAYS + 1, today, stop)
  }

  predicate Stored(rows: map<Key, Row>, cs: seq<nat>, day: int) {
    forall i :: 0 <= i < |cs| ==> Key(Channel(cs[i]), day) in rows
  }

  /** The rows of one day that the roll-up query reads back. */
  function StoredRows(rows: map<Key, Row>, cs: seq<nat>, day: int): seq<Row>
    requires Stored(rows, cs, day)
  {
    seq(|cs|, i requires 0 <= i < |cs| => rows[Key(Channel(cs[i]), day)])
  }

  lemma InsertedRowsAreRead(before: map<Key, Row>, ts: seq<Ticket>, day: int)
    ensures var cs, rows := Channels(ts, |ts|, day), before + ChannelRows(ts, day);
            Stored(rows, cs, day) && StoredRows(rows, cs, day) == GroupRows(ts, day, cs)
  {
    var cs := Channels(ts, |ts|, day);
    forall i | 0 <= i < |cs| ensures Key(Channel(cs[i]), day) in ChannelRows(ts, day) {
      assert cs[i] in cs;
    }
  }

  lemma NoChannelsNoRows(ts: seq<Ticket>, day: int)
    requires |Channels(ts, |ts|, day)| == 0
    ensures ChannelRows(ts, day) == map[]
  {
  }

  lemma LateInsert(before: map<Key, Row>, inserted: map<Key, Row>, k: Key, row: Row)
    ensures (before + inserted)[k := row] == before + inserted[k := row]
  {
  }

  /** A ticket of the channel was created, resolved or closed on the day. */
  ghost predicate HasWork(ts: seq<Ticket>, day: int, channel: nat) {
    exists t :: t in ts && t.channel == channel && Touches(t, day)
  }

  lemma {:induction false} ChannelsHaveWork(ts: seq<Ticket>, n: nat, day: int)
    requires n <= |ts|
    ensures forall c :: c in Channels(ts, n, day) <==> HasWork(ts[..n], day, c)
    decreases n
  {
    if n > 0 {
      ChannelsHaveWork(ts, n - 1, day);
      assert ts[..n] == ts[..n - 1] + [ts[n - 1]];
      forall c ensures HasWork(ts[..n], day, c)
                       <==> HasWork(ts[..n - 1], day, c) || (ts[n - 1].channel == c && Touches(ts[n - 1], day))
      {
        if ts[n - 1].channel == c && Touches(ts[n - 1], day) {
          assert ts[n - 1] in ts[..n];
        }
      }
    }
  }

  lemma DayRowsMean(ts: seq<Ticket>, day: int)
    ensures forall c :: Key(Channel(c), day) in DayRows(ts, day) <==> HasWork(ts, day, c)
    ensures forall c :: Key(Channel(c), day) in DayRows(ts, day) ==>
              DayRows(ts, day)[Key(Channel(c), day)] == GroupRow(ts, day, c)
    ensures Key(All, day) in DayRows(ts, day) <==> exists c :: HasWork(ts, day, c)
    ensures Key(All, day) in DayRows(ts, day) ==>
              DayRows(ts, day)[Key(All, day)] == AllRow(GroupRows(ts, day, Channels(ts, |ts|, day)))
  {
    var cs := Channels(ts, |ts|, day);
    ChannelsHaveWork(ts, |ts|, day);
    assert ts[..|ts|] == ts;
    if |cs| > 0 {
      assert cs[0] in cs;
      forall c ensures Key(Channel(c), day) in ChannelRows(ts, day) <==> c in cs {
        assert Key(Channel(c), day) in ChannelKeys(ts, day) <==> c in cs;
      }
    }
  }

  class Materialiser {
    const tickets: seq<Ticket>
    var cursor: Option<int>
    var rows: map<Key, Row>

    constructor (tickets: seq<Ticket>)
      ensures this.tickets == tickets && Snapshot() == Mart(None, map[])
    {
      this.tickets := tickets;
      cursor, rows := None, map[];
    }

    function Snapshot(): Mart
      reads this
    {
      Mart(cursor, rows)
    }

    /** Delete the day, insert the channels, then build the row for all channels from the rows just inserted. */
    method RefreshDay(day: int)
      modifies this`rows
      ensures rows == Refreshed(old(rows), tickets, day)
      ensures forall k: Key :: k.day != day ==>
                (k in rows <==> k in old(rows)) && (k in rows && k in old(rows) ==> rows[k] == old(rows)[k])
      ensures forall c :: Key(Channel(c), day) in rows <==> HasWork(tickets, day, c)
      ensures forall c :: Key(Channel(c), day) in rows ==> rows[Key(Channel(c), day)] == GroupRow(tickets, day, c)
      ensures Key(All, day) in rows <==> exists c :: HasWork(tickets, day, c)
      ensures Key(All, day) in rows ==>
                rows[Key(All, day)] == AllRow(GroupRows(tickets, day, Channels(tickets, |tickets|, day)))
    {
      DayRowsMean(tickets, day);
      RefreshedIsOk(rows, tickets, day);
      ghost var before := OtherDays(rows, day);
      rows := OtherDays(rows, day);
      rows := rows + ChannelRows(tickets, day);
      var cs := Channels(tickets, |tickets|, day);
      InsertedRowsAreRead(before, tickets, day);
      if |cs| > 0 {
        var all := AllRow(StoredRows(rows, cs, day));
        LateInsert(before, ChannelRows(tickets, day), Key(All, day), all);
        rows := rows[Key(All, day) := all];
      } else {
        NoChannelsNoRows(tickets, day);
      }
    }

    method AdvanceCursor(day: int)
      modifies this`cursor
      ensures cursor == Advanced(old(cursor), day)
    {
      if cursor.Some? && cursor.value < day {
        cursor := Some(day);
      }
    }

    /** The cursor a run starts from, or None if even the seed cannot be inserted. */
    method ReadCursor(today: int, readFails: bool, seedFails: bool) returns (start: Option<int>)
      modifies this`cursor
      ensures old(cursor).Some? && !readFails ==> start == old(cursor) && cursor == old(cursor)
      ensures !(old(cursor).Some? && !readFails) ==>
                && start == (if seedFails then None else Some(today - 90))
                && cursor == (if old(cursor).None? && !seedFails then Some(today - 90) else old(cursor))
    {
      if cursor.Some? && !readFails {
        return cursor;
      }
      if seedFails {
        return None;
      }
      if cursor.None? {
        cursor := Some(today - SEED_DAYS);
      }
      return Some(today - SEED_DAYS);
    }

    /** The body of the day loop. */
    method ProcessDay(day: int, stop: Stop) returns (ok: bool)
      modifies this
      ensures Snapshot() == AfterDay(old(Snapshot()), tickets, day, stop)
      ensures ok <==> stop != RefreshFails(day) && stop != AdvanceFails(day)
    {
      if stop == RefreshFails(day) {
        return false;
      }
      RefreshDay(day);
      if stop == AdvanceFails(day) {
        return false;
      }
      AdvanceCursor(day);
      return true;
    }

    method RefreshDays(first: int, today: int, stop: Stop) returns (ok: bool)
      modifies this
      ensures Snapshot() == RunDays(old(Snapshot()), tickets, first, today, stop)
      ensures stop.Never? ==> ok
    {
      var day := first;
      ghost var goal := RunDays(Snapshot(), tickets, first, today, stop);
      while day < today
        invariant RunDays(Snapshot(), tickets, day, today, stop) == goal
        decreases today - day
      {
        OneDay(Snapshot(), tickets, day, today, stop);
        ok := ProcessDay(day, stop);
        if !ok {
          return;
        }
        day := day + 1;
      }
      return true;
    }

    method RefreshTenant(today: int, readFails: bool, stop: Stop) returns (ok: bool)
      modifies this
      ensures Snapshot() == RunOf(old(Snapshot()), tickets, today, readFails, stop)
      ensures stop.Never? ==> ok
    {
      var start := ReadCursor(today, readFails, stop.SeedFails?);
      if start.None? {
        return false;
      }
      ok := RefreshDays(start.value + 1, today, stop);
    }
  }

  lemma DayRowsAreOfTheDay(ts: seq<Ticket>, day: int, k: Key)
    requires k in DayRows(ts, day)
    ensures k.day == day
  {
  }

  /** A refresh makes its day right, whatever was there, and leaves every other day alone. */
  lemma RefreshedIsOk(rows: map<Key, Row>, ts: seq<Ticket>, day: int)
    ensures DayOk(Refreshed(rows, ts, day), ts, day)
    ensures forall k: Key :: k.day != day ==> (k in Refreshed(rows, ts, day) <==> k in rows)
    ensures forall k: Key :: k in rows && k.day != day ==> Refreshed(rows, ts, day)[k] == rows[k]
  {
    forall k | k in DayRows(ts, day) ensures k.day == day {
      DayRowsAreOfTheDay(ts, day, k);
    }
  }
}
