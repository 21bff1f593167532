/** Every series of refresh runs, overlapping or not, each stopped anywhere: internal/analytics/materialise.go. */
module MaterialiseProofs {
  import opened Wrappers
  import opened Rollup
  import opened Materialise

  /** One RefreshTenant call in progress: the today it started on, its loop variable, and whether that day's refresh
      has committed while its cursor update has not. */
  datatype Worker = Worker(today: int, day: int, refreshed: bool)

  /** seed: the cursor that was first inserted. pending: runs that found no cursor and have not inserted one yet,
      with the today they started on; among them those that could not read the cursor there is. */
  datatype State = State(today: int, mart: Mart, seed: Option<int>, pending: map<nat, int>, workers: map<nat, Worker>)

  datatype Event =
    | Midnight
    | Start(w: nat, readFails: bool)
    | Seed(w: nat)
    | Refresh(w: nat)
    | Advance(w: nat)
    | Stop(w: nat)

  function Apply(s: State, ts: seq<Ticket>, e: Event): State {
    match e
    case Midnight => s.(today := s.today + 1)
    // Read the cursor row; a read that fails is taken for a missing row.
    case Start(w, readFails) =>
      if w in s.workers || w in s.pending then s
      else if s.mart.cursor.Some? && !readFails then
        s.(workers := s.workers[w := Worker(s.today, s.mart.cursor.value + 1, false)])
      else s.(pending := s.pending[w := s.today])
    // Insert the seed unless somebody else has; go on from one's own seed either way.
    case Seed(w) =>
      if w !in s.pending then s
      else
        var mine := Some(s.pending[w] - SEED_DAYS);
        var first := s.mart.cursor.None?;
        s.(mart := if first then s.mart.(cursor := mine) else s.mart, seed := if first then mine else s.seed,
           pending := s.pending - {w}, workers := s.workers[w := Worker(s.pending[w], mine.value + 1, false)])
    case Refresh(w) =>
      if w in s.workers && !s.workers[w].refreshed && s.workers[w].day < s.workers[w].today
      then
        s.(mart := s.mart.(rows := Refreshed(s.mart.rows, ts, s.workers[w].day)),
           workers := s.workers[w := s.workers[w].(refreshed := true)])
      else s
    case Advance(w) =>
      if w in s.workers && s.workers[w].refreshed
      then
        s.(mart := s.mart.(cursor := Advanced(s.mart.cursor, s.workers[w].day)),
           workers := s.workers[w := s.workers[w].(day := s.workers[w].day + 1, refreshed := false)])
      else s
    // A failed statement, a crash, or the normal end of a run.
    case Stop(w) => s.(workers := s.workers - {w}, pending := s.pending - {w})
  }

  function Run(s: State, ts: seq<Ticket>, events: seq<Event>): State
    decreases |events|
  {
    if |events| == 0 then s else Run(Apply(s, ts, events[0]), ts, events[1..])
  }

  /** A tenant that was never refreshed; its mart may hold anything. */
  predicate Untouched(s: State) {
    s.mart.cursor == None && s.seed == None && s.pending == map[] && s.workers == map[]
  }

  ghost predicate DaysOk(rows: map<Key, Row>, ts: seq<Ticket>, lo: int, hi: int) {
    forall day :: lo < day <= hi ==> DayOk(rows, ts, day)
  }

  /** A run about to start from its own seed although an earlier cursor is stored and not all the days up to its own
      are right. */
  ghost predicate Overshoots(s: State, ts: seq<Ticket>, e: Event) {
    && e.Seed? && e.w in s.pending && s.mart.cursor.Some?
    && !DaysOk(s.mart.rows, ts, s.mart.cursor.value, s.pending[e.w] - 90)
  }

  ghost predicate Orderly(s: State, ts: seq<Ticket>, events: seq<Event>)
    decreases |events|
  {
    |events| == 0 || (!Overshoots(s, ts, events[0]) && Orderly(Apply(s, ts, events[0]), ts, events[1..]))
  }

  // ---------------------------------------------------------------- the invariant

  /** A run goes on at or behind the cursor, or it is about to start further on and the days between are right. */
  ghost predicate WorkerOk(w: Worker, s: State, ts: seq<Ticket>) {
    && s.mart.cursor.Some? && w.today <= s.today
    && (|| w.day <= s.mart.cursor.value + 1
        || (w.day < w.today && DaysOk(s.mart.rows, ts, s.mart.cursor.value, w.day - 1)))
    && (w.refreshed ==> w.day < w.today && DayOk(s.mart.rows, ts, w.day))
  }

  ghost predicate CursorOk(s: State, ts: seq<Ticket>) {
    && s.seed.Some? == s.mart.cursor.Some?
    && (s.seed.Some? ==>
          s.seed.value <= s.mart.cursor.value < s.today && DaysOk(s.mart.rows, ts, s.seed.value, s.mart.cursor.value))
  }

  ghost predicate Inv(s: State, ts: seq<Ticket>) {
    && CursorOk(s, ts)
    && (forall w :: w in s.workers ==> WorkerOk(s.workers[w], s, ts))
    && (forall w :: w in s.pending ==> s.pending[w] <= s.today)
  }

  lemma RefreshSparesOk(rows: map<Key, Row>, ts: seq<Ticket>, day: int, other: int)
    requires DayOk(rows, ts, other)
    ensures DayOk(Refreshed(rows, ts, day), ts, other)
  {
    RefreshedIsOk(rows, ts, day);
    if other != day {
      var after := Refreshed(rows, ts, day);
      forall scope
        ensures var k := Key(scope, other);
                (k in after <==> k in DayRows(ts, other)) && (k in after ==> after[k] == DayRows(ts, other)[k])
      {
        var k := Key(scope, other);
        assert k in after <==> k in rows;
      }
    }
  }

  lemma RefreshKeepsInv(s: State, ts: seq<Ticket>, w: nat)
    requires Inv(s, ts)
    ensures Inv(Apply(s, ts, Refresh(w)), ts)
  {
    if w in s.workers && !s.workers[w].refreshed && s.workers[w].day < s.workers[w].today {
      var day, s' := s.workers[w].day, Apply(s, ts, Refresh(w));
      RefreshedIsOk(s.mart.rows, ts, day);
      forall other | DayOk(s.mart.rows, ts, other) ensures DayOk(s'.mart.rows, ts, other) {
        RefreshSparesOk(s.mart.rows, ts, day, other);
      }
      forall v | v in s'.workers ensures WorkerOk(s'.workers[v], s', ts) {
        assert WorkerOk(s.workers[v], s, ts);
      }
    }
  }

  lemma AdvanceKeepsInv(s: State, ts: seq<Ticket>, w: nat)
    requires Inv(s, ts)
    ensures Inv(Apply(s, ts, Advance(w)), ts)
  {
    if w in s.workers && s.workers[w].refreshed {
      var s' := Apply(s, ts, Advance(w));
      assert WorkerOk(s.workers[w], s, ts);
      forall v | v in s'.workers ensures WorkerOk(s'.workers[v], s', ts) {
        assert WorkerOk(s.workers[v], s, ts);
      }
    }
  }

  lemma StartKeepsInv(s: State, ts: seq<Ticket>, w: nat, readFails: bool)
    requires Inv(s, ts)
    ensures Inv(Apply(s, ts, Start(w, readFails)), ts)
  {
    var s' := Apply(s, ts, Start(w, readFails));
    forall v | v in s'.workers ensures WorkerOk(s'.workers[v], s', ts) {
      if v in s.workers {
        assert WorkerOk(s.workers[v], s, ts);
      }
    }
  }

  lemma SeedKeepsInv(s: State, ts: seq<Ticket>, w: nat)
    requires Inv(s, ts) && !Overshoots(s, ts, Seed(w))
    ensures Inv(Apply(s, ts, Seed(w)), ts)
  {
    var s' := Apply(s, ts, Seed(w));
    forall v | v in s'.workers ensures WorkerOk(s'.workers[v], s', ts) {
      if v in s.workers {
        assert WorkerOk(s.workers[v], s, ts);
      }
    }
  }

  lemma StepKeepsInv(s: State, ts: seq<Ticket>, e: Event)
    requires Inv(s, ts) && !Overshoots(s, ts, e)
    ensures Inv(Apply(s, ts, e), ts)
  {
    match e
    case Midnight =>
      forall w | w in s.workers ensures WorkerOk(s.workers[w], Apply(s, ts, e), ts) {
        assert WorkerOk(s.workers[w], s, ts);
      }
    case Start(w, readFails) => StartKeepsInv(s, ts, w, readFails);
    case Seed(w) => SeedKeepsInv(s, ts, w);
    case Refresh(w) => RefreshKeepsInv(s, ts, w);
    case Advance(w) => AdvanceKeepsInv(s, ts, w);
    case Stop(w) =>
      forall v | v in s.workers ensures WorkerOk(s.workers[v], Apply(s, ts, e), ts) {
        assert WorkerOk(s.workers[v], s, ts);
      }
  }

  lemma {:induction false} RunKeepsInv(s: State, ts: seq<Ticket>, events: seq<Event>)
    requires Inv(s, ts) && Orderly(s, ts, events)
    ensures Inv(Run(s, ts, events), ts)
    decreases |events|
  {
    if |events| > 0 {
      StepKeepsInv(s, ts, events[0]);
      RunKeepsInv(Apply(s, ts, events[0]), ts, events[1..]);
    }
  }

  // ---------------------------------------------------------------- main results

  /** However many runs overlap, and wherever each of them stops: unless a run overshoots, the cursor stays behind
      today, and every day after the seed up to the cursor holds exactly its roll-up. */
  lemma CursorNeverLies(s: State, ts: seq<Ticket>, events: seq<Event>)
    requires Untouched(s) && Orderly(s, ts, events)
    ensures var s' := Run(s, ts, events);
            s'.mart.cursor.Some? ==>
              && s'.seed.Some? && s'.seed.value <= s'.mart.cursor.value < s'.today
              && forall day :: s'.seed.value < day <= s'.mart.cursor.value ==> DayOk(s'.mart.rows, ts, day)
  {
    RunKeepsInv(s, ts, events);
  }

  /** No run starts while another is between finding no cursor and inserting one, and none fails to read a cursor that
      is more than 90 days old. */
  predicate FirstRunsApart(s: State, ts: seq<Ticket>, events: seq<Event>)
    decreases |events|
  {
    |events| == 0 ||
    (&& (events[0].Start? && s.mart.cursor.None? ==> s.pending == map[])
     && (events[0].Start? && s.mart.cursor.Some? && events[0].readFails ==>
           s.today - 90 <= s.mart.cursor.value)
     && FirstRunsApart(Apply(s, ts, events[0]), ts, events[1..]))
  }

  ghost predicate PendingFits(s: State) {
    && (s.mart.cursor.None? ==> forall v, w :: v in s.pending && w in s.pending ==> v == w)
    && (s.mart.cursor.Some? ==> forall w :: w in s.pending ==> s.pending[w] - 90 <= s.mart.cursor.value)
  }

  /** In particular any series of runs, one after the other, is orderly if every cursor is read or fresh enough; so are
      overlapping runs as long as only one of them seeds. */
  lemma {:induction false} ApartIsOrderly(s: State, ts: seq<Ticket>, events: seq<Event>)
    requires PendingFits(s) && FirstRunsApart(s, ts, events)
    ensures Orderly(s, ts, events)
    decreases |events|
  {
    if |events| > 0 {
      ApartIsOrderly(Apply(s, ts, events[0]), ts, events[1..]);
    }
  }

  /** Some day that the cursor has passed since the seed is not right. */
  ghost predicate CursorLies(s: State, ts: seq<Ticket>) {
    s.seed.Some? && s.mart.cursor.Some? && !DaysOk(s.mart.rows, ts, s.seed.value, s.mart.cursor.value)
  }

  lemma OneDayOn(s: State, ts: seq<Ticket>, w: nat)
    requires w in s.workers && !s.workers[w].refreshed && s.workers[w].day < s.workers[w].today
    ensures var events, day := [Refresh(w), Advance(w)], s.workers[w].day;
            && Orderly(s, ts, events)
            && Run(s, ts, events).seed == s.seed
            && Run(s, ts, events).mart == Mart(Advanced(s.mart.cursor, day), Refreshed(s.mart.rows, ts, day))
  {
    var s1 := Apply(s, ts, Refresh(w));
    var s2 := Apply(s1, ts, Advance(w));
    assert [Refresh(w), Advance(w)][1..] == [Advance(w)] && [Advance(w)][1..] == [];
    assert Run(s1, ts, [Advance(w)]) == Run(s2, ts, []) == s2;
    assert Orderly(s2, ts, []) && Orderly(s1, ts, [Advance(w)]);
  }

  /** From here some orderly run brings the cursor past a day that is not right. */
  ghost predicate CanLie(s: State, ts: seq<Ticket>) {
    exists more :: Orderly(s, ts, more) && CursorLies(Run(s, ts, more), ts)
  }

  lemma SeedIsBehind(s: State, ts: seq<Ticket>)
    requires Inv(s, ts) && s.mart.cursor.Some?
    ensures s.seed.Some? && s.seed.value <= s.mart.cursor.value
  {
  }

  lemma SkippedDay(s: State, ts: seq<Ticket>, w: nat) returns (day: int)
    requires Overshoots(s, ts, Seed(w))
    ensures s.mart.cursor.value < day <= s.pending[w] - 90 && !DayOk(s.mart.rows, ts, day)
  {
    day :| s.mart.cursor.value < day <= s.pending[w] - 90 && !DayOk(s.mart.rows, ts, day);
  }

  lemma LiesAbout(s: State, ts: seq<Ticket>, day: int)
    requires s.seed.Some? && s.mart.cursor.Some? && s.seed.value < day <= s.mart.cursor.value
    requires !DayOk(s.mart.rows, ts, day)
    ensures CursorLies(s, ts)
  {
  }

  /** An overshooting run that completes one day takes the cursor past the wrong day, which keeps whatever rows it
      had. */
  lemma OvershootSkipsADay(s: State, ts: seq<Ticket>, w: nat)
    requires Inv(s, ts) && Overshoots(s, ts, Seed(w))
    ensures var s1 := Apply(s, ts, Seed(w));
            Orderly(s1, ts, [Refresh(w), Advance(w)]) && CursorLies(Run(s1, ts, [Refresh(w), Advance(w)]), ts)
  {
    SeedIsBehind(s, ts);
    var skipped := SkippedDay(s, ts, w);
    var s1 := Apply(s, ts, Seed(w));
    OneDayOn(s1, ts, w);
    RefreshSparesWrong(s.mart.rows, ts, s.pending[w] - 90 + 1, skipped);
    LiesAbout(Run(s1, ts, [Refresh(w), Advance(w)]), ts, skipped);
  }

  lemma OvershootCanLie(s: State, ts: seq<Ticket>, w: nat)
    requires Inv(s, ts) && Overshoots(s, ts, Seed(w))
    ensures CanLie(Apply(s, ts, Seed(w)), ts)
  {
    OvershootSkipsADay(s, ts, w);
  }

  lemma RefreshSparesWrong(rows: map<Key, Row>, ts: seq<Ticket>, day: int, other: int)
    requires day != other && !DayOk(rows, ts, other)
    ensures !DayOk(Refreshed(rows, ts, day), ts, other)
  {
    RefreshedIsOk(rows, ts, day);
    var after := Refreshed(rows, ts, day);
    var scope :| !(var k := Key(scope, other);
                   (k in rows <==> k in DayRows(ts, other)) && (k in rows ==> rows[k] == DayRows(ts, other)[k]));
    var k := Key(scope, other);
    assert (k in after <==> k in rows) && (k in rows ==> after[k] == rows[k]);
  }

  lemma CursorTellsTheTruth(s: State, ts: seq<Ticket>)
    requires Inv(s, ts)
    ensures !CursorLies(s, ts)
  {
  }

  lemma NoOrderlyRunLies(s: State, ts: seq<Ticket>)
    requires Inv(s, ts)
    ensures !CanLie(s, ts)
  {
    forall more | Orderly(s, ts, more) ensures !CursorLies(Run(s, ts, more), ts) {
      RunKeepsInv(s, ts, more);
      CursorTellsTheTruth(Run(s, ts, more), ts);
    }
  }

  /** In every state reached in order, a step allows an orderly continuation with a wrong day behind the cursor if and
      only if it overshoots: a run goes on from its own seed while a day it skips is not right. */
  lemma OvershootIsTheExactDanger(s: State, ts: seq<Ticket>, events: seq<Event>, e: Event)
    requires Untouched(s) && Orderly(s, ts, events)
    ensures var now := Run(s, ts, events); Overshoots(now, ts, e) <==> CanLie(Apply(now, ts, e), ts)
  {
    RunKeepsInv(s, ts, events);
    var now := Run(s, ts, events);
    if Overshoots(now, ts, e) {
      OvershootCanLie(now, ts, e.w);
    } else {
      StepKeepsInv(now, ts, e);
      NoOrderlyRunLies(Apply(now, ts, e), ts);
    }
  }

  lemma RunOne(s: State, ts: seq<Ticket>, e: Event, rest: seq<Event>)
    ensures Run(s, ts, [e] + rest) == Run(Apply(s, ts, e), ts, rest)
    ensures Orderly(s, ts, [e] + rest) <==> !Overshoots(s, ts, e) && Orderly(Apply(s, ts, e), ts, rest)
  {
    assert ([e] + rest)[1..] == rest;
  }

  /** It takes two first runs on either side of midnight: both find no cursor, the earlier one inserts its seed, and the
      day in between is not right unless it was before. */
  lemma OvershootHappens(s: State, ts: seq<Ticket>)
    requires Untouched(s)
    ensures Orderly(s, ts, [Start(1, false), Midnight, Start(2, false), Seed(1)])
    ensures Overshoots(Run(s, ts, [Start(1, false), Midnight, Start(2, false), Seed(1)]), ts, Seed(2))
            <==> !DayOk(s.mart.rows, ts, s.today - 90 + 1)
  {
    var s1 := Apply(s, ts, Start(1, false));
    var s2 := Apply(s1, ts, Midnight);
    var s3 := Apply(s2, ts, Start(2, false));
    var s4 := Apply(s3, ts, Seed(1));
    assert [Start(1, false), Midnight, Start(2, false), Seed(1)]
           == [Start(1, false)] + ([Midnight] + ([Start(2, false)] + ([Seed(1)] + [])));
    RunOne(s, ts, Start(1, false), [Midnight] + ([Start(2, false)] + ([Seed(1)] + [])));
    RunOne(s1, ts, Midnight, [Start(2, false)] + ([Seed(1)] + []));
    RunOne(s2, ts, Start(2, false), [Seed(1)] + []);
    RunOne(s3, ts, Seed(1), []);
    OneDayApart(s4, ts, s.today);
  }

  lemma OneDayApart(s: State, ts: seq<Ticket>, today: int)
    requires 2 in s.pending && s.pending[2] == today + 1 && s.mart.cursor == Some(today - 90)
    ensures Overshoots(s, ts, Seed(2)) <==> !DayOk(s.mart.rows, ts, today - 90 + 1)
  {
  }

  /** So can one run by itself that fails to read a cursor more than 90 days old. */
  lemma BlindRunOvershoots(s: State, ts: seq<Ticket>)
    requires s.workers == map[] && s.pending == map[] && s.mart.cursor.Some?
    ensures Overshoots(Apply(s, ts, Start(0, true)), ts, Seed(0))
            <==> !DaysOk(s.mart.rows, ts, s.mart.cursor.value, s.today - 90)
    ensures !Overshoots(Apply(s, ts, Start(0, false)), ts, Seed(0))
  {
  }

  /** The cursor never moves back, and the seed is set once. */
  lemma {:induction false} CursorNeverRetreats(s: State, ts: seq<Ticket>, events: seq<Event>)
    requires s.mart.cursor.Some?
    ensures var s' := Run(s, ts, events);
            s'.mart.cursor.Some? && s'.mart.cursor.value >= s.mart.cursor.value && s'.seed == s.seed
    decreases |events|
  {
    if |events| > 0 {
      CursorNeverRetreats(Apply(s, ts, events[0]), ts, events[1..]);
    }
  }

  /** Whichever run reaches the end of its loop, every day from the seed to the eve of its start is then right. */
  lemma FinishedRunCoversAllDays(s: State, ts: seq<Ticket>, events: seq<Event>, w: nat)
    requires Untouched(s) && Orderly(s, ts, events)
    ensures var s' := Run(s, ts, events);
            w in s'.workers && s'.workers[w].day >= s'.workers[w].today ==>
              && s'.seed.Some? && s'.mart.cursor.Some? && s'.mart.cursor.value >= s'.workers[w].today - 1
              && forall day :: s'.seed.value < day < s'.workers[w].today ==> DayOk(s'.mart.rows, ts, day)
  {
    RunKeepsInv(s, ts, events);
    var s' := Run(s, ts, events);
    if w in s'.workers {
      assert WorkerOk(s'.workers[w], s', ts);
    }
  }

  // ---------------------------------------------------------------- one run by itself

  /** The steps of one run from `day` on, none of them interrupted by another run. */
  function Script(w: nat, day: int, today: int, stop: Materialise.Stop): seq<Event>
    decreases today - day
  {
    if day >= today || stop == RefreshFails(day) then []
    else if stop == AdvanceFails(day) then [Refresh(w)]
    else [Refresh(w), Advance(w)] + Script(w, day + 1, today, stop)
  }

  /** The RefreshTenant method, which is proved to compute RunOf, is one such worker. */
  lemma {:induction false} RunIsAWorker(s: State, ts: seq<Ticket>, w: nat, day: int, today: int, stop: Materialise.Stop)
    requires w in s.workers && s.workers[w] == Worker(today, day, false)
    ensures Run(s, ts, Script(w, day, today, stop)).mart == RunDays(s.mart, ts, day, today, stop)
    decreases today - day
  {
    var events := Script(w, day, today, stop);
    if day < today && stop != RefreshFails(day) {
      var s1 := Apply(s, ts, Refresh(w));
      assert events[0] == Refresh(w);
      if stop == AdvanceFails(day) {
        assert events[1..] == [];
        assert Run(s1, ts, events[1..]) == s1;
      } else {
        var s2 := Apply(s1, ts, Advance(w));
        assert events[1..][0] == Advance(w) && events[1..][1..] == Script(w, day + 1, today, stop);
        assert Run(s, ts, events) == Run(s1, ts, events[1..]) == Run(s2, ts, Script(w, day + 1, today, stop));
        RunIsAWorker(s2, ts, w, day + 1, today, stop);
      }
    }
  }

  /** Left alone, the rest of a run brings the cursor to yesterday. */
  lemma {:induction false} RunDaysReachesYesterday(m: Mart, ts: seq<Ticket>, day: int, today: int)
    requires m.cursor == Some(day - 1)
    ensures RunDays(m, ts, day, today, Never).cursor == Some(if day <= today then today - 1 else day - 1)
    decreases today - day
  {
    if day < today {
      RunDaysReachesYesterday(DayDone(m, ts, day), ts, day + 1, today);
    }
  }

  /** A completed run leaves the cursor at yesterday, or where it was if that is later; running again the same day
      changes nothing, even if the second run is to fail somewhere. */
  lemma CompletedRunIsIdempotent(m: Mart, ts: seq<Ticket>, today: int, again: Materialise.Stop)
    ensures var done := RunOf(m, ts, today, false, Never);
            && done.cursor == Some(if m.cursor.Some? && m.cursor.value >= today then m.cursor.value else today - 1)
            && RunOf(done, ts, today, false, again) == done
  {
    var seeded := Seeded(m, today);
    RunDaysReachesYesterday(seeded, ts, seeded.cursor.value + 1, today);
  }

  /** Completing what a stopped run left behind gives what an unstopped run from `day` on would have given. */
  ghost predicate CatchesUp(half: Mart, m: Mart, ts: seq<Ticket>, day: int, today: int) {
    half.cursor.Some? && RunDays(half, ts, half.cursor.value + 1, today, Never) == RunDays(m, ts, day, today, Never)
  }

  lemma CatchesUpEarlier(half: Mart, m: Mart, ts: seq<Ticket>, day: int, today: int)
    requires day < today && CatchesUp(half, DayDone(m, ts, day), ts, day + 1, today)
    ensures CatchesUp(half, m, ts, day, today)
  {
    OneDay(m, ts, day, today, Never);
  }

  /** A run that stopped somewhere is made good by the next one: the mart ends as if it had never stopped. */
  lemma {:induction false} ResumedRunCatchesUp(m: Mart, ts: seq<Ticket>, day: int, today: int, stop: Materialise.Stop)
    requires m.cursor == Some(day - 1)
    ensures CatchesUp(RunDays(m, ts, day, today, stop), m, ts, day, today)
    decreases today - day
  {
    if day >= today || stop == RefreshFails(day) {
    } else if stop == AdvanceFails(day) {
      RefreshedDayIsRedone(m, ts, day, today);
    } else {
      ResumedRunCatchesUp(DayDone(m, ts, day), ts, day + 1, today, stop);
      OneDay(m, ts, day, today, stop);
      CatchesUpEarlier(RunDays(m, ts, day, today, stop), m, ts, day, today);
    }
  }

  lemma RefreshedDayIsRedone(m: Mart, ts: seq<Ticket>, day: int, today: int)
    requires m.cursor == Some(day - 1) && day < today
    ensures var half := m.(rows := Refreshed(m.rows, ts, day));
            RunDays(half, ts, day, today, Never) == RunDays(m, ts, day, today, Never)
  {
    var half := m.(rows := Refreshed(m.rows, ts, day));
    RefreshTwice(m.rows, ts, day);
    assert DayDone(half, ts, day) == DayDone(m, ts, day);
  }

  lemma RefreshTwice(rows: map<Key, Row>, ts: seq<Ticket>, day: int)
    ensures Refreshed(Refreshed(rows, ts, day), ts, day) == Refreshed(rows, ts, day)
  {
    forall k | k in DayRows(ts, day) ensures k.day == day {
      DayRowsAreOfTheDay(ts, day, k);
    }
    assert OtherDays(Refreshed(rows, ts, day), day) == OtherDays(rows, day);
  }
}
