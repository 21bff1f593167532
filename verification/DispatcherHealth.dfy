/** What the delivery log and the failure counters say about the attempts, over every run of the webhook workers,
    although each of the statements that write them may fail on its own. */
module DispatcherHealth {
  import opened Deliver
  import opened Dispatcher
  import opened DispatcherProofs

  // ---------------------------------------------------------------- health follows the counted outcomes

  /** The outcomes of one subscription, in order. */
  function Outcomes(rows: seq<Delivery>, n: nat, sub: nat): seq<Class>
    requires n <= |rows|
  {
    if n == 0 then []
    else if rows[n - 1].sub == sub then Outcomes(rows, n - 1, sub) + [rows[n - 1].outcome]
    else Outcomes(rows, n - 1, sub)
  }

  lemma {:induction false} OutcomesPrefix(rows: seq<Delivery>, d: Delivery, n: nat, sub: nat)
    requires n <= |rows|
    ensures Outcomes(rows + [d], n, sub) == Outcomes(rows, n, sub)
    decreases n
  {
    if n > 0 {
      OutcomesPrefix(rows, d, n - 1, sub);
    }
  }

  ghost predicate HealthMatches(start: map<nat, Health>, subs: map<nat, Health>, counted: seq<Delivery>) {
    && subs.Keys == start.Keys
    && forall sub :: sub in start ==> subs[sub] == RecordAll(start[sub], Outcomes(counted, |counted|, sub))
  }

  lemma {:induction false} PublishAllFrame(s: State, targets: seq<nat>, event: nat)
    ensures var s' := PublishAll(s, targets, event);
            && s'.made == s.made && s'.log == s.log && s'.counted == s.counted && s'.subs == s.subs
            && forall i :: i in s'.work ==> s'.work[i].Queued? || (i in s.work && s'.work[i] == s.work[i])
    decreases |targets|
  {
    if |targets| > 0 {
      PublishAllFrame(s, targets[..|targets| - 1], event);
    }
  }

  lemma CountKeepsHealth(start: map<nat, Health>, s: State, row: Delivery)
    requires HealthMatches(start, s.subs, s.counted)
    ensures HealthMatches(start, Counted(s, row).subs, s.counted + [row])
  {
    var s' := Counted(s, row);
    forall sub | sub in start
      ensures s'.subs[sub] == RecordAll(start[sub], Outcomes(s'.counted, |s'.counted|, sub))
    {
      OutcomesPrefix(s.counted, row, |s.counted|, sub);
      RecordAppended(start[sub], Outcomes(s.counted, |s.counted|, sub), row.outcome);
    }
  }

  lemma StepKeepsHealth(start: map<nat, Health>, s: State, e: Event)
    requires HealthMatches(start, s.subs, s.counted)
    ensures HealthMatches(start, Apply(s, e).subs, Apply(s, e).counted)
  {
    if e.FanOut? {
      PublishAllFrame(s, e.targets, e.event);
    } else if e.Count? && Enabled(s, e) && e.ok {
      CountKeepsHealth(start, s, s.work[e.id].row);
    }
  }

  /** Counter and flag of every subscription are what its counted outcomes say, in the order they were counted. */
  lemma {:induction false} HealthFollowsCounts(start: map<nat, Health>, s: State, events: seq<Event>)
    requires HealthMatches(start, s.subs, s.counted)
    ensures HealthMatches(start, Run(s, events).subs, Run(s, events).counted)
    decreases |events|
  {
    if |events| > 0 {
      StepKeepsHealth(start, s, events[0]);
      HealthFollowsCounts(start, Apply(s, events[0]), events[1..]);
    }
  }

  /** A subscription that starts active is active exactly while the outcomes counted for it hold no permanent failure
      and no delivery-free stretch of 50 transient ones. */
  lemma AutoDisableIff(s: State, events: seq<Event>, sub: nat)
    requires Initial(s) && sub in s.subs && s.subs[sub] == Health(true, 0)
    ensures var s' := Run(s, events);
            var cs := Outcomes(s'.counted, |s'.counted|, sub);
            && sub in s'.subs
            && s'.subs[sub].failures == Transients(cs, Since(cs, |cs|), |cs|)
            && (s'.subs[sub].active <==> Permanent !in cs && forall i: nat, j: nat :: !Stretch(cs, i, j))
  {
    HealthFollowsCounts(s.subs, s, events);
    var s' := Run(s, events);
    ActiveIff(Outcomes(s'.counted, |s'.counted|, sub));
  }

  // ---------------------------------------------------------------- log and counters against the attempts

  predicate SameAttempt(a: Delivery, b: Delivery) {
    For(a, b.sub, b.event) && a.attempt == b.attempt
  }

  /** Rows of attempts that were made, none of them twice. */
  ghost predicate Honest(rows: seq<Delivery>, made: seq<Delivery>) {
    && (forall k :: 0 <= k < |rows| ==> rows[k] in made)
    && (forall i, k :: 0 <= i < k < |rows| ==> !SameAttempt(rows[i], rows[k]))
  }

  ghost predicate Absent(rows: seq<Delivery>, row: Delivery) {
    forall k :: 0 <= k < |rows| ==> !SameAttempt(rows[k], row)
  }

  /** Attempts whose insert, or whose counter update, is still to come. */
  ghost predicate PendingAbsent(log: seq<Delivery>, counted: seq<Delivery>, work: map<nat, Item>) {
    && (forall i :: i in work && work[i].Posted? ==> Absent(log, work[i].row))
    && (forall i :: i in work && (work[i].Posted? || work[i].Inserted?) ==> Absent(counted, work[i].row))
  }

  ghost predicate Recorded(s: State) {
    Honest(s.log, s.made) && Honest(s.counted, s.made) && PendingAbsent(s.log, s.counted, s.work)
  }

  lemma {:induction false} LastIsMade(made: seq<Delivery>, n: nat, sub: nat, event: nat)
    requires n <= |made| && Last(made, n, sub, event).Some?
    ensures Last(made, n, sub, event).value in made
    decreases n
  {
    if !For(made[n - 1], sub, event) {
      LastIsMade(made, n - 1, sub, event);
    }
  }

  lemma HonestExtends(rows: seq<Delivery>, made: seq<Delivery>, row: Delivery)
    requires Honest(rows, made) && Absent(rows, row) && row in made
    ensures Honest(rows + [row], made)
  {
  }

  lemma HonestOfMore(rows: seq<Delivery>, made: seq<Delivery>, d: Delivery)
    requires Honest(rows, made)
    ensures Honest(rows, made + [d])
  {
  }

  /** A new attempt has a number no recorded one has. */
  lemma NextIsAbsent(rows: seq<Delivery>, made: seq<Delivery>, d: Delivery)
    requires Honest(rows, made) && MadeOk(made) && Follows(made, |made|, d.sub, d.event, d.attempt, d.startAt)
    ensures Absent(rows, d)
  {
    forall k | 0 <= k < |rows| ensures !SameAttempt(rows[k], d) {
      var i :| 0 <= i < |made| && made[i] == rows[k];
      AttemptsAreOrdinals(made, |made|, i);
    }
  }

  lemma PostKeepsRecorded(s: State, id: nat, response: Response)
    requires Inv(s) && Recorded(s) && id in s.work && s.work[id].Ready?
    ensures Recorded(Apply(s, Post(id, response)))
  {
    var d := RowOf(s.work[id].job, response, s.now);
    assert ItemOk(s.made, s.now, s.work[id]);
    NextIsAbsent(s.log, s.made, d);
    NextIsAbsent(s.counted, s.made, d);
    HonestOfMore(s.log, s.made, d);
    HonestOfMore(s.counted, s.made, d);
  }

  lemma AbsentBesideOther(rows: seq<Delivery>, row: Delivery, d: Delivery)
    requires Absent(rows, d) && !For(row, d.sub, d.event)
    ensures Absent(rows + [row], d)
  {
  }

  lemma RowIsItsJobs(s: State, i: nat)
    requires Inv(s) && i in s.work && (s.work[i].Posted? || s.work[i].Inserted?)
    ensures s.work[i].row in s.made && For(s.work[i].row, s.work[i].job.sub, s.work[i].job.event)
  {
    assert ItemOk(s.made, s.now, s.work[i]);
    LastIsMade(s.made, |s.made|, s.work[i].job.sub, s.work[i].job.event);
  }

  lemma InsertKeepsRecorded(s: State, id: nat, ok: bool)
    requires Inv(s) && Recorded(s) && id in s.work && s.work[id].Posted?
    ensures Recorded(Apply(s, Insert(id, ok)))
  {
    var row, s' := s.work[id].row, Apply(s, Insert(id, ok));
    RowIsItsJobs(s, id);
    if ok {
      HonestExtends(s.log, s.made, row);
      forall i | i in s'.work && s'.work[i].Posted? ensures Absent(s'.log, s'.work[i].row) {
        RowIsItsJobs(s, i);
        assert !SameEvent(s.work[i].job, s.work[id].job);
        AbsentBesideOther(s.log, row, s.work[i].row);
      }
    }
  }

  lemma CountKeepsRecorded(s: State, id: nat, ok: bool)
    requires Inv(s) && Recorded(s) && id in s.work && s.work[id].Inserted?
    ensures Recorded(Apply(s, Count(id, ok)))
  {
    var row, s' := s.work[id].row, Apply(s, Count(id, ok));
    RowIsItsJobs(s, id);
    if ok {
      HonestExtends(s.counted, s.made, row);
      forall i | i in s'.work && (s'.work[i].Posted? || s'.work[i].Inserted?)
        ensures Absent(s'.counted, s'.work[i].row)
      {
        RowIsItsJobs(s, i);
        assert !SameEvent(s.work[i].job, s.work[id].job);
        AbsentBesideOther(s.counted, row, s.work[i].row);
      }
    }
  }

  /** Steps that write no row and answer no request. */
  lemma QuietStepKeepsRecorded(s: State, log: seq<Delivery>, counted: seq<Delivery>, work: map<nat, Item>)
    requires PendingAbsent(log, counted, s.work)
    requires forall i :: i in work && (work[i].Posted? || work[i].Inserted?) ==> i in s.work && s.work[i] == work[i]
    ensures PendingAbsent(log, counted, work)
  {
  }

  lemma StepKeepsRecorded(s: State, e: Event)
    requires Inv(s) && Recorded(s)
    ensures Recorded(Apply(s, e))
  {
    if Enabled(s, e) {
      if e.Post? {
        PostKeepsRecorded(s, e.id, e.response);
      } else if e.Insert? {
        InsertKeepsRecorded(s, e.id, e.ok);
      } else if e.Count? {
        CountKeepsRecorded(s, e.id, e.ok);
      } else {
        if e.FanOut? {
          PublishAllFrame(s, e.targets, e.event);
        }
        QuietStepKeepsRecorded(s, s.log, s.counted, Apply(s, e).work);
      }
    }
  }

  lemma {:induction false} RunKeepsRecorded(s: State, events: seq<Event>)
    requires Inv(s) && Recorded(s) && Orderly(s, events)
    ensures Recorded(Run(s, events))
    decreases |events|
  {
    if |events| > 0 {
      StepKeepsRecorded(s, events[0]);
      StepKeepsInv(s, events[0]);
      RunKeepsRecorded(Apply(s, events[0]), events[1..]);
    }
  }

  /** Log and counters may each miss attempts, but every row and every count stands for an attempt that was made, and
      none for the same one twice. */
  lemma RecordsAreHonest(s: State, events: seq<Event>)
    requires Initial(s) && Orderly(s, events)
    ensures Honest(Run(s, events).log, Run(s, events).made)
    ensures Honest(Run(s, events).counted, Run(s, events).made)
  {
    RunKeepsRecorded(s, events);
  }

  lemma FanOutToOne(s: State, sub: nat, event: nat)
    requires Initial(s)
    ensures var s', j := Apply(s, FanOut([sub], event)), Job(sub, event, 1);
            s' == s.(serial := s.serial + 1, work := map[s.serial := Queued(j)], published := map[j := s.now])
  {
    assert [sub][..0] == [] && PublishAll(s, [], event) == s;
    assert PublishAll(s, [sub], event) == Publish(PublishAll(s, [sub][..0], event), Job(sub, event, 1));
  }

  /** One delivery of a fresh system, its two statements failing or not as given. */
  lemma OneDelivery(s: State, sub: nat, event: nat, response: Response, inserts: bool, counts: bool)
    returns (row: Delivery)
    requires Initial(s) && Active(s, sub)
    ensures var s' := Run(s, [FanOut([sub], event), Load(s.serial), Post(s.serial, response), Insert(s.serial, inserts),
                              Count(s.serial, counts)]);
            && s'.made == [row] && s'.log == (if inserts then [row] else [])
            && s'.counted == if counts then [row] else []
  {
    var id, j := s.serial, Job(sub, event, 1);
    row := RowOf(j, response, s.now);
    RunFive(s, FanOut([sub], event), Load(id), Post(id, response), Insert(id, inserts), Count(id, counts));
    FanOutToOne(s, sub, event);
    var s1 := Apply(s, FanOut([sub], event));
    var s3 := Apply(Apply(s1, Load(id)), Post(id, response));
    assert s3.work[id] == Posted(j, row) && s3.made == [row];
  }

  /** And they can part in any fresh system: an insert that fails while the counter update goes through, and the other
      way round. */
  lemma LogAndCountersCanPart(s: State, sub: nat, event: nat, response: Response)
    requires Initial(s) && Active(s, sub)
    ensures exists events :: var s' := Run(s, events); |s'.log| == 0 && |s'.counted| == |s'.made| == 1
    ensures exists events :: var s' := Run(s, events); |s'.counted| == 0 && |s'.log| == |s'.made| == 1
  {
    var uncounted := OneDelivery(s, sub, event, response, true, false);
    var unlogged := OneDelivery(s, sub, event, response, false, true);
  }

  // ---------------------------------------------------------------- after a disable

  /** Handlers that loaded the subscription and have not sent their request. */
  function ReadyOf(work: map<nat, Item>, sub: nat): set<nat> {
    set i | i in work && work[i].Ready? && work[i].job.sub == sub
  }

  function MadeFor(made: seq<Delivery>, n: nat, sub: nat): nat
    requires n <= |made|
  {
    if n == 0 then 0 else MadeFor(made, n - 1, sub) + (if made[n - 1].sub == sub then 1 else 0)
  }

  lemma {:induction false} MadeForPrefix(made: seq<Delivery>, d: Delivery, n: nat, sub: nat)
    requires n <= |made|
    ensures MadeFor(made + [d], n, sub) == MadeFor(made, n, sub)
    decreases n
  {
    if n > 0 {
      MadeForPrefix(made, d, n - 1, sub);
    }
  }

  function MadeBy(s: State, sub: nat): nat {
    MadeFor(s.made, |s.made|, sub)
  }

  lemma SubsetIsSmaller(a: set<nat>, b: set<nat>)
    requires a <= b
    ensures |a| <= |b|
  {
    assert b == a + (b - a);
  }

  lemma PostSpendsOne(s: State, id: nat, response: Response, sub: nat)
    requires id in s.work && s.work[id].Ready?
    ensures var s' := Apply(s, Post(id, response));
            && ReadyOf(s'.work, sub) == ReadyOf(s.work, sub) - {id}
            && MadeBy(s', sub) == MadeBy(s, sub) + (if id in ReadyOf(s.work, sub) then 1 else 0)
  {
    MadeForPrefix(s.made, RowOf(s.work[id].job, response, s.now), |s.made|, sub);
  }

  lemma NoneGetsReady(s: State, e: Event, sub: nat)
    requires sub in s.subs && !s.subs[sub].active && !e.Post?
    ensures ReadyOf(Apply(s, e).work, sub) <= ReadyOf(s.work, sub) && Apply(s, e).made == s.made
  {
    if e.FanOut? {
      PublishAllFrame(s, e.targets, e.event);
    }
  }

  lemma StaysDisabled(s: State, e: Event, sub: nat)
    requires sub in s.subs && !s.subs[sub].active
    ensures sub in Apply(s, e).subs && !Apply(s, e).subs[sub].active
  {
    if e.FanOut? {
      PublishAllFrame(s, e.targets, e.event);
    }
  }

  lemma StepAfterDisable(s: State, e: Event, sub: nat)
    requires sub in s.subs && !s.subs[sub].active
    ensures var s' := Apply(s, e);
            && sub in s'.subs && !s'.subs[sub].active
            && MadeBy(s', sub) + |ReadyOf(s'.work, sub)| <= MadeBy(s, sub) + |ReadyOf(s.work, sub)|
  {
    StaysDisabled(s, e, sub);
    if e.Post? {
      if Enabled(s, e) {
        PostSpendsOne(s, e.id, e.response, sub);
      }
    } else {
      NoneGetsReady(s, e, sub);
      SubsetIsSmaller(ReadyOf(Apply(s, e).work, sub), ReadyOf(s.work, sub));
    }
  }

  /** Once disabled, a subscription stays disabled, and only handlers that had loaded it before still send their one
      request each, whatever is queued, asleep or fanned out later. */
  lemma {:induction false} DisabledIsFinal(s: State, events: seq<Event>, sub: nat)
    requires sub in s.subs && !s.subs[sub].active
    ensures var s' := Run(s, events);
            && sub in s'.subs && !s'.subs[sub].active
            && MadeBy(s', sub) + |ReadyOf(s'.work, sub)| <= MadeBy(s, sub) + |ReadyOf(s.work, sub)|
    decreases |events|
  {
    if |events| > 0 {
      StepAfterDisable(s, events[0], sub);
      DisabledIsFinal(Apply(s, events[0]), events[1..], sub);
    }
  }

  /** Those handlers can all still send, so the bound is exact. */
  lemma {:induction false} LoadedHandlersStillSend(s: State, sub: nat) returns (events: seq<Event>)
    ensures MadeBy(Run(s, events), sub) == MadeBy(s, sub) + |ReadyOf(s.work, sub)|
    decreases |ReadyOf(s.work, sub)|
  {
    if |ReadyOf(s.work, sub)| == 0 {
      events := [];
    } else {
      var id :| id in ReadyOf(s.work, sub);
      PostSpendsOne(s, id, Status(200), sub);
      var rest := LoadedHandlersStillSend(Apply(s, Post(id, Status(200))), sub);
      events := [Post(id, Status(200))] + rest;
      RunFirst(s, Post(id, Status(200)), rest);
    }
  }
}
