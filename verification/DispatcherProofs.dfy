/** Bounded, spaced and numbered retries over every run of the webhook workers. */
module DispatcherProofs {
  import opened Wrappers
  import opened Deliver
  import opened Dispatcher

  // ---------------------------------------------------------------- reading the attempts

  predicate For(d: Delivery, sub: nat, event: nat) {
    d.sub == sub && d.event == event
  }

  /** Attempts for (sub, event) among the first n. */
  function Attempts(made: seq<Delivery>, n: nat, sub: nat, event: nat): nat
    requires n <= |made|
  {
    if n == 0 then 0 else Attempts(made, n - 1, sub, event) + (if For(made[n - 1], sub, event) then 1 else 0)
  }

  function Last(made: seq<Delivery>, n: nat, sub: nat, event: nat): Option<Delivery>
    requires n <= |made|
  {
    if n == 0 then None else if For(made[n - 1], sub, event) then Some(made[n - 1]) else Last(made, n - 1, sub, event)
  }

  lemma {:induction false} MadePrefix(made: seq<Delivery>, d: Delivery, n: nat, sub: nat, event: nat)
    requires n <= |made|
    ensures Attempts(made + [d], n, sub, event) == Attempts(made, n, sub, event)
    ensures Last(made + [d], n, sub, event) == Last(made, n, sub, event)
    decreases n
  {
    if n > 0 {
      MadePrefix(made, d, n - 1, sub, event);
    }
  }

  lemma MadeAppended(made: seq<Delivery>, d: Delivery, sub: nat, event: nat)
    ensures Attempts(made + [d], |made| + 1, sub, event)
            == Attempts(made, |made|, sub, event) + (if For(d, sub, event) then 1 else 0)
    ensures Last(made + [d], |made| + 1, sub, event)
            == if For(d, sub, event) then Some(d) else Last(made, |made|, sub, event)
  {
    MadePrefix(made, d, |made|, sub, event);
  }

  /** May attempt `attempt` for (sub, event) come next after the first n, not before `at`? */
  predicate Follows(made: seq<Delivery>, n: nat, sub: nat, event: nat, attempt: int, at: int)
    requires n <= |made|
  {
    && attempt == Attempts(made, n, sub, event) + 1 && attempt <= MAX_ATTEMPTS
    && (attempt > 1 ==>
          var last := Last(made, n, sub, event);
          last.Some? && last.value.outcome == Transient && at >= last.value.startAt + Backoff(attempt))
  }

  ghost predicate MadeOk(made: seq<Delivery>) {
    forall k :: 0 <= k < |made| ==> Follows(made, k, made[k].sub, made[k].event, made[k].attempt, made[k].startAt)
  }

  lemma MadeOkExtends(made: seq<Delivery>, d: Delivery)
    requires MadeOk(made) && Follows(made, |made|, d.sub, d.event, d.attempt, d.startAt)
    ensures MadeOk(made + [d])
  {
    var after := made + [d];
    forall k | 0 <= k < |after|
      ensures Follows(after, k, after[k].sub, after[k].event, after[k].attempt, after[k].startAt)
    {
      MadePrefix(made, d, k, after[k].sub, after[k].event);
    }
  }

  // ---------------------------------------------------------------- the invariant

  /** The job's attempt is the newest one made for its event, by this very item. */
  predicate IsNewest(made: seq<Delivery>, j: Job, row: Delivery, now: int) {
    && row == Delivery(j.sub, j.event, j.attempt, row.outcome, row.startAt) && row.startAt <= now
    && 1 <= j.attempt == Attempts(made, |made|, j.sub, j.event)
    && Last(made, |made|, j.sub, j.event) == Some(row)
  }

  predicate ItemOk(made: seq<Delivery>, now: int, item: Item) {
    match item
    case Queued(j) => Follows(made, |made|, j.sub, j.event, j.attempt, now)
    case Ready(j) => Follows(made, |made|, j.sub, j.event, j.attempt, now)
    case Posted(j, row) => IsNewest(made, j, row, now)
    case Inserted(j, row) => IsNewest(made, j, row, now)
    case Recorded(j, row) => IsNewest(made, j, row, now)
    case Sleeping(j, wakeAt) => j.attempt > 1 && Follows(made, |made|, j.sub, j.event, j.attempt, wakeAt)
  }

  ghost predicate ItemsOk(made: seq<Delivery>, now: int, work: map<nat, Item>) {
    forall i :: i in work ==> ItemOk(made, now, work[i])
  }

  predicate SameEvent(a: Job, b: Job) {
    a.sub == b.sub && a.event == b.event
  }

  /** At most one message, handler or timer is alive per (sub, event). */
  ghost predicate OneAlive(work: map<nat, Item>) {
    forall i, k :: i in work && k in work && i != k ==> !SameEvent(work[i].job, work[k].job)
  }

  /** Whatever exists of an event began with the publication of its first attempt. */
  ghost predicate IdsOk(made: seq<Delivery>, work: map<nat, Item>, published: map<Job, int>) {
    && (forall k :: 0 <= k < |made| ==> Job(made[k].sub, made[k].event, 1) in published)
    && (forall i :: i in work ==> Job(work[i].job.sub, work[i].job.event, 1) in published)
  }

  ghost predicate SerialsOk(serial: nat, work: map<nat, Item>) {
    forall i :: i in work ==> i < serial
  }

  ghost predicate Inv(s: State) {
    && MadeOk(s.made)
    && ItemsOk(s.made, s.now, s.work)
    && OneAlive(s.work)
    && IdsOk(s.made, s.work, s.published)
    && SerialsOk(s.serial, s.work)
  }

  /** Something of the event is alive, or was attempted. */
  ghost predicate Trace(s: State, sub: nat, event: nat) {
    || Attempts(s.made, |s.made|, sub, event) > 0
    || exists i :: i in s.work && SameEvent(s.work[i].job, Job(sub, event, 1))
  }

  /** The stream has forgotten the id of an event it has already taken up. */
  ghost predicate Repeats(s: State, sub: nat, event: nat) {
    !Duplicate(s, Job(sub, event, 1)) && Trace(s, sub, event)
  }

  ghost predicate RepeatsAny(s: State, targets: seq<nat>, event: nat) {
    |targets| > 0 &&
    (RepeatsAny(s, targets[..|targets| - 1], event)
     || Repeats(PublishAll(s, targets[..|targets| - 1], event), targets[|targets| - 1], event))
  }

  ghost predicate RepeatsBy(s: State, e: Event) {
    e.FanOut? && RepeatsAny(s, e.targets, e.event)
  }

  /** No fan-out of the run repeats an event. */
  ghost predicate Orderly(s: State, events: seq<Event>)
    decreases |events|
  {
    |events| == 0 || (!RepeatsBy(s, events[0]) && Orderly(Apply(s, events[0]), events[1..]))
  }

  // ---------------------------------------------------------------- steps

  /** Replacing an item by one of the same event that is in order. */
  lemma MoveKeepsInv(s: State, id: nat, item: Item)
    requires Inv(s) && id in s.work && SameEvent(item.job, s.work[id].job) && ItemOk(s.made, s.now, item)
    ensures Inv(s.(work := s.work[id := item]))
  {
  }

  lemma DropKeepsInv(s: State, id: nat)
    requires Inv(s)
    ensures Inv(s.(work := s.work - {id}))
  {
  }

  lemma PublishKeepsInv(s: State, j: Job)
    requires Inv(s)
    requires !Duplicate(s, j) ==>
               && Follows(s.made, |s.made|, j.sub, j.event, j.attempt, s.now)
               && (forall i :: i in s.work ==> !SameEvent(s.work[i].job, j))
               && (j.attempt == 1 || Job(j.sub, j.event, 1) in s.published)
    ensures Inv(Publish(s, j))
  {
  }

  lemma {:induction false} FanOutKeepsInv(s: State, targets: seq<nat>, event: nat)
    requires Inv(s) && !RepeatsAny(s, targets, event)
    ensures Inv(PublishAll(s, targets, event))
    decreases |targets|
  {
    if |targets| > 0 {
      var init, sub := targets[..|targets| - 1], targets[|targets| - 1];
      FanOutKeepsInv(s, init, event);
      var mid := PublishAll(s, init, event);
      assert !Duplicate(mid, Job(sub, event, 1)) ==> !Trace(mid, sub, event);
      PublishKeepsInv(mid, Job(sub, event, 1));
    }
  }

  lemma WakeKeepsInv(s: State, id: nat)
    requires Inv(s) && id in s.work && s.work[id].Sleeping? && s.work[id].wakeAt <= s.now
    ensures Inv(Publish(s.(work := s.work - {id}), s.work[id].job))
  {
    DropKeepsInv(s, id);
    PublishKeepsInv(s.(work := s.work - {id}), s.work[id].job);
  }

  lemma AdvanceKeepsInv(s: State, seconds: nat)
    requires Inv(s)
    ensures Inv(s.(now := s.now + seconds))
  {
  }

  lemma OtherItemKeeps(made: seq<Delivery>, now: int, item: Item, d: Delivery)
    requires ItemOk(made, now, item) && !For(d, item.job.sub, item.job.event)
    ensures ItemOk(made + [d], now, item)
  {
    MadeAppended(made, d, item.job.sub, item.job.event);
  }

  /** The attempt of a ready item continues the numbering; items of other events are not affected. */
  lemma PostKeepsInv(s: State, id: nat, response: Response)
    requires Inv(s) && id in s.work && s.work[id].Ready?
    ensures Inv(Apply(s, Post(id, response)))
  {
    var j := s.work[id].job;
    var d := RowOf(j, response, s.now);
    var s' := Apply(s, Post(id, response));
    MadeOkExtends(s.made, d);
    MadeAppended(s.made, d, j.sub, j.event);
    forall i | i in s'.work ensures ItemOk(s'.made, s'.now, s'.work[i]) {
      if i != id {
        assert !SameEvent(s.work[i].job, j);
        OtherItemKeeps(s.made, s.now, s.work[i], d);
      }
    }
  }

  lemma FinishKeepsInv(s: State, id: nat)
    requires Inv(s) && id in s.work && s.work[id].Recorded?
    ensures Inv(Finished(s, id))
  {
    var j := s.work[id].job;
    if s.work[id].row.outcome == Transient && j.attempt + 1 <= MAX_ATTEMPTS {
      assert ItemOk(s.made, s.now, s.work[id]);
      MoveKeepsInv(s, id, Sleeping(j.(attempt := j.attempt + 1), s.now + Backoff(j.attempt + 1)));
    } else {
      DropKeepsInv(s, id);
    }
  }

  lemma InvIgnoresRecords(s: State, log: seq<Delivery>, counted: seq<Delivery>, subs: map<nat, Health>)
    requires Inv(s)
    ensures Inv(s.(log := log, counted := counted, subs := subs))
  {
  }

  /** The two recording statements move the item along, whether they succeed or not. */
  lemma RecordingKeepsInv(s: State, e: Event)
    requires Inv(s) && (e.Insert? || e.Count?) && Enabled(s, e)
    ensures Inv(Apply(s, e))
  {
    var j, row, s' := s.work[e.id].job, s.work[e.id].row, Apply(s, e);
    assert ItemOk(s.made, s.now, s.work[e.id]);
    MoveKeepsInv(s, e.id, if e.Insert? then Inserted(j, row) else Recorded(j, row));
    InvIgnoresRecords(s.(work := s'.work), s'.log, s'.counted, s'.subs);
  }

  lemma LoadKeepsInv(s: State, id: nat)
    requires Inv(s) && id in s.work && s.work[id].Queued?
    ensures Inv(Apply(s, Load(id)))
  {
    assert ItemOk(s.made, s.now, s.work[id]);
    if Active(s, s.work[id].job.sub) {
      MoveKeepsInv(s, id, Ready(s.work[id].job));
    } else {
      DropKeepsInv(s, id);
    }
  }

  lemma StepKeepsInv(s: State, e: Event)
    requires Inv(s) && !RepeatsBy(s, e)
    ensures Inv(Apply(s, e))
  {
    if Enabled(s, e) {
      match e
      case Advance(seconds) => AdvanceKeepsInv(s, seconds);
      case FanOut(targets, event) => FanOutKeepsInv(s, targets, event);
      case Load(id) => LoadKeepsInv(s, id);
      case Post(id, response) => PostKeepsInv(s, id, response);
      case Insert(_, _) => RecordingKeepsInv(s, e);
      case Count(_, _) => RecordingKeepsInv(s, e);
      case Finish(id) => FinishKeepsInv(s, id);
      case Wake(id) => WakeKeepsInv(s, id);
      case Lose(id) => DropKeepsInv(s, id);
    }
  }

  lemma {:induction false} RunKeepsInv(s: State, events: seq<Event>)
    requires Inv(s) && Orderly(s, events)
    ensures Inv(Run(s, events))
    decreases |events|
  {
    if |events| > 0 {
      StepKeepsInv(s, events[0]);
      RunKeepsInv(Apply(s, events[0]), events[1..]);
    }
  }

  // ---------------------------------------------------------------- main results

  /** The k-th attempt for a subscription and event is numbered k, and there are at most five. */
  ghost predicate Numbered(made: seq<Delivery>) {
    forall k :: 0 <= k < |made| ==>
      made[k].attempt == Attempts(made, k, made[k].sub, made[k].event) + 1 && made[k].attempt <= 5
  }

  lemma {:induction false} AttemptsAreOrdinals(made: seq<Delivery>, n: nat, i: nat)
    requires MadeOk(made) && i < n <= |made|
    ensures 1 <= made[i].attempt <= Attempts(made, n, made[i].sub, made[i].event)
    ensures made[i].attempt == Attempts(made, n, made[i].sub, made[i].event) ==>
              Last(made, n, made[i].sub, made[i].event) == Some(made[i])
    decreases n
  {
    assert Follows(made, i, made[i].sub, made[i].event, made[i].attempt, made[i].startAt);
    if i < n - 1 {
      AttemptsAreOrdinals(made, n - 1, i);
    }
  }

  lemma RetriesAreSpaced(made: seq<Delivery>, i: nat, k: nat)
    requires MadeOk(made) && i < k < |made| && For(made[k], made[i].sub, made[i].event)
    ensures made[i].attempt < made[k].attempt
    ensures made[k].attempt == made[i].attempt + 1 ==>
              made[i].outcome == Transient && made[k].startAt - made[i].startAt >= Pause(made[i].attempt)
  {
    AttemptsAreOrdinals(made, k, i);
    WaitsInSeconds(made[k].attempt);
    assert Follows(made, k, made[k].sub, made[k].event, made[k].attempt, made[k].startAt);
  }

  /** In every run whose fan-outs repeat no event, with any number of workers, failing statements, lost messages and
      dying handlers: the k-th attempt for a subscription and event is numbered k, there are at most five, and attempt
      n+1 happens only after attempt n failed transiently, at least min(4^n, 300) seconds later. So nothing follows
      a delivery or a permanent failure. */
  lemma RetriesAreBoundedAndSpaced(s: State, events: seq<Event>)
    requires Initial(s) && Orderly(s, events)
    ensures var made := Run(s, events).made;
            && Numbered(made)
            && (forall i, k :: 0 <= i < k < |made| && For(made[k], made[i].sub, made[i].event) ==>
                  && made[i].attempt < made[k].attempt
                  && (made[k].attempt == made[i].attempt + 1 ==>
                        && made[i].outcome == Transient
                        && made[k].startAt - made[i].startAt >= Pause(made[i].attempt)))
  {
    RunKeepsInv(s, events);
    var made := Run(s, events).made;
    assert MadeOk(made);
    forall i, k | 0 <= i < k < |made| && For(made[k], made[i].sub, made[i].event)
      ensures made[i].attempt < made[k].attempt
      ensures made[k].attempt == made[i].attempt + 1 ==>
                made[i].outcome == Transient && made[k].startAt - made[i].startAt >= Pause(made[i].attempt)
    {
      RetriesAreSpaced(made, i, k);
    }
  }

  // ---------------------------------------------------------------- when a fan-out repeats an event

  lemma {:induction false} AttemptsAreMade(made: seq<Delivery>, n: nat, sub: nat, event: nat) returns (k: nat)
    requires n <= |made| && Attempts(made, n, sub, event) > 0
    ensures k < n && For(made[k], sub, event)
    decreases n
  {
    if For(made[n - 1], sub, event) {
      k := n - 1;
    } else {
      k := AttemptsAreMade(made, n - 1, sub, event);
    }
  }

  /** A repeat is a fan-out that comes later than the window after the id was last accepted. */
  lemma RepeatIsLate(s: State, sub: nat, event: nat)
    requires Inv(s) && Repeats(s, sub, event)
    ensures Job(sub, event, 1) in s.published && s.now >= s.published[Job(sub, event, 1)] + s.window
  {
    if Attempts(s.made, |s.made|, sub, event) > 0 {
      var k := AttemptsAreMade(s.made, |s.made|, sub, event);
    }
  }

  /** Every fan-out target is new to the stream, or comes within the window. */
  ghost predicate PromptAll(s: State, targets: seq<nat>, event: nat) {
    |targets| > 0 ==>
      var mid, j := PublishAll(s, targets[..|targets| - 1], event), Job(targets[|targets| - 1], event, 1);
      PromptAll(s, targets[..|targets| - 1], event) && (j in mid.published ==> Duplicate(mid, j))
  }

  ghost predicate Prompt(s: State, events: seq<Event>)
    decreases |events|
  {
    |events| > 0 ==>
      && (events[0].FanOut? ==> PromptAll(s, events[0].targets, events[0].event))
      && Prompt(Apply(s, events[0]), events[1..])
  }

  lemma {:induction false} PromptRepeatsNothing(s: State, targets: seq<nat>, event: nat)
    requires Inv(s) && PromptAll(s, targets, event)
    ensures !RepeatsAny(s, targets, event)
    decreases |targets|
  {
    if |targets| > 0 {
      var init, sub := targets[..|targets| - 1], targets[|targets| - 1];
      PromptRepeatsNothing(s, init, event);
      FanOutKeepsInv(s, init, event);
      if Repeats(PublishAll(s, init, event), sub, event) {
        RepeatIsLate(PublishAll(s, init, event), sub, event);
      }
    }
  }

  /** So a run is orderly if each event is fanned out once, or again only within the window. */
  lemma {:induction false} PromptIsOrderly(s: State, events: seq<Event>)
    requires Inv(s) && Prompt(s, events)
    ensures Orderly(s, events)
    decreases |events|
  {
    if |events| > 0 {
      if events[0].FanOut? {
        PromptRepeatsNothing(s, events[0].targets, events[0].event);
      }
      StepKeepsInv(s, events[0]);
      PromptIsOrderly(Apply(s, events[0]), events[1..]);
    }
  }

  ghost predicate BreaksNumbering(s: State, more: seq<Event>) {
    Orderly(s, more) && !Numbered(Run(s, more).made)
  }

  lemma AttemptOneAgain(made: seq<Delivery>, d: Delivery)
    requires d.attempt == 1 && Attempts(made, |made|, d.sub, d.event) > 0
    ensures !Numbered(made + [d])
  {
    MadePrefix(made, d, |made|, d.sub, d.event);
    assert (made + [d])[|made|] == d;
  }

  function LoadAndPost(id: nat): seq<Event> {
    [Load(id), Post(id, Status(200))]
  }

  lemma LoadAndPostRuns(s: State, id: nat)
    requires id in s.work && s.work[id].Queued? && Active(s, s.work[id].job.sub)
    ensures var j, s' := s.work[id].job, Run(s, LoadAndPost(id));
            && s' == s.(work := s.work[id := Posted(j, RowOf(j, Status(200), s.now))],
                        made := s.made + [RowOf(j, Status(200), s.now)])
            && Orderly(s, LoadAndPost(id))
  {
    var s1 := Apply(s, Load(id));
    assert [Load(id), Post(id, Status(200))][1..] == [Post(id, Status(200))];
    assert [Post(id, Status(200))][1..] == [];
    assert Run(s, LoadAndPost(id)) == Run(s1, [Post(id, Status(200))]) == Apply(s1, Post(id, Status(200)));
    assert Orderly(s1, [Post(id, Status(200))]);
  }

  lemma {:induction false} RunConcat(s: State, xs: seq<Event>, ys: seq<Event>)
    ensures Run(s, xs + ys) == Run(Run(s, xs), ys)
    ensures Orderly(s, xs + ys) <==> Orderly(s, xs) && Orderly(Run(s, xs), ys)
    decreases |xs|
  {
    if |xs| == 0 {
      assert xs + ys == ys;
    } else {
      assert (xs + ys)[1..] == xs[1..] + ys;
      RunConcat(Apply(s, xs[0]), xs[1..], ys);
    }
  }

  /** After an attempt, a queued attempt 1 of the same event only has to be handled. */
  lemma BreaksAfterAttempt(s: State, id: nat)
    requires id in s.work && s.work[id].Queued? && Active(s, s.work[id].job.sub) && s.work[id].job.attempt == 1
    requires Attempts(s.made, |s.made|, s.work[id].job.sub, s.work[id].job.event) > 0
    ensures BreaksNumbering(s, LoadAndPost(id))
  {
    LoadAndPostRuns(s, id);
    AttemptOneAgain(s.made, RowOf(s.work[id].job, Status(200), s.now));
  }

  /** Otherwise the other trace of the event is its own attempt 1, queued or loaded: both get handled. */
  lemma BreaksBesideQueued(s: State, other: nat, id: nat)
    requires other in s.work && id in s.work && other != id && SameEvent(s.work[other].job, s.work[id].job)
    requires s.work[id].Queued? && s.work[id].job.attempt == 1 && Active(s, s.work[id].job.sub)
    requires s.work[other].Queued?
    ensures BreaksNumbering(s, LoadAndPost(other) + LoadAndPost(id))
  {
    var j := s.work[other].job;
    LoadAndPostRuns(s, other);
    var s' := Run(s, LoadAndPost(other));
    MadeAppended(s.made, RowOf(j, Status(200), s.now), j.sub, j.event);
    BreaksAfterAttempt(s', id);
    RunConcat(s, LoadAndPost(other), LoadAndPost(id));
  }

  lemma BreaksBesideReady(s: State, other: nat, id: nat)
    requires other in s.work && id in s.work && other != id && SameEvent(s.work[other].job, s.work[id].job)
    requires s.work[id].Queued? && s.work[id].job.attempt == 1 && Active(s, s.work[id].job.sub)
    requires s.work[other].Ready?
    ensures BreaksNumbering(s, [Post(other, Status(200))] + LoadAndPost(id))
  {
    var j := s.work[other].job;
    var first := [Post(other, Status(200))];
    assert first[1..] == [];
    var s' := Apply(s, Post(other, Status(200)));
    assert Run(s, first) == Run(s', []) == s' && Orderly(s, first);
    MadeAppended(s.made, RowOf(j, Status(200), s.now), j.sub, j.event);
    BreaksAfterAttempt(s', id);
    RunConcat(s, first, LoadAndPost(id));
  }

  lemma RepeatBreaks(s: State, sub: nat, event: nat) returns (more: seq<Event>)
    requires Inv(s) && Active(s, sub) && Repeats(s, sub, event)
    ensures BreaksNumbering(Publish(s, Job(sub, event, 1)), more)
  {
    var id, s' := s.serial, Publish(s, Job(sub, event, 1));
    if Attempts(s.made, |s.made|, sub, event) > 0 {
      more := LoadAndPost(id);
      BreaksAfterAttempt(s', id);
    } else {
      var other :| other in s.work && SameEvent(s.work[other].job, Job(sub, event, 1));
      assert ItemOk(s.made, s.now, s.work[other]);
      if s.work[other].Queued? {
        more := LoadAndPost(other) + LoadAndPost(id);
        BreaksBesideQueued(s', other, id);
      } else {
        more := [Post(other, Status(200))] + LoadAndPost(id);
        BreaksBesideReady(s', other, id);
      }
    }
  }

  lemma PublishOne(s: State, sub: nat, event: nat)
    ensures Apply(s, FanOut([sub], event)) == Publish(s, Job(sub, event, 1))
    ensures RepeatsBy(s, FanOut([sub], event)) <==> Repeats(s, sub, event)
  {
    var one := [sub];
    assert one[..|one| - 1] == [];
    assert PublishAll(s, [], event) == s && !RepeatsAny(s, [], event);
    assert PublishAll(s, one, event) == Publish(s, Job(sub, event, 1));
  }

  lemma OrderlyKeepsNumbers(s: State, more: seq<Event>)
    requires Inv(s) && Orderly(s, more)
    ensures Numbered(Run(s, more).made)
  {
    RunKeepsInv(s, more);
    var made := Run(s, more).made;
    forall k | 0 <= k < |made|
      ensures made[k].attempt == Attempts(made, k, made[k].sub, made[k].event) + 1 && made[k].attempt <= 5
    {
      assert Follows(made, k, made[k].sub, made[k].event, made[k].attempt, made[k].startAt);
    }
  }

  /** In a state reached in order, fanning an event out to an active subscription endangers the numbering, so that
      some orderly continuation breaks it, if and only if that fan-out repeats the event. */
  lemma RepeatIsTheExactDanger(s: State, sub: nat, event: nat)
    requires Inv(s) && Active(s, sub)
    ensures Repeats(s, sub, event) <==> exists more :: BreaksNumbering(Apply(s, FanOut([sub], event)), more)
  {
    PublishOne(s, sub, event);
    if Repeats(s, sub, event) {
      var more := RepeatBreaks(s, sub, event);
    } else {
      StepKeepsInv(s, FanOut([sub], event));
      forall more | Orderly(Apply(s, FanOut([sub], event)), more)
        ensures !BreaksNumbering(Apply(s, FanOut([sub], event)), more)
      {
        OrderlyKeepsNumbers(Apply(s, FanOut([sub], event)), more);
      }
    }
  }

  /** The stream is declared without a window of its own, so it has the server's two minutes. An event that is
      fanned out again after that, while its retries are still to come, gets a second attempt 1. */
  lemma TwoMinutesAreTooShort(s: State)
    requires Initial(s) && s.window == 120 && s.subs == map[0 := Health(true, 0)]
    ensures var once := [FanOut([0], 0)] + [Advance(120)];
            Orderly(s, once) && Repeats(Run(s, once), 0, 0)
  {
    var first, wait := FanOut([0], 0), Advance(120);
    PublishOne(s, 0, 0);
    var s1 := Apply(s, first);
    assert s1.work == map[s.serial := Queued(Job(0, 0, 1))] && s1.published == map[Job(0, 0, 1) := s.now];
    assert [first][1..] == [] && [wait][1..] == [];
    assert Run(s, [first]) == Run(s1, []) == s1;
    RunConcat(s, [first], [wait]);
    var s2 := Apply(s1, wait);
    assert Run(s1, [wait]) == Run(s2, []) == s2;
    assert s.serial in s2.work && SameEvent(s2.work[s.serial].job, Job(0, 0, 1));
  }
}
