/** Every transient failure is followed up: the retries do come, over every run of the webhook workers in which no
    message is lost and no process dies. */
module DispatcherRetries {
  import opened Wrappers
  import opened Deliver
  import opened Dispatcher
  import opened DispatcherProofs

  // ---------------------------------------------------------------- the stream takes every retry

  function AttemptsOf(s: State, sub: nat, event: nat): nat {
    Attempts(s.made, |s.made|, sub, event)
  }

  /** The item's next publication, if it has one, is of an attempt the stream has never seen. */
  predicate AheadOf(item: Item, j: Job, attempts: nat) {
    SameEvent(item.job, j) && !item.Queued? && !item.Ready? ==> j.attempt <= attempts
  }

  ghost predicate IdsAhead(s: State) {
    && (forall j :: j in s.published ==> j.attempt <= AttemptsOf(s, j.sub, j.event) + 1)
    && (forall i, j :: i in s.work && j in s.published ==> AheadOf(s.work[i], j, AttemptsOf(s, j.sub, j.event)))
  }

  lemma FirstPublicationKeepsAhead(s: State, sub: nat, event: nat)
    requires Inv(s) && IdsAhead(s) && !Repeats(s, sub, event)
    ensures IdsAhead(Publish(s, Job(sub, event, 1)))
  {
    var j := Job(sub, event, 1);
    if !Duplicate(s, j) {
      assert !Trace(s, sub, event);
      var s' := Publish(s, j);
      forall i, p | i in s'.work && p in s'.published
        ensures AheadOf(s'.work[i], p, AttemptsOf(s', p.sub, p.event))
      {
        if i in s.work && i != s.serial && p == j {
          assert !SameEvent(s.work[i].job, j);
        }
      }
    }
  }

  lemma {:induction false} FanOutKeepsAhead(s: State, targets: seq<nat>, event: nat)
    requires Inv(s) && IdsAhead(s) && !RepeatsAny(s, targets, event)
    ensures IdsAhead(PublishAll(s, targets, event))
    decreases |targets|
  {
    if |targets| > 0 {
      var init := targets[..|targets| - 1];
      FanOutKeepsAhead(s, init, event);
      FanOutKeepsInv(s, init, event);
      FirstPublicationKeepsAhead(PublishAll(s, init, event), targets[|targets| - 1], event);
    }
  }

  lemma AttemptsAfterPost(s: State, id: nat, response: Response, sub: nat, event: nat)
    requires id in s.work && s.work[id].Ready?
    ensures AttemptsOf(Apply(s, Post(id, response)), sub, event)
            == AttemptsOf(s, sub, event) + if SameEvent(s.work[id].job, Job(sub, event, 1)) then 1 else 0
  {
    MadeAppended(s.made, RowOf(s.work[id].job, response, s.now), sub, event);
  }

  lemma ItemAfterPost(s: State, id: nat, response: Response, i: nat, p: Job)
    requires Inv(s) && IdsAhead(s) && id in s.work && s.work[id].Ready? && i in s.work && p in s.published
    ensures var s' := Apply(s, Post(id, response));
            i in s'.work && AheadOf(s'.work[i], p, AttemptsOf(s', p.sub, p.event))
  {
    AttemptsAfterPost(s, id, response, p.sub, p.event);
    assert AheadOf(s.work[i], p, AttemptsOf(s, p.sub, p.event));
  }

  lemma PostKeepsAhead(s: State, id: nat, response: Response)
    requires Inv(s) && IdsAhead(s) && id in s.work && s.work[id].Ready?
    ensures IdsAhead(Apply(s, Post(id, response)))
  {
    var s' := Apply(s, Post(id, response));
    assert s'.published == s.published && s'.work.Keys == s.work.Keys;
    forall p | p in s.published ensures p.attempt <= AttemptsOf(s', p.sub, p.event) + 1 {
      AttemptsAfterPost(s, id, response, p.sub, p.event);
    }
    forall i, p | i in s.work && p in s.published
      ensures AheadOf(s'.work[i], p, AttemptsOf(s', p.sub, p.event))
    {
      ItemAfterPost(s, id, response, i, p);
    }
  }

  lemma MoveKeepsAhead(s: State, id: nat, item: Item)
    requires IdsAhead(s) && id in s.work && SameEvent(item.job, s.work[id].job)
    requires s.work[id].Queued? || s.work[id].Ready? ==> item.Queued? || item.Ready?
    ensures IdsAhead(s.(work := s.work[id := item]))
  {
  }

  lemma DropKeepsAhead(s: State, id: nat)
    requires IdsAhead(s)
    ensures IdsAhead(s.(work := s.work - {id}))
  {
  }

  /** The timer's publication is taken: nothing of that id has been seen. */
  lemma WakeIsTaken(s: State, id: nat)
    requires Inv(s) && IdsAhead(s) && id in s.work && s.work[id].Sleeping?
    ensures s.work[id].job !in s.published && s.serial !in s.work
    ensures Apply(s, Wake(id)).work
            == if s.work[id].wakeAt <= s.now then (s.work - {id})[s.serial := Queued(s.work[id].job)] else s.work
  {
    assert ItemOk(s.made, s.now, s.work[id]);
    forall j | j in s.published ensures j != s.work[id].job {
      assert AheadOf(s.work[id], j, AttemptsOf(s, j.sub, j.event));
    }
  }

  lemma WakeKeepsAhead(s: State, id: nat)
    requires Inv(s) && IdsAhead(s) && id in s.work && s.work[id].Sleeping? && s.work[id].wakeAt <= s.now
    ensures IdsAhead(Apply(s, Wake(id)))
  {
    var j, s' := s.work[id].job, Apply(s, Wake(id));
    WakeIsTaken(s, id);
    assert ItemOk(s.made, s.now, s.work[id]);
    forall i, p | i in s'.work && p in s'.published ensures AheadOf(s'.work[i], p, AttemptsOf(s', p.sub, p.event)) {
      if i in s.work && i != id && p == j {
        assert !SameEvent(s.work[i].job, j);
      }
    }
  }

  lemma FinishKeepsAhead(s: State, id: nat)
    requires IdsAhead(s) && id in s.work && s.work[id].Recorded?
    ensures IdsAhead(Apply(s, Finish(id)))
  {
    var j := s.work[id].job;
    if s.work[id].row.outcome == Transient && j.attempt + 1 <= MAX_ATTEMPTS {
      MoveKeepsAhead(s, id, Sleeping(j.(attempt := j.attempt + 1), s.now + Backoff(j.attempt + 1)));
    } else {
      DropKeepsAhead(s, id);
    }
  }

  lemma RecordingKeepsAhead(s: State, e: Event)
    requires IdsAhead(s) && (e.Insert? || e.Count?) && Enabled(s, e)
    ensures IdsAhead(Apply(s, e))
  {
    var j, row := s.work[e.id].job, s.work[e.id].row;
    MoveKeepsAhead(s, e.id, if e.Insert? then Inserted(j, row) else Recorded(j, row));
  }

  lemma StepKeepsAhead(s: State, e: Event)
    requires Inv(s) && IdsAhead(s) && !RepeatsBy(s, e)
    ensures IdsAhead(Apply(s, e))
  {
    if Enabled(s, e) {
      match e
      case Advance(_) =>
      case FanOut(targets, event) => FanOutKeepsAhead(s, targets, event);
      case Load(id) =>
        if Active(s, s.work[id].job.sub) {
          MoveKeepsAhead(s, id, Ready(s.work[id].job));
        } else {
          DropKeepsAhead(s, id);
        }
      case Post(id, response) => PostKeepsAhead(s, id, response);
      case Insert(_, _) => RecordingKeepsAhead(s, e);
      case Count(_, _) => RecordingKeepsAhead(s, e);
      case Finish(id) => FinishKeepsAhead(s, id);
      case Wake(id) => WakeKeepsAhead(s, id);
      case Lose(id) => DropKeepsAhead(s, id);
    }
  }

  // ---------------------------------------------------------------- nothing is forgotten

  ghost predicate Alive(s: State, sub: nat, event: nat) {
    exists i :: i in s.work && SameEvent(s.work[i].job, Job(sub, event, 1))
  }

  /** The last attempt was delivered or refused for good, or it was the fifth. */
  predicate Settled(s: State, sub: nat, event: nat) {
    var last := Last(s.made, |s.made|, sub, event);
    last.Some? && (last.value.outcome != Transient || AttemptsOf(s, sub, event) == 5)
  }

  /** A worker finds that the event's subscription is gone or disabled. */
  predicate FindsGone(s: State, e: Event, sub: nat, event: nat) {
    e.Load? && Enabled(s, e) && SameEvent(s.work[e.id].job, Job(sub, event, 1)) && !Active(s, sub)
  }

  ghost predicate EverGone(s: State, events: seq<Event>, sub: nat, event: nat) {
    events != [] &&
    (EverGone(s, events[..|events| - 1], sub, event)
     || FindsGone(Run(s, events[..|events| - 1]), events[|events| - 1], sub, event))
  }

  /** What has been taken up and is not settled is alive. */
  ghost predicate LookedAfter(s: State, sub: nat, event: nat) {
    Job(sub, event, 1) in s.published ==> Alive(s, sub, event) || Settled(s, sub, event)
  }

  lemma PublishLooksAfter(s: State, j: Job, sub: nat, event: nat)
    requires LookedAfter(s, sub, event) && (forall i :: i in s.work ==> i < s.serial)
    ensures LookedAfter(Publish(s, j), sub, event)
  {
    var s' := Publish(s, j);
    if Alive(s, sub, event) {
      var i :| i in s.work && SameEvent(s.work[i].job, Job(sub, event, 1));
      assert i in s'.work && s'.work[i] == s.work[i];
    } else if !Duplicate(s, j) && j == Job(sub, event, 1) {
      assert s'.work[s.serial] == Queued(j);
    }
  }

  lemma {:induction false} FanOutLooksAfter(s: State, targets: seq<nat>, e: nat, sub: nat, event: nat)
    requires Inv(s) && !RepeatsAny(s, targets, e) && LookedAfter(s, sub, event)
    ensures LookedAfter(PublishAll(s, targets, e), sub, event)
    decreases |targets|
  {
    if |targets| > 0 {
      var init := targets[..|targets| - 1];
      FanOutLooksAfter(s, init, e, sub, event);
      FanOutKeepsInv(s, init, e);
      PublishLooksAfter(PublishAll(s, init, e), Job(targets[|targets| - 1], e, 1), sub, event);
    }
  }

  lemma MoveLooksAfter(s: State, s': State, id: nat, item: Item, sub: nat, event: nat)
    requires LookedAfter(s, sub, event) && id in s.work && SameEvent(item.job, s.work[id].job)
    requires s'.work == s.work[id := item] && s'.published == s.published && s'.made == s.made
    ensures LookedAfter(s', sub, event)
  {
    if Alive(s, sub, event) {
      var i :| i in s.work && SameEvent(s.work[i].job, Job(sub, event, 1));
      assert i in s'.work && SameEvent(s'.work[i].job, Job(sub, event, 1));
    }
  }

  lemma DropLooksAfter(s: State, s': State, id: nat, sub: nat, event: nat)
    requires LookedAfter(s, sub, event) && id in s.work
    requires s'.work == s.work - {id} && s'.published == s.published && s'.made == s.made
    requires SameEvent(s.work[id].job, Job(sub, event, 1)) ==> Settled(s, sub, event)
    ensures LookedAfter(s', sub, event)
  {
    if Alive(s, sub, event) && !Settled(s, sub, event) {
      var i :| i in s.work && SameEvent(s.work[i].job, Job(sub, event, 1));
      assert i in s'.work;
    }
  }

  lemma PostLooksAfter(s: State, id: nat, response: Response, sub: nat, event: nat)
    requires id in s.work && s.work[id].Ready? && LookedAfter(s, sub, event)
    ensures LookedAfter(Apply(s, Post(id, response)), sub, event)
  {
    var j, s' := s.work[id].job, Apply(s, Post(id, response));
    MadeAppended(s.made, RowOf(j, response, s.now), sub, event);
    if Alive(s, sub, event) {
      var i :| i in s.work && SameEvent(s.work[i].job, Job(sub, event, 1));
      assert i in s'.work && s'.work[i].job == s.work[i].job;
    } else {
      assert !SameEvent(j, Job(sub, event, 1));
    }
  }

  lemma DroppedIsSettled(s: State, id: nat)
    requires Inv(s) && id in s.work && s.work[id].Recorded?
    requires s.work[id].row.outcome != Transient || s.work[id].job.attempt + 1 > MAX_ATTEMPTS
    ensures Settled(s, s.work[id].job.sub, s.work[id].job.event)
  {
    assert ItemOk(s.made, s.now, s.work[id]);
    NumberIsAtMostFive(s, id);
  }

  lemma FinishLooksAfter(s: State, id: nat, sub: nat, event: nat)
    requires Inv(s) && id in s.work && s.work[id].Recorded? && LookedAfter(s, sub, event)
    ensures LookedAfter(Apply(s, Finish(id)), sub, event)
  {
    var j, s' := s.work[id].job, Apply(s, Finish(id));
    if s.work[id].row.outcome == Transient && j.attempt + 1 <= MAX_ATTEMPTS {
      MoveLooksAfter(s, s', id, Sleeping(j.(attempt := j.attempt + 1), s.now + Backoff(j.attempt + 1)), sub, event);
    } else {
      DroppedIsSettled(s, id);
      DropLooksAfter(s, s', id, sub, event);
    }
  }

  lemma NumberIsAtMostFive(s: State, id: nat)
    requires Inv(s) && id in s.work && s.work[id].Recorded?
    ensures AttemptsOf(s, s.work[id].job.sub, s.work[id].job.event) <= 5
  {
    var j := s.work[id].job;
    assert ItemOk(s.made, s.now, s.work[id]);
    LastIsMade(s.made, |s.made|, j.sub, j.event);
  }

  lemma {:induction false} LastIsMade(made: seq<Delivery>, n: nat, sub: nat, event: nat)
    requires n <= |made| && MadeOk(made) && Last(made, n, sub, event).Some?
    ensures Last(made, n, sub, event).value.attempt <= 5
    decreases n
  {
    if For(made[n - 1], sub, event) {
      assert Follows(made, n - 1, made[n - 1].sub, made[n - 1].event, made[n - 1].attempt, made[n - 1].startAt);
    } else {
      LastIsMade(made, n - 1, sub, event);
    }
  }

  lemma WakeLooksAfter(s: State, id: nat, sub: nat, event: nat)
    requires Inv(s) && IdsAhead(s) && id in s.work && s.work[id].Sleeping? && s.work[id].wakeAt <= s.now
    requires LookedAfter(s, sub, event)
    ensures LookedAfter(Apply(s, Wake(id)), sub, event)
  {
    var s' := Apply(s, Wake(id));
    WakeIsTaken(s, id);
    if Alive(s, sub, event) {
      var i :| i in s.work && SameEvent(s.work[i].job, Job(sub, event, 1));
      var k := if i == id then s.serial else i;
      assert k in s'.work && SameEvent(s'.work[k].job, Job(sub, event, 1));
    } else {
      assert !SameEvent(s.work[id].job, Job(sub, event, 1));
      assert ItemOk(s.made, s.now, s.work[id]);
    }
  }

  lemma StepLooksAfter(s: State, e: Event, sub: nat, event: nat)
    requires Inv(s) && IdsAhead(s) && !RepeatsBy(s, e) && !e.Lose? && LookedAfter(s, sub, event)
    ensures LookedAfter(Apply(s, e), sub, event) || FindsGone(s, e, sub, event)
  {
    if Enabled(s, e) {
      match e
      case Advance(_) =>
      case FanOut(targets, ev) => FanOutLooksAfter(s, targets, ev, sub, event);
      case Load(id) =>
        if Active(s, s.work[id].job.sub) {
          MoveLooksAfter(s, Apply(s, e), id, Ready(s.work[id].job), sub, event);
        } else if !SameEvent(s.work[id].job, Job(sub, event, 1)) {
          DropLooksAfter(s, Apply(s, e), id, sub, event);
        }
      case Post(id, response) => PostLooksAfter(s, id, response, sub, event);
      case Insert(id, _) =>
        MoveLooksAfter(s, Apply(s, e), id, Inserted(s.work[id].job, s.work[id].row), sub, event);
      case Count(id, _) => MoveLooksAfter(s, Apply(s, e), id, Recorded(s.work[id].job, s.work[id].row), sub, event);
      case Finish(id) => FinishLooksAfter(s, id, sub, event);
      case Wake(id) => WakeLooksAfter(s, id, sub, event);
    }
  }

  // ---------------------------------------------------------------- when the next attempt is due

  predicate FinishesEvent(s: State, e: Event, sub: nat, event: nat) {
    e.Finish? && Enabled(s, e) && SameEvent(s.work[e.id].job, Job(sub, event, 1))
  }

  /** When a worker was last done with an attempt of the event. */
  function FinishedAt(s: State, events: seq<Event>, sub: nat, event: nat): int {
    if events == [] then 0
    else
      var init, last := events[..|events| - 1], events[|events| - 1];
      if FinishesEvent(Run(s, init), last, sub, event) then Run(s, init).now else FinishedAt(s, init, sub, event)
  }

  ghost predicate DueAfter(s: State, t: int, sub: nat, event: nat) {
    forall i :: i in s.work && s.work[i].Sleeping? && SameEvent(s.work[i].job, Job(sub, event, 1)) ==>
      s.work[i].wakeAt == t + Pause(s.work[i].job.attempt - 1)
  }

  lemma {:induction false} FanOutWakesNobody(s: State, targets: seq<nat>, event: nat)
    ensures forall i :: i in PublishAll(s, targets, event).work && PublishAll(s, targets, event).work[i].Sleeping? ==>
              i in s.work && s.work[i] == PublishAll(s, targets, event).work[i]
    decreases |targets|
  {
    if |targets| > 0 {
      FanOutWakesNobody(s, targets[..|targets| - 1], event);
    }
  }

  lemma FinishKeepsDue(s: State, id: nat, t: int, sub: nat, event: nat)
    requires OneAlive(s.work) && DueAfter(s, t, sub, event) && id in s.work && s.work[id].Recorded?
    ensures DueAfter(Apply(s, Finish(id)), if FinishesEvent(s, Finish(id), sub, event) then s.now else t, sub, event)
  {
    var j, s' := s.work[id].job, Apply(s, Finish(id));
    WaitsInSeconds(j.attempt + 1);
    forall i | i in s'.work && s'.work[i].Sleeping? && SameEvent(s'.work[i].job, Job(sub, event, 1)) && i != id
      ensures s'.work[i].wakeAt == t + Pause(s'.work[i].job.attempt - 1) && !SameEvent(j, Job(sub, event, 1))
    {
      assert s.work[i] == s'.work[i] && !SameEvent(s.work[i].job, j);
    }
  }

  lemma OthersKeepDue(s: State, e: Event, t: int, sub: nat, event: nat)
    requires DueAfter(s, t, sub, event) && !e.Finish?
    ensures DueAfter(Apply(s, e), t, sub, event)
  {
    if e.FanOut? {
      FanOutWakesNobody(s, e.targets, e.event);
    }
    assert forall i :: i in Apply(s, e).work && Apply(s, e).work[i].Sleeping? ==>
                         i in s.work && s.work[i] == Apply(s, e).work[i];
  }

  lemma StepKeepsDue(s: State, e: Event, t: int, sub: nat, event: nat)
    requires Inv(s) && DueAfter(s, t, sub, event)
    ensures DueAfter(Apply(s, e), if FinishesEvent(s, e, sub, event) then s.now else t, sub, event)
  {
    if !e.Finish? {
      OthersKeepDue(s, e, t, sub, event);
    } else if Enabled(s, e) {
      FinishKeepsDue(s, e.id, t, sub, event);
    }
  }

  // ---------------------------------------------------------------- main results

  predicate NoLoss(events: seq<Event>) {
    forall i :: 0 <= i < |events| ==> !events[i].Lose?
  }

  lemma RunAppended(s: State, events: seq<Event>, e: Event)
    ensures Run(s, events + [e]) == Apply(Run(s, events), e)
    ensures Orderly(s, events + [e]) <==> Orderly(s, events) && !RepeatsBy(Run(s, events), e)
  {
    RunConcat(s, events, [e]);
    assert [e][1..] == [];
    assert Run(Run(s, events), [e]) == Run(Apply(Run(s, events), e), []);
    assert Orderly(Apply(Run(s, events), e), []);
  }

  lemma {:induction false} RunLooksAfter(s: State, events: seq<Event>, sub: nat, event: nat)
    requires Initial(s) && Orderly(s, events) && NoLoss(events)
    ensures var s' := Run(s, events);
            && Inv(s') && IdsAhead(s') && DueAfter(s', FinishedAt(s, events, sub, event), sub, event)
            && (LookedAfter(s', sub, event) || EverGone(s, events, sub, event))
    decreases |events|
  {
    if events != [] {
      var init, last := events[..|events| - 1], events[|events| - 1];
      assert events == init + [last];
      RunAppended(s, init, last);
      RunLooksAfter(s, init, sub, event);
      var now := Run(s, init);
      StepKeepsInv(now, last);
      StepKeepsAhead(now, last);
      StepKeepsDue(now, last, FinishedAt(s, init, sub, event), sub, event);
      if LookedAfter(now, sub, event) {
        StepLooksAfter(now, last, sub, event);
      }
    }
  }

  /** What is alive of an event after n attempts, the last one at `last`: the attempt is still being recorded, or the
      next one sleeps for the set time since it was done with, or is queued or loaded. */
  predicate NextUp(item: Item, last: Option<Delivery>, n: nat, finished: int) {
    match item
    case Posted(j, row) => j.attempt == n && Some(row) == last
    case Inserted(j, row) => j.attempt == n && Some(row) == last
    case Recorded(j, row) => j.attempt == n && Some(row) == last
    case Sleeping(j, wakeAt) => j.attempt == n + 1 && wakeAt == finished + Pause(n)
    case Queued(j) => j.attempt == n + 1
    case Ready(j) => j.attempt == n + 1
  }

  ghost predicate OneItem(s: State, sub: nat, event: nat, last: Option<Delivery>, n: nat, finished: int) {
    exists i :: i in s.work && SameEvent(s.work[i].job, Job(sub, event, 1)) && NextUp(s.work[i], last, n, finished)
                && forall k :: k in s.work && SameEvent(s.work[k].job, Job(sub, event, 1)) ==> k == i
  }

  lemma AliveIsNextUp(s: State, sub: nat, event: nat, finished: int)
    requires Inv(s) && DueAfter(s, finished, sub, event) && Alive(s, sub, event)
    ensures OneItem(s, sub, event, Last(s.made, |s.made|, sub, event), AttemptsOf(s, sub, event), finished)
  {
    var i :| i in s.work && SameEvent(s.work[i].job, Job(sub, event, 1));
    assert ItemOk(s.made, s.now, s.work[i]);
    assert NextUp(s.work[i], Last(s.made, |s.made|, sub, event), AttemptsOf(s, sub, event), finished);
  }

  lemma {:induction false} LastMeansAttempts(made: seq<Delivery>, n: nat, sub: nat, event: nat)
    requires n <= |made|
    ensures Last(made, n, sub, event).Some? <==> Attempts(made, n, sub, event) > 0
    decreases n
  {
    if n > 0 {
      LastMeansAttempts(made, n - 1, sub, event);
    }
  }

  /** The retries do come. In every orderly run that loses no message, an event taken up for a subscription whose
      attempts so far were fewer than five, and the last a transient failure, has exactly one item alive, and that is
      its next attempt, due 4, 16, 64 or 256 seconds after the last was done with, or the last one still being recorded.
      The only other end is that a worker finds the subscription gone or disabled. An event without an attempt yet has
      its first one waiting. */
  lemma TransientsAreRetried(s: State, events: seq<Event>, sub: nat, event: nat)
    requires Initial(s) && Orderly(s, events) && NoLoss(events)
    ensures var s' := Run(s, events);
            var n, last := AttemptsOf(s', sub, event), Last(s'.made, |s'.made|, sub, event);
            Job(sub, event, 1) in s'.published && (last.Some? ==> last.value.outcome == Transient && n < 5) ==>
              || EverGone(s, events, sub, event)
              || OneItem(s', sub, event, last, n, FinishedAt(s, events, sub, event))
    ensures var s' := Run(s, events);
            Last(s'.made, |s'.made|, sub, event).Some? ==> Job(sub, event, 1) in s'.published
  {
    RunLooksAfter(s, events, sub, event);
    var s' := Run(s, events);
    LastMeansAttempts(s'.made, |s'.made|, sub, event);
    if AttemptsOf(s', sub, event) > 0 {
      var k := AttemptsAreMade(s'.made, |s'.made|, sub, event);
    }
    if Alive(s', sub, event) {
      AliveIsNextUp(s', sub, event, FinishedAt(s, events, sub, event));
    }
  }

  // ---------------------------------------------------------------- an endpoint that never recovers

  /** Attempt k of the one event in the system is queued; `failures` is what the subscription has counted. */
  ghost predicate Up(s: State, id: nat, sub: nat, event: nat, k: nat, failures: nat) {
    && s.work == map[id := Queued(Job(sub, event, k))] && id < s.serial
    && (forall j :: j in s.published ==> j.attempt <= k)
    && sub in s.subs && s.subs[sub] == Health(true, failures) && failures < 49
  }

  function Handled(id: nat): seq<Event> {
    [Load(id), Post(id, Status(503)), Insert(id, true), Count(id, true), Finish(id)]
  }

  function Unavailable(s: State, sub: nat, event: nat, k: int): Delivery {
    Delivery(sub, event, k, Transient, s.now)
  }

  lemma OneMoreFailure(s: State, id: nat, sub: nat, event: nat, k: nat, failures: nat)
    requires Up(s, id, sub, event, k, failures)
    ensures var s' := Run(s, Handled(id));
            && s'.made == s.made + [Unavailable(s, sub, event, k)] && s'.now == s.now && s'.serial == s.serial
            && s'.published == s.published && sub in s'.subs && s'.subs[sub] == Health(true, failures + 1)
            && s'.work == if k < 5 then map[id := Sleeping(Job(sub, event, k + 1), s.now + Pause(k))] else map[]
  {
    RunFive(s, Load(id), Post(id, Status(503)), Insert(id, true), Count(id, true), Finish(id));
    ClassesByCode(Status(503));
    WaitsInSeconds(k + 1);
  }

  /** The endpoint answers every request with 503, nothing is lost, and nothing else is fanned out. */
  predicate Always503(events: seq<Event>) {
    forall e :: e in events ==> (e.Post? ==> e.response == Status(503)) && !e.Lose? && !e.FanOut?
  }

  lemma OneRound(s: State, id: nat, sub: nat, event: nat, k: nat, failures: nat)
    returns (events: seq<Event>, s': State)
    requires Up(s, id, sub, event, k, failures) && k < 5 && failures < 48
    ensures s' == Run(s, events) && Always503(events)
    ensures Up(s', s.serial, sub, event, k + 1, failures + 1)
    ensures s'.made == s.made + [Unavailable(s, sub, event, k)] && s'.now == s.now + Pause(k)
  {
    OneMoreFailure(s, id, sub, event, k, failures);
    var s1 := Run(s, Handled(id));
    RunAppended(s, Handled(id), Advance(Pause(k)));
    RunAppended(s, Handled(id) + [Advance(Pause(k))], Wake(id));
    var s2 := Apply(s1, Advance(Pause(k)));
    assert Job(sub, event, k + 1) !in s2.published;
    s' := Apply(s2, Wake(id));
    assert s'.work == map[s.serial := Queued(Job(sub, event, k + 1))];
    events := Handled(id) + [Advance(Pause(k))] + [Wake(id)];
  }

  lemma LastRound(s: State, id: nat, sub: nat, event: nat) returns (events: seq<Event>, s': State)
    requires Up(s, id, sub, event, 5, 4)
    ensures s' == Run(s, events) && Always503(events)
    ensures s'.made == s.made + [Unavailable(s, sub, event, 5)] && s'.work == map[]
  {
    OneMoreFailure(s, id, sub, event, 5, 4);
    events := Handled(id);
    s' := Run(s, events);
  }

  lemma Joined(s: State, xs: seq<Event>, mid: State, ys: seq<Event>, s': State)
    requires mid == Run(s, xs) && s' == Run(mid, ys) && Always503(xs) && Always503(ys)
    ensures s' == Run(s, xs + ys) && Always503(xs + ys)
  {
    RunConcat(s, xs, ys);
  }

  /** Two rounds, from attempt k on. */
  lemma TwoRounds(s: State, id: nat, sub: nat, event: nat, k: nat, failures: nat)
    returns (events: seq<Event>, s': State, next: nat)
    requires Up(s, id, sub, event, k, failures) && k < 4 && failures < 40
    ensures s' == Run(s, events) && Always503(events)
    ensures Up(s', next, sub, event, k + 2, failures + 2)
    ensures s'.made == s.made + [Unavailable(s, sub, event, k),
                                 Delivery(sub, event, k + 1, Transient, s.now + Pause(k))]
    ensures s'.now == s.now + Pause(k) + Pause(k + 1)
  {
    var first, mid := OneRound(s, id, sub, event, k, failures);
    var second;
    second, s' := OneRound(mid, s.serial, sub, event, k + 1, failures + 1);
    next := mid.serial;
    Joined(s, first, mid, second, s');
    events := first + second;
  }

  lemma FiveRounds(s: State, id: nat, sub: nat, event: nat) returns (events: seq<Event>, s': State)
    requires Up(s, id, sub, event, 1, 0)
    ensures s' == Run(s, events) && Always503(events) && s'.work == map[]
    ensures s'.made
            == s.made + [Delivery(sub, event, 1, Transient, s.now), Delivery(sub, event, 2, Transient, s.now + 4),
                         Delivery(sub, event, 3, Transient, s.now + 20),
                         Delivery(sub, event, 4, Transient, s.now + 84),
                         Delivery(sub, event, 5, Transient, s.now + 340)]
  {
    var a, s2, third := TwoRounds(s, id, sub, event, 1, 0);
    var b, s4, fifth := TwoRounds(s2, third, sub, event, 3, 2);
    Joined(s, a, s2, b, s4);
    var c;
    c, s' := LastRound(s4, fifth, sub, event);
    Joined(s, a + b, s4, c, s');
    events := a + b + c;
  }

  /** An event whose endpoint always answers 503 is attempted exactly five times, 0, 4, 20, 84 and 340 seconds after the
      first if the workers are prompt, and then nothing of it is left. */
  lemma ExactlyFiveAttempts(s: State, sub: nat, event: nat) returns (events: seq<Event>)
    requires Initial(s) && sub in s.subs && s.subs[sub] == Health(true, 0)
    ensures Always503(events)
    ensures var s' := Run(s, [FanOut([sub], event)] + events);
            && s'.work == map[]
            && s'.made == [Delivery(sub, event, 1, Transient, s.now), Delivery(sub, event, 2, Transient, s.now + 4),
                           Delivery(sub, event, 3, Transient, s.now + 20),
                           Delivery(sub, event, 4, Transient, s.now + 84),
                           Delivery(sub, event, 5, Transient, s.now + 340)]
  {
    PublishOne(s, sub, event);
    var s0 := Apply(s, FanOut([sub], event));
    assert s0.work == map[s.serial := Queued(Job(sub, event, 1))];
    var s';
    events, s' := FiveRounds(s0, s.serial, sub, event);
    RunFirst(s, FanOut([sub], event), events);
  }
}
