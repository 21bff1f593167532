/** The webhook work queue and its workers: internal/webhooks/dispatcher.go, internal/webhooks/deliver.go.

    Any number of workers handle messages side by side. Each message, and later its handler and its requeue timer, is
    one item of `work`, keyed by a serial number. A message is delivered to a worker at most once (MaxDeliver 1). The
    stream drops a publication whose id "sub:event:attempt" it accepted less than `window` seconds ago. Every
    statement of a handler is a step of its own and may fail; a handler may also die between two steps. */
module Dispatcher {
  import opened Deliver
  import Subjects

  datatype Job = Job(sub: nat, event: nat, attempt: int)

  /** One attempt: a POST that started at startAt, and what came of it. */
  datatype Delivery = Delivery(sub: nat, event: nat, attempt: int, outcome: Class, startAt: int)

  /** How far a job has come: in the queue; its subscription loaded; the request answered; the row inserted or its
      insert failed; the counters updated or their update failed; asleep until the next attempt. */
  datatype Item =
    | Queued(job: Job)
    | Ready(job: Job)
    | Posted(job: Job, row: Delivery)
    | Inserted(job: Job, row: Delivery)
    | Recorded(job: Job, row: Delivery)
    | Sleeping(job: Job, wakeAt: int)

  /** made: the attempts, in order. log: webhook_deliveries. counted: the attempts whose counter update succeeded, in
      the order of the updates. published: when the stream last accepted an id. */
  datatype State = State(window: nat, now: int, serial: nat, work: map<nat, Item>, published: map<Job, int>,
                         made: seq<Delivery>, log: seq<Delivery>, counted: seq<Delivery>, subs: map<nat, Health>)

  datatype Event =
    | Advance(seconds: nat)
    | FanOut(targets: seq<nat>, event: nat)
    | Load(id: nat)
    | Post(id: nat, response: Response)
    | Insert(id: nat, ok: bool)
    | Count(id: nat, ok: bool)
    | Finish(id: nat)
    | Wake(id: nat)
    | Lose(id: nat)

  predicate Duplicate(s: State, j: Job) {
    j in s.published && s.now < s.published[j] + s.window
  }

  /** JetStream publish with a message id. */
  function Publish(s: State, j: Job): State {
    if Duplicate(s, j) then s
    else s.(serial := s.serial + 1, work := s.work[s.serial := Queued(j)], published := s.published[j := s.now])
  }

  function PublishAll(s: State, targets: seq<nat>, event: nat): State {
    if |targets| == 0 then s
    else Publish(PublishAll(s, targets[..|targets| - 1], event), Job(targets[|targets| - 1], event, 1))
  }

  predicate Active(s: State, sub: nat) {
    sub in s.subs && s.subs[sub].active
  }

  function RowOf(j: Job, response: Response, now: int): Delivery {
    Delivery(j.sub, j.event, j.attempt, Classify(response), now)
  }

  function Counted(s: State, row: Delivery): State {
    s.(counted := s.counted + [row],
       subs := if row.sub in s.subs then s.subs[row.sub := Record(s.subs[row.sub], row.outcome)] else s.subs)
  }

  /** After a transient failure the next attempt goes to sleep, unless it was the last. */
  function Finished(s: State, id: nat): State
    requires id in s.work && s.work[id].Recorded?
  {
    var j := s.work[id].job;
    if s.work[id].row.outcome == Transient && j.attempt + 1 <= MAX_ATTEMPTS
    then s.(work := s.work[id := Sleeping(j.(attempt := j.attempt + 1), s.now + Backoff(j.attempt + 1))])
    else s.(work := s.work - {id})
  }

  predicate Enabled(s: State, e: Event) {
    match e
    case Advance(_) => true
    case FanOut(_, _) => true
    case Load(id) => id in s.work && s.work[id].Queued?
    case Post(id, _) => id in s.work && s.work[id].Ready?
    case Insert(id, _) => id in s.work && s.work[id].Posted?
    case Count(id, _) => id in s.work && s.work[id].Inserted?
    case Finish(id) => id in s.work && s.work[id].Recorded?
    case Wake(id) => id in s.work && s.work[id].Sleeping? && s.work[id].wakeAt <= s.now
    case Lose(id) => id in s.work
  }

  /** One step; an event that is not enabled changes nothing. */
  function Apply(s: State, e: Event): State {
    if !Enabled(s, e) then s
    else
      match e
      case Advance(seconds) => s.(now := s.now + seconds)
      case FanOut(targets, event) => PublishAll(s, targets, event)
      case Load(id) =>
        var j := s.work[id].job;
        s.(work := if Active(s, j.sub) then s.work[id := Ready(j)] else s.work - {id})
      case Post(id, response) =>
        var j := s.work[id].job;
        var row := RowOf(j, response, s.now);
        s.(work := s.work[id := Posted(j, row)], made := s.made + [row])
      case Insert(id, ok) =>
        var row := s.work[id].row;
        s.(work := s.work[id := Inserted(s.work[id].job, row)], log := if ok then s.log + [row] else s.log)
      case Count(id, ok) =>
        var moved := s.(work := s.work[id := Recorded(s.work[id].job, s.work[id].row)]);
        if ok then Counted(moved, s.work[id].row) else moved
      case Finish(id) => Finished(s, id)
      case Wake(id) => Publish(s.(work := s.work - {id}), s.work[id].job)
      // A message that expires, a failed load or request setup, a worker or timer that dies.
      case Lose(id) => s.(work := s.work - {id})
  }

  function Run(s: State, events: seq<Event>): State
    decreases |events|
  {
    if |events| == 0 then s else Run(Apply(s, events[0]), events[1..])
  }

  predicate Initial(s: State) {
    s.work == map[] && s.published == map[] && |s.made| == 0 && |s.log| == 0 && |s.counted| == 0
  }

  // ---------------------------------------------------------------- the running system

  /** webhook_subscriptions as the fan-out reads it. */
  datatype SubRow = SubRow(id: nat, tenant: nat, subjects: seq<string>)

  /** The queue after an attempt is done with: the next attempt of a transient failure sleeps 4, 16, 64 or 256 seconds,
      and the fifth was the last. */
  function Retried(work: map<nat, Item>, id: nat, now: int): map<nat, Item>
    requires id in work && work[id].Recorded?
  {
    var j := work[id].job;
    if work[id].row.outcome != Transient || j.attempt >= 5 then work - {id}
    else work[id := Sleeping(Job(j.sub, j.event, j.attempt + 1), now + Pause(j.attempt))]
  }

  /** The attempt of a job that got this response: 2xx is delivered; a failed transport, 408, 429 and 5xx are worth
      another try; anything else is final. */
  predicate Answered(row: Delivery, j: Job, response: Response, now: int) {
    && row == Delivery(j.sub, j.event, j.attempt, row.outcome, now)
    && (row.outcome == Transient
        <==> response == TransportError
             || (response.Status? && (response.code in {408, 429} || response.code >= 500)))
    && (row.outcome == Delivered <==> response.Status? && response.code >= 200 && response.code <= 299)
  }

  /** A subscription after one more outcome: a delivery clears its failures, a permanent one ends it, and so does the
      fiftieth transient in a row. */
  function AfterOutcome(h: Health, c: Class): Health {
    if c == Delivered then Health(h.active, 0)
    else if c == Permanent then Health(false, h.failures)
    else Health(h.active && h.failures < 49, h.failures + 1)
  }

  class System {
    const rows: seq<SubRow>
    const window: nat
    var now: int
    var serial: nat
    var work: map<nat, Item>
    var published: map<Job, int>
    var log: seq<Delivery>
    var subs: map<nat, Health>
    ghost var made: seq<Delivery>
    ghost var counted: seq<Delivery>

    constructor (rows: seq<SubRow>, window: nat, subs: map<nat, Health>)
      ensures this.rows == rows && Snapshot() == State(window, 0, 0, map[], map[], [], [], [], subs)
    {
      this.rows, this.window, this.subs := rows, window, subs;
      now, serial, work, published, log, made, counted := 0, 0, map[], map[], [], [], [];
    }

    ghost function Snapshot(): State
      reads this
    {
      State(window, now, serial, work, published, made, log, counted, subs)
    }

    method Enqueue(j: Job)
      modifies this`serial, this`work, this`published
      ensures Snapshot() == Publish(old(Snapshot()), j)
      ensures j in old(published) && now < old(published)[j] + window ==>
                work == old(work) && published == old(published)
      ensures !(j in old(published) && now < old(published)[j] + window) ==>
                work == old(work)[old(serial) := Queued(j)] && published == old(published)[j := now]
    {
      if j in published && now < published[j] + window {
        return;
      }
      work := work[serial := Queued(j)];
      serial := serial + 1;
      published := published[j := now];
    }

    /** Does this subscription receive the event? */
    ghost predicate Wants(row: SubRow, tenant: nat, subject: string)
      reads this
    {
      && row.tenant == tenant && row.id in subs && subs[row.id].active
      && (row.subjects == [] || exists p :: p in row.subjects && Subjects.Matches(p, subject))
    }

    /** The active subscriptions of the tenant that match, and no others. */
    method ActiveSubscriptions(tenant: nat, subject: string) returns (ids: seq<nat>)
      ensures forall id :: id in ids <==> exists row :: row in rows && row.id == id && Wants(row, tenant, subject)
    {
      ids := [];
      for i := 0 to |rows|
        invariant forall id :: id in ids <==>
                    exists k :: 0 <= k < i && rows[k].id == id && Wants(rows[k], tenant, subject)
      {
        if rows[i].tenant == tenant && rows[i].id in subs && subs[rows[i].id].active {
          var hit := Subjects.MatchAny(rows[i].subjects, subject);
          if hit {
            assert Wants(rows[i], tenant, subject);
            ids := ids + [rows[i].id];
          }
        }
      }
    }

    /** Queue attempt 1 for each of them. */
    method FanOutEvent(tenant: nat, subject: string, event: nat) returns (ids: seq<nat>)
      modifies this
      ensures Snapshot() == Apply(old(Snapshot()), FanOut(ids, event))
      ensures forall id :: id in ids <==> exists row :: row in rows && row.id == id && old(Wants(row, tenant, subject))
    {
      ids := ActiveSubscriptions(tenant, subject);
      for i := 0 to |ids|
        invariant Snapshot() == PublishAll(old(Snapshot()), ids[..i], event)
      {
        assert ids[..i + 1][..i] == ids[..i];
        Enqueue(Job(ids[i], event, 1));
      }
      assert ids[..|ids|] == ids;
    }

    /** A pulled message whose subscription is gone or disabled is terminated. */
    method LoadSubscription(id: nat) returns (ok: bool)
      requires id in work && work[id].Queued?
      modifies this`work
      ensures Snapshot() == Apply(old(Snapshot()), Load(id))
      ensures ok <==> old(work[id].job.sub) in subs && subs[old(work[id].job.sub)].active
      ensures work == if ok then old(work)[id := Ready(old(work[id].job))] else old(work) - {id}
    {
      var j := work[id].job;
      ok := j.sub in subs && subs[j.sub].active;
      work := if ok then work[id := Ready(j)] else work - {id};
    }

    /** The POST and its classification. */
    method Deliver(id: nat, response: Response)
      requires id in work && work[id].Ready?
      modifies this`work, this`made
      ensures Snapshot() == Apply(old(Snapshot()), Post(id, response))
      ensures var j := old(work[id].job);
              && id in work && work[id].Posted? && work == old(work)[id := Posted(j, work[id].row)]
              && Answered(work[id].row, j, response, now) && made == old(made) + [work[id].row]
    {
      ClassesByCode(response);
      var j := work[id].job;
      var row := Delivery(j.sub, j.event, j.attempt, Classify(response), now);
      made := made + [row];
      work := work[id := Posted(j, row)];
    }

    method InsertRow(id: nat, ok: bool)
      requires id in work && work[id].Posted?
      modifies this`work, this`log
      ensures Snapshot() == Apply(old(Snapshot()), Insert(id, ok))
      ensures work == old(work)[id := Inserted(old(work[id].job), old(work[id].row))]
      ensures log == if ok then old(log) + [old(work[id].row)] else old(log)
    {
      var row := work[id].row;
      if ok {
        log := log + [row];
      }
      work := work[id := Inserted(work[id].job, row)];
    }

    method UpdateCounters(id: nat, ok: bool)
      requires id in work && work[id].Inserted?
      modifies this`work, this`subs, this`counted
      ensures Snapshot() == Apply(old(Snapshot()), Count(id, ok))
      ensures work == old(work)[id := Recorded(old(work[id].job), old(work[id].row))]
      ensures var row := old(work[id].row);
              if ok && row.sub in old(subs)
              then subs == old(subs)[row.sub := AfterOutcome(old(subs)[row.sub], row.outcome)]
              else subs == old(subs)
    {
      var j, row := work[id].job, work[id].row;
      work := work[id := Recorded(j, row)];
      if !ok {
        return;
      }
      counted := counted + [row];
      if row.sub in subs {
        var h := subs[row.sub];
        match row.outcome
        case Delivered =>
          subs := subs[row.sub := h.(failures := 0)];
        case Permanent =>
          subs := subs[row.sub := h.(active := false)];
        case Transient =>
          subs := subs[row.sub := Health(h.active && h.failures + 1 < AUTO_DISABLE_THRESHOLD, h.failures + 1)];
      }
    }

    /** Two statements, each of which may fail without the other noticing. */
    method RecordOutcome(id: nat, insertOk: bool, countOk: bool)
      requires id in work && work[id].Posted?
      modifies this`work, this`log, this`subs, this`counted
      ensures Snapshot() == Apply(Apply(old(Snapshot()), Insert(id, insertOk)), Count(id, countOk))
      ensures work == old(work)[id := Recorded(old(work[id].job), old(work[id].row))]
      ensures log == if insertOk then old(log) + [old(work[id].row)] else old(log)
      ensures var row := old(work[id].row);
              if countOk && row.sub in old(subs)
              then subs == old(subs)[row.sub := AfterOutcome(old(subs)[row.sub], row.outcome)]
              else subs == old(subs)
    {
      InsertRow(id, insertOk);
      UpdateCounters(id, countOk);
    }

    /** Acknowledge, or sleep before the next attempt. */
    method AckOrRetry(id: nat)
      requires id in work && work[id].Recorded?
      modifies this`work
      ensures Snapshot() == Apply(old(Snapshot()), Finish(id))
      ensures work == Retried(old(work), id, now)
    {
      var j := work[id].job;
      if work[id].row.outcome == Transient {
        var next := j.attempt + 1;
        if next <= MAX_ATTEMPTS {
          var wait := BackoffFor(next);
          WaitsInSeconds(next);
          work := work[id := Sleeping(j.(attempt := next), now + wait)];
          return;
        }
      }
      work := work - {id};
    }

    /** One message handled without interruption. */
    method HandleMessage(id: nat, response: Response, insertOk: bool, countOk: bool)
      requires id in work && work[id].Queued?
      modifies this
      ensures Snapshot() == Run(old(Snapshot()), [Load(id), Post(id, response), Insert(id, insertOk),
                                                  Count(id, countOk), Finish(id)])
      ensures var j := old(work[id].job);
              var active := j.sub in old(subs) && old(subs)[j.sub].active;
              && published == old(published)
              && (!active ==> work == old(work) - {id} && log == old(log) && subs == old(subs))
              && (active ==>
                    exists row :: Answered(row, j, response, now)
                      && log == (if insertOk then old(log) + [row] else old(log))
                      && subs == (if countOk then old(subs)[j.sub := AfterOutcome(old(subs)[j.sub], row.outcome)]
                                  else old(subs))
                      && work == Retried(old(work)[id := Recorded(j, row)], id, now))
    {
      ghost var s0 := Snapshot();
      var ok := LoadSubscription(id);
      ghost var s1 := Snapshot();
      if ok {
        Deliver(id, response);
        ghost var row := work[id].row;
        RecordOutcome(id, insertOk, countOk);
        assert work == old(work)[id := Recorded(old(work[id].job), row)];
        AckOrRetry(id);
        assert Answered(row, old(work[id].job), response, now);
      }
      RunFive(s0, Load(id), Post(id, response), Insert(id, insertOk), Count(id, countOk), Finish(id));
    }

    /** The requeue goroutine when its timer fires. */
    method Requeue(id: nat)
      requires id in work && work[id].Sleeping? && work[id].wakeAt <= now
      modifies this
      ensures Snapshot() == Apply(old(Snapshot()), Wake(id))
      ensures var j := old(work[id].job);
              if j in old(published) && now < old(published)[j] + window then work == old(work) - {id}
              else work == (old(work) - {id})[old(serial) := Queued(j)] && published == old(published)[j := now]
    {
      var job := work[id].job;
      work := work - {id};
      Enqueue(job);
    }
  }

  lemma RunFirst(s: State, e: Event, rest: seq<Event>)
    ensures Run(s, [e] + rest) == Run(Apply(s, e), rest)
  {
    assert ([e] + rest)[1..] == rest;
  }

  lemma RunFive(s: State, a: Event, b: Event, c: Event, d: Event, e: Event)
    ensures Run(s, [a, b, c, d, e]) == Apply(Apply(Apply(Apply(Apply(s, a), b), c), d), e)
  {
    assert [a, b, c, d, e] == [a] + ([b] + ([c] + ([d] + ([e] + []))));
    RunFirst(s, a, [b] + ([c] + ([d] + ([e] + []))));
    RunFirst(Apply(s, a), b, [c] + ([d] + ([e] + [])));
    RunFirst(Apply(Apply(s, a), b), c, [d] + ([e] + []));
    RunFirst(Apply(Apply(Apply(s, a), b), c), d, [e] + []);
    RunFirst(Apply(Apply(Apply(Apply(s, a), b), c), d), e, []);
  }
}
