/** Every code path that writes a ticket's state, interleaved: state changes and bulk changes
    (internal/ticket/repo.go, bulk.go), ingress reopening (ingress.go) and routing (internal/routing). */
module TicketLifecycle {
  import opened Wrappers
  import opened TicketState
  import opened TicketRepo

  datatype Event =
    | ChangeState(id: nat, to: State, now: int)
    | BulkState(ids: seq<nat>, to: State, slots: seq<Slot>)
    | BulkAssign(agent: Option<nat>, ids: seq<nat>, callerLimit: Option<nat>)
    | IngressRead(consumer: nat, id: nat)
    | IngressReopen(consumer: nat)
    | Route(id: nat, picked: nat)
    | Tick(refs: seq<(nat, nat)>)

  /** The table, and the tickets that ingress transactions have read as done and are about to reopen. The read takes no
      lock on the ticket and the update goes by id, but each transaction holds the row of the ticket's conversation, so
      there is at most one at a time for a ticket. */
  datatype Board = Board(t: Table, seen: map<nat, nat>)

  function Reopen(t: Table, id: nat): Table {
    if id in t then t[id := t[id].(state := Reopened)] else t
  }

  /** The ticket write of Route: assign and open, whatever the state was. */
  function Routed(t: Table, id: nat, agent: nat): Table {
    if id in t then t[id := t[id].(assignee := Some(agent), state := Open)] else t
  }

  /** What the sweep's two queries ask of a ticket's row. */
  predicate Scannable(row: TicketRow) {
    || (row.assignee.None? && (row.state == New || row.state == Reopened))
    || (row.assignee.Some? && (row.state == Open || row.state == Pending))
  }

  function RouteAll(t: Table, refs: seq<(nat, nat)>): Table {
    if refs == [] then t
    else Routed(RouteAll(t, refs[..|refs| - 1]), refs[|refs| - 1].0, refs[|refs| - 1].1)
  }

  /** A sweep that scans and routes with nothing in between; its work list has no ticket twice. */
  predicate Swept(t: Table, refs: seq<(nat, nat)>) {
    && (forall i, j :: 0 <= i < j < |refs| ==> refs[i].0 != refs[j].0)
    && (forall i :: 0 <= i < |refs| ==> refs[i].0 in t && Scannable(t[refs[i].0]))
  }

  /** No other ingress transaction on the ticket's conversation is open. */
  predicate ConversationFree(b: Board, consumer: nat, id: nat) {
    forall other :: other in b.seen && b.seen[other] == id ==> other == consumer
  }

  function Apply(b: Board, e: Event): Board {
    match e
    case ChangeState(id, to, now) => b.(t := Change(b.t, id, to, now))
    case BulkState(ids, to, slots) =>
      if |slots| == |ids| && Valid(to) then b.(t := BulkRun(b.t, ids, to, slots, |ids|).t) else b
    case BulkAssign(agent, ids, callerLimit) => b.(t := AssignAll(b.t, ids, agent, callerLimit))
    case IngressRead(consumer, id) =>
      if !ConversationFree(b, consumer, id) then b
      else b.(seen := if id in b.t && Done(b.t[id].state) then b.seen[consumer := id] else b.seen - {consumer})
    case IngressReopen(consumer) =>
      if consumer in b.seen then Board(Reopen(b.t, b.seen[consumer]), b.seen - {consumer}) else b
    case Route(id, agent) => b.(t := Routed(b.t, id, agent))
    case Tick(refs) => if Swept(b.t, refs) then b.(t := RouteAll(b.t, refs)) else b
  }

  function Run(b: Board, events: seq<Event>): Board {
    if events == [] then b else Apply(Run(b, events[..|events| - 1]), events[|events| - 1])
  }

  /** What a bulk assignment leaves of a ticket. */
  function AfterAssignment(row: TicketRow, listed: bool, agent: Option<nat>, callerLimit: Option<nat>): TicketRow {
    if !listed || row.state in {Resolved, Closed} then row
    else if agent.Some? && callerLimit.Some? && row.assignee.Some? && row.assignee != callerLimit then row
    else TicketRow(if agent.Some? && row.state == New then Open else row.state, agent, row.resolvedAt, row.closedAt)
  }

  lemma {:induction false} RoutedIfListed(t: Table, refs: seq<(nat, nat)>, id: nat)
    requires Swept(t, refs) && id in t
    ensures RouteAll(t, refs).Keys == t.Keys
    ensures (forall i :: 0 <= i < |refs| ==> refs[i].0 != id) ==> RouteAll(t, refs)[id] == t[id]
    ensures forall i :: 0 <= i < |refs| && refs[i].0 == id ==>
              RouteAll(t, refs)[id] == TicketRow(Open, Some(refs[i].1), t[id].resolvedAt, t[id].closedAt)
    decreases |refs|
  {
    if refs != [] {
      var init := refs[..|refs| - 1];
      assert forall i :: 0 <= i < |init| ==> init[i] == refs[i] && refs[i].0 != refs[|refs| - 1].0;
      RoutedIfListed(t, init, id);
    }
  }

  /** What each step does to a ticket, spelled out. */
  lemma StepSpelledOut(b: Board, e: Event, id: nat)
    requires id in b.t
    ensures Apply(b, e).t.Keys == b.t.Keys
    ensures var row, row' := b.t[id], Apply(b, e).t[id];
            && (e.ChangeState? ==>
                  row' == if e.id == id && MayBecome(row.state, e.to) then AfterChange(row, e.to, e.now) else row)
            && (e.BulkState? && |e.ids| == |e.slots| && !e.to.Unknown? ==>
                  var first := FirstReading(e.ids, e.slots, |e.ids|, id);
                  row' == if first.Some? && MayBecome(row.state, e.to) then AfterChange(row, e.to, first.value)
                          else row)
            && (e.BulkAssign? ==> row' == AfterAssignment(row, id in e.ids, e.agent, e.callerLimit))
            && (e.IngressRead? ==> row' == row)
            && (e.IngressReopen? ==>
                  row' == if e.consumer in b.seen && b.seen[e.consumer] == id
                          then TicketRow(Reopened, row.assignee, row.resolvedAt, row.closedAt) else row)
            && (e.Route? ==>
                  row' == if e.id == id then TicketRow(Open, Some(e.picked), row.resolvedAt, row.closedAt) else row)
    ensures e.Tick? && Swept(b.t, e.refs) ==>
              forall i :: 0 <= i < |e.refs| && e.refs[i].0 == id ==>
                Apply(b, e).t[id] == TicketRow(Open, Some(e.refs[i].1), b.t[id].resolvedAt, b.t[id].closedAt)
    ensures e.Tick? && (!Swept(b.t, e.refs) || forall i :: 0 <= i < |e.refs| ==> e.refs[i].0 != id) ==>
              Apply(b, e).t[id] == b.t[id]
  {
    match e
    case ChangeState(i, to, now) => EdgesByTarget(b.t[id].state, to);
    case BulkState(ids, to, slots) =>
      if |ids| == |slots| && Valid(to) {
        BulkMovesSoFar(b.t, ids, to, slots, |ids|);
        BulkLeaves(b.t, ids, to, slots, |ids|, id);
      }
    case Tick(refs) =>
      if Swept(b.t, refs) {
        RoutedIfListed(b.t, refs, id);
      }
    case _ =>
  }

  /** The sweep looks at unassigned tickets that are new or reopened, and at assigned ones being worked on or waited
      for; it passes over tickets on hold and done ones. */
  lemma SweepLooksAt(row: TicketRow)
    requires Scannable(row)
    ensures row.assignee.None? ==> row.state in {New, Reopened}
    ensures row.assignee.Some? ==> row.state in {Open, Pending}
    ensures !Done(row.state) && row.state != OnHold
  {
  }

  predicate AllValid(t: Table) {
    forall id :: id in t ==> Valid(t[id].state)
  }

  /** No ticket appears, disappears or moves other than along an edge. */
  predicate LegalStep(before: Table, after: Table) {
    && before.Keys == after.Keys
    && forall id :: id in before ==>
         before[id].state == after[id].state || CanTransition(before[id].state, after[id].state)
  }

  /** Route lands on work that is already done. */
  predicate Misroutes(t: Table, e: Event) {
    e.Route? && e.id in t && Done(t[e.id].state)
  }

  /** A reopening comes after somebody else has moved the ticket on from the state that was read. */
  predicate ReopensLate(b: Board, e: Event) {
    && e.IngressReopen? && e.consumer in b.seen && b.seen[e.consumer] in b.t
    && !Done(b.t[b.seen[e.consumer]].state) && b.t[b.seen[e.consumer]].state != Reopened
  }

  predicate Strays(b: Board, e: Event) {
    Misroutes(b.t, e) || ReopensLate(b, e)
  }

  lemma {:induction false} RouteAllOpens(t: Table, refs: seq<(nat, nat)>)
    requires Swept(t, refs)
    ensures RouteAll(t, refs).Keys == t.Keys
    ensures forall id :: id in t ==>
              && (RouteAll(t, refs)[id] == t[id] || (RouteAll(t, refs)[id].state == Open && Scannable(t[id])))
              && RouteAll(t, refs)[id].resolvedAt == t[id].resolvedAt
              && RouteAll(t, refs)[id].closedAt == t[id].closedAt
    decreases |refs|
  {
    if refs != [] {
      RouteAllOpens(t, refs[..|refs| - 1]);
    }
  }

  lemma SweepIsLegal(t: Table, refs: seq<(nat, nat)>)
    requires AllValid(t) && Swept(t, refs)
    ensures LegalStep(t, RouteAll(t, refs)) && AllValid(RouteAll(t, refs))
  {
    RouteAllOpens(t, refs);
    forall id | id in t ensures t[id].state == Open || CanTransition(t[id].state, Open) || Done(t[id].state) {
      OpeningIsLegalIff(t[id].state);
    }
  }

  lemma BulkIsLegal(t: Table, ids: seq<nat>, to: State, slots: seq<Slot>)
    requires AllValid(t) && |slots| == |ids| && Valid(to)
    ensures LegalStep(t, BulkRun(t, ids, to, slots, |ids|).t) && AllValid(BulkRun(t, ids, to, slots, |ids|).t)
  {
    BulkMovesSoFar(t, ids, to, slots, |ids|);
    forall id | id in t
      ensures var after := BulkRun(t, ids, to, slots, |ids|).t[id].state;
              Valid(after) && (after == t[id].state || CanTransition(t[id].state, after))
    {
      BulkLeaves(t, ids, to, slots, |ids|, id);
      EdgesByTarget(t[id].state, to);
    }
  }

  /** One atomic step of any writer moves every ticket along an edge or not at all, except exactly when Route hits a
      ticket that is resolved or closed, or a reopening one that has already been moved on. */
  lemma StepIsLegalIff(b: Board, e: Event)
    requires AllValid(b.t)
    ensures LegalStep(b.t, Apply(b, e).t) <==> !Strays(b, e)
    ensures AllValid(Apply(b, e).t) && Apply(b, e).t.Keys == b.t.Keys
  {
    match e
    case BulkState(ids, to, slots) =>
      if |slots| == |ids| && Valid(to) {
        BulkIsLegal(b.t, ids, to, slots);
      }
    case Tick(refs) =>
      if Swept(b.t, refs) {
        SweepIsLegal(b.t, refs);
      }
    case Route(id, _) =>
      if id in b.t {
        OpeningIsLegalIff(b.t[id].state);
      }
    case IngressReopen(consumer) =>
      if consumer in b.seen && b.seen[consumer] in b.t {
        ReopeningIsLegalIff(b.t[b.seen[consumer]].state);
      }
    case _ =>
  }

  lemma {:induction false} RunKeepsValid(b: Board, events: seq<Event>)
    requires AllValid(b.t)
    ensures AllValid(Run(b, events).t) && Run(b, events).t.Keys == b.t.Keys
    decreases |events|
  {
    if events != [] {
      RunKeepsValid(b, events[..|events| - 1]);
      StepIsLegalIff(Run(b, events[..|events| - 1]), events[|events| - 1]);
    }
  }

  predicate LegalAt(b: Board, events: seq<Event>, i: nat)
    requires i < |events|
  {
    LegalStep(Run(b, events[..i]).t, Run(b, events[..i + 1]).t)
  }

  predicate StraysAt(b: Board, events: seq<Event>, i: nat)
    requires i < |events|
  {
    Strays(Run(b, events[..i]), events[i])
  }

  lemma StepAtIsLegalIff(b: Board, events: seq<Event>, i: nat)
    requires AllValid(b.t) && i < |events|
    ensures LegalAt(b, events, i) <==> !StraysAt(b, events, i)
  {
    RunKeepsValid(b, events[..i]);
    StepIsLegalIff(Run(b, events[..i]), events[i]);
    assert events[..i + 1][..i] == events[..i];
  }

  /** Over every interleaving, each ticket's history is a path in the state graph (with stutters) if and only if no
      Route ever lands on resolved or closed work and no ingress reopening on a ticket moved on since it was read.
      Sweeps that scan and route in one step never do. */
  lemma HistoryIsPathIff(b: Board, events: seq<Event>)
    requires AllValid(b.t)
    ensures (forall i :: 0 <= i < |events| ==> LegalAt(b, events, i))
            <==> (forall i :: 0 <= i < |events| ==> !StraysAt(b, events, i))
  {
    forall i | 0 <= i < |events| ensures LegalAt(b, events, i) <==> !StraysAt(b, events, i) {
      StepAtIsLegalIff(b, events, i);
    }
  }

  /** The sweep really scans first and routes later: a ticket resolved in between is reopened as `open`. */
  lemma SweepCanMisroute()
    ensures var b := Board(map[1 := TicketRow(Open, Some(7), None, None)], map[]);
            var b' := Apply(b, ChangeState(1, Resolved, 5));
            && Scannable(b.t[1]) && !Scannable(b'.t[1])
            && Misroutes(b'.t, Route(1, 8)) && !LegalStep(b'.t, Apply(b', Route(1, 8)).t)
  {
    var b := Board(map[1 := TicketRow(Open, Some(7), None, None)], map[]);
    var b' := Apply(b, ChangeState(1, Resolved, 5));
    assert Edges(Open)[2] == Resolved;
    assert b'.t[1].state == Resolved;
    StepIsLegalIff(b', Route(1, 8));
  }

  /** A message arrives on a resolved ticket; between the transaction's read and its write somebody reopens the ticket
      and it is routed; the write then takes it from open back to reopened. */
  lemma ReopeningCanBeLate()
    ensures var events := [IngressRead(0, 1), ChangeState(1, Reopened, 6), Route(1, 8)];
            var b := Run(RESOLVED_BOARD, events);
            1 in b.t && b.t[1].state == Open && ReopensLate(b, IngressReopen(0))
            && !LegalStep(b.t, Apply(b, IngressReopen(0)).t)
  {
    var row := RESOLVED_BOARD.t[1];
    RunThree(RESOLVED_BOARD, IngressRead(0, 1), ChangeState(1, Reopened, 6), Route(1, 8));
    var b1 := Apply(RESOLVED_BOARD, IngressRead(0, 1));
    assert b1 == Board(map[1 := row], map[0 := 1]);
    assert Edges(Resolved)[1] == Reopened;
    var b2 := Apply(b1, ChangeState(1, Reopened, 6));
    assert b2 == Board(map[1 := row.(state := Reopened)], map[0 := 1]);
    var b3 := Apply(b2, Route(1, 8));
    assert b3 == Board(map[1 := row.(assignee := Some(8), state := Open)], map[0 := 1]);
    LateFromOpen(b3);
  }

  lemma LateFromOpen(b: Board)
    requires b.t.Keys == {1} && b.t[1].state == Open && b.seen == map[0 := 1]
    ensures ReopensLate(b, IngressReopen(0)) && !LegalStep(b.t, Apply(b, IngressReopen(0)).t)
  {
    StepIsLegalIff(b, IngressReopen(0));
  }

  lemma RunAppended(b: Board, events: seq<Event>, e: Event)
    ensures Run(b, events + [e]) == Apply(Run(b, events), e)
  {
    assert (events + [e])[..|events|] == events;
  }

  lemma RunThree(b: Board, e: Event, f: Event, g: Event)
    ensures Run(b, [e, f, g]) == Apply(Apply(Apply(b, e), f), g)
  {
    RunAppended(b, [], e);
    RunAppended(b, [e], f);
    RunAppended(b, [e, f], g);
    assert [] + [e] == [e] && [e] + [f] == [e, f] && [e, f] + [g] == [e, f, g];
  }

  const RESOLVED_BOARD := Board(map[1 := TicketRow(Resolved, Some(7), Some(5), None)], map[])

  // ---------------------------------------------------------------- resolution stamps

  /** Resolved work carries its stamp; closed work carries both, in order. */
  predicate StampedRow(row: TicketRow, clock: int) {
    && (row.resolvedAt.Some? ==> row.resolvedAt.value <= clock)
    && (row.closedAt.Some? ==> row.closedAt.value <= clock)
    && (row.state == Resolved ==> row.resolvedAt.Some?)
    && (row.state == Closed ==>
          row.resolvedAt.Some? && row.closedAt.Some? && row.resolvedAt.value <= row.closedAt.value)
  }

  predicate StampsInOrder(t: Table, clock: int) {
    forall id :: id in t ==> StampedRow(t[id], clock)
  }

  function Clock(slots: seq<Slot>): seq<int> {
    seq(|slots|, i requires 0 <= i < |slots| => slots[i].now)
  }

  function Readings(e: Event): seq<int> {
    match e
    case ChangeState(_, _, now) => [now]
    case BulkState(_, _, slots) => Clock(slots)
    case _ => []
  }

  function LastReading(start: int, events: seq<Event>): int {
    if events == [] then start
    else
      var r := Readings(events[|events| - 1]);
      if r == [] then LastReading(start, events[..|events| - 1]) else r[|r| - 1]
  }

  predicate Nondecreasing(xs: seq<int>) {
    forall i, j :: 0 <= i <= j < |xs| ==> xs[i] <= xs[j]
  }

  /** The clock readings of the run never go back. */
  predicate ClockForward(start: int, events: seq<Event>) {
    events == [] ||
    (ClockForward(start, events[..|events| - 1])
     && Nondecreasing([LastReading(start, events[..|events| - 1])] + Readings(events[|events| - 1])))
  }

  lemma ChangeKeepsStamps(t: Table, id: nat, to: State, before: int, now: int)
    requires StampsInOrder(t, before) && before <= now
    ensures StampsInOrder(Change(t, id, to, now), now)
  {
    if Refusal(t, id, to).None? && to == Closed {
      assert t[id].state == Resolved by {
        assert CanTransition(t[id].state, Closed);
      }
    }
  }

  lemma {:induction false} BulkKeepsStamps(t: Table, ids: seq<nat>, to: State, before: int, slots: seq<Slot>, n: nat)
    requires StampsInOrder(t, before) && n <= |ids| == |slots| && Nondecreasing([before] + Clock(slots))
    ensures StampsInOrder(BulkRun(t, ids, to, slots, n).t, ([before] + Clock(slots))[n])
    decreases n
  {
    if n > 0 {
      BulkKeepsStamps(t, ids, to, before, slots, n - 1);
      var all, b := [before] + Clock(slots), BulkRun(t, ids, to, slots, n - 1);
      assert all[n - 1] <= all[n] == slots[n - 1].now;
      if slots[n - 1].begins {
        ChangeKeepsStamps(b.t, ids[n - 1], to, all[n - 1], all[n]);
      }
      StampsLater(b.t, all[n - 1], all[n]);
    }
  }

  lemma StampsLater(t: Table, before: int, now: int)
    requires StampsInOrder(t, before) && before <= now
    ensures StampsInOrder(t, now)
  {
  }

  lemma StepKeepsStamps(b: Board, e: Event, before: int)
    requires StampsInOrder(b.t, before) && Nondecreasing([before] + Readings(e))
    ensures StampsInOrder(Apply(b, e).t, if Readings(e) == [] then before else Readings(e)[|Readings(e)| - 1])
  {
    match e
    case ChangeState(id, to, now) =>
      assert ([before] + [now])[0] <= ([before] + [now])[1];
      ChangeKeepsStamps(b.t, id, to, before, now);
    case BulkState(ids, to, slots) =>
      var all := [before] + Clock(slots);
      assert all[0] <= all[|all| - 1];
      if |slots| == |ids| && Valid(to) {
        BulkKeepsStamps(b.t, ids, to, before, slots, |ids|);
      }
    case Tick(refs) =>
      if Swept(b.t, refs) {
        RouteAllOpens(b.t, refs);
      }
    case _ =>
  }

  /** Under a clock that does not run backwards a closed ticket was resolved no later than it was closed,
      whatever the other writers did in between. */
  lemma {:induction false} ClosedAfterResolved(b: Board, start: int, events: seq<Event>)
    requires StampsInOrder(b.t, start) && ClockForward(start, events)
    ensures StampsInOrder(Run(b, events).t, LastReading(start, events))
    ensures forall id :: id in Run(b, events).t && Run(b, events).t[id].state == Closed ==>
              var row := Run(b, events).t[id];
              row.resolvedAt.Some? && row.closedAt.Some? && row.resolvedAt.value <= row.closedAt.value
    decreases |events|
  {
    if events != [] {
      var init := events[..|events| - 1];
      ClosedAfterResolved(b, start, init);
      StepKeepsStamps(Run(b, init), events[|events| - 1], LastReading(start, init));
    }
  }

  // ---------------------------------------------------------------- what the stamps say

  /** The reading at which a step moves a ticket into a state by way of a state change, if it does. */
  function ReadingInto(b: Board, e: Event, id: nat, target: State): Option<int> {
    if id !in b.t || !MayBecome(b.t[id].state, target) then None
    else
      match e
      case ChangeState(i, to, now) => if i == id && to == target then Some(now) else None
      case BulkState(ids, to, slots) =>
        if |slots| == |ids| && to == target then FirstReading(ids, slots, |ids|, id) else None
      case _ => None
  }

  /** The reading of the last such step of a run. */
  function LastReadingInto(b: Board, events: seq<Event>, id: nat, target: State): Option<int> {
    if events == [] then None
    else
      var init, last := events[..|events| - 1], events[|events| - 1];
      var reading := ReadingInto(Run(b, init), last, id, target);
      if reading.Some? then reading else LastReadingInto(b, init, id, target)
  }

  lemma StepStamps(b: Board, e: Event, id: nat)
    requires AllValid(b.t) && id in b.t
    ensures var row, b' := b.t[id], Apply(b, e);
            && id in b'.t
            && b'.t[id].resolvedAt == (if ReadingInto(b, e, id, Resolved).Some? then ReadingInto(b, e, id, Resolved)
                                       else row.resolvedAt)
            && b'.t[id].closedAt == if ReadingInto(b, e, id, Closed).Some? then ReadingInto(b, e, id, Closed)
                                    else row.closedAt
  {
    match e
    case ChangeState(i, to, now) => EdgesByTarget(b.t[id].state, to);
    case BulkState(ids, to, slots) =>
      if |slots| == |ids| && Valid(to) {
        BulkLeaves(b.t, ids, to, slots, |ids|, id);
      }
    case Tick(refs) =>
      if Swept(b.t, refs) {
        RouteAllOpens(b.t, refs);
      }
    case _ =>
  }

  /** A ticket's stamps are the readings of the last change that took it into resolved, and of the last into closed,
      whatever the other writers did, or what they were before the run. */
  lemma {:induction false} StampsAreLastReadings(b: Board, events: seq<Event>, id: nat)
    requires AllValid(b.t) && id in b.t
    ensures var b' := Run(b, events);
            var r, c := LastReadingInto(b, events, id, Resolved), LastReadingInto(b, events, id, Closed);
            && id in b'.t
            && b'.t[id].resolvedAt == (if r.Some? then r else b.t[id].resolvedAt)
            && b'.t[id].closedAt == if c.Some? then c else b.t[id].closedAt
    decreases |events|
  {
    if events != [] {
      var init, last := events[..|events| - 1], events[|events| - 1];
      StampsAreLastReadings(b, init, id);
      RunKeepsValid(b, init);
      StepStamps(Run(b, init), last, id);
    }
  }
}
