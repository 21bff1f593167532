/** The ticket writes of internal/ticket/repo.go and internal/ticket/bulk.go. */
module TicketRepo {
  import opened Wrappers
  import opened TicketState

  datatype TicketRow = TicketRow(state: State, assignee: Option<nat>, resolvedAt: Option<int>, closedAt: Option<int>)

  type Table = map<nat, TicketRow>

  datatype Envelope = Changed(id: nat, from: State, to: State) | BulkChanged(ids: seq<nat>, to: State)

  datatype BulkFailure = BulkFailure(id: nat, reason: Error)

  // ---------------------------------------------------------------- one ticket

  function Stamped(row: TicketRow, to: State, now: int): TicketRow {
    row.(state := to,
         resolvedAt := if to == Resolved then Some(now) else row.resolvedAt,
         closedAt := if to == Closed then Some(now) else row.closedAt)
  }

  /** Why ChangeState refuses, if it does. */
  function Refusal(t: Table, id: nat, to: State): Option<Error> {
    if !Valid(to) then Some(InvalidState(to))
    else if id !in t then Some(NotFound)
    else Transition(t[id].state, to)
  }

  function Change(t: Table, id: nat, to: State, now: int): Table {
    if Refusal(t, id, to).None? then t[id := Stamped(t[id], to, now)] else t
  }

  // ---------------------------------------------------------------- a batch of transitions

  datatype Bulk = Bulk(t: Table, succeeded: seq<nat>, failures: seq<BulkFailure>)

  /** What a batch meets at each id: the clock, and whether the ticket's transaction can begin. The text of that error
      carries the prefix by which a batch tells refusals from failures, so it does not stop the batch. */
  datatype Slot = Slot(now: int, begins: bool)

  function Moved(b: Bulk, id: nat, to: State, now: int): Bulk {
    b.(t := Change(b.t, id, to, now), succeeded := b.succeeded + [id])
  }

  function Failed(b: Bulk, id: nat, reason: Error): Bulk {
    b.(failures := b.failures + [BulkFailure(id, reason)])
  }

  /** The first n transitions, one after the other, collecting refusals instead of stopping. */
  function BulkRun(t: Table, ids: seq<nat>, to: State, slots: seq<Slot>, n: nat): Bulk
    requires n <= |ids| == |slots|
  {
    if n == 0 then Bulk(t, [], [])
    else
      var b, id := BulkRun(t, ids, to, slots, n - 1), ids[n - 1];
      if !slots[n - 1].begins then Failed(b, id, CannotBegin)
      else
        var refusal := Refusal(b.t, id, to);
        if refusal.None? then Moved(b, id, to, slots[n - 1].now) else Failed(b, id, refusal.value)
  }

  /** The ids whose transaction began, in order. */
  function Begun(ids: seq<nat>, slots: seq<Slot>, n: nat): seq<nat>
    requires n <= |ids| == |slots|
  {
    if n == 0 then []
    else if slots[n - 1].begins then Begun(ids, slots, n - 1) + [ids[n - 1]]
    else Begun(ids, slots, n - 1)
  }

  predicate Distinct(ids: seq<nat>) {
    forall i, j :: 0 <= i < j < |ids| ==> ids[i] != ids[j]
  }

  /** The tickets a batch may move. */
  predicate Movable(t: Table, ids: seq<nat>, to: State, id: nat) {
    id in ids && Refusal(t, id, to).None?
  }

  predicate MovedExactly(t: Table, b: Bulk, to: State) {
    && b.t.Keys == t.Keys
    && forall id :: id in t ==>
         && b.t[id].assignee == t[id].assignee
         && b.t[id].state == (if id in b.succeeded then to else t[id].state)
         && (id !in b.succeeded ==> b.t[id] == t[id])
  }

  /** A ticket can still be moved if it could be at first and has not been moved yet. */
  lemma StillMovable(t: Table, b: Bulk, id: nat, to: State)
    requires Valid(to) && MovedExactly(t, b, to)
    requires forall x :: x in b.succeeded ==> x in t && Refusal(t, x, to).None?
    ensures Refusal(b.t, id, to).None? <==> Refusal(t, id, to).None? && id !in b.succeeded
    ensures Refusal(b.t, id, to) == Some(NotFound) <==> id !in t
  {
    NoSelfEdge(to);
    if id in t {
      assert b.t[id].state == if id in b.succeeded then to else t[id].state;
    }
  }

  lemma MovesOneMore(t: Table, b: Bulk, id: nat, to: State, now: int)
    requires MovedExactly(t, b, to) && Refusal(b.t, id, to).None?
    ensures MovedExactly(t, Moved(b, id, to, now), to)
  {
    var b' := Moved(b, id, to, now);
    forall x | x in t
      ensures b'.t[x].assignee == t[x].assignee
      ensures b'.t[x].state == (if x in b'.succeeded then to else t[x].state)
      ensures x !in b'.succeeded ==> b'.t[x] == t[x]
    {
      assert x in b'.succeeded <==> x in b.succeeded || x == id;
    }
  }

  /** A failure's reason: "not found" only for missing tickets, "cannot begin" only where that happened. */
  ghost predicate Explained(t: Table, begun: seq<nat>, f: BulkFailure) {
    && (f.reason == NotFound ==> f.id !in t && f.id in begun)
    && (f.id !in t ==> f.reason == NotFound || f.reason == CannotBegin)
    && (f.reason != CannotBegin ==> f.id in begun)
  }

  ghost predicate Accounted(t: Table, ids: seq<nat>, begun: seq<nat>, n: nat, b: Bulk)
    requires n <= |ids|
  {
    && |b.succeeded| + |b.failures| == n
    && (forall f :: f in b.failures ==> f.id in ids[..n] && Explained(t, begun, f))
  }

  ghost predicate MovedSoFar(t: Table, begun: seq<nat>, to: State, b: Bulk) {
    && Distinct(b.succeeded) && MovedExactly(t, b, to)
    && (forall id :: id in b.succeeded <==> Movable(t, begun, to, id))
  }

  lemma MovedOneMore(t: Table, begun: seq<nat>, to: State, b: Bulk, id: nat, now: int)
    requires Valid(to) && MovedSoFar(t, begun, to, b) && Refusal(b.t, id, to).None?
    ensures MovedSoFar(t, begun + [id], to, Moved(b, id, to, now))
  {
    StillMovable(t, b, id, to);
    MovesOneMore(t, b, id, to, now);
  }

  lemma RefusedOneMore(t: Table, begun: seq<nat>, to: State, b: Bulk, id: nat)
    requires Valid(to) && MovedSoFar(t, begun, to, b) && Refusal(b.t, id, to).Some?
    ensures MovedSoFar(t, begun + [id], to, Failed(b, id, Refusal(b.t, id, to).value))
  {
    StillMovable(t, b, id, to);
  }

  lemma {:induction false} BulkMovesSoFar(t: Table, ids: seq<nat>, to: State, slots: seq<Slot>, n: nat)
    requires n <= |ids| == |slots| && Valid(to)
    ensures MovedSoFar(t, Begun(ids, slots, n), to, BulkRun(t, ids, to, slots, n))
    decreases n
  {
    if n > 0 {
      BulkMovesSoFar(t, ids, to, slots, n - 1);
      var b, begun := BulkRun(t, ids, to, slots, n - 1), Begun(ids, slots, n - 1);
      if slots[n - 1].begins {
        if Refusal(b.t, ids[n - 1], to).None? {
          MovedOneMore(t, begun, to, b, ids[n - 1], slots[n - 1].now);
        } else {
          RefusedOneMore(t, begun, to, b, ids[n - 1]);
        }
      }
    }
  }

  lemma ReasonOf(t: Table, begun: seq<nat>, to: State, b: Bulk, id: nat)
    requires Valid(to) && MovedSoFar(t, begun, to, b) && Refusal(b.t, id, to).Some?
    ensures Explained(t, begun + [id], BulkFailure(id, Refusal(b.t, id, to).value))
  {
    StillMovable(t, b, id, to);
  }

  lemma AccountedOneMore(t: Table, ids: seq<nat>, begun: seq<nat>, more: seq<nat>, n: nat, b: Bulk, b': Bulk)
    requires 0 < n <= |ids| && Accounted(t, ids, begun, n - 1, b) && begun <= more
    requires || (b'.succeeded == b.succeeded + [ids[n - 1]] && b'.failures == b.failures)
             || (exists f :: b'.failures == b.failures + [f] && f.id == ids[n - 1] && Explained(t, more, f)
                             && b'.succeeded == b.succeeded)
    ensures Accounted(t, ids, more, n, b')
  {
    assert ids[..n] == ids[..n - 1] + [ids[n - 1]];
    forall f | f in b.failures ensures Explained(t, more, f) {
      assert Explained(t, begun, f);
    }
  }

  lemma {:induction false} BulkAccountsSoFar(t: Table, ids: seq<nat>, to: State, slots: seq<Slot>, n: nat)
    requires n <= |ids| == |slots| && Valid(to)
    ensures Accounted(t, ids, Begun(ids, slots, n), n, BulkRun(t, ids, to, slots, n))
    decreases n
  {
    if n > 0 {
      BulkAccountsSoFar(t, ids, to, slots, n - 1);
      BulkMovesSoFar(t, ids, to, slots, n - 1);
      var b, begun := BulkRun(t, ids, to, slots, n - 1), Begun(ids, slots, n - 1);
      var b', more := BulkRun(t, ids, to, slots, n), Begun(ids, slots, n);
      if slots[n - 1].begins && Refusal(b.t, ids[n - 1], to).Some? {
        ReasonOf(t, begun, to, b, ids[n - 1]);
        assert b'.failures == b.failures + [BulkFailure(ids[n - 1], Refusal(b.t, ids[n - 1], to).value)];
      } else if !slots[n - 1].begins {
        assert b'.failures == b.failures + [BulkFailure(ids[n - 1], CannotBegin)];
      }
      AccountedOneMore(t, ids, begun, more, n, b, b');
    }
  }

  /** Of the tickets whose transaction began, exactly those whose present state has an edge to the target move, each
      once although the batch may repeat ids; nothing else changes. */
  lemma BulkMovesExactly(t: Table, ids: seq<nat>, to: State, slots: seq<Slot>)
    requires |slots| == |ids| && Valid(to)
    ensures var b := BulkRun(t, ids, to, slots, |ids|);
            && Distinct(b.succeeded)
            && (forall id :: id in b.succeeded
                  <==> && id in t && MayBecome(t[id].state, to)
                       && exists i :: 0 <= i < |ids| && ids[i] == id && slots[i].begins)
            && MovedExactly(t, b, to)
  {
    BulkMovesSoFar(t, ids, to, slots, |ids|);
    var b, begun := BulkRun(t, ids, to, slots, |ids|), Begun(ids, slots, |ids|);
    forall id: nat
      ensures Movable(t, begun, to, id)
              <==> && id in t && MayBecome(t[id].state, to)
                   && exists i :: 0 <= i < |ids| && ids[i] == id && slots[i].begins
    {
      BegunMeans(ids, slots, |ids|, id);
      if id in t {
        EdgesByTarget(t[id].state, to);
      }
    }
  }

  /** Every id of the batch is reported once, as moved or refused; "not found" means that its transaction began and
      there is no such ticket, and a missing ticket is reported so unless its transaction did not begin. */
  lemma BulkAccountsForAll(t: Table, ids: seq<nat>, to: State, slots: seq<Slot>)
    requires |slots| == |ids| && Valid(to)
    ensures var b := BulkRun(t, ids, to, slots, |ids|);
            && |b.succeeded| + |b.failures| == |ids|
            && (forall f :: f in b.failures ==> f.id in ids && Explained(t, Begun(ids, slots, |ids|), f))
  {
    BulkAccountsSoFar(t, ids, to, slots, |ids|);
    assert ids[..|ids|] == ids;
  }

  /** The clock reading of the first transaction of a batch that began for a ticket. */
  function FirstReading(ids: seq<nat>, slots: seq<Slot>, n: nat, id: nat): Option<int>
    requires n <= |ids| == |slots|
  {
    if n == 0 then None
    else
      var before := FirstReading(ids, slots, n - 1, id);
      if before.None? && ids[n - 1] == id && slots[n - 1].begins then Some(slots[n - 1].now) else before
  }

  /** What one change leaves of a ticket. */
  function AfterChange(row: TicketRow, to: State, now: int): TicketRow {
    TicketRow(to, row.assignee, if to == Resolved then Some(now) else row.resolvedAt,
              if to == Closed then Some(now) else row.closedAt)
  }

  lemma OneChange(t: Table, other: nat, id: nat, to: State, now: int)
    requires id in t && Valid(to)
    ensures var t' := Change(t, other, to, now);
            && t'.Keys == t.Keys
            && t'[id] == if other == id && MayBecome(t[id].state, to) then AfterChange(t[id], to, now) else t[id]
    ensures !MayBecome(to, to)
  {
    EdgesByTarget(t[id].state, to);
  }

  /** A batch moves a ticket with its first transaction that begins, if the ticket may become the target at all. */
  lemma {:induction false} BulkLeaves(t: Table, ids: seq<nat>, to: State, slots: seq<Slot>, n: nat, id: nat)
    requires n <= |ids| == |slots| && Valid(to) && id in t
    ensures var b, first := BulkRun(t, ids, to, slots, n), FirstReading(ids, slots, n, id);
            && b.t.Keys == t.Keys
            && b.t[id] == if first.Some? && MayBecome(t[id].state, to) then AfterChange(t[id], to, first.value)
                          else t[id]
    decreases n
  {
    if n > 0 {
      BulkLeaves(t, ids, to, slots, n - 1, id);
      var b := BulkRun(t, ids, to, slots, n - 1);
      if slots[n - 1].begins {
        OneChange(b.t, ids[n - 1], id, to, slots[n - 1].now);
        assert BulkRun(t, ids, to, slots, n).t == Change(b.t, ids[n - 1], to, slots[n - 1].now);
      }
    }
  }

  /** What the first n transactions leave of every ticket. */
  ghost predicate LeavesEach(t: Table, t': Table, ids: seq<nat>, to: State, slots: seq<Slot>, n: nat)
    requires n <= |ids| == |slots|
  {
    && t'.Keys == t.Keys
    && forall id :: id in t ==>
         var first := FirstReading(ids, slots, n, id);
         t'[id] == if first.Some? && MayBecome(t[id].state, to) then AfterChange(t[id], to, first.value) else t[id]
  }

  lemma BulkLeavesEach(t: Table, ids: seq<nat>, to: State, slots: seq<Slot>, n: nat)
    requires n <= |ids| == |slots| && Valid(to)
    ensures LeavesEach(t, BulkRun(t, ids, to, slots, n).t, ids, to, slots, n)
  {
    BulkMovesSoFar(t, ids, to, slots, n);
    forall id | id in t
      ensures var first := FirstReading(ids, slots, n, id);
              BulkRun(t, ids, to, slots, n).t[id]
              == if first.Some? && MayBecome(t[id].state, to) then AfterChange(t[id], to, first.value) else t[id]
    {
      BulkLeaves(t, ids, to, slots, n, id);
    }
  }

  lemma {:induction false} BegunMeans(ids: seq<nat>, slots: seq<Slot>, n: nat, id: nat)
    requires n <= |ids| == |slots|
    ensures id in Begun(ids, slots, n) <==> exists i :: 0 <= i < n && ids[i] == id && slots[i].begins
    decreases n
  {
    if n > 0 {
      BegunMeans(ids, slots, n - 1, id);
    }
  }

  // ---------------------------------------------------------------- a batch of assignments

  predicate Reassignable(row: TicketRow, agent: Option<nat>, callerLimit: Option<nat>) {
    && !Done(row.state)
    && (agent.Some? ==> callerLimit.None? || row.assignee.None? || row.assignee == callerLimit)
  }

  function Reassigned(row: TicketRow, agent: Option<nat>): TicketRow {
    if agent.Some? then row.(assignee := agent, state := if row.state == New then Open else row.state)
    else row.(assignee := None)
  }

  function Matching(t: Table, ids: seq<nat>, agent: Option<nat>, callerLimit: Option<nat>): set<nat> {
    set id | id in t && id in ids && Reassignable(t[id], agent, callerLimit)
  }

  function AssignAll(t: Table, ids: seq<nat>, agent: Option<nat>, callerLimit: Option<nat>): Table {
    map id | id in t :: if id in Matching(t, ids, agent, callerLimit) then Reassigned(t[id], agent) else t[id]
  }

  // ---------------------------------------------------------------- the repository object

  class Repo {
    var tickets: Table
    // whether the OnStateChange and OnBulkStateChange hooks are set, and what they published
    var hook: bool
    var bulkHook: bool
    var published: seq<Envelope>

    constructor (tickets: Table, hook: bool, bulkHook: bool)
      ensures this.tickets == tickets && this.hook == hook && this.bulkHook == bulkHook && published == []
    {
      this.tickets, this.hook, this.bulkHook, published := tickets, hook, bulkHook, [];
    }

    /** slot: the clock, and whether a transaction can begin. */
    method ChangeState(id: nat, to: State, slot: Slot) returns (r: Result<TicketRow, Error>)
      modifies this`tickets, this`published
      ensures tickets == if slot.begins then Change(old(tickets), id, to, slot.now) else old(tickets)
      ensures r.Failure? <==> !slot.begins || Refusal(old(tickets), id, to).Some?
      ensures r.Failure? ==> published == old(published)
      ensures r.Failure? && (slot.begins || !Valid(to)) ==> Some(r.error) == Refusal(old(tickets), id, to)
      ensures !slot.begins && Valid(to) ==> r == Failure(CannotBegin)
      ensures r.Success? ==> id in tickets && r.value == tickets[id]
      ensures r.Success? ==>
                published == old(published) + if hook then [Changed(id, old(tickets)[id].state, to)] else []
      ensures r.Success? <==> slot.begins && id in old(tickets) && MayBecome(old(tickets)[id].state, to)
      ensures r.Failure? ==> tickets == old(tickets)
      ensures r.Success? ==>
                var row := old(tickets)[id];
                tickets == old(tickets)[id := TicketRow(to, row.assignee,
                                                        if to == Resolved then Some(slot.now) else row.resolvedAt,
                                                        if to == Closed then Some(slot.now) else row.closedAt)]
      ensures r.Failure? ==>
                r.error == if to.Unknown? then InvalidState(to)
                           else if !slot.begins then CannotBegin
                           else if id !in old(tickets) then NotFound
                           else if old(tickets)[id].state.Unknown? then InvalidState(old(tickets)[id].state)
                           else IllegalTransition(old(tickets)[id].state, to)
    {
      if id in tickets {
        EdgesByTarget(tickets[id].state, to);
      }
      if !Valid(to) {
        return Failure(InvalidState(to));
      }
      if !slot.begins {
        return Failure(CannotBegin);
      }
      if id !in tickets {
        return Failure(NotFound);
      }
      var current := tickets[id].state;
      var refusal := Transition(current, to);
      if refusal.Some? {
        return Failure(refusal.value);
      }
      var resolvedAt, closedAt := tickets[id].resolvedAt, tickets[id].closedAt;
      if to == Resolved {
        resolvedAt := Some(slot.now);
      } else if to == Closed {
        closedAt := Some(slot.now);
      }
      tickets := tickets[id := tickets[id].(state := to, resolvedAt := resolvedAt, closedAt := closedAt)];
      if hook {
        published := published + [Changed(id, current, to)];
      }
      return Success(tickets[id]);
    }

    /** The per-ticket hook is detached for the batch and restored; one envelope names every ticket moved. A transaction
        that cannot begin is one more failure of the batch. Any other database error, here at the id with index failAt,
        stops it: what was moved stays moved, and nothing is published. */
    method BulkState(ids: seq<nat>, to: State, slots: seq<Slot>, failAt: nat)
      returns (ok: int, failures: seq<BulkFailure>, error: Option<Error>)
      requires |slots| == |ids|
      modifies this
      ensures hook == old(hook) && bulkHook == old(bulkHook)
      ensures !Valid(to) ==>
                && ok == 0 && failures == [] && error == Some(InvalidState(to))
                && tickets == old(tickets) && published == old(published)
      ensures Valid(to) ==>
                var n := if failAt < |ids| then failAt else |ids|;
                var b := BulkRun(old(tickets), ids, to, slots, n);
                && ok == |b.succeeded| && failures == b.failures && tickets == b.t
                && error == (if failAt < |ids| then Some(Database) else None)
                && published == old(published) + if failAt >= |ids| && bulkHook && |b.succeeded| > 0
                                                 then [BulkChanged(b.succeeded, to)] else []
      ensures Valid(to) ==> LeavesEach(old(tickets), tickets, ids, to, slots, if failAt < |ids| then failAt else |ids|)
    {
      ok, failures, error := 0, [], None;
      if !Valid(to) {
        error := Some(InvalidState(to));
        return;
      }
      BulkLeavesEach(tickets, ids, to, slots, if failAt < |ids| then failAt else |ids|);
      var succeeded: seq<nat> := [];
      var saved := hook;
      hook := false;
      for i := 0 to |ids|
        invariant !hook && bulkHook == old(bulkHook) && published == old(published) && ok == |succeeded|
        invariant i <= failAt && error == None
        invariant Bulk(tickets, succeeded, failures) == BulkRun(old(tickets), ids, to, slots, i)
      {
        if i == failAt {
          hook := saved;
          error := Some(Database);
          return;
        }
        var changed := ChangeState(ids[i], to, slots[i]);
        if changed.Failure? {
          failures := failures + [BulkFailure(ids[i], changed.error)];
          continue;
        }
        ok := ok + 1;
        succeeded := succeeded + [ids[i]];
      }
      if bulkHook && |succeeded| > 0 {
        published := published + [BulkChanged(succeeded, to)];
      }
      hook := saved;
    }

    /** One UPDATE over the ids; the count is the number of distinct tickets it touched. */
    method BulkAssign(agent: Option<nat>, ids: seq<nat>, callerLimit: Option<nat>) returns (count: int)
      modifies this`tickets
      ensures tickets == AssignAll(old(tickets), ids, agent, callerLimit)
      ensures count == |Matching(old(tickets), ids, agent, callerLimit)|
      ensures tickets.Keys == old(tickets).Keys
      ensures forall id :: id in tickets ==>
                var row := old(tickets)[id];
                var hit := && id in ids && row.state !in {Resolved, Closed}
                           && (agent.Some? && callerLimit.Some? ==> row.assignee.None? || row.assignee == callerLimit);
                tickets[id] == if !hit then row
                               else TicketRow(if agent.Some? && row.state == New then Open else row.state, agent,
                                              row.resolvedAt, row.closedAt)
    {
      if ids == [] {
        assert Matching(tickets, ids, agent, callerLimit) == {};
        assert AssignAll(tickets, ids, agent, callerLimit) == tickets;
        return 0;
      }
      var hit := Matching(tickets, ids, agent, callerLimit);
      tickets := map id | id in tickets :: if id in hit then Reassigned(tickets[id], agent) else tickets[id];
      return |hit|;
    }
  }

  /** A caller limited to their own queue can neither take a ticket from another agent nor touch done work. */
  lemma LimitedCallerCannotSteal(t: Table, ids: seq<nat>, agent: nat, caller: nat, id: nat)
    requires id in t
    ensures var row := AssignAll(t, ids, Some(agent), Some(caller))[id];
            row != t[id] ==> id in ids && !Done(t[id].state) && (t[id].assignee.None? || t[id].assignee == Some(caller))
                             && row.assignee == Some(agent)
  {
  }
}
