/** The books of routing: loads against assignment rows, assignment rows against assignees, and escalation tiers.

    A bulk assignment changes an assignee without a row or a load. A ticket is called stray while its assignee is not
    the agent on its last assignment row; what the books say depends on whether escalations take stray tickets. */
module RoutingBooks {
  import opened Wrappers
  import opened RoutingState
  import opened RoutingProofs

  // ---------------------------------------------------------------- counting

  function Holdings(tickets: map<nat, TicketRow>, a: nat): set<nat> {
    set t | t in tickets && tickets[t].assignee == Some(a)
  }

  function Held(tickets: map<nat, TicketRow>, a: nat): nat {
    |Holdings(tickets, a)|
  }

  function RowsTo(rows: seq<Assignment>, a: nat): nat {
    if rows == [] then 0
    else RowsTo(rows[..|rows| - 1], a) + (if rows[|rows| - 1].agent == a then 1 else 0)
  }

  /** Escalation rows that moved a ticket away from a. */
  function EscalatedFrom(rows: seq<Assignment>, a: nat): nat {
    if rows == [] then 0
    else
      var r := rows[|rows| - 1];
      EscalatedFrom(rows[..|rows| - 1], a) + (if r.reason == Escalation && r.from == Some(a) then 1 else 0)
  }

  function EscalationsOfAssigned(rows: seq<Assignment>): nat {
    if rows == [] then 0
    else
      var r := rows[|rows| - 1];
      EscalationsOfAssigned(rows[..|rows| - 1]) + (if r.reason == Escalation && r.from.Some? then 1 else 0)
  }

  /** The agent on the ticket's newest assignment row. */
  function LastAgent(rows: seq<Assignment>, t: nat): Option<nat> {
    if rows == [] then None
    else if rows[|rows| - 1].ticket == t then Some(rows[|rows| - 1].agent)
    else LastAgent(rows[..|rows| - 1], t)
  }

  /** Every row starts from the agent the ticket's previous row ended at. */
  predicate Chained(rows: seq<Assignment>) {
    rows == [] ||
    (Chained(rows[..|rows| - 1]) && rows[|rows| - 1].from == LastAgent(rows[..|rows| - 1], rows[|rows| - 1].ticket))
  }

  /** Tickets whose newest row names a. */
  function Files(tickets: map<nat, TicketRow>, rows: seq<Assignment>, a: nat): set<nat> {
    set t | t in tickets && LastAgent(rows, t) == Some(a)
  }

  function Filed(tickets: map<nat, TicketRow>, rows: seq<Assignment>, a: nat): nat {
    |Files(tickets, rows, a)|
  }

  /** Tickets a holds although their newest row does not name a. */
  function StraysOf(tickets: map<nat, TicketRow>, rows: seq<Assignment>, a: nat): set<nat> {
    set t | t in tickets && tickets[t].assignee == Some(a) && LastAgent(rows, t) != Some(a)
  }

  function LoadOf(status: map<nat, StatusRow>, a: nat): int {
    if a in status then status[a].load else 0
  }

  ghost function TotalLoad(status: map<nat, StatusRow>): int {
    if status == map[] then 0
    else
      var a :| a in status;
      status[a].load + TotalLoad(status - {a})
  }

  lemma {:induction false} TotalLoadSplit(status: map<nat, StatusRow>, a: nat)
    requires a in status
    ensures TotalLoad(status) == status[a].load + TotalLoad(status - {a})
    decreases |status|
  {
    var b :| b in status && TotalLoad(status) == status[b].load + TotalLoad(status - {b});
    if b != a {
      TotalLoadSplit(status - {b}, a);
      TotalLoadSplit(status - {a}, b);
      assert status - {b} - {a} == status - {a} - {b};
    }
  }

  lemma TotalLoadUpdate(status: map<nat, StatusRow>, a: nat, row: StatusRow)
    ensures TotalLoad(status[a := row]) == TotalLoad(status) + row.load - (if a in status then status[a].load else 0)
  {
    TotalLoadSplit(status[a := row], a);
    if a in status {
      TotalLoadSplit(status, a);
      assert status[a := row] - {a} == status - {a};
    } else {
      assert status[a := row] - {a} == status;
    }
  }

  // ---------------------------------------------------------------- what a commit does to the books

  /** The previous assignee has nothing to give back: no status row, or a load already at zero. */
  predicate Misses(status: map<nat, StatusRow>, tx: Tx)
    requires tx.picked.Some?
  {
    tx.kind.Escalating? && tx.from.Some? && LoadOf(AddLoad(status, tx.picked.value), tx.from.value) <= 0
  }

  predicate TakesFrom(tx: Tx, a: nat) {
    tx.kind.Escalating? && tx.from == Some(a)
  }

  lemma CommitLoad(status: map<nat, StatusRow>, tx: Tx, a: nat)
    requires NonNegative(status) && tx.picked.Some? && tx.picked.value in status
    ensures LoadOf(NewStatus(status, tx), a)
            == LoadOf(status, a) + (if tx.picked == Some(a) then 1 else 0) - (if TakesFrom(tx, a) then 1 else 0)
               + (if TakesFrom(tx, a) && Misses(status, tx) then 1 else 0)
  {
  }

  lemma CommitTotal(status: map<nat, StatusRow>, tx: Tx)
    requires NonNegative(status) && tx.picked.Some? && tx.picked.value in status
    ensures TotalLoad(NewStatus(status, tx))
            == TotalLoad(status) + 1 - (if tx.kind.Escalating? && tx.from.Some? && !Misses(status, tx) then 1 else 0)
  {
    var p := tx.picked.value;
    var raised := AddLoad(status, p);
    TotalLoadUpdate(status, p, raised[p]);
    if tx.kind.Escalating? && tx.from.Some? && tx.from.value in raised {
      var f := tx.from.value;
      TotalLoadUpdate(raised, f, DropLoad(raised, f)[f]);
    }
  }

  lemma RowAppended(rows: seq<Assignment>, row: Assignment, a: nat)
    ensures RowsTo(rows + [row], a) == RowsTo(rows, a) + (if row.agent == a then 1 else 0)
    ensures EscalatedFrom(rows + [row], a)
            == EscalatedFrom(rows, a) + (if row.reason == Escalation && row.from == Some(a) then 1 else 0)
    ensures EscalationsOfAssigned(rows + [row])
            == EscalationsOfAssigned(rows) + (if row.reason == Escalation && row.from.Some? then 1 else 0)
    ensures LastAgent(rows + [row], a) == if row.ticket == a then Some(row.agent) else LastAgent(rows, a)
    ensures Chained(rows + [row]) <==> Chained(rows) && row.from == LastAgent(rows, row.ticket)
  {
    assert (rows + [row])[..|rows|] == rows;
  }

  /** The ticket leaves the file of the agent on its old newest row for that of the agent on the new one. */
  lemma FiledAfter(tickets: map<nat, TicketRow>, rows: seq<Assignment>, row: Assignment, a: nat)
    requires row.ticket in tickets
    ensures Filed(tickets, rows + [row], a)
            == Filed(tickets, rows, a) + (if row.agent == a then 1 else 0)
               - (if LastAgent(rows, row.ticket) == Some(a) then 1 else 0)
  {
    var before, after := Files(tickets, rows, a), Files(tickets, rows + [row], a);
    forall t: nat
      ensures LastAgent(rows + [row], t) == if row.ticket == t then Some(row.agent) else LastAgent(rows, t)
    {
      RowAppended(rows, row, t);
    }
    assert after - {row.ticket} == before - {row.ticket};
    assert |before| == |before - {row.ticket}| + (if row.ticket in before then 1 else 0);
    assert |after| == |after - {row.ticket}| + (if row.ticket in after then 1 else 0);
  }

  // ---------------------------------------------------------------- counted over a run

  ghost predicate Commits(s: State, e: Event) {
    Enabled(s, e) && e.Commit?
  }

  ghost predicate MissesDrop(s: State, e: Event) {
    Commits(s, e) && Misses(s.status, s.txs[e.router])
  }

  ghost predicate MissesDropOf(s: State, e: Event, a: nat) {
    MissesDrop(s, e) && s.txs[e.router].from == Some(a)
  }

  /** An escalation takes from a a ticket that no assignment row gave to a. */
  ghost predicate TakesStrayFrom(s: State, e: Event, a: nat) {
    Commits(s, e) && TakesFrom(s.txs[e.router], a) && LastAgent(s.assignments, s.txs[e.router].ticket) != Some(a)
  }

  ghost function MissedDrops(s: State, events: seq<Event>, a: nat): nat {
    if events == [] then 0
    else
      var init, last := events[..|events| - 1], events[|events| - 1];
      MissedDrops(s, init, a) + (if MissesDropOf(Run(s, init), last, a) then 1 else 0)
  }

  ghost function AllMissedDrops(s: State, events: seq<Event>): nat {
    if events == [] then 0
    else
      var init, last := events[..|events| - 1], events[|events| - 1];
      AllMissedDrops(s, init) + (if MissesDrop(Run(s, init), last) then 1 else 0)
  }

  ghost function StrayDrops(s: State, events: seq<Event>, a: nat): nat {
    if events == [] then 0
    else
      var init, last := events[..|events| - 1], events[|events| - 1];
      StrayDrops(s, init, a) + (if TakesStrayFrom(Run(s, init), last, a) then 1 else 0)
  }

  /** A commit writes one row, for the locked ticket, from its assignee. */
  lemma CommitWrites(s: State, e: Event) returns (tx: Tx, row: Assignment)
    requires Inv(s) && Commits(s, e)
    ensures tx == s.txs[e.router] && tx.picked.Some? && tx.picked.value in s.status && tx.ticket in s.tickets
    ensures tx.from == s.tickets[tx.ticket].assignee && Records(tx, row)
    ensures var s' := Apply(s, e);
            && s'.status == NewStatus(s.status, tx) && s'.assignments == s.assignments + [row]
            && s'.tickets.Keys == s.tickets.Keys && s'.tickets[tx.ticket].assignee == tx.picked
            && (forall t :: t in s.tickets && t != tx.ticket ==> s'.tickets[t] == s.tickets[t])
  {
    tx := s.txs[e.router];
    CommitShape(s, e.router, e.at);
    row := Apply(s, e).assignments[|s.assignments|];
  }

  lemma OthersKeepBooks(s: State, e: Event, a: nat)
    requires !Commits(s, e)
    ensures var s' := Apply(s, e);
            && s'.assignments == s.assignments && s'.tickets.Keys == s.tickets.Keys
            && LoadOf(s'.status, a) == LoadOf(s.status, a)
  {
  }

  lemma StepKeepsLoadLaw(s: State, e: Event, a: nat, missed: nat)
    requires Inv(s) && LoadOf(s.status, a) == RowsTo(s.assignments, a) - EscalatedFrom(s.assignments, a) + missed
    ensures var s' := Apply(s, e);
            LoadOf(s'.status, a) == RowsTo(s'.assignments, a) - EscalatedFrom(s'.assignments, a) + missed
                                    + (if MissesDropOf(s, e, a) then 1 else 0)
  {
    if Commits(s, e) {
      var tx, row := CommitWrites(s, e);
      CommitLoad(s.status, tx, a);
      RowAppended(s.assignments, row, a);
    } else {
      OthersKeepBooks(s, e, a);
    }
  }

  lemma StepKeepsFiledLaw(s: State, e: Event, a: nat, strays: nat)
    requires Inv(s) && Filed(s.tickets, s.assignments, a) <= LoadOf(s.status, a) + strays
    ensures var s' := Apply(s, e);
            Filed(s'.tickets, s'.assignments, a)
            <= LoadOf(s'.status, a) + strays + (if TakesStrayFrom(s, e, a) then 1 else 0)
  {
    var s' := Apply(s, e);
    if Commits(s, e) {
      var tx, row := CommitWrites(s, e);
      CommitLoad(s.status, tx, a);
      FiledAfter(s.tickets, s.assignments, row, a);
      assert Files(s'.tickets, s'.assignments, a) == Files(s.tickets, s'.assignments, a);
    } else {
      OthersKeepBooks(s, e, a);
      assert Files(s'.tickets, s'.assignments, a) == Files(s.tickets, s.assignments, a);
    }
  }

  lemma StepKeepsTotalLaw(s: State, e: Event, missed: nat)
    requires Inv(s) && TotalLoad(s.status) == |s.assignments| - EscalationsOfAssigned(s.assignments) + missed
    ensures var s' := Apply(s, e);
            TotalLoad(s'.status) == |s'.assignments| - EscalationsOfAssigned(s'.assignments) + missed
                                    + (if MissesDrop(s, e) then 1 else 0)
  {
    if Commits(s, e) {
      var tx, row := CommitWrites(s, e);
      CommitTotal(s.status, tx);
      RowAppended(s.assignments, row, 0);
    } else {
      OthersKeepBooks(s, e, 0);
      if Enabled(s, e) && e.Presence? {
        TotalLoadUpdate(s.status, e.agent, Apply(s, e).status[e.agent]);
      }
    }
  }

  lemma {:induction false} ZeroTotal(status: map<nat, StatusRow>)
    requires forall a :: a in status ==> status[a].load == 0
    ensures TotalLoad(status) == 0
    decreases |status|
  {
    if status != map[] {
      var a :| a in status && TotalLoad(status) == status[a].load + TotalLoad(status - {a});
      ZeroTotal(status - {a});
    }
  }

  // ---------------------------------------------------------------- loads

  lemma {:induction false} LoadLaw(s: State, events: seq<Event>, a: nat)
    requires Fresh(s) && AllProper(events)
    ensures var s' := Run(s, events);
            LoadOf(s'.status, a)
            == RowsTo(s'.assignments, a) - EscalatedFrom(s'.assignments, a) + MissedDrops(s, events, a)
    decreases |events|
  {
    if events != [] {
      var init, last := events[..|events| - 1], events[|events| - 1];
      LoadLaw(s, init, a);
      EveryRunKeepsInv(s, init);
      StepKeepsLoadLaw(Run(s, init), last, a, MissedDrops(s, init, a));
    }
  }

  lemma {:induction false} FiledLaw(s: State, events: seq<Event>, a: nat)
    requires Fresh(s) && AllProper(events)
    ensures var s' := Run(s, events);
            Filed(s'.tickets, s'.assignments, a) <= LoadOf(s'.status, a) + StrayDrops(s, events, a)
    decreases |events|
  {
    if events == [] {
      assert Files(s.tickets, s.assignments, a) == {};
    } else {
      var init, last := events[..|events| - 1], events[|events| - 1];
      FiledLaw(s, init, a);
      EveryRunKeepsInv(s, init);
      StepKeepsFiledLaw(Run(s, init), last, a, StrayDrops(s, init, a));
    }
  }

  lemma {:induction false} TotalLaw(s: State, events: seq<Event>)
    requires Fresh(s) && AllProper(events)
    ensures var s' := Run(s, events);
            TotalLoad(s'.status)
            == |s'.assignments| - EscalationsOfAssigned(s'.assignments) + AllMissedDrops(s, events)
    decreases |events|
  {
    if events == [] {
      ZeroTotal(s.status);
    } else {
      var init, last := events[..|events| - 1], events[|events| - 1];
      TotalLaw(s, init);
      EveryRunKeepsInv(s, init);
      StepKeepsTotalLaw(Run(s, init), last, AllMissedDrops(s, init));
    }
  }

  lemma HeldAreFiledOrStray(tickets: map<nat, TicketRow>, rows: seq<Assignment>, a: nat)
    ensures Held(tickets, a) <= Filed(tickets, rows, a) + |StraysOf(tickets, rows, a)|
  {
    var filed, strays := Files(tickets, rows, a), StraysOf(tickets, rows, a);
    CardBelow(Holdings(tickets, a), filed + strays);
    assert |filed + strays| <= |filed| + |strays|;
  }

  /** Load accounts over every run, bulk assignments included. An agent's load is its assignment rows, minus the
      escalations that took a ticket from it, plus the times one of these found no load to take. It covers the
      tickets the agent holds, but for those that strayed to it and those escalated away after straying to it.
      Summed up, load is the number of rows that did not come from escalating an assigned ticket, plus the missed
      drops: a reroute leaks one unit. */
  lemma LoadsMatchHistory(s: State, events: seq<Event>)
    requires Fresh(s) && AllProper(events)
    ensures var s' := Run(s, events);
            && (forall a :: a in s'.status ==>
                  && s'.status[a].load
                     == RowsTo(s'.assignments, a) - EscalatedFrom(s'.assignments, a) + MissedDrops(s, events, a)
                  && Held(s'.tickets, a)
                     <= s'.status[a].load + |StraysOf(s'.tickets, s'.assignments, a)| + StrayDrops(s, events, a))
            && TotalLoad(s'.status)
               == |s'.assignments| - EscalationsOfAssigned(s'.assignments) + AllMissedDrops(s, events)
  {
    var s' := Run(s, events);
    TotalLaw(s, events);
    forall a | a in s'.status
      ensures s'.status[a].load
              == RowsTo(s'.assignments, a) - EscalatedFrom(s'.assignments, a) + MissedDrops(s, events, a)
      ensures Held(s'.tickets, a)
              <= s'.status[a].load + |StraysOf(s'.tickets, s'.assignments, a)| + StrayDrops(s, events, a)
    {
      LoadLaw(s, events, a);
      FiledLaw(s, events, a);
      HeldAreFiledOrStray(s'.tickets, s'.assignments, a);
    }
  }

  /** One more event: a drop is missed only if this or an earlier escalation took a stray ticket from the agent. */
  lemma MissNeedsStray(s: State, events: seq<Event>, e: Event, a: nat)
    requires Fresh(s) && AllProper(events) && MissesDropOf(Run(s, events), e, a)
    ensures TakesStrayFrom(Run(s, events), e, a) || StrayDrops(s, events, a) > 0
  {
    EveryRunKeepsInv(s, events);
    FiledLaw(s, events, a);
    var now := Run(s, events);
    var tx, row := CommitWrites(now, e);
    if LastAgent(now.assignments, tx.ticket) == Some(a) {
      assert tx.ticket in Files(now.tickets, now.assignments, a);
    }
  }

  /** The zero floor in an escalation's GREATEST(load - 1, 0) is never what stops it for an agent from whom no stray
      ticket was ever escalated. */
  lemma {:induction false} FloorIsNeverHit(s: State, events: seq<Event>, a: nat)
    requires Fresh(s) && AllProper(events) && StrayDrops(s, events, a) == 0
    ensures MissedDrops(s, events, a) == 0
    decreases |events|
  {
    if events != [] {
      var init, last := events[..|events| - 1], events[|events| - 1];
      FloorIsNeverHit(s, init, a);
      if MissesDropOf(Run(s, init), last, a) {
        MissNeedsStray(s, init, last, a);
      }
    }
  }

  // ---------------------------------------------------------------- assignment rows

  /** A ticket that is stray at its commit starts a row the previous one did not lead to. */
  ghost predicate CommitsStray(s: State, e: Event) {
    && Commits(s, e) && s.txs[e.router].ticket in s.tickets
    && s.tickets[s.txs[e.router].ticket].assignee != LastAgent(s.assignments, s.txs[e.router].ticket)
  }

  ghost predicate CommitsStrayAt(s: State, events: seq<Event>, i: nat)
    requires i < |events|
  {
    CommitsStray(Run(s, events[..i]), events[i])
  }

  lemma StepChains(s: State, e: Event)
    requires Inv(s)
    ensures Chained(Apply(s, e).assignments) <==> Chained(s.assignments) && !CommitsStray(s, e)
  {
    if Commits(s, e) {
      var tx, row := CommitWrites(s, e);
      RowAppended(s.assignments, row, 0);
    } else {
      OthersKeepBooks(s, e, 0);
    }
  }

  ghost predicate NeverCommitsStray(s: State, events: seq<Event>) {
    forall i :: 0 <= i < |events| ==> !CommitsStrayAt(s, events, i)
  }

  lemma StraysByPrefix(s: State, events: seq<Event>, e: Event)
    ensures NeverCommitsStray(s, events + [e]) <==> NeverCommitsStray(s, events) && !CommitsStray(Run(s, events), e)
  {
    var n, all := |events|, events + [e];
    assert all[..n] == events;
    forall i | 0 <= i < n ensures CommitsStrayAt(s, all, i) <==> CommitsStrayAt(s, events, i) {
      assert all[..i] == events[..i];
    }
    assert CommitsStrayAt(s, all, n) <==> CommitsStray(Run(s, events), e);
  }

  /** Was the ticket's last assignee set by a bulk assignment, to somebody else than its newest row names? */
  ghost predicate LeftStray(s: State, events: seq<Event>, t: nat) {
    if events == [] then false
    else
      var init, last := events[..|events| - 1], events[|events| - 1];
      var now := Run(s, init);
      if Commits(now, last) && now.txs[last.router].ticket == t then false
      else if Enabled(now, last) && last.Reassign? && last.ticket == t
      then last.assignee != LastAgent(now.assignments, t)
      else LeftStray(s, init, t)
  }

  lemma StepStrays(s: State, e: Event, t: nat)
    requires Inv(s) && t in s.tickets
    ensures var s' := Apply(s, e);
            && t in s'.tickets
            && (s'.tickets[t].assignee != LastAgent(s'.assignments, t) <==>
                if Commits(s, e) && s.txs[e.router].ticket == t then false
                else if Enabled(s, e) && e.Reassign? && e.ticket == t then e.assignee != LastAgent(s.assignments, t)
                else s.tickets[t].assignee != LastAgent(s.assignments, t))
  {
    if Commits(s, e) {
      var tx, row := CommitWrites(s, e);
      RowAppended(s.assignments, row, t);
    }
  }

  lemma StepKeepsTickets(s: State, e: Event)
    requires Inv(s)
    ensures Apply(s, e).tickets.Keys == s.tickets.Keys
  {
    if Commits(s, e) {
      var tx, row := CommitWrites(s, e);
    } else {
      OthersKeepBooks(s, e, 0);
    }
  }

  lemma {:induction false} TicketsStay(s: State, events: seq<Event>)
    requires Fresh(s) && AllProper(events)
    ensures Run(s, events).tickets.Keys == s.tickets.Keys
    decreases |events|
  {
    if events != [] {
      var init, last := events[..|events| - 1], events[|events| - 1];
      TicketsStay(s, init);
      EveryRunKeepsInv(s, init);
      StepKeepsTickets(Run(s, init), last);
    }
  }

  /** A ticket's assignee is the agent on its newest row, or nobody without one, exactly unless it was left stray. */
  lemma {:induction false} AssigneeIsLastAgentIff(s: State, events: seq<Event>, t: nat)
    requires Fresh(s) && AllProper(events) && t in s.tickets
    ensures var s' := Run(s, events);
            t in s'.tickets && (s'.tickets[t].assignee == LastAgent(s'.assignments, t) <==> !LeftStray(s, events, t))
    decreases |events|
  {
    if events != [] {
      var init, last := events[..|events| - 1], events[|events| - 1];
      AssigneeIsLastAgentIff(s, init, t);
      EveryRunKeepsInv(s, init);
      StepStrays(Run(s, init), last, t);
    }
  }

  lemma {:induction false} ChainsUnlessStray(s: State, events: seq<Event>)
    requires Fresh(s) && AllProper(events)
    ensures Chained(Run(s, events).assignments) <==> NeverCommitsStray(s, events)
    decreases |events|
  {
    if events != [] {
      var init, last := events[..|events| - 1], events[|events| - 1];
      assert events == init + [last];
      ChainsUnlessStray(s, init);
      EveryRunKeepsInv(s, init);
      StepChains(Run(s, init), last);
      StraysByPrefix(s, init, last);
    }
  }

  /** The i-th event commits on a ticket that a bulk assignment has given to somebody else since its newest row. */
  ghost predicate TakesLeftAt(s: State, events: seq<Event>, i: nat)
    requires i < |events|
  {
    var now := Run(s, events[..i]);
    Commits(now, events[i]) && LeftStray(s, events[..i], now.txs[events[i].router].ticket)
  }

  lemma StrayIsLeft(s: State, events: seq<Event>, i: nat)
    requires Fresh(s) && AllProper(events) && i < |events|
    ensures CommitsStrayAt(s, events, i) <==> TakesLeftAt(s, events, i)
  {
    var now := Run(s, events[..i]);
    if Commits(now, events[i]) {
      TicketsStay(s, events[..i]);
      AssigneeIsLastAgentIff(s, events[..i], now.txs[events[i].router].ticket);
    }
  }

  /** Each ticket's rows chain from agent to agent if and only if no commit ever takes a ticket that a bulk assignment
      has left with somebody else than its newest row names. */
  lemma AssignmentsChainIff(s: State, events: seq<Event>)
    requires Fresh(s) && AllProper(events)
    ensures Chained(Run(s, events).assignments) <==> forall i :: 0 <= i < |events| ==> !TakesLeftAt(s, events, i)
  {
    ChainsUnlessStray(s, events);
    forall i | 0 <= i < |events| ensures CommitsStrayAt(s, events, i) <==> TakesLeftAt(s, events, i) {
      StrayIsLeft(s, events, i);
    }
  }

  // ---------------------------------------------------------------- without bulk assignments

  predicate NoReassign(events: seq<Event>) {
    forall i :: 0 <= i < |events| ==> !events[i].Reassign?
  }

  lemma {:induction false} NothingLeftStray(s: State, events: seq<Event>, t: nat)
    requires NoReassign(events)
    ensures !LeftStray(s, events, t)
    decreases |events|
  {
    if events != [] {
      NothingLeftStray(s, events[..|events| - 1], t);
    }
  }

  lemma NothingStraysAtCommit(s: State, events: seq<Event>, e: Event, a: nat)
    requires Fresh(s) && AllProper(events) && NoReassign(events)
    ensures !CommitsStray(Run(s, events), e) && !TakesStrayFrom(Run(s, events), e, a)
  {
    var now := Run(s, events);
    EveryRunKeepsInv(s, events);
    TicketsStay(s, events);
    if Commits(now, e) {
      var tx, row := CommitWrites(now, e);
      AssigneeIsLastAgentIff(s, events, tx.ticket);
      NothingLeftStray(s, events, tx.ticket);
    }
  }

  lemma {:induction false} NoStrayDrops(s: State, events: seq<Event>, a: nat)
    requires Fresh(s) && AllProper(events) && NoReassign(events)
    ensures StrayDrops(s, events, a) == 0
    decreases |events|
  {
    if events != [] {
      NoStrayDrops(s, events[..|events| - 1], a);
      NothingStraysAtCommit(s, events[..|events| - 1], events[|events| - 1], a);
    }
  }

  /** Among routing and escalation transactions alone the books are exact: load is rows minus escalations and covers
      every ticket held, no drop is missed, rows chain, and the newest row names the assignee. */
  lemma BooksAreExactWithoutBulk(s: State, events: seq<Event>)
    requires Fresh(s) && AllProper(events) && NoReassign(events)
    ensures var s' := Run(s, events);
            && (forall a :: a in s'.status ==>
                  && MissedDrops(s, events, a) == 0
                  && s'.status[a].load == RowsTo(s'.assignments, a) - EscalatedFrom(s'.assignments, a)
                  && Held(s'.tickets, a) <= s'.status[a].load)
            && Chained(s'.assignments)
            && (forall t :: t in s'.tickets ==> s'.tickets[t].assignee == LastAgent(s'.assignments, t))
  {
    var s' := Run(s, events);
    LoadsMatchHistory(s, events);
    TicketsStay(s, events);
    forall t | t in s'.tickets ensures s'.tickets[t].assignee == LastAgent(s'.assignments, t) {
      AssigneeIsLastAgentIff(s, events, t);
      NothingLeftStray(s, events, t);
    }
    forall a | a in s'.status ensures MissedDrops(s, events, a) == 0 == StrayDrops(s, events, a)
      ensures |StraysOf(s'.tickets, s'.assignments, a)| == 0
    {
      NoStrayDrops(s, events, a);
      FloorIsNeverHit(s, events, a);
      assert StraysOf(s'.tickets, s'.assignments, a) == {};
    }
    ChainsUnlessStray(s, events);
    forall i | 0 <= i < |events| ensures !CommitsStrayAt(s, events, i) {
      NothingStraysAtCommit(s, events[..i], events[i], 0);
    }
  }

  // ---------------------------------------------------------------- escalation climbs

  function Rank(role: string): nat {
    if role == "agent" then 1 else if role == "senior_agent" then 2 else if role == "supervisor" then 3 else 0
  }

  ghost predicate TxClimbs(agents: map<nat, AgentRow>, tx: Tx) {
    tx.kind.Escalating? ==>
      && tx.from.Some? && tx.from.value in agents
      && 1 <= Rank(agents[tx.from.value].role) && Rank(tx.kind.target) == Rank(agents[tx.from.value].role) + 1
      && (tx.picked.Some? ==> tx.picked.value in agents && agents[tx.picked.value].role == tx.kind.target)
  }

  ghost predicate RowsClimb(agents: map<nat, AgentRow>, rows: seq<Assignment>) {
    forall i :: 0 <= i < |rows| && rows[i].reason == Escalation ==>
      && rows[i].from.Some? && rows[i].from.value in agents && rows[i].agent in agents
      && Rank(agents[rows[i].agent].role) == Rank(agents[rows[i].from.value].role) + 1
  }

  ghost predicate TxsClimb(agents: map<nat, AgentRow>, txs: map<nat, Tx>) {
    forall r :: r in txs ==> TxClimbs(agents, txs[r])
  }

  ghost predicate Climbing(s: State) {
    TxsClimb(s.agents, s.txs) && RowsClimb(s.agents, s.assignments)
  }

  lemma StepKeepsTxsClimb(s: State, e: Event)
    requires Inv(s) && TxsClimb(s.agents, s.txs) && (e.BeginEscalate? ==> e.tier == "")
    ensures TxsClimb(s.agents, Apply(s, e).txs)
  {
  }

  lemma RowKeepsClimbing(agents: map<nat, AgentRow>, rows: seq<Assignment>, tx: Tx, row: Assignment)
    requires RowsClimb(agents, rows) && TxClimbs(agents, tx) && Records(tx, row)
    ensures RowsClimb(agents, rows + [row])
  {
  }

  lemma StepKeepsClimbing(s: State, e: Event)
    requires Inv(s) && Climbing(s) && (e.BeginEscalate? ==> e.tier == "")
    ensures Climbing(Apply(s, e))
  {
    StepKeepsParameters(s, e);
    StepKeepsTxsClimb(s, e);
    if Commits(s, e) {
      var tx, row := CommitWrites(s, e);
      RowKeepsClimbing(s.agents, s.assignments, tx, row);
    } else {
      OthersKeepBooks(s, e, 0);
    }
  }

  /** Every escalation reads its starting tier from the assignee. */
  predicate Inferred(events: seq<Event>) {
    AllProper(events) && forall i :: 0 <= i < |events| && events[i].BeginEscalate? ==> events[i].tier == ""
  }

  lemma {:induction false} RunsClimb(s: State, events: seq<Event>)
    requires Fresh(s) && Inferred(events)
    ensures Climbing(Run(s, events))
    decreases |events|
  {
    if events != [] {
      var init := events[..|events| - 1];
      RunsClimb(s, init);
      EveryRunKeepsInv(s, init);
      StepKeepsClimbing(Run(s, init), events[|events| - 1]);
    }
  }

  /** Escalations of t since it was last routed or bulk-assigned. */
  ghost function Climbs(s: State, events: seq<Event>, t: nat): nat {
    if events == [] then 0
    else
      var init, last := events[..|events| - 1], events[|events| - 1];
      ClimbsAfter(Run(s, init), last, t, Climbs(s, init, t))
  }

  ghost function ClimbsAfter(s: State, e: Event, t: nat, climbs: nat): nat {
    if Commits(s, e) && s.txs[e.router].ticket == t then (if s.txs[e.router].kind.Escalating? then climbs + 1 else 0)
    else if Enabled(s, e) && e.Reassign? && e.ticket == t then 0
    else climbs
  }

  /** That many tiers at least lie below the assignee. */
  ghost predicate HighEnough(s: State, t: nat, climbs: nat) {
    climbs >= 1 ==>
      && t in s.tickets && s.tickets[t].assignee.Some? && s.tickets[t].assignee.value in s.agents
      && Rank(s.agents[s.tickets[t].assignee.value].role) >= climbs + 1
  }

  lemma CommitKeepsHighEnough(s: State, e: Event, t: nat, climbs: nat)
    requires Inv(s) && Climbing(s) && HighEnough(s, t, climbs) && Commits(s, e)
    ensures HighEnough(Apply(s, e), t, ClimbsAfter(s, e, t, climbs))
  {
    StepKeepsParameters(s, e);
    var tx, row := CommitWrites(s, e);
    assert TxClimbs(s.agents, tx);
  }

  lemma StepKeepsHighEnough(s: State, e: Event, t: nat, climbs: nat)
    requires Inv(s) && Climbing(s) && HighEnough(s, t, climbs)
    ensures HighEnough(Apply(s, e), t, ClimbsAfter(s, e, t, climbs))
  {
    if Commits(s, e) {
      CommitKeepsHighEnough(s, e, t, climbs);
    } else {
      StepKeepsParameters(s, e);
    }
  }

  lemma {:induction false} RunsClimbHigh(s: State, events: seq<Event>, t: nat)
    requires Fresh(s) && Inferred(events)
    ensures HighEnough(Run(s, events), t, Climbs(s, events, t))
    decreases |events|
  {
    if events != [] {
      var init := events[..|events| - 1];
      RunsClimbHigh(s, init, t);
      RunsClimb(s, init);
      EveryRunKeepsInv(s, init);
      StepKeepsHighEnough(Run(s, init), events[|events| - 1], t, Climbs(s, init, t));
    }
  }

  /** When the tier is read from the assignee, each escalation hands the ticket to an agent exactly one tier higher
      than the one it is taken from, so no ticket is escalated more than twice without being routed or bulk-assigned
      in between. */
  lemma EscalationsClimb(s: State, events: seq<Event>)
    requires Fresh(s) && Inferred(events)
    ensures RowsClimb(s.agents, Run(s, events).assignments)
    ensures forall t: nat :: Climbs(s, events, t) <= 2
  {
    RunKeepsParameters(s, events);
    RunsClimb(s, events);
    forall t: nat ensures Climbs(s, events, t) <= 2 {
      RunsClimbHigh(s, events, t);
    }
  }

  /** Escalations of t since its last routing. */
  function Trailing(rows: seq<Assignment>, t: nat): nat {
    if rows == [] then 0
    else
      var r, rest := rows[|rows| - 1], Trailing(rows[..|rows| - 1], t);
      if r.ticket != t then rest else if r.reason == Escalation then rest + 1 else 0
  }

  lemma StepTrails(s: State, e: Event, t: nat)
    requires Inv(s) && !e.Reassign?
    ensures Trailing(Apply(s, e).assignments, t) == ClimbsAfter(s, e, t, Trailing(s.assignments, t))
  {
    if Commits(s, e) {
      var tx, row := CommitWrites(s, e);
      assert (s.assignments + [row])[..|s.assignments|] == s.assignments;
    }
  }

  lemma {:induction false} ClimbsAreTrailing(s: State, events: seq<Event>, t: nat)
    requires Fresh(s) && AllProper(events) && NoReassign(events)
    ensures Climbs(s, events, t) == Trailing(Run(s, events).assignments, t)
    decreases |events|
  {
    if events != [] {
      var init := events[..|events| - 1];
      ClimbsAreTrailing(s, init, t);
      EveryRunKeepsInv(s, init);
      StepTrails(Run(s, init), events[|events| - 1], t);
    }
  }

  /** Without bulk assignments the rows themselves show it: at most two escalations in a row. */
  lemma AtMostTwice(s: State, events: seq<Event>)
    requires Fresh(s) && Inferred(events) && NoReassign(events)
    ensures forall t: nat :: Trailing(Run(s, events).assignments, t) <= 2
  {
    EscalationsClimb(s, events);
    forall t: nat ensures Trailing(Run(s, events).assignments, t) <= 2 {
      ClimbsAreTrailing(s, events, t);
    }
  }
}
