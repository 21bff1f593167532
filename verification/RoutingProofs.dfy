/** Capacity and locks, in every interleaving of routing and escalation transactions with the other writers. */
module RoutingProofs {
  import opened Wrappers
  import opened RoutingState

  // ---------------------------------------------------------------- the invariant

  function Picks(txs: map<nat, Tx>, a: nat): set<nat> {
    set r | r in txs && txs[r].picked == Some(a)
  }

  /** Transactions that have picked a and not yet committed. */
  function Pending(txs: map<nat, Tx>, a: nat): nat {
    |Picks(txs, a)|
  }

  /** Row locks: open transactions work on different tickets, and what each read is still true. */
  ghost predicate Locks(limit: nat, txs: map<nat, Tx>, tickets: map<nat, TicketRow>, status: map<nat, StatusRow>) {
    && limit >= 1 && |txs| <= limit
    && (forall r, q :: r in txs && q in txs && r != q ==> txs[r].ticket != txs[q].ticket)
    && (forall r :: r in txs ==>
          && txs[r].ticket in tickets
          && txs[r].from == tickets[txs[r].ticket].assignee
          && (txs[r].kind.Routing? ==> txs[r].kind.reason != Escalation)
          && (txs[r].picked.Some? ==> txs[r].picked.value in status))
  }

  ghost predicate WithinCapacity(limit: nat, agents: map<nat, AgentRow>, status: map<nat, StatusRow>,
                                 txs: map<nat, Tx>)
  {
    forall a :: a in status ==>
      a in agents && status[a].load + Pending(txs, a) <= agents[a].maxConcurrent + limit - 1
  }

  ghost predicate NonNegative(status: map<nat, StatusRow>) {
    forall a :: a in status ==> status[a].load >= 0
  }

  ghost predicate Inv(s: State) {
    && Locks(s.limit, s.txs, s.tickets, s.status)
    && WithinCapacity(s.limit, s.agents, s.status, s.txs)
    && NonNegative(s.status)
  }

  /** Routing is never started with the reason that only Escalate writes. */
  predicate Proper(e: Event) {
    e.BeginRoute? ==> e.reason != Escalation
  }

  predicate AllProper(events: seq<Event>) {
    forall i :: 0 <= i < |events| ==> Proper(events[i])
  }

  // ---------------------------------------------------------------- steps

  lemma CardBelow<T>(a: set<T>, b: set<T>)
    requires a <= b
    ensures |a| <= |b|
  {
    assert b == a + (b - a);
  }

  lemma PendingAfter(txs: map<nat, Tx>, router: nat, tx: Tx, a: nat)
    requires router in txs ==> txs[router].picked.None?
    ensures Pending(txs[router := tx], a) == Pending(txs, a) + (if tx.picked == Some(a) then 1 else 0)
  {
    assert router !in Picks(txs, a);
    assert Picks(txs[router := tx], a) == if tx.picked == Some(a) then Picks(txs, a) + {router} else Picks(txs, a);
  }

  lemma PendingWithout(txs: map<nat, Tx>, router: nat, a: nat)
    requires router in txs
    ensures Pending(txs - {router}, a) == Pending(txs, a) - (if txs[router].picked == Some(a) then 1 else 0)
  {
    assert Picks(txs - {router}, a) == Picks(txs, a) - {router};
    assert router in Picks(txs, a) <==> txs[router].picked == Some(a);
  }

  /** While one transaction has not picked, at most limit - 1 others have. */
  lemma PendingBelowLimit(limit: nat, txs: map<nat, Tx>, router: nat, a: nat)
    requires router in txs && txs[router].picked.None? && |txs| <= limit
    ensures Pending(txs, a) <= limit - 1
  {
    CardBelow(Picks(txs, a), txs.Keys - {router});
  }

  lemma BeginKeepsLocks(limit: nat, txs: map<nat, Tx>, tickets: map<nat, TicketRow>, status: map<nat, StatusRow>,
                        router: nat, tx: Tx)
    requires Locks(limit, txs, tickets, status) && router !in txs && |txs| < limit && tx.picked.None?
    requires tx.ticket in tickets && forall r :: r in txs ==> txs[r].ticket != tx.ticket
    requires tx.from == tickets[tx.ticket].assignee && (tx.kind.Routing? ==> tx.kind.reason != Escalation)
    ensures Locks(limit, txs[router := tx], tickets, status)
  {
    assert txs[router := tx].Keys == txs.Keys + {router};
  }

  lemma BeginKeepsCapacity(limit: nat, agents: map<nat, AgentRow>, status: map<nat, StatusRow>, txs: map<nat, Tx>,
                           router: nat, tx: Tx)
    requires WithinCapacity(limit, agents, status, txs) && router !in txs && tx.picked.None?
    ensures WithinCapacity(limit, agents, status, txs[router := tx])
  {
    forall a | a in status ensures Pending(txs[router := tx], a) == Pending(txs, a) {
      PendingAfter(txs, router, tx, a);
    }
  }

  lemma PickKeepsLocks(limit: nat, txs: map<nat, Tx>, tickets: map<nat, TicketRow>, status: map<nat, StatusRow>,
                       router: nat, a: nat)
    requires Locks(limit, txs, tickets, status) && router in txs && a in status
    ensures Locks(limit, txs[router := txs[router].(picked := Some(a))], tickets, status)
  {
    var txs' := txs[router := txs[router].(picked := Some(a))];
    assert txs'.Keys == txs.Keys;
    assert |txs'| == |txs'.Keys|;
  }

  /** Picking reads a load below the maximum, with at most limit - 1 other picks outstanding. */
  lemma PickKeepsCapacity(limit: nat, agents: map<nat, AgentRow>, status: map<nat, StatusRow>, txs: map<nat, Tx>,
                          router: nat, a: nat)
    requires WithinCapacity(limit, agents, status, txs) && |txs| <= limit
    requires router in txs && txs[router].picked.None?
    requires a in agents && a in status && status[a].load < agents[a].maxConcurrent
    ensures WithinCapacity(limit, agents, status, txs[router := txs[router].(picked := Some(a))])
  {
    var tx := txs[router].(picked := Some(a));
    forall b | b in status
      ensures status[b].load + Pending(txs[router := tx], b) <= agents[b].maxConcurrent + limit - 1
    {
      PendingAfter(txs, router, tx, b);
      PendingBelowLimit(limit, txs, router, b);
    }
  }

  lemma PickKeepsInv(s: State, router: nat, a: nat)
    requires Inv(s) && router in s.txs && s.txs[router].picked.None?
    requires a in s.agents && a in s.status && s.status[a].load < s.agents[a].maxConcurrent
    ensures Inv(s.(txs := s.txs[router := s.txs[router].(picked := Some(a))]))
  {
    PickKeepsLocks(s.limit, s.txs, s.tickets, s.status, router, a);
    PickKeepsCapacity(s.limit, s.agents, s.status, s.txs, router, a);
  }

  lemma KeysWithout(txs: map<nat, Tx>, router: nat)
    requires router in txs
    ensures |txs - {router}| == |txs| - 1
  {
    assert (txs - {router}).Keys == txs.Keys - {router};
  }

  lemma RollbackKeepsInv(s: State, router: nat)
    requires Inv(s) && router in s.txs
    ensures Inv(s.(txs := s.txs - {router}))
  {
    KeysWithout(s.txs, router);
    forall a | a in s.status ensures Pending(s.txs - {router}, a) <= Pending(s.txs, a) {
      PendingWithout(s.txs, router, a);
    }
  }

  lemma PresenceKeepsCapacity(limit: nat, agents: map<nat, AgentRow>, status: map<nat, StatusRow>, txs: map<nat, Tx>,
                              agent: nat, row: StatusRow)
    requires WithinCapacity(limit, agents, status, txs) && limit >= 1 && agent in agents
    requires forall r :: r in txs && txs[r].picked.Some? ==> txs[r].picked.value in status
    requires row.load == if agent in status then status[agent].load else 0
    ensures WithinCapacity(limit, agents, status[agent := row], txs)
  {
    if agent !in status {
      assert Picks(txs, agent) == {};
    }
  }

  /** The assignment row a transaction inserts. */
  predicate Records(tx: Tx, entry: Assignment) {
    && tx.picked == Some(entry.agent) && entry.ticket == tx.ticket && entry.from == tx.from
    && (entry.reason == Escalation <==> tx.kind.Escalating?)
  }

  function NewStatus(status: map<nat, StatusRow>, tx: Tx): map<nat, StatusRow>
    requires tx.picked.Some?
  {
    var raised := AddLoad(status, tx.picked.value);
    if tx.kind.Escalating? && tx.from.Some? then DropLoad(raised, tx.from.value) else raised
  }

  /** A commit raises only the picked agent's load, and no load falls below zero. */
  lemma CommitRaisesOnlyPicked(status: map<nat, StatusRow>, tx: Tx)
    requires NonNegative(status) && tx.picked.Some? && tx.picked.value in status
    ensures var status' := NewStatus(status, tx);
            && status'.Keys == status.Keys && NonNegative(status')
            && forall a :: a in status ==> status'[a].load <= status[a].load + (if tx.picked == Some(a) then 1 else 0)
  {
  }

  lemma CommitKeepsLocks(limit: nat, txs: map<nat, Tx>, tickets: map<nat, TicketRow>, status: map<nat, StatusRow>,
                         router: nat, row: TicketRow)
    requires Locks(limit, txs, tickets, status) && router in txs && txs[router].picked.Some?
    ensures Locks(limit, txs - {router}, tickets[txs[router].ticket := row], NewStatus(status, txs[router]))
  {
    KeysWithout(txs, router);
    assert NewStatus(status, txs[router]).Keys >= status.Keys;
  }

  /** A commit turns one pending pick into at most one unit of load. */
  lemma CommitKeepsCapacity(limit: nat, agents: map<nat, AgentRow>, status: map<nat, StatusRow>, txs: map<nat, Tx>,
                            router: nat)
    requires WithinCapacity(limit, agents, status, txs) && NonNegative(status) && router in txs
    requires txs[router].picked.Some? && txs[router].picked.value in status
    ensures WithinCapacity(limit, agents, NewStatus(status, txs[router]), txs - {router})
    ensures NonNegative(NewStatus(status, txs[router]))
  {
    var status' := NewStatus(status, txs[router]);
    CommitRaisesOnlyPicked(status, txs[router]);
    forall a | a in status'
      ensures status'[a].load + Pending(txs - {router}, a) <= status[a].load + Pending(txs, a)
    {
      PendingWithout(txs, router, a);
    }
  }

  lemma CommitShape(s: State, router: nat, at: int)
    requires router in s.txs && s.txs[router].picked.Some? && s.txs[router].ticket in s.tickets
    requires s.txs[router].kind.Routing? ==> s.txs[router].kind.reason != Escalation
    ensures var tx, s' := s.txs[router], Apply(s, Commit(router, at));
            && |s'.assignments| == |s.assignments| + 1 && tx.ticket in s'.tickets
            && Records(tx, s'.assignments[|s.assignments|])
            && s'.tickets[tx.ticket].assignee == tx.picked
            && s' == State(s.limit, s.agents, NewStatus(s.status, tx), s.tickets[tx.ticket := s'.tickets[tx.ticket]],
                           s.assignments + [s'.assignments[|s.assignments|]], s.txs - {router})
  {
  }

  lemma CommitKeepsInv(s: State, router: nat, at: int)
    requires Inv(s) && router in s.txs && s.txs[router].picked.Some?
    ensures Inv(Apply(s, Commit(router, at)))
  {
    var tx, s' := s.txs[router], Apply(s, Commit(router, at));
    CommitShape(s, router, at);
    CommitKeepsLocks(s.limit, s.txs, s.tickets, s.status, router, s'.tickets[tx.ticket]);
    CommitKeepsCapacity(s.limit, s.agents, s.status, s.txs, router);
  }

  /** The other writers leave alone what an open transaction has locked. */
  lemma TicketWriteKeepsLocks(limit: nat, txs: map<nat, Tx>, tickets: map<nat, TicketRow>,
                              status: map<nat, StatusRow>, ticket: nat, row: TicketRow)
    requires Locks(limit, txs, tickets, status) && forall r :: r in txs ==> txs[r].ticket != ticket
    ensures Locks(limit, txs, tickets[ticket := row], status)
  {
  }

  lemma BeginKeepsInv(s: State, router: nat, tx: Tx)
    requires Inv(s) && Lockable(s, router, tx.ticket) && tx.picked.None?
    requires tx.from == s.tickets[tx.ticket].assignee && (tx.kind.Routing? ==> tx.kind.reason != Escalation)
    ensures Inv(s.(txs := s.txs[router := tx]))
  {
    BeginKeepsLocks(s.limit, s.txs, s.tickets, s.status, router, tx);
    BeginKeepsCapacity(s.limit, s.agents, s.status, s.txs, router, tx);
  }

  lemma NothingPicked(a: nat)
    ensures Pending(map[], a) == 0
  {
    assert Picks(map[], a) == {};
  }

  lemma PresenceKeepsInv(s: State, agent: nat, row: StatusRow)
    requires Inv(s) && agent in s.agents && row.load == if agent in s.status then s.status[agent].load else 0
    ensures Inv(s.(status := s.status[agent := row]))
  {
    PresenceKeepsCapacity(s.limit, s.agents, s.status, s.txs, agent, row);
  }

  lemma TicketWriteKeepsInv(s: State, ticket: nat, row: TicketRow)
    requires Inv(s) && Unlocked(s, ticket)
    ensures Inv(s.(tickets := s.tickets[ticket := row]))
  {
    TicketWriteKeepsLocks(s.limit, s.txs, s.tickets, s.status, ticket, row);
  }

  lemma RoutingStepKeepsInv(s: State, e: Event)
    requires Inv(s) && Proper(e) && Enabled(s, e) && (e.BeginRoute? || e.BeginEscalate? || e.Choose?)
    ensures Inv(Apply(s, e))
  {
    if e.Choose? {
      PickKeepsInv(s, e.router, e.picked.id);
    } else {
      BeginKeepsInv(s, e.router, Apply(s, e).txs[e.router]);
    }
  }

  lemma TicketStepKeepsInv(s: State, e: Event)
    requires Inv(s) && Proper(e) && Enabled(s, e) && (e.Reassign? || e.SetState?)
    ensures Inv(Apply(s, e))
  {
    TicketWriteKeepsInv(s, e.ticket, Apply(s, e).tickets[e.ticket]);
  }

  lemma StepKeepsInv(s: State, e: Event)
    requires Inv(s) && Proper(e)
    ensures Inv(Apply(s, e))
  {
    if Enabled(s, e) {
      if e.Commit? {
        CommitKeepsInv(s, e.router, e.at);
      } else if e.Rollback? {
        RollbackKeepsInv(s, e.router);
      } else if e.Presence? {
        PresenceKeepsInv(s, e.agent, Apply(s, e).status[e.agent]);
      } else if e.Reassign? || e.SetState? {
        TicketStepKeepsInv(s, e);
      } else {
        RoutingStepKeepsInv(s, e);
      }
    }
  }

  lemma FreshHasCapacity(limit: nat, agents: map<nat, AgentRow>, status: map<nat, StatusRow>)
    requires limit >= 1 && forall a :: a in status ==> a in agents && status[a].load == 0
    ensures WithinCapacity(limit, agents, status, map[])
  {
    forall a: nat ensures Pending(map[], a) == 0 {
      NothingPicked(a);
    }
  }

  lemma FreshHasInv(s: State)
    requires Fresh(s)
    ensures Inv(s)
  {
    FreshHasCapacity(s.limit, s.agents, s.status);
  }

  // ---------------------------------------------------------------- main results

  lemma {:induction false} EveryRunKeepsInv(s: State, events: seq<Event>)
    requires Fresh(s) && AllProper(events)
    ensures Inv(Run(s, events))
    decreases |events|
  {
    if events == [] {
      FreshHasInv(s);
    } else {
      EveryRunKeepsInv(s, events[..|events| - 1]);
      StepKeepsInv(Run(s, events[..|events| - 1]), events[|events| - 1]);
    }
  }

  lemma StepKeepsParameters(s: State, e: Event)
    ensures Apply(s, e).limit == s.limit && Apply(s, e).agents == s.agents
  {
  }

  lemma {:induction false} RunKeepsParameters(s: State, events: seq<Event>)
    ensures Run(s, events).limit == s.limit && Run(s, events).agents == s.agents
    decreases |events|
  {
    if events != [] {
      RunKeepsParameters(s, events[..|events| - 1]);
      StepKeepsParameters(Run(s, events[..|events| - 1]), events[|events| - 1]);
    }
  }

  /** Capacity under interleaving: with K transactions open at once an agent is overbooked by at most
      K - 1, counting the picks still in flight; no two transactions hold one ticket. Bulk assignments and state
      changes in between do not matter. */
  lemma OverbookingIsBounded(s: State, events: seq<Event>)
    requires Fresh(s) && AllProper(events)
    ensures var s' := Run(s, events);
            && (forall a :: a in s'.status ==>
                  a in s.agents && s'.status[a].load + Pending(s'.txs, a) <= s.agents[a].maxConcurrent + s.limit - 1)
            && (s.limit == 1 ==> forall a :: a in s'.status ==> s'.status[a].load <= s.agents[a].maxConcurrent)
            && (forall r, q :: r in s'.txs && q in s'.txs && r != q ==> s'.txs[r].ticket != s'.txs[q].ticket)
  {
    EveryRunKeepsInv(s, events);
    RunKeepsParameters(s, events);
  }
}
