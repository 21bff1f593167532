/** The routing engine itself: transactions that run statement by statement against the tables
    (internal/routing/engine.go, internal/routing/escalation.go). */
module Engine {
  import opened Wrappers
  import opened RoutingState
  import Score

  datatype Decision = Decision(ticket: nat, agent: nat, from: Option<nat>, reason: Reason)

  datatype Error = TicketNotFound | TopTier | NoEligibleAgent

  /** The rows whose agent has every required skill, in the query's order. */
  function Skilled(rows: seq<Score.Agent>, required: seq<string>): (out: seq<Score.Agent>)
    ensures forall a :: a in out <==> a in rows && forall s :: s in required ==> s in a.skills
  {
    if rows == [] then []
    else
      var rest, a := Skilled(rows[..|rows| - 1], required), rows[|rows| - 1];
      assert rows == rows[..|rows| - 1] + [a];
      if forall s :: s in required ==> s in a.skills then rest + [a] else rest
  }

  lemma {:induction false} SkilledKeepsDistinct(rows: seq<Score.Agent>, required: seq<string>)
    requires Score.DistinctIds(rows)
    ensures Score.DistinctIds(Skilled(rows, required))
  {
    if rows != [] {
      var init, a := rows[..|rows| - 1], rows[|rows| - 1];
      SkilledKeepsDistinct(init, required);
      forall x | x in init ensures x.id != a.id {
      }
    }
  }

  /** The in-process skill filter of loadEligibleAgents. */
  method FilterSkills(rows: seq<Score.Agent>, required: seq<string>) returns (out: seq<Score.Agent>)
    ensures out == Skilled(rows, required)
  {
    out := [];
    for i := 0 to |rows|
      invariant out == Skilled(rows[..i], required)
    {
      var ok := true;
      for j := 0 to |required|
        invariant ok
        invariant forall k :: 0 <= k < j ==> required[k] in rows[i].skills
      {
        if required[j] !in rows[i].skills {
          ok := false;
          break;
        }
      }
      assert rows[..i + 1][..i] == rows[..i];
      if ok {
        out := out + [rows[i]];
      }
    }
    assert rows[..|rows|] == rows;
  }

  class Engine {
    const limit: nat
    const agents: map<nat, AgentRow>
    const priorityWeight: real
    var status: map<nat, StatusRow>
    var tickets: map<nat, TicketRow>
    var assignments: seq<Assignment>
    var txs: map<nat, Tx>

    constructor (limit: nat, agents: map<nat, AgentRow>, status: map<nat, StatusRow>, tickets: map<nat, TicketRow>,
                 weight: real)
      ensures Snapshot() == State(limit, agents, status, tickets, [], map[])
    {
      this.limit, this.agents, this.status, this.tickets := limit, agents, status, tickets;
      priorityWeight, assignments, txs := weight, [], map[];
    }

    ghost function Snapshot(): State
      reads this
    {
      State(limit, agents, status, tickets, assignments, txs)
    }

    /** BEGIN and SELECT ... FOR UPDATE for a routing decision. */
    method LockForRoute(router: nat, ticket: nat, reason: Reason) returns (r: Result<(), Error>)
      requires router !in txs && |txs| < limit && forall q :: q in txs ==> txs[q].ticket != ticket
      modifies this
      ensures r == if ticket in old(tickets) then Success(()) else Failure(TicketNotFound)
      ensures ticket in old(tickets) ==>
                txs == old(txs)[router := Tx(ticket, Routing(reason), old(tickets)[ticket].assignee, None)]
      ensures Snapshot() == Apply(old(Snapshot()), BeginRoute(router, ticket, reason))
    {
      if ticket !in tickets {
        return Failure(TicketNotFound);
      }
      txs := txs[router := Tx(ticket, Routing(reason), tickets[ticket].assignee, None)];
      return Success(());
    }

    /** The same for an escalation, which also works out the tier above the present one. */
    method LockForEscalate(router: nat, ticket: nat, tier: string) returns (r: Result<(), Error>)
      requires router !in txs && |txs| < limit && forall q :: q in txs ==> txs[q].ticket != ticket
      modifies this
      ensures ticket !in old(tickets) ==> r == Failure(TicketNotFound)
      ensures ticket in old(tickets) ==>
                r == if NextTier(FromTier(old(Snapshot()), ticket, tier)) == "" then Failure(TopTier) else Success(())
      ensures ticket in old(tickets) ==>
                var from := old(tickets)[ticket].assignee;
                var start := if tier != "" then tier
                             else if from.Some? && from.value in agents then agents[from.value].role else "";
                && (r.Success? <==> start == "agent" || start == "senior_agent")
                && (start == "agent" ==>
                      txs == old(txs)[router := Tx(ticket, Escalating("senior_agent"), from, None)])
                && (start == "senior_agent" ==>
                      txs == old(txs)[router := Tx(ticket, Escalating("supervisor"), from, None)])
      ensures Snapshot() == Apply(old(Snapshot()), BeginEscalate(router, ticket, tier))
    {
      if ticket !in tickets {
        return Failure(TicketNotFound);
      }
      var from, assignee := tier, tickets[ticket].assignee;
      if from == "" && assignee.Some? {
        if assignee.value in agents {
          from := agents[assignee.value].role;
        }
      }
      var target := NextTier(from);
      if target == "" {
        return Failure(TopTier);
      }
      txs := txs[router := Tx(ticket, Escalating(target), assignee, None)];
      return Success(());
    }

    /** Who may get the ticket: active, online, with a free slot; for a routing with every required skill, for an
        escalation with the target role. */
    ghost predicate MayTake(tx: Tx, a: nat)
      requires tx.ticket in tickets
      reads this
    {
      && a in agents && agents[a].active && a in status && status[a].status == "online"
      && status[a].load < agents[a].maxConcurrent
      && match tx.kind
         case Routing(_) => forall k :: k in tickets[tx.ticket].requiredSkills ==> k in agents[a].skills
         case Escalating(target) => agents[a].role == target
    }

    lemma CandidatesMayTake(tx: Tx, rows: seq<Score.Agent>)
      requires tx.ticket in tickets && Lists(Snapshot(), tx.kind, rows)
      ensures forall x :: x in rows && Score.CanTake(x, Wanted(Snapshot(), tx)) ==> MayTake(tx, x.id)
      ensures forall a :: MayTake(tx, a) ==>
                exists x :: x in rows && x.id == a && Score.CanTake(x, Wanted(Snapshot(), tx))
    {
      forall a | MayTake(tx, a)
        ensures exists x :: x in rows && x.id == a && Score.CanTake(x, Wanted(Snapshot(), tx))
      {
        assert Selectable(Snapshot(), tx.kind, a);
        assert View(Snapshot(), a) in rows && Score.CanTake(View(Snapshot(), a), Wanted(Snapshot(), tx));
      }
    }

    /** Filter and score the rows the candidate query returned; roll back when nobody is left. */
    method PickAgent(router: nat, rows: seq<Score.Agent>, now: int) returns (r: Result<nat, Error>)
      requires router in txs && txs[router].picked.None? && txs[router].ticket in tickets
      requires Lists(Snapshot(), txs[router].kind, rows)
      requires forall a :: a in rows ==> Score.InRange(a)
      modifies this
      ensures r.Failure? <==> forall a :: !old(MayTake(txs[router], a))
      ensures r.Success? ==> old(MayTake(txs[router], r.value))
      ensures r.Failure? ==>
                && r.error == NoEligibleAgent
                && (forall a :: a in rows ==> !Score.CanTake(a, Wanted(old(Snapshot()), old(txs[router]))))
                && Snapshot() == Apply(old(Snapshot()), Rollback(router))
      ensures r.Success? ==>
                exists a :: (
                  && a in rows && a.id == r.value
                  && Score.IsBest(a, rows, Wanted(old(Snapshot()), old(txs[router])), now)
                  && Snapshot() == Apply(old(Snapshot()), Choose(router, rows, a, now)))
    {
      var tx := txs[router];
      var wanted := Wanted(State(limit, agents, status, tickets, assignments, txs), tx);
      CandidatesMayTake(tx, rows);
      var candidates := rows;
      if tx.kind.Routing? {
        candidates := FilterSkills(rows, tickets[tx.ticket].requiredSkills);
        SkilledKeepsDistinct(rows, tickets[tx.ticket].requiredSkills);
      }
      var picked := Score.Pick(candidates, wanted, now, priorityWeight);
      if picked.None? {
        txs := txs - {router};
        return Failure(NoEligibleAgent);
      }
      assert Score.IsBest(picked.value, rows, wanted, now);
      txs := txs[router := tx.(picked := Some(picked.value.id))];
      return Success(picked.value.id);
    }

    /** The writes in the order the code issues them, then COMMIT. */
    method WriteAndCommit(router: nat, at: int) returns (d: Decision)
      requires router in txs && txs[router].picked.Some? && txs[router].ticket in tickets
      modifies this
      ensures Snapshot() == Apply(old(Snapshot()), Commit(router, at))
      ensures Some(d.agent) == old(txs[router]).picked && d.from == old(txs[router]).from
      ensures assignments == old(assignments) + [Assignment(d.ticket, d.agent, d.from, d.reason, at)]
      ensures var tx, t := old(txs)[router], old(tickets)[old(txs)[router].ticket];
              && d.ticket == tx.ticket && txs == old(txs) - {router}
              && d.reason == (if tx.kind.Routing? then tx.kind.reason else Escalation)
              && tickets == old(tickets)[tx.ticket := TicketRow(Some(d.agent),
                                                                if tx.kind.Routing? then "open" else t.state,
                                                                t.priority, t.requiredSkills)]
      ensures var releases := old(txs)[router].kind.Escalating? && d.from.Some?;
              && status.Keys == old(status).Keys
              && forall a :: a in status ==>
                   && status[a].status == old(status)[a].status
                   && var raised := old(status)[a].load + if a == d.agent then 1 else 0;
                      status[a].load == if releases && a == d.from.value
                                        then (if raised >= 1 then raised - 1 else 0) else raised
    {
      var tx := txs[router];
      var a := tx.picked.value;
      var reason := Escalation;
      if tx.kind.Routing? {
        reason := tx.kind.reason;
        tickets := tickets[tx.ticket := tickets[tx.ticket].(assignee := Some(a), state := "open")];
      } else {
        tickets := tickets[tx.ticket := tickets[tx.ticket].(assignee := Some(a))];
      }
      assignments := assignments + [Assignment(tx.ticket, a, tx.from, reason, at)];
      if a in status {
        status := status[a := status[a].(load := status[a].load + 1)];
      }
      if tx.kind.Escalating? && tx.from.Some? && tx.from.value in status {
        var less := status[tx.from.value].load - 1;
        status := status[tx.from.value := status[tx.from.value].(load := if less > 0 then less else 0)];
      }
      txs := txs - {router};
      d := Decision(tx.ticket, a, tx.from, reason);
    }
  }
}
