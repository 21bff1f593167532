/** The tables the routing engine writes, and its transactions as atomic steps
    (internal/routing/engine.go, internal/routing/escalation.go). The other writers of a ticket's row, bulk
    assignments and state changes (internal/ticket/bulk.go, internal/ticket/repo.go), run in between.

    A transaction locks the ticket row, later picks on the loads committed at that moment, and
    increments the load when it commits; other transactions may run in between. */
module RoutingState {
  import opened Wrappers
  import Score

  datatype AgentRow = AgentRow(maxConcurrent: nat, role: string, active: bool, skills: seq<string>)

  datatype StatusRow = StatusRow(status: string, load: int)

  datatype TicketRow = TicketRow(assignee: Option<nat>, state: string, priority: int, requiredSkills: seq<string>)

  datatype Reason = AutoRoute | Manual | Escalation | ReassignOffline | SlaBreach

  datatype Assignment = Assignment(ticket: nat, agent: nat, from: Option<nat>, reason: Reason, at: int)

  datatype Kind = Routing(reason: Reason) | Escalating(target: string)

  /** An open transaction: it holds the lock on `ticket`, has read its assignee, and may have picked. */
  datatype Tx = Tx(ticket: nat, kind: Kind, from: Option<nat>, picked: Option<nat>)

  /** `limit` bounds the transactions open at once (the connection pool). */
  datatype State = State(limit: nat, agents: map<nat, AgentRow>, status: map<nat, StatusRow>,
                         tickets: map<nat, TicketRow>, assignments: seq<Assignment>, txs: map<nat, Tx>)

  datatype Event =
    | BeginRoute(router: nat, ticket: nat, reason: Reason)
    | BeginEscalate(router: nat, ticket: nat, tier: string)
    | Choose(router: nat, rows: seq<Score.Agent>, picked: Score.Agent, now: int)
    | Commit(router: nat, at: int)
    | Rollback(router: nat)
    | Presence(agent: nat, presence: string)
    | Reassign(ticket: nat, assignee: Option<nat>, callerLimit: Option<nat>)
    | SetState(ticket: nat, state: string)

  function NextTier(tier: string): string {
    if tier == "agent" then "senior_agent"
    else if tier == "senior_agent" then "supervisor"
    else ""
  }

  /** The tier an escalation starts from: the caller's, else the role of the assignee. */
  function FromTier(s: State, ticket: nat, tier: string): string
    requires ticket in s.tickets
  {
    var from := s.tickets[ticket].assignee;
    if tier == "" && from.Some? && from.value in s.agents then s.agents[from.value].role else tier
  }

  /** No open transaction holds the ticket's row lock. */
  predicate Unlocked(s: State, ticket: nat) {
    ticket in s.tickets && forall r :: r in s.txs ==> s.txs[r].ticket != ticket
  }

  predicate Lockable(s: State, router: nat, ticket: nat) {
    router !in s.txs && |s.txs| < s.limit && Unlocked(s, ticket)
  }

  /** The WHERE clause of a bulk assignment, for one of its rows; the new assignee is a row of agents. */
  predicate Reassignable(s: State, ticket: nat, agent: Option<nat>, callerLimit: Option<nat>)
    requires ticket in s.tickets
  {
    var t := s.tickets[ticket];
    && t.state != "resolved" && t.state != "closed"
    && (agent.Some? ==>
          agent.value in s.agents && (callerLimit.None? || t.assignee.None? || t.assignee == callerLimit))
  }

  /** The WHERE clause of the candidate queries. */
  predicate Selectable(s: State, kind: Kind, a: nat) {
    && a in s.agents && s.agents[a].active
    && a in s.status && s.status[a].status == "online" && s.status[a].load < s.agents[a].maxConcurrent
    && (kind.Escalating? ==> s.agents[a].role == kind.target)
  }

  /** MAX(at) over the agent's assignments. */
  function MaxAt(rows: seq<Assignment>, a: nat): Option<int> {
    if rows == [] then None
    else
      var rest, r := MaxAt(rows[..|rows| - 1], a), rows[|rows| - 1];
      if r.agent == a && (rest.None? || r.at > rest.value) then Some(r.at) else rest
  }

  /** The agent's last assignment, or the epoch. */
  function LastAt(rows: seq<Assignment>, a: nat): int {
    var latest := MaxAt(rows, a);
    if latest.Some? then latest.value else 0
  }

  lemma {:induction false} LastAtIsLatest(rows: seq<Assignment>, a: nat)
    ensures forall r :: r in rows && r.agent == a ==> r.at <= LastAt(rows, a)
    ensures (exists r :: r in rows && r.agent == a && r.at == LastAt(rows, a))
            || (LastAt(rows, a) == 0 && forall r :: r in rows ==> r.agent != a)
    ensures MaxAt(rows, a).None? <==> forall r :: r in rows ==> r.agent != a
    decreases |rows|
  {
    if rows != [] {
      LastAtIsLatest(rows[..|rows| - 1], a);
      assert rows == rows[..|rows| - 1] + [rows[|rows| - 1]];
    }
  }

  function View(s: State, a: nat): Score.Agent
    requires a in s.agents && a in s.status
  {
    Score.Agent(a, s.agents[a].skills, s.agents[a].maxConcurrent, s.status[a].load, s.status[a].status,
                Some(LastAt(s.assignments, a)))
  }

  /** `rows` is a result of the candidate query in some order. */
  ghost predicate Lists(s: State, kind: Kind, rows: seq<Score.Agent>) {
    && Score.DistinctIds(rows)
    && (forall x :: x in rows ==> Selectable(s, kind, x.id) && x == View(s, x.id))
    && (forall a :: a in s.agents && Selectable(s, kind, a) ==> View(s, a) in rows)
  }

  /** The ticket as the scoring function sees it. An escalation passes no required skills. */
  function Wanted(s: State, tx: Tx): Score.Ticket
    requires tx.ticket in s.tickets
  {
    var t := s.tickets[tx.ticket];
    Score.Ticket(tx.ticket, t.priority, if tx.kind.Routing? then t.requiredSkills else [])
  }

  ghost predicate Enabled(s: State, e: Event) {
    match e
    case BeginRoute(router, ticket, _) => Lockable(s, router, ticket)
    case BeginEscalate(router, ticket, tier) =>
      Lockable(s, router, ticket) && NextTier(FromTier(s, ticket, tier)) != ""
    case Choose(router, rows, picked, now) =>
      && router in s.txs && s.txs[router].picked.None? && s.txs[router].ticket in s.tickets
      && Lists(s, s.txs[router].kind, rows)
      && Score.IsBest(picked, rows, Wanted(s, s.txs[router]), now)
    case Commit(router, _) =>
      router in s.txs && s.txs[router].picked.Some? && s.txs[router].ticket in s.tickets
    case Rollback(router) => router in s.txs
    case Presence(agent, _) => agent in s.agents
    case Reassign(ticket, agent, callerLimit) =>
      Unlocked(s, ticket) && Reassignable(s, ticket, agent, callerLimit)
    case SetState(ticket, _) => Unlocked(s, ticket)
  }

  function AddLoad(status: map<nat, StatusRow>, a: nat): map<nat, StatusRow> {
    if a in status then status[a := status[a].(load := status[a].load + 1)] else status
  }

  /** GREATEST(current_load - 1, 0) */
  function DropLoad(status: map<nat, StatusRow>, a: nat): map<nat, StatusRow> {
    if a in status
    then status[a := status[a].(load := if status[a].load - 1 > 0 then status[a].load - 1 else 0)]
    else status
  }

  function Committed(s: State, tx: Tx, at: int): State
    requires tx.picked.Some? && tx.ticket in s.tickets
  {
    var a, t := tx.picked.value, s.tickets[tx.ticket];
    var raised := AddLoad(s.status, a);
    match tx.kind
    case Routing(reason) =>
      s.(tickets := s.tickets[tx.ticket := t.(assignee := Some(a), state := "open")],
         assignments := s.assignments + [Assignment(tx.ticket, a, tx.from, reason, at)],
         status := raised)
    case Escalating(_) =>
      s.(tickets := s.tickets[tx.ticket := t.(assignee := Some(a))],
         assignments := s.assignments + [Assignment(tx.ticket, a, tx.from, Escalation, at)],
         status := if tx.from.Some? then DropLoad(raised, tx.from.value) else raised)
  }

  /** One atomic step; an event that is not enabled changes nothing. */
  ghost function Apply(s: State, e: Event): State {
    if !Enabled(s, e) then s
    else
      match e
      case BeginRoute(router, ticket, reason) =>
        s.(txs := s.txs[router := Tx(ticket, Routing(reason), s.tickets[ticket].assignee, None)])
      case BeginEscalate(router, ticket, tier) =>
        s.(txs := s.txs[router := Tx(ticket, Escalating(NextTier(FromTier(s, ticket, tier))),
                                     s.tickets[ticket].assignee, None)])
      case Choose(router, rows, picked, now) =>
        s.(txs := s.txs[router := s.txs[router].(picked := Some(picked.id))])
      case Commit(router, at) =>
        Committed(s, s.txs[router], at).(txs := s.txs - {router})
      case Rollback(router) => s.(txs := s.txs - {router})
      case Presence(agent, status) =>
        s.(status := s.status[agent := StatusRow(status, if agent in s.status then s.status[agent].load else 0)])
      // A row of a bulk assignment: no load and no assignment row is written.
      case Reassign(ticket, agent, _) =>
        var t := s.tickets[ticket];
        s.(tickets := s.tickets[ticket := t.(assignee := agent,
                                             state := if agent.Some? && t.state == "new" then "open" else t.state)])
      case SetState(ticket, state) => s.(tickets := s.tickets[ticket := s.tickets[ticket].(state := state)])
  }

  ghost function Run(s: State, events: seq<Event>): State {
    if events == [] then s
    else Apply(Run(s, events[..|events| - 1]), events[|events| - 1])
  }

  /** A fresh system: nobody assigned, nothing loaded, nothing in flight. */
  predicate Fresh(s: State) {
    && s.limit >= 1 && s.txs == map[] && s.assignments == []
    && (forall a :: a in s.status ==> a in s.agents && s.status[a].load == 0)
    && (forall t :: t in s.tickets ==> s.tickets[t].assignee.None?)
  }
}
