/** Runs that reach the limits of the routing results. */
module RoutingWitnesses {
  import opened Wrappers
  import opened RoutingState
  import opened RoutingProofs
  import opened RoutingBooks
  import Score

  // ---------------------------------------------------------------- overbooking

  /** One agent with room for one, and k new tickets. */
  function Crowd(k: nat): State {
    State(k, map[0 := AgentRow(1, "agent", true, [])], map[0 := StatusRow("online", 0)],
          NewTickets(k), [], map[])
  }

  function NewTickets(k: nat): (tickets: map<nat, TicketRow>)
    ensures forall t: nat :: t in tickets <==> t < k
    ensures forall t :: t in tickets ==> tickets[t] == TicketRow(None, "new", 3, [])
  {
    if k == 0 then map[] else NewTickets(k - 1)[k - 1 := TicketRow(None, "new", 3, [])]
  }

  const LONE_AGENT := Score.Agent(0, [], 1, 0, "online", Some(0))

  function PickAll(n: nat): seq<Event> {
    if n == 0 then []
    else PickAll(n - 1) + [BeginRoute(n - 1, n - 1, AutoRoute)] + [Choose(n - 1, [LONE_AGENT], LONE_AGENT, 0)]
  }

  function CommitAll(n: nat): seq<Event> {
    if n == 0 then [] else CommitAll(n - 1) + [Commit(n - 1, 0)]
  }

  function Picked(lo: nat, hi: nat): map<nat, Tx> {
    map r: nat | lo <= r < hi :: Tx(r, Routing(AutoRoute), None, Some(0))
  }

  lemma RunAppended(s: State, events: seq<Event>, e: Event)
    ensures Run(s, events + [e]) == Apply(Run(s, events), e)
  {
    assert (events + [e])[..|events|] == events;
  }

  lemma RunTwoMore(s: State, events: seq<Event>, e: Event, f: Event)
    ensures Run(s, events + [e] + [f]) == Apply(Apply(Run(s, events), e), f)
  {
    RunAppended(s, events, e);
    RunAppended(s, events + [e], f);
  }

  lemma {:induction false} RunConcat(s: State, xs: seq<Event>, ys: seq<Event>)
    ensures Run(s, xs + ys) == Run(Run(s, xs), ys)
    decreases |ys|
  {
    if ys == [] {
      assert xs + ys == xs;
    } else {
      var init, last := ys[..|ys| - 1], ys[|ys| - 1];
      assert xs + ys == xs + init + [last];
      RunConcat(s, xs, init);
      RunAppended(s, xs + init, last);
    }
  }

  lemma {:induction false} PickedSize(lo: nat, hi: nat)
    requires lo <= hi
    ensures |Picked(lo, hi)| == hi - lo
    decreases hi - lo
  {
    if lo < hi {
      PickedSize(lo, hi - 1);
      assert Picked(lo, hi) == Picked(lo, hi - 1)[hi - 1 := Tx(hi - 1, Routing(AutoRoute), None, Some(0))];
    } else {
      assert Picked(lo, hi) == map[];
    }
  }

  /** The lone agent is all the candidate query finds, as long as nothing was committed. */
  lemma LoneAgentIsListed(s: State, tx: Tx)
    requires s.agents == Crowd(0).agents && s.status == Crowd(0).status && s.assignments == []
    requires tx.kind.Routing? && tx.ticket in s.tickets && s.tickets[tx.ticket].requiredSkills == []
    ensures Lists(s, tx.kind, [LONE_AGENT]) && Score.IsBest(LONE_AGENT, [LONE_AGENT], Wanted(s, tx), 0)
  {
    assert View(s, 0) == LONE_AGENT && LONE_AGENT in [LONE_AGENT];
  }

  lemma OnePickMore(k: nat, n: nat)
    requires n < k
    ensures var s := Crowd(k).(txs := Picked(0, n));
            Apply(Apply(s, BeginRoute(n, n, AutoRoute)), Choose(n, [LONE_AGENT], LONE_AGENT, 0))
            == Crowd(k).(txs := Picked(0, n + 1))
  {
    var s := Crowd(k).(txs := Picked(0, n));
    PickedSize(0, n);
    var begun := Apply(s, BeginRoute(n, n, AutoRoute));
    var tx := Tx(n, Routing(AutoRoute), None, None);
    assert begun == s.(txs := s.txs[n := tx]);
    LoneAgentIsListed(begun, tx);
    assert Picked(0, n + 1) == Picked(0, n)[n := Tx(n, Routing(AutoRoute), None, Some(0))];
  }

  ghost function AfterPicks(s: State, n: nat): State {
    if n == 0 then s
    else
      Apply(Apply(AfterPicks(s, n - 1), BeginRoute(n - 1, n - 1, AutoRoute)),
            Choose(n - 1, [LONE_AGENT], LONE_AGENT, 0))
  }

  ghost function AfterCommits(s: State, n: nat): State {
    if n == 0 then s else Apply(AfterCommits(s, n - 1), Commit(n - 1, 0))
  }

  lemma PickOneMore(s: State, n: nat)
    requires n > 0 && Run(s, PickAll(n - 1)) == AfterPicks(s, n - 1)
    ensures Run(s, PickAll(n)) == AfterPicks(s, n)
  {
    RunTwoMore(s, PickAll(n - 1), BeginRoute(n - 1, n - 1, AutoRoute), Choose(n - 1, [LONE_AGENT], LONE_AGENT, 0));
  }

  lemma {:induction false} RunPicks(s: State, n: nat)
    ensures Run(s, PickAll(n)) == AfterPicks(s, n)
    decreases n
  {
    if n > 0 {
      RunPicks(s, n - 1);
      PickOneMore(s, n);
    }
  }

  lemma {:induction false} RunCommits(s: State, n: nat)
    ensures Run(s, CommitAll(n)) == AfterCommits(s, n)
    decreases n
  {
    if n > 0 {
      RunCommits(s, n - 1);
      RunAppended(s, CommitAll(n - 1), Commit(n - 1, 0));
    }
  }

  lemma {:induction false} AllHavePicked(k: nat, n: nat)
    requires n <= k
    ensures AfterPicks(Crowd(k), n) == Crowd(k).(txs := Picked(0, n))
    decreases n
  {
    if n == 0 {
      assert Picked(0, 0) == map[];
    } else {
      AllHavePicked(k, n - 1);
      OnePickMore(k, n - 1);
    }
  }

  /** Some of the crowd have committed, the others hold their picks. */
  ghost predicate Served(s: State, k: nat, n: nat)
    requires n <= k
  {
    && s.txs == Picked(n, k) && s.status == map[0 := StatusRow("online", n)] && s.agents == Crowd(k).agents
    && (forall t: nat :: t < k ==> t in s.tickets)
  }

  lemma OneCommitMore(s: State, k: nat, n: nat, s': State)
    requires n < k && Served(s, k, n) && s' == Apply(s, Commit(n, 0))
    ensures Served(s', k, n + 1)
  {
    assert s.txs[n] == Tx(n, Routing(AutoRoute), None, Some(0));
    assert Picked(n, k) - {n} == Picked(n + 1, k);
  }

  lemma {:induction false} AllHaveCommitted(start: State, k: nat, n: nat)
    requires n <= k && Served(start, k, 0)
    ensures Served(AfterCommits(start, n), k, n)
    decreases n
  {
    if n > 0 {
      AllHaveCommitted(start, k, n - 1);
      OneCommitMore(AfterCommits(start, n - 1), k, n - 1, AfterCommits(start, n));
    }
  }

  /** K transactions can overbook an agent by K - 1: they all pick before any of them commits. */
  lemma OverbookingIsReached(k: nat)
    requires k >= 1
    ensures var s' := Run(Crowd(k), PickAll(k) + CommitAll(k));
            && Fresh(Crowd(k)) && 0 in s'.status && s'.txs == map[]
            && s'.status[0].load == Crowd(k).agents[0].maxConcurrent + k - 1
  {
    AllHavePicked(k, k);
    AllHaveCommitted(AfterPicks(Crowd(k), k), k, k);
    RunPicks(Crowd(k), k);
    RunCommits(AfterPicks(Crowd(k), k), k);
    RunConcat(Crowd(k), PickAll(k), CommitAll(k));
    assert Picked(k, k) == map[];
  }

  // ---------------------------------------------------------------- the floor

  /** An unassigned ticket, an idle agent and an idle senior agent. */
  const IDLE_PAIR := State(1, map[7 := AgentRow(1, "agent", true, []), 8 := AgentRow(1, "senior_agent", true, [])],
                           map[7 := StatusRow("online", 0), 8 := StatusRow("online", 0)],
                           map[0 := TicketRow(None, "new", 3, [])], [], map[])

  const SENIOR := Score.Agent(8, [], 1, 0, "online", Some(0))

  const HANDED_OVER := IDLE_PAIR.(tickets := map[0 := TicketRow(Some(7), "open", 3, [])])

  const ESCALATION := Tx(0, Escalating("senior_agent"), Some(7), None)

  const SENIOR_PICKED := HANDED_OVER.(txs := map[1 := ESCALATION.(picked := Some(8))])

  const BULK_THEN_ESCALATE := [Reassign(0, Some(7), None), BeginEscalate(1, 0, ""), Choose(1, [SENIOR], SENIOR, 0)]

  lemma RunOne(s: State, e: Event)
    ensures Run(s, [e]) == Apply(s, e)
  {
    RunAppended(s, [], e);
    assert [] + [e] == [e];
  }

  lemma RunThree(s: State, e: Event, f: Event, g: Event)
    ensures Run(s, [e, f, g]) == Apply(Apply(Apply(s, e), f), g)
  {
    RunOne(s, e);
    RunTwoMore(s, [e], f, g);
    assert [e] + [f] + [g] == [e, f, g];
  }

  lemma BulkAssigned()
    ensures Apply(IDLE_PAIR, Reassign(0, Some(7), None)) == HANDED_OVER
  {
  }

  lemma EscalationBegun()
    ensures Apply(HANDED_OVER, BeginEscalate(1, 0, "")) == HANDED_OVER.(txs := map[1 := ESCALATION])
  {
  }

  lemma SeniorChosen()
    ensures Apply(HANDED_OVER.(txs := map[1 := ESCALATION]), Choose(1, [SENIOR], SENIOR, 0)) == SENIOR_PICKED
  {
    var s := HANDED_OVER.(txs := map[1 := ESCALATION]);
    assert View(s, 8) == SENIOR && SENIOR in [SENIOR];
    assert Lists(s, ESCALATION.kind, [SENIOR]);
  }

  lemma PickLeadsToFloor()
    ensures Held(SENIOR_PICKED.tickets, 7) == 1 && SENIOR_PICKED.status[7].load == 0
    ensures MissesDropOf(SENIOR_PICKED, Commit(1, 0), 7) && TakesStrayFrom(SENIOR_PICKED, Commit(1, 0), 7)
    ensures CommitsStray(SENIOR_PICKED, Commit(1, 0))
    ensures !Chained(Apply(SENIOR_PICKED, Commit(1, 0)).assignments)
  {
    assert Holdings(SENIOR_PICKED.tickets, 7) == {0};
    var row := Assignment(0, 8, Some(7), Escalation, 0);
    assert Apply(SENIOR_PICKED, Commit(1, 0)).assignments == [] + [row];
    RowAppended([], row, 0);
  }

  /** A ticket bulk-assigned to an idle agent and then escalated: the agent has a ticket but no load to give back,
      and the escalation's row starts from an agent no row led to. */
  lemma FloorCanBeHit()
    ensures Fresh(IDLE_PAIR) && AllProper(BULK_THEN_ESCALATE)
    ensures var s, e := Run(IDLE_PAIR, BULK_THEN_ESCALATE), Commit(1, 0);
            && Held(s.tickets, 7) == 1 && LoadOf(s.status, 7) == 0
            && MissesDropOf(s, e, 7) && TakesStrayFrom(s, e, 7) && CommitsStray(s, e)
            && !Chained(Apply(s, e).assignments)
  {
    RunThree(IDLE_PAIR, BULK_THEN_ESCALATE[0], BULK_THEN_ESCALATE[1], BULK_THEN_ESCALATE[2]);
    BulkAssigned();
    EscalationBegun();
    SeniorChosen();
    PickLeadsToFloor();
  }
}
