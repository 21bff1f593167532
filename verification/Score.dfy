/** Agent selection: internal/routing/score.go.

    Instants are integer nanoseconds; None stands for Go's zero time. Agent ids are the 128-bit UUID
    values: their canonical texts have fixed width, so text order is numeric order. Weights are exact reals. */
module Score {
  import opened Wrappers

  const WINDOW_NANOS := 1_800_000_000_000

  datatype Agent = Agent(id: nat, skills: seq<string>, maxConcurrent: int, currentLoad: int,
                         status: string, lastAssigned: Option<int>)

  datatype Ticket = Ticket(id: nat, priority: int, requiredSkills: seq<string>)

  /** Go's int16 subtraction wraps. */
  function Wrap16(x: int): int {
    (x + 32768) % 65536 - 32768
  }

  function Spare(a: Agent): int {
    Wrap16(a.maxConcurrent - a.currentLoad)
  }

  /** How long an agent has been left alone, in nanoseconds cut to half an hour; never assigned counts as that long. */
  function Idle(last: Option<int>, now: int): (d: int)
    ensures 0 <= d <= 1_800_000_000_000
  {
    if last.None? || now - last.value > 1_800_000_000_000 then 1_800_000_000_000
    else if now < last.value then 0
    else now - last.value
  }

  /** The idle time as a share of the window. */
  function FreshnessOf(last: Option<int>, now: int): (f: real)
    ensures 0.0 <= f <= 1.0 && f * 1_800_000_000_000.0 == Idle(last, now) as real
  {
    if last.None? then 1.0
    else
      var d := now - last.value;
      if d <= 0 then 0.0
      else if d >= WINDOW_NANOS then 1.0
      else
        FractionInRange(d);
        d as real / WINDOW_NANOS as real
  }

  lemma FractionInRange(d: int)
    requires 0 <= d <= WINDOW_NANOS
    ensures 0.0 <= d as real / WINDOW_NANOS as real <= 1.0
    ensures d as real / WINDOW_NANOS as real * WINDOW_NANOS as real == d as real
  {
  }

  function ScoreOf(a: Agent, t: Ticket, now: int, priorityWeight: real): real {
    priorityWeight * Wrap16(6 - t.priority) as real + 0.3 * Spare(a) as real + 0.2 * FreshnessOf(a.lastAssigned, now)
  }

  ghost predicate CanTake(a: Agent, t: Ticket) {
    && a.status == "online"
    && a.currentLoad < a.maxConcurrent
    && forall s :: s in t.requiredSkills ==> s in a.skills
  }

  /** The filter step, cheapest checks first; it accepts exactly the agents who can take the ticket. */
  method Eligible(a: Agent, t: Ticket) returns (ok: bool)
    ensures ok <==> CanTake(a, t)
    ensures ok <==> a.status == "online" && a.currentLoad < a.maxConcurrent
                    && forall s :: s in t.requiredSkills ==> s in a.skills
  {
    if a.status != "online" {
      return false;
    }
    if a.currentLoad >= a.maxConcurrent {
      return false;
    }
    for i := 0 to |t.requiredSkills|
      invariant forall j :: 0 <= j < i ==> t.requiredSkills[j] in a.skills
    {
      if t.requiredSkills[i] !in a.skills {
        return false;
      }
    }
    return true;
  }

  /** Values the schema allows: loads start at zero and are floored there, max_concurrent is 1..50. */
  predicate InRange(a: Agent) {
    0 <= a.currentLoad <= 32767 && 0 <= a.maxConcurrent <= 32767
  }

  /** The order the weights were chosen for: more spare slots first, then the agent
      left alone for longer, then the smaller id. It mentions neither weights nor freshness nor the ticket. */
  predicate Better(a: Agent, b: Agent, now: int) {
    var sa, sb := a.maxConcurrent - a.currentLoad, b.maxConcurrent - b.currentLoad;
    var ia, ib := Idle(a.lastAssigned, now), Idle(b.lastAssigned, now);
    sa > sb || (sa == sb && (ia > ib || (ia == ib && a.id < b.id)))
  }

  /** Left alone for half an hour or more, or never assigned. */
  predicate Rested(last: Option<int>, now: int) {
    last.None? || now - last.value >= 1_800_000_000_000
  }

  /** The order spelled out in slots and instants: more spare slots first; with equally many a rested agent before one
      that is not, of two that are not the one assigned earlier (instants still to come count as now), and otherwise
      the smaller id. */
  lemma OrderSpelledOut(a: Agent, b: Agent, now: int)
    ensures a.maxConcurrent - a.currentLoad > b.maxConcurrent - b.currentLoad ==>
              Better(a, b, now) && !Better(b, a, now)
    ensures a.maxConcurrent - a.currentLoad == b.maxConcurrent - b.currentLoad ==>
              && (Rested(a.lastAssigned, now) && !Rested(b.lastAssigned, now) ==>
                    Better(a, b, now) && !Better(b, a, now))
              && (Rested(a.lastAssigned, now) && Rested(b.lastAssigned, now) ==> (Better(a, b, now) <==> a.id < b.id))
              && (!Rested(a.lastAssigned, now) && !Rested(b.lastAssigned, now) ==>
                    var x, y := a.lastAssigned.value, b.lastAssigned.value;
                    Better(a, b, now)
                    <==> (x < y && x < now) || ((x == y || (now <= x && now <= y)) && a.id < b.id))
  {
  }

  /** The smaller weighted share is the shorter idle time. */
  lemma FresherIsLonger(a: Option<int>, b: Option<int>, now: int)
    ensures FreshnessOf(a, now) > FreshnessOf(b, now) <==> Idle(a, now) > Idle(b, now)
    ensures FreshnessOf(a, now) == FreshnessOf(b, now) <==> Idle(a, now) == Idle(b, now)
  {
  }

  /** What Go's comparison in the loop decides. */
  predicate Beats(a: Agent, b: Agent, t: Ticket, now: int, w: real) {
    ScoreOf(a, t, now, w) > ScoreOf(b, t, now, w)
    || (ScoreOf(a, t, now, w) == ScoreOf(b, t, now, w) && a.id < b.id)
  }

  /** One slot weighs 0.3 and the whole freshness range 0.2, so the weighted sum is a lexicographic
      order, whatever the ticket's priority and its weight. */
  lemma ScoreIsLexicographic(a: Agent, b: Agent, t: Ticket, now: int, w: real)
    requires InRange(a) && InRange(b)
    ensures Beats(a, b, t, now, w) <==> Better(a, b, now)
  {
    var p := w * Wrap16(6 - t.priority) as real;
    var da, db := a.maxConcurrent - a.currentLoad, b.maxConcurrent - b.currentLoad;
    var fa, fb := FreshnessOf(a.lastAssigned, now), FreshnessOf(b.lastAssigned, now);
    assert Spare(a) == da && Spare(b) == db;
    assert ScoreOf(a, t, now, w) - ScoreOf(b, t, now, w) == 0.3 * (da - db) as real + 0.2 * (fa - fb);
    SlotOutweighsFreshness(da - db, fa - fb);
    FresherIsLonger(a.lastAssigned, b.lastAssigned, now);
  }

  lemma SlotOutweighsFreshness(slots: int, edge: real)
    requires -1.0 <= edge <= 1.0
    ensures 0.3 * slots as real + 0.2 * edge > 0.0 <==> slots > 0 || (slots == 0 && edge > 0.0)
    ensures 0.3 * slots as real + 0.2 * edge == 0.0 <==> slots == 0 && edge == 0.0
  {
    if slots >= 1 {
      assert slots as real >= 1.0;
    } else if slots <= -1 {
      assert slots as real <= -1.0;
    }
  }

  ghost predicate IsBest(best: Agent, agents: seq<Agent>, t: Ticket, now: int) {
    && best in agents && CanTake(best, t)
    && forall a :: a in agents && CanTake(a, t) ==> a == best || Better(best, a, now)
  }

  /** The selection loop returns the eligible agent that is lexicographically best. */
  method Pick(agents: seq<Agent>, t: Ticket, now: int, priorityWeight: real) returns (picked: Option<Agent>)
    requires forall a :: a in agents ==> InRange(a)
    requires DistinctIds(agents)
    ensures picked.None? <==> forall a :: a in agents ==> !CanTake(a, t)
    ensures picked.Some? ==> IsBest(picked.value, agents, t, now)
  {
    picked := None;
    var bestScore := 0.0;
    for i := 0 to |agents|
      invariant picked.None? ==> forall a :: a in agents[..i] ==> !CanTake(a, t)
      invariant picked.Some? ==> bestScore == ScoreOf(picked.value, t, now, priorityWeight)
      invariant picked.Some? ==> IsBest(picked.value, agents[..i], t, now)
    {
      var a := agents[i];
      assert agents[..i + 1] == agents[..i] + [a];
      var ok := Eligible(a, t);
      if !ok {
        continue;
      }
      var s := ScoreOf(a, t, now, priorityWeight);
      ghost var before := picked;
      if before.Some? {
        assert before.value in agents;
        ScoreIsLexicographic(a, before.value, t, now, priorityWeight);
        ScoreIsLexicographic(before.value, a, t, now, priorityWeight);
        OneIsBetter(agents, a, before.value, now);
      }
      if picked.None? || s > bestScore {
        picked, bestScore := Some(a), s;
      } else if s == bestScore && a.id < picked.value.id {
        picked := Some(a);
      }
    }
    assert agents[..|agents|] == agents;
  }

  predicate DistinctIds(agents: seq<Agent>) {
    forall i, j :: 0 <= i < j < |agents| ==> agents[i].id != agents[j].id
  }

  lemma OneIsBetter(agents: seq<Agent>, a: Agent, b: Agent, now: int)
    requires DistinctIds(agents) && a in agents && b in agents
    ensures a == b || Better(a, b, now) || Better(b, a, now)
  {
  }

  /** The outcome depends only on which agents are offered: any two listings of the same agents, for any
      priorities and any priority weights, leave no choice about the agent that is best. */
  lemma BestIsUnique(xs: seq<Agent>, ys: seq<Agent>, x: Agent, y: Agent, t: Ticket, u: Ticket, now: int)
    requires (forall a :: a in xs <==> a in ys) && t.requiredSkills == u.requiredSkills
    requires IsBest(x, xs, t, now) && IsBest(y, ys, u, now)
    ensures x == y
  {
  }
}
