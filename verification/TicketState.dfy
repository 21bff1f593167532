/** The ticket state graph: internal/ticket/state.go. */
module TicketState {
  import opened Wrappers

  /** The seven legal values, and any other string a caller may pass. */
  datatype State = New | Open | Pending | OnHold | Resolved | Closed | Reopened | Unknown(text: string)

  datatype Error =
    | NotFound
    | CannotBegin
    | Database
    | InvalidState(state: State)
    | IllegalTransition(from: State, to: State)

  predicate Valid(s: State) {
    !s.Unknown?
  }

  function Edges(s: State): seq<State> {
    match s
    case New => [Open]
    case Open => [Pending, OnHold, Resolved]
    case Pending => [Open, Resolved]
    case OnHold => [Open, Resolved]
    case Resolved => [Closed, Reopened]
    case Closed => [Reopened]
    case Reopened => [Open]
    case Unknown(_) => []
  }

  predicate CanTransition(from: State, to: State) {
    to in Edges(from)
  }

  function Transition(from: State, to: State): Option<Error> {
    if !Valid(from) then Some(InvalidState(from))
    else if !Valid(to) then Some(InvalidState(to))
    else if !CanTransition(from, to) then Some(IllegalTransition(from, to))
    else None
  }

  /** The graph, target by target. */
  predicate MayBecome(from: State, to: State) {
    match to
    case Open => from in {New, Pending, OnHold, Reopened}
    case Pending => from == Open
    case OnHold => from == Open
    case Resolved => from in {Open, Pending, OnHold}
    case Closed => from == Resolved
    case Reopened => from in {Resolved, Closed}
    case New => false
    case Unknown(_) => false
  }

  lemma EdgesByTarget(from: State, to: State)
    ensures CanTransition(from, to) <==> MayBecome(from, to)
    ensures Transition(from, to).None? <==> MayBecome(from, to)
  {
  }

  /** Done work: the states the bulk and ingress paths treat apart. */
  predicate Done(s: State) {
    s == Resolved || s == Closed
  }

  /** The write Route makes, `open` from anywhere, is an edge or a stutter except on done work. */
  lemma OpeningIsLegalIff(s: State)
    requires Valid(s)
    ensures (s == Open || CanTransition(s, Open)) <==> !Done(s)
  {
    assert Edges(Resolved) == [Closed, Reopened] && Edges(Closed) == [Reopened];
    assert Edges(New)[0] == Open && Edges(Pending)[0] == Open && Edges(OnHold)[0] == Open && Edges(Reopened)[0] == Open;
  }

  /** The write of an ingress reopening, `reopened` from anywhere: an edge on done work, a stutter once reopened. */
  lemma ReopeningIsLegalIff(s: State)
    requires Valid(s)
    ensures (s == Reopened || CanTransition(s, Reopened)) <==> Done(s) || s == Reopened
  {
    assert Edges(Resolved)[1] == Reopened && Edges(Closed)[0] == Reopened;
    assert Edges(New) == [Open] && Edges(Open) == [Pending, OnHold, Resolved];
    assert Edges(Pending) == [Open, Resolved] && Edges(OnHold) == [Open, Resolved];
  }

  lemma NoSelfEdge(s: State)
    ensures !CanTransition(s, s)
  {
  }
}
