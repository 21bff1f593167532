/** The work list of one re-evaluation sweep: internal/routing/queue.go. */
module Queue {
  import opened RoutingState

  datatype TicketRef = TicketRef(id: nat, reason: Reason)

  function Ids(refs: seq<TicketRef>): set<nat> {
    set i | 0 <= i < |refs| :: refs[i].id
  }

  /** Keeps the first reference to each ticket. */
  function FirstOccurrences(refs: seq<TicketRef>): seq<TicketRef> {
    if refs == [] then []
    else
      var kept, r := FirstOccurrences(refs[..|refs| - 1]), refs[|refs| - 1];
      if r.id in Ids(kept) then kept else kept + [r]
  }

  method WorkList(unassigned: seq<TicketRef>, offline: seq<TicketRef>) returns (all: seq<TicketRef>)
    ensures all == FirstOccurrences(unassigned + offline)
  {
    var refs := unassigned + offline;
    var seen: set<nat> := {};
    all := [];
    for i := 0 to |refs|
      invariant all == FirstOccurrences(refs[..i])
      invariant seen == Ids(all)
    {
      assert refs[..i + 1][..i] == refs[..i];
      if refs[i].id in seen {
        continue;
      }
      assert Ids(all + [refs[i]]) == Ids(all) + {refs[i].id} by {
        IdsAppended(all, refs[i]);
      }
      seen := seen + {refs[i].id};
      all := all + [refs[i]];
    }
    assert refs[..|refs|] == refs;
  }

  lemma IdsAppended(refs: seq<TicketRef>, r: TicketRef)
    ensures Ids(refs + [r]) == Ids(refs) + {r.id}
  {
    forall x | x in Ids(refs) ensures x in Ids(refs + [r]) {
      var i :| 0 <= i < |refs| && refs[i].id == x;
      assert (refs + [r])[i].id == x;
    }
    assert (refs + [r])[|refs|].id == r.id;
  }

  /** r is in the list, and the first there for its ticket. */
  ghost predicate IsFirst(refs: seq<TicketRef>, r: TicketRef) {
    exists k :: 0 <= k < |refs| && refs[k] == r && forall m :: 0 <= m < k ==> refs[m].id != r.id
  }

  lemma StaysFirst(refs: seq<TicketRef>, r: TicketRef, x: TicketRef)
    requires IsFirst(refs, x)
    ensures IsFirst(refs + [r], x)
  {
    var k :| 0 <= k < |refs| && refs[k] == x && forall m :: 0 <= m < k ==> refs[m].id != x.id;
    assert (refs + [r])[k] == x;
  }

  lemma NewIsFirst(refs: seq<TicketRef>, r: TicketRef)
    requires r.id !in Ids(refs)
    ensures IsFirst(refs + [r], r)
  {
    assert (refs + [r])[|refs|] == r;
    forall m | 0 <= m < |refs| ensures (refs + [r])[m].id != r.id {
      assert refs[m].id in Ids(refs);
    }
  }

  /** No ticket is routed twice in a sweep, none that was scanned is lost, and a ticket found by both scans
      keeps its first reference: the unassigned scan's reason wins. */
  lemma {:induction false} SweepRoutesEachOnce(refs: seq<TicketRef>)
    ensures var all := FirstOccurrences(refs);
            && (forall i, j :: 0 <= i < j < |all| ==> all[i].id != all[j].id)
            && Ids(all) == Ids(refs)
            && (forall r :: r in all ==> IsFirst(refs, r))
    decreases |refs|
  {
    if refs != [] {
      var init, r := refs[..|refs| - 1], refs[|refs| - 1];
      var kept := FirstOccurrences(init);
      SweepRoutesEachOnce(init);
      assert refs == init + [r];
      IdsAppended(init, r);
      IdsAppended(kept, r);
      forall x | x in kept ensures IsFirst(refs, x) {
        StaysFirst(init, r, x);
      }
      if r.id !in Ids(kept) {
        NewIsFirst(init, r);
        forall i | 0 <= i < |kept| ensures kept[i].id != r.id {
          assert kept[i].id in Ids(kept);
        }
      }
    }
  }

  // ---------------------------------------------------------------- giving capacity back

  /** ReleaseOnClose: the assignee's load goes down, not below zero. Nothing marks the ticket as released. */
  function Released(s: State, ticket: nat): State {
    if ticket in s.tickets && s.tickets[ticket].assignee.Some?
    then s.(status := DropLoad(s.status, s.tickets[ticket].assignee.value)) else s
  }

  /** It is described as idempotent. A second release changes nothing if and only if there was nobody to release
      or the first one already brought the load to zero. */
  lemma ReleaseIsIdempotentIff(s: State, ticket: nat)
    ensures Released(Released(s, ticket), ticket) == Released(s, ticket) <==>
            (ticket in s.tickets && s.tickets[ticket].assignee.Some? && s.tickets[ticket].assignee.value in s.status ==>
               s.status[s.tickets[ticket].assignee.value].load <= 1)
  {
    if ticket in s.tickets && s.tickets[ticket].assignee.Some? && s.tickets[ticket].assignee.value in s.status {
      var a := s.tickets[ticket].assignee.value;
      var once, twice := Released(s, ticket), Released(Released(s, ticket), ticket);
      if s.status[a].load > 1 {
        assert twice.status[a].load == once.status[a].load - 1;
      } else {
        assert once.status[a].load == 0 && twice.status == once.status;
      }
    }
  }
}
