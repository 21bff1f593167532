/** The inbox query: internal/ticket/repo.go (List).

    The query filters, orders and cuts to the page first and joins messages and tags only for the rows of the page.
    Slugs are numbered in collation order. `hits` stands for the messages whose lower-cased body is LIKE the pattern
    made from the search text. One tenant. */
module TicketList {
  import opened Wrappers
  import opened TicketState
  import opened Ordering

  datatype Ticket = Ticket(id: nat, convo: nat, state: State, priority: int, assignee: Option<nat>, createdAt: int)

  datatype Convo = Convo(channel: string, customer: nat)

  datatype Message = Message(id: nat, ticket: nat, body: string, createdAt: int)

  datatype Tag = Tag(id: nat, slug: nat, name: string, color: Option<string>)

  datatype Link = Link(ticket: nat, tag: nat)

  datatype Db = Db(tickets: seq<Ticket>, convos: map<nat, Convo>, customers: map<nat, Option<string>>,
                   messages: seq<Message>, tags: map<nat, Tag>, links: seq<Link>)

  datatype AssignedFilter = Anyone | Mine | Unassigned

  datatype Params = Params(states: seq<State>, channels: seq<string>, agent: Option<nat>, assignment: AssignedFilter,
                           hits: Option<set<nat>>, slugs: seq<nat>, limit: int)

  datatype Item = Item(ticket: Ticket, channel: string, customerName: string, lastBody: string, messageCount: nat,
                       tags: seq<Tag>)

  /** Foreign keys, primary keys and the unique slug, as the schema enforces them. */
  ghost predicate WellFormed(db: Db) {
    && (forall k :: k in db.convos ==> db.convos[k].customer in db.customers)
    && (forall l :: l in db.links ==> l.tag in db.tags)
    && (forall i, j :: 0 <= i < j < |db.links| ==> db.links[i] != db.links[j])
    && (forall k :: k in db.tags ==> db.tags[k].id == k)
    && (forall a, b :: a in db.tags && b in db.tags && db.tags[a].slug == db.tags[b].slug ==> a == b)
  }

  // ---------------------------------------------------------------- stage one: filter, order, cut

  function Limit(limit: int): nat {
    if limit <= 0 || limit > 200 then 50 else limit
  }

  function States(states: seq<State>): seq<State> {
    if |states| == 0 then [New, Open, Pending, OnHold, Reopened] else states
  }

  predicate AssignmentMatches(t: Ticket, p: Params) {
    match p.assignment
    case Anyone => true
    case Mine => t.assignee.Some? && t.assignee == p.agent
    case Unassigned => t.assignee.None?
  }

  predicate HasHit(db: Db, t: Ticket, hits: set<nat>) {
    exists m :: m in db.messages && m.ticket == t.id && m.id in hits
  }

  predicate HasSlug(db: Db, t: Ticket, slugs: seq<nat>) {
    exists l :: l in db.links && l.ticket == t.id && l.tag in db.tags && db.tags[l.tag].slug in slugs
  }

  predicate Matches(db: Db, p: Params, t: Ticket) {
    && t.convo in db.convos
    && t.state in States(p.states)
    && (|p.channels| == 0 || db.convos[t.convo].channel in p.channels)
    && AssignmentMatches(t, p)
    && (p.hits.None? || HasHit(db, t, p.hits.value))
    && (|p.slugs| == 0 || HasSlug(db, t, p.slugs))
  }

  function Passes(db: Db, p: Params): Ticket -> bool {
    (t: Ticket) => Matches(db, p, t)
  }

  function Matching(db: Db, p: Params): seq<Ticket> {
    Filter(Passes(db, p), db.tickets, |db.tickets|)
  }

  function TicketKey(t: Ticket): Key {
    Key(t.priority, t.createdAt)
  }

  // ---------------------------------------------------------------- stage two: the joins, for one ticket by itself

  /** The latest message of a ticket among the first n. */
  function Latest(messages: seq<Message>, n: nat, ticket: nat): Option<Message>
    requires n <= |messages|
  {
    if n == 0 then None
    else
      var m, before := messages[n - 1], Latest(messages, n - 1, ticket);
      if m.ticket == ticket && (before.None? || before.value.createdAt <= m.createdAt) then Some(m) else before
  }

  function MessageCount(messages: seq<Message>, n: nat, ticket: nat): nat
    requires n <= |messages|
  {
    if n == 0 then 0 else MessageCount(messages, n - 1, ticket) + (if messages[n - 1].ticket == ticket then 1 else 0)
  }

  function InsertBySlug(tags: seq<Tag>, tag: Tag): seq<Tag> {
    if |tags| == 0 then [tag]
    else if tag.slug <= tags[0].slug then [tag] + tags
    else [tags[0]] + InsertBySlug(tags[1..], tag)
  }

  /** The tags of one ticket among the first n links, in slug order. */
  function TagsOf(db: Db, n: nat, ticket: nat): seq<Tag>
    requires n <= |db.links|
  {
    if n == 0 then []
    else
      var l, before := db.links[n - 1], TagsOf(db, n - 1, ticket);
      if l.ticket == ticket && l.tag in db.tags then InsertBySlug(before, db.tags[l.tag]) else before
  }

  function Coalesced(text: Option<string>): string {
    if text.Some? then text.value else ""
  }

  function Row(db: Db, t: Ticket, tags: seq<Tag>): Item {
    var last := Latest(db.messages, |db.messages|, t.id);
    var convo := if t.convo in db.convos then db.convos[t.convo] else Convo("", 0);
    Item(t, convo.channel, if convo.customer in db.customers then Coalesced(db.customers[convo.customer]) else "",
         if last.Some? then last.value.body else "", MessageCount(db.messages, |db.messages|, t.id), tags)
  }

  /** The full row of a ticket, joined on its own. */
  function Joined(db: Db): Ticket -> Item {
    (t: Ticket) => Row(db, t, TagsOf(db, |db.links|, t.id))
  }

  function ItemKey(item: Item): Key {
    TicketKey(item.ticket)
  }

  // ---------------------------------------------------------------- the fast form

  function TagsIn(rollup: map<nat, seq<Tag>>, ticket: nat): seq<Tag> {
    if ticket in rollup then rollup[ticket] else []
  }

  /** One grouped pass over the links of the visible tickets. */
  method TagRollup(db: Db, visible: set<nat>) returns (rollup: map<nat, seq<Tag>>)
    ensures rollup.Keys <= visible
    ensures forall t :: t in visible ==> TagsIn(rollup, t) == TagsOf(db, |db.links|, t)
  {
    rollup := map[];
    var n := 0;
    while n < |db.links|
      invariant n <= |db.links| && rollup.Keys <= visible
      invariant forall t :: t in visible ==> TagsIn(rollup, t) == TagsOf(db, n, t)
    {
      var l := db.links[n];
      if l.ticket in visible && l.tag in db.tags {
        rollup := rollup[l.ticket := InsertBySlug(TagsIn(rollup, l.ticket), db.tags[l.tag])];
      }
      n := n + 1;
    }
  }

  /** What a page shows of a ticket: its conversation's channel and customer, how many messages it has, the body of one
      that no other comes after (of equally new ones the later row), and the tags linked to it, in slug order. */
  ghost predicate Shows(db: Db, t: Ticket, item: Item) {
    && item.ticket == t
    && (t.convo in db.convos ==>
          && item.channel == db.convos[t.convo].channel
          && (db.convos[t.convo].customer in db.customers ==>
                item.customerName == match db.customers[db.convos[t.convo].customer] case None => "" case Some(x) => x))
    && item.messageCount == |set k | 0 <= k < |db.messages| && db.messages[k].ticket == t.id|
    && (item.messageCount == 0 ==> item.lastBody == "")
    && (item.messageCount > 0 ==> exists k :: NewestOf(db, t.id, k) && item.lastBody == db.messages[k].body)
    && (forall x :: x in item.tags
          <==> exists l :: l in db.links && l.ticket == t.id && l.tag in db.tags && x == db.tags[l.tag])
    && (WellFormed(db) ==> BySlug(item.tags))
  }

  predicate NewestOf(db: Db, ticket: nat, k: int) {
    && 0 <= k < |db.messages| && db.messages[k].ticket == ticket
    && forall j :: 0 <= j < |db.messages| && db.messages[j].ticket == ticket ==>
         db.messages[j].createdAt < db.messages[k].createdAt
         || (db.messages[j].createdAt == db.messages[k].createdAt && j <= k)
  }

  function PlacesOf(messages: seq<Message>, n: nat, ticket: nat): set<int>
    requires n <= |messages|
  {
    set k | 0 <= k < n && messages[k].ticket == ticket
  }

  lemma {:induction false} CountIsPlaces(messages: seq<Message>, n: nat, ticket: nat)
    requires n <= |messages|
    ensures MessageCount(messages, n, ticket) == |PlacesOf(messages, n, ticket)|
    decreases n
  {
    if n > 0 {
      CountIsPlaces(messages, n - 1, ticket);
      assert PlacesOf(messages, n, ticket)
             == PlacesOf(messages, n - 1, ticket) + if messages[n - 1].ticket == ticket then {n - 1} else {};
    }
  }

  /** Where the latest message is found. */
  lemma {:induction false} LatestIsNewest(messages: seq<Message>, n: nat, ticket: nat) returns (k: int)
    requires n <= |messages|
    ensures Latest(messages, n, ticket).None? ==> |PlacesOf(messages, n, ticket)| == 0
    ensures Latest(messages, n, ticket).Some? ==>
              && 0 <= k < n && messages[k].ticket == ticket && messages[k] == Latest(messages, n, ticket).value
              && forall j :: 0 <= j < n && messages[j].ticket == ticket ==>
                   messages[j].createdAt < messages[k].createdAt
                   || (messages[j].createdAt == messages[k].createdAt && j <= k)
    decreases n
  {
    k := 0;
    if n > 0 {
      k := LatestIsNewest(messages, n - 1, ticket);
      if Latest(messages, n - 1, ticket).None? {
        assert forall j :: 0 <= j < n - 1 ==> (messages[j].ticket == ticket ==> j in PlacesOf(messages, n - 1, ticket));
      }
      if messages[n - 1].ticket == ticket {
        if Latest(messages, n, ticket) == Some(messages[n - 1]) && (Latest(messages, n - 1, ticket).None?
           || messages[k].createdAt <= messages[n - 1].createdAt) {
          k := n - 1;
        }
      } else {
        assert PlacesOf(messages, n, ticket) == PlacesOf(messages, n - 1, ticket);
      }
    }
  }

  lemma {:induction false} InsertedHas(tags: seq<Tag>, tag: Tag)
    ensures forall x :: x in InsertBySlug(tags, tag) <==> x in tags || x == tag
    decreases |tags|
  {
    if |tags| > 0 {
      InsertedHas(tags[1..], tag);
      assert tags == [tags[0]] + tags[1..];
    }
  }

  lemma {:induction false} TagsAreLinked(db: Db, n: nat, ticket: nat)
    requires n <= |db.links|
    ensures forall x :: x in TagsOf(db, n, ticket)
              <==> exists l :: l in db.links[..n] && l.ticket == ticket && l.tag in db.tags && x == db.tags[l.tag]
    decreases n
  {
    if n > 0 {
      TagsAreLinked(db, n - 1, ticket);
      var l := db.links[n - 1];
      assert db.links[..n] == db.links[..n - 1] + [l];
      if l.tag in db.tags {
        InsertedHas(TagsOf(db, n - 1, ticket), db.tags[l.tag]);
      }
    }
  }

  lemma JoinedShows(db: Db, t: Ticket)
    ensures Shows(db, t, Joined(db)(t))
  {
    var n := |db.messages|;
    var k := LatestIsNewest(db.messages, n, t.id);
    CountIsPlaces(db.messages, n, t.id);
    assert (set k | 0 <= k < |db.messages| && db.messages[k].ticket == t.id) == PlacesOf(db.messages, n, t.id);
    if Latest(db.messages, n, t.id).Some? {
      assert k in PlacesOf(db.messages, n, t.id) && NewestOf(db, t.id, k);
    }
    TagsAreLinked(db, |db.links|, t.id);
    assert db.links[..|db.links|] == db.links;
    if WellFormed(db) {
      TagsAreExactlyLinks(db, |db.links|, t.id);
    }
  }

  function Ids(ts: seq<Ticket>): set<nat> {
    set t | t in ts :: t.id
  }

  /** `ordered` is the order in which the database delivers the matching tickets. */
  method List(db: Db, p: Params, ordered: seq<Ticket>) returns (page: seq<Item>)
    requires IsOrdering(TicketKey, ordered, Matching(db, p))
    ensures page == Map(Joined(db), Take(ordered, Limit(p.limit)))
    ensures var cut := if 1 <= p.limit <= 200 then p.limit else 50;
            |page| == if |ordered| < cut then |ordered| else cut
    ensures forall i :: 0 <= i < |page| ==> Shows(db, ordered[i], page[i])
  {
    var limit := p.limit;
    if limit <= 0 || limit > 200 {
      limit := 50;
    }
    var visible := Take(ordered, limit);
    var rollup := TagRollup(db, Ids(visible));
    forall t | t in visible ensures TagsIn(rollup, t.id) == TagsOf(db, |db.links|, t.id) {
      assert t.id in Ids(visible);
    }
    page := JoinRows(db, visible, rollup);
    forall i | 0 <= i < |page| ensures Shows(db, ordered[i], page[i]) {
      assert page[i] == Joined(db)(visible[i]) && visible[i] == ordered[i];
      JoinedShows(db, ordered[i]);
    }
  }

  method JoinRows(db: Db, visible: seq<Ticket>, rollup: map<nat, seq<Tag>>) returns (page: seq<Item>)
    requires forall t :: t in visible ==> TagsIn(rollup, t.id) == TagsOf(db, |db.links|, t.id)
    ensures page == Map(Joined(db), visible)
  {
    page := [];
    var i := 0;
    while i < |visible|
      invariant i <= |visible| && page == Map(Joined(db), visible[..i])
    {
      MapAppend(Joined(db), visible, i);
      page := page + [Row(db, visible[i], TagsIn(rollup, visible[i].id))];
      i := i + 1;
    }
    assert visible[..i] == visible;
  }

  // ---------------------------------------------------------------- main results

  /** The filters spelled out. Without states the five that are not done; without channels, slugs or text, no such
      filter; "mine" is the agent's own, "unassigned" is nobody's. */
  ghost predicate LetThrough(db: Db, p: Params, t: Ticket) {
    && t.convo in db.convos
    && (if p.states == [] then t.state in {New, Open, Pending, OnHold, Reopened} else t.state in p.states)
    && (p.channels != [] ==> db.convos[t.convo].channel in p.channels)
    && (p.assignment == Mine ==> t.assignee.Some? && t.assignee == p.agent)
    && (p.assignment == Unassigned ==> t.assignee.None?)
    && (p.hits.Some? ==> exists m :: m in db.messages && m.ticket == t.id && m.id in p.hits.value)
    && (p.slugs != [] ==>
          exists l :: l in db.links && l.ticket == t.id && l.tag in db.tags && db.tags[l.tag].slug in p.slugs)
  }

  lemma PassesIfLetThrough(db: Db, p: Params, t: Ticket)
    ensures Passes(db, p)(t) <==> LetThrough(db, p, t)
  {
  }

  /** The rows considered are exactly the tickets the filters let through. */
  lemma MatchingIsFilter(db: Db, p: Params, t: Ticket)
    ensures multiset(Matching(db, p))[t] == if LetThrough(db, p, t) then multiset(db.tickets)[t] else 0
  {
    PassesIfLetThrough(db, p, t);
    FilterCounts(Passes(db, p), db.tickets, |db.tickets|, t);
    assert db.tickets[..|db.tickets|] == db.tickets;
  }

  lemma JoinKeepsOrder(db: Db, ts: seq<Ticket>)
    requires Sorted(TicketKey, ts)
    ensures Sorted(ItemKey, Map(Joined(db), ts))
  {
  }

  lemma JoinKeepsKeys(db: Db, ts: seq<Ticket>)
    requires KeysTell(TicketKey, ts)
    ensures KeysTell(ItemKey, Map(Joined(db), ts))
  {
  }

  lemma OrderedKeysTell(ordered: seq<Ticket>, rows: seq<Ticket>)
    requires multiset(ordered) == multiset(rows) && KeysTell(TicketKey, rows)
    ensures KeysTell(TicketKey, ordered)
  {
    MembersAgree(ordered, rows);
    forall i, j | 0 <= i < |ordered| && 0 <= j < |ordered| && TicketKey(ordered[i]) == TicketKey(ordered[j])
      ensures ordered[i] == ordered[j]
    {
      assert ordered[i] in rows && ordered[j] in rows;
    }
  }

  /** The two-stage query against the plain one that joins every matching ticket, orders, and cuts last. Whatever the
      database does with ties in its three sorts, both pages show the same sequence of priorities and creation times;
      if no two matching tickets share both, the pages are the same, row by row. */
  lemma TwoStagesAreOne(db: Db, p: Params, ordered: seq<Ticket>, page: seq<Item>, plain: seq<Item>)
    requires IsOrdering(TicketKey, ordered, Matching(db, p))
    requires IsOrdering(ItemKey, page, Map(Joined(db), Take(ordered, Limit(p.limit))))
    requires IsOrdering(ItemKey, plain, Map(Joined(db), Matching(db, p)))
    ensures Map(ItemKey, page) == Map(ItemKey, Take(plain, Limit(p.limit)))
    ensures KeysTell(TicketKey, Matching(db, p)) ==> page == Take(plain, Limit(p.limit))
  {
    var rows, limit := Matching(db, p), Limit(p.limit);
    MapRespectsPermutation(Joined(db), ordered, rows);
    JoinKeepsOrder(db, ordered);
    MapTake(Joined(db), ordered, limit);
    if KeysTell(TicketKey, rows) {
      OrderedKeysTell(ordered, rows);
      JoinKeepsKeys(db, ordered);
    }
    CutsAgree(ItemKey, Map(Joined(db), rows), Map(Joined(db), ordered), page, plain, limit);
  }

  ghost predicate BySlug(tags: seq<Tag>) {
    forall i, j :: 0 <= i < j < |tags| ==> tags[i].slug < tags[j].slug
  }

  lemma {:induction false} InsertedBySlug(tags: seq<Tag>, tag: Tag)
    requires BySlug(tags) && forall k :: 0 <= k < |tags| ==> tags[k].slug != tag.slug
    ensures BySlug(InsertBySlug(tags, tag))
    ensures forall x :: x in InsertBySlug(tags, tag) <==> x in tags || x == tag
    decreases |tags|
  {
    if |tags| > 0 && tag.slug > tags[0].slug {
      InsertedBySlug(tags[1..], tag);
      assert tags == [tags[0]] + tags[1..];
      var rest := InsertBySlug(tags[1..], tag);
      forall k | 0 <= k < |rest| ensures tags[0].slug < rest[k].slug {
        assert rest[k] in rest;
      }
    }
  }

  predicate Linked(db: Db, n: nat, ticket: nat, x: Tag)
    requires n <= |db.links|
  {
    x.id in db.tags && db.tags[x.id] == x && Link(ticket, x.id) in db.links[..n]
  }

  lemma NextLink(db: Db, n: nat, ticket: nat, x: Tag)
    requires WellFormed(db) && 0 < n <= |db.links|
    ensures var l := db.links[n - 1];
            && l.tag in db.tags
            && (Linked(db, n, ticket, x) <==>
                Linked(db, n - 1, ticket, x) || (l.ticket == ticket && x == db.tags[l.tag]))
            && (Linked(db, n - 1, ticket, x) && l.ticket == ticket ==> x.slug != db.tags[l.tag].slug)
  {
    var l := db.links[n - 1];
    assert db.links[..n] == db.links[..n - 1] + [l];
    assert l in db.links && l !in db.links[..n - 1];
  }

  /** A row's tags are exactly the tags linked to its ticket, each once, in slug order. */
  lemma {:induction false} TagsAreExactlyLinks(db: Db, n: nat, ticket: nat)
    requires WellFormed(db) && n <= |db.links|
    ensures BySlug(TagsOf(db, n, ticket))
    ensures forall x :: x in TagsOf(db, n, ticket) <==> Linked(db, n, ticket, x)
    decreases n
  {
    if n > 0 {
      var l, before := db.links[n - 1], TagsOf(db, n - 1, ticket);
      TagsAreExactlyLinks(db, n - 1, ticket);
      forall x
        ensures Linked(db, n, ticket, x) <==>
                || Linked(db, n - 1, ticket, x)
                || (l.ticket == ticket && l.tag in db.tags && x == db.tags[l.tag])
      {
        NextLink(db, n, ticket, x);
      }
      if l.ticket == ticket {
        forall k | 0 <= k < |before| ensures l.tag in db.tags && before[k].slug != db.tags[l.tag].slug {
          assert before[k] in before;
          NextLink(db, n, ticket, before[k]);
        }
        assert l in db.links;
        InsertedBySlug(before, db.tags[l.tag]);
      }
    }
  }

  /** The cut never hides a more urgent ticket behind a less urgent one: everything left out sorts after the page. */
  lemma PageIsMostUrgent(db: Db, p: Params, ordered: seq<Ticket>, t: Ticket, k: nat)
    requires IsOrdering(TicketKey, ordered, Matching(db, p))
    requires t in Matching(db, p) && t !in Take(ordered, Limit(p.limit))
    requires k < |Take(ordered, Limit(p.limit))|
    ensures var shown := Take(ordered, Limit(p.limit))[k];
            shown.priority < t.priority || (shown.priority == t.priority && shown.createdAt <= t.createdAt)
    ensures |Take(ordered, Limit(p.limit))| == Limit(p.limit)
  {
    var page := Take(ordered, Limit(p.limit));
    MembersAgree(ordered, Matching(db, p));
    assert t in ordered;
    var j :| 0 <= j < |ordered| && ordered[j] == t;
    assert forall m :: 0 <= m < |page| ==> page[m] == ordered[m] && page[m] in page;
    assert j >= |page|;
  }
}
