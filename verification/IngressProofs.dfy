/** Exactly-once effect of the at-least-once ingress consumer. */
module IngressProofs {
  import opened Wrappers
  import opened TicketState
  import opened Ingress

  // ---------------------------------------------------------------- what holds in every state

  /** No message id twice per tenant. */
  ghost predicate MessagesUnique(messages: seq<Message>) {
    forall i, j :: 0 <= i < j < |messages| && messages[i].msgId.Some? ==>
      messages[i].tenant != messages[j].tenant || messages[i].msgId != messages[j].msgId
  }

  /** Each conversation has exactly one ticket. */
  ghost predicate OneTicketEach(db: Db) {
    && (forall t :: t in db.tickets ==> t.conversation in db.conversations)
    && (forall i, j :: 0 <= i < j < |db.tickets| ==> db.tickets[i].conversation != db.tickets[j].conversation)
    && (forall c :: c in db.conversations ==> exists i :: 0 <= i < |db.tickets| && db.tickets[i].conversation == c)
  }

  /** Every filed thread has its conversation, alone, with a ticket; ids are below the counter. */
  ghost predicate Filed(db: Db) {
    && (forall k :: k in db.threads ==>
          db.threads[k] in db.conversations && Latest(db.tickets, k.0, db.threads[k]).Some?)
    && (forall k, l :: k in db.threads && l in db.threads && k != l ==> db.threads[k] != db.threads[l])
    && (forall c :: c in db.conversations ==> c < db.nextId)
    && (forall k :: k in db.customers ==> db.customers[k] < db.nextId)
    && (forall k, l :: k in db.customers && l in db.customers && k != l ==> db.customers[k] != db.customers[l])
  }

  ghost predicate Sound(db: Db) {
    OneTicketEach(db) && Filed(db)
  }

  ghost predicate Inv(db: Db) {
    MessagesUnique(db.messages) && Sound(db)
  }

  lemma LatestAppended(tickets: seq<TicketRow>, t: TicketRow, tenant: nat, c: nat)
    ensures Latest(tickets + [t], tenant, c)
            == if t.tenant == tenant && t.conversation == c then Some(|tickets|) else Latest(tickets, tenant, c)
  {
    assert (tickets + [t])[..|tickets|] == tickets;
  }

  lemma {:induction false} LatestUpdated(tickets: seq<TicketRow>, i: nat, t: TicketRow, tenant: nat, c: nat)
    requires i < |tickets| && t.tenant == tickets[i].tenant && t.conversation == tickets[i].conversation
    ensures Latest(tickets[i := t], tenant, c) == Latest(tickets, tenant, c)
  {
    var n := |tickets| - 1;
    if i < n {
      assert tickets[i := t][..n] == tickets[..n][i := t];
      LatestUpdated(tickets[..n], i, t, tenant, c);
    } else {
      assert tickets[i := t][..n] == tickets[..n];
    }
  }

  /** An event on a filed thread: no new rows but possibly a message; its ticket leaves the done states. */
  ghost predicate OnKnownThread(db: Db, e: Event, d: Db, ticket: nat)
    requires e.tenant.Some?
  {
    && e.thread != "" && ThreadKey(e) in db.threads
    && d.threads == db.threads && d.conversations == db.conversations
    && var i := Latest(db.tickets, e.tenant.value, db.threads[ThreadKey(e)]);
       && i.Some? && ticket == db.tickets[i.value].id
       && d.tickets == if Done(db.tickets[i.value].state)
                       then db.tickets[i.value := db.tickets[i.value].(state := Reopened)] else db.tickets
  }

  /** Otherwise: one new conversation with one new ticket. */
  ghost predicate OnNewThread(db: Db, e: Event, d: Db, ticket: nat)
    requires e.tenant.Some?
  {
    && !(e.thread != "" && ThreadKey(e) in db.threads)
    && exists c: nat :: (
         && c >= db.nextId && c !in db.conversations
         && d.conversations == db.conversations + {c}
         && d.threads == (if e.thread == "" then db.threads else db.threads[ThreadKey(e) := c])
         && d.tickets == db.tickets + [TicketRow(ticket, e.tenant.value, c, New, 3)]
         && c < d.nextId)
  }

  ghost predicate CustomersExtend(db: Db, e: Event, d: Db)
    requires e.tenant.Some?
  {
    && CustomerKey(e) in d.customers && d.customers[CustomerKey(e)] < d.nextId
    && (forall k :: k in d.customers ==> k in db.customers || k == CustomerKey(e))
    && (forall k :: k in db.customers ==> k in d.customers && d.customers[k] == db.customers[k])
    && (CustomerKey(e) !in db.customers ==> d.customers[CustomerKey(e)] >= db.nextId)
  }

  lemma CustomerStep(db: Db, e: Event)
    requires Sound(db) && e.tenant.Some?
    ensures var (d, u) := UpsertCustomer(db, e);
            && d.nextId >= db.nextId && CustomersExtend(db, e, d) && u == d.customers[CustomerKey(e)]
            && d == db.(nextId := d.nextId, customers := d.customers)
  {
  }

  lemma KnownThreadStep(db: Db, e: Event, u: nat)
    requires e.tenant.Some? && e.thread != "" && ThreadKey(e) in db.threads
    requires Latest(db.tickets, e.tenant.value, db.threads[ThreadKey(e)]).Some?
    ensures var (d, c) := UpsertConversation(db, e, u);
            var (d', t) := OpenOrReopenTicket(d, e.tenant.value, c);
            && OnKnownThread(db, e, d', t)
            && d' == db.(owner := db.owner[c := u], tickets := d'.tickets)
  {
  }

  lemma NewThreadStep(db: Db, e: Event, u: nat)
    requires e.tenant.Some? && !(e.thread != "" && ThreadKey(e) in db.threads)
    requires OneTicketEach(db) && forall c :: c in db.conversations ==> c < db.nextId
    ensures var (d, c) := UpsertConversation(db, e, u);
            var (d', t) := OpenOrReopenTicket(d, e.tenant.value, c);
            && OnNewThread(db, e, d', t)
            && d'.nextId >= db.nextId && d'.customers == db.customers && d'.messages == db.messages
            && d'.owner == db.owner[c := u] && (e.thread != "" ==> d'.threads[ThreadKey(e)] == c)
  {
    var (d, c) := UpsertConversation(db, e, u);
    assert c !in db.conversations;
    assert Latest(d.tickets, e.tenant.value, c).None?;
  }

  ghost predicate MessageAdded(db: Db, e: Event, d: Db, ticket: nat)
    requires e.tenant.Some?
  {
    d.messages == if e.msgId != "" && Seen(db.messages, e.tenant.value, e.msgId) then db.messages
                  else db.messages + [Message(e.tenant.value, ticket, e.body, NullIfEmpty(e.msgId), e.occurredAt)]
  }

  /** What handling an event writes, table by table: the message goes to the thread's ticket, the
      conversation to the writer. */
  lemma HandleShape(db: Db, e: Event) returns (ticket: nat)
    requires Sound(db) && Handled(e)
    ensures var d := Handle(db, e);
            && (OnKnownThread(db, e, d, ticket) || OnNewThread(db, e, d, ticket))
            && d.nextId >= db.nextId && CustomersExtend(db, e, d) && MessageAdded(db, e, d, ticket)
            && (e.thread != "" ==> ThreadKey(e) in d.threads
                                   && d.owner == db.owner[d.threads[ThreadKey(e)] := d.customers[CustomerKey(e)]])
  {
    CustomerStep(db, e);
    var (d1, u) := UpsertCustomer(db, e);
    var (d2, c) := UpsertConversation(d1, e, u);
    var (d3, t) := OpenOrReopenTicket(d2, e.tenant.value, c);
    ticket := t;
    if e.thread != "" && ThreadKey(e) in db.threads {
      KnownThreadStep(d1, e, u);
      assert OnKnownThread(db, e, d3, ticket);
    } else {
      NewThreadStep(d1, e, u);
      assert OnNewThread(db, e, d3, ticket);
    }
    MessageStep(d3, e, ticket);
    assert Handle(db, e) == d3.(messages := Handle(db, e).messages);
  }

  lemma MessageStep(db: Db, e: Event, ticket: nat)
    requires e.tenant.Some?
    ensures MessageAdded(db, e, AppendInboundMessage(db, e.tenant.value, ticket, e), ticket)
  {
  }

  lemma MessagesStayUnique(messages: seq<Message>, m: Message)
    requires MessagesUnique(messages) && (m.msgId.Some? ==> !Seen(messages, m.tenant, m.msgId.value))
    ensures MessagesUnique(messages + [m])
  {
    var after := messages + [m];
    forall i, j | 0 <= i < j < |after| && after[i].msgId.Some?
      ensures after[i].tenant != after[j].tenant || after[i].msgId != after[j].msgId
    {
      if j == |messages| {
        assert messages[i] in messages;
      }
    }
  }

  lemma KnownThreadKeepsSingle(db: Db, e: Event, d: Db, ticket: nat)
    requires OneTicketEach(db) && e.tenant.Some? && OnKnownThread(db, e, d, ticket)
    ensures OneTicketEach(d)
  {
    forall c | c in d.conversations ensures exists i :: 0 <= i < |d.tickets| && d.tickets[i].conversation == c {
      var i :| 0 <= i < |db.tickets| && db.tickets[i].conversation == c;
      assert d.tickets[i].conversation == c;
    }
  }

  lemma NewThreadKeepsSingle(db: Db, e: Event, d: Db, ticket: nat)
    requires OneTicketEach(db) && e.tenant.Some? && OnNewThread(db, e, d, ticket)
    ensures OneTicketEach(d)
  {
    var n := |db.tickets|;
    forall c | c in d.conversations ensures exists i :: 0 <= i < |d.tickets| && d.tickets[i].conversation == c {
      if c in db.conversations {
        var i :| 0 <= i < n && db.tickets[i].conversation == c;
        assert d.tickets[i].conversation == c;
      } else {
        assert d.tickets[n].conversation == c;
      }
    }
    forall i | 0 <= i < n ensures d.tickets[i].conversation != d.tickets[n].conversation {
      assert db.tickets[i] in db.tickets;
    }
  }

  lemma StaysFiled(db: Db, e: Event, d: Db, ticket: nat)
    requires Filed(db) && e.tenant.Some? && d.nextId >= db.nextId && CustomersExtend(db, e, d)
    requires OnKnownThread(db, e, d, ticket) || OnNewThread(db, e, d, ticket)
    ensures Filed(d)
  {
    forall k | k in d.threads ensures Latest(d.tickets, k.0, d.threads[k]).Some? {
      if OnKnownThread(db, e, d, ticket) {
        var i := Latest(db.tickets, e.tenant.value, db.threads[ThreadKey(e)]).value;
        LatestUpdated(db.tickets, i, db.tickets[i].(state := Reopened), k.0, d.threads[k]);
      } else {
        LatestAppended(db.tickets, d.tickets[|db.tickets|], k.0, d.threads[k]);
      }
    }
  }

  lemma HandleKeepsSound(db: Db, e: Event)
    requires Sound(db)
    ensures Sound(Handle(db, e))
  {
    if Handled(e) {
      var ticket := HandleShape(db, e);
      var d := Handle(db, e);
      StaysFiled(db, e, d, ticket);
      if OnKnownThread(db, e, d, ticket) {
        KnownThreadKeepsSingle(db, e, d, ticket);
      } else {
        NewThreadKeepsSingle(db, e, d, ticket);
      }
    }
  }

  lemma HandleKeepsInv(db: Db, e: Event)
    requires Inv(db)
    ensures Inv(Handle(db, e))
  {
    HandleKeepsSound(db, e);
    if Handled(e) {
      var ticket := HandleShape(db, e);
      var d := Handle(db, e);
      if !(e.msgId != "" && Seen(db.messages, e.tenant.value, e.msgId)) {
        MessagesStayUnique(db.messages, d.messages[|db.messages|]);
      }
    }
  }

  function Run(events: seq<Event>): Db {
    if events == [] then EMPTY else Handle(Run(events[..|events| - 1]), events[|events| - 1])
  }

  /** From an empty database, whatever is delivered however often: no tenant has a platform message id
      twice, and every conversation has exactly one ticket. */
  lemma {:induction false} NoDuplicateRows(events: seq<Event>)
    ensures MessagesUnique(Run(events).messages) && OneTicketEach(Run(events))
    ensures Inv(Run(events))
    decreases |events|
  {
    if events != [] {
      NoDuplicateRows(events[..|events| - 1]);
      HandleKeepsInv(Run(events[..|events| - 1]), events[|events| - 1]);
    }
  }

  // ---------------------------------------------------------------- a redelivery

  /** Everything but conversations.customer_id. */
  function Core(db: Db): Db {
    db.(owner := map[])
  }

  /** The database shows that e has been handled before. */
  ghost predicate Recorded(db: Db, e: Event) {
    && Handled(e) && CustomerKey(e) in db.customers
    && (e.thread != "" ==> ThreadKey(e) in db.threads)
    && (e.thread != "" ==> Latest(db.tickets, e.tenant.value, db.threads[ThreadKey(e)]).Some?)
    && (e.msgId != "" ==> Seen(db.messages, e.tenant.value, e.msgId))
  }

  predicate Keyed(e: Event) {
    e.thread != "" && e.msgId != ""
  }

  /** The ticket a keyed, recorded event belongs to is resolved or closed. */
  ghost predicate TicketDone(db: Db, e: Event)
    requires Recorded(db, e) && Keyed(e)
  {
    Done(db.tickets[Latest(db.tickets, e.tenant.value, db.threads[ThreadKey(e)]).value].state)
  }

  /** Handling an event again changes nothing but the conversation's customer, if and only if it has a
      platform message id and a conversation key and its ticket has not been resolved or closed since:
      a late redelivery reopens finished work. */
  lemma RedeliveryIsAbsorbedIff(db: Db, e: Event)
    requires Recorded(db, e)
    ensures Core(Handle(db, e)) == Core(db) <==> Keyed(e) && !TicketDone(db, e)
  {
    var (d1, customer) := UpsertCustomer(db, e);
    var (d2, c) := UpsertConversation(d1, e, customer);
    var (d3, ticket) := OpenOrReopenTicket(d2, e.tenant.value, c);
    var d := Handle(db, e);
    assert d1 == db;
    if e.thread == "" {
      assert d.nextId > db.nextId;
    } else if e.msgId == "" {
      assert |d.messages| == |db.messages| + 1;
    } else if TicketDone(db, e) {
      var i := Latest(db.tickets, e.tenant.value, c).value;
      assert d.tickets[i].state == Reopened != db.tickets[i].state;
    }
  }

  /** The ticket an event opened, resolved by an agent. */
  function ResolvedAfter(e: Event): Db {
    var db := Handle(EMPTY, e);
    if |db.tickets| > 0 then db.(tickets := db.tickets[0 := db.tickets[0].(state := Resolved)]) else db
  }

  /** It happens: any event with message id and thread, handled once, its ticket resolved, delivered again. */
  lemma LateRedeliveryReopens(e: Event)
    requires Handled(e) && Keyed(e)
    ensures var db, again := ResolvedAfter(e), Handle(ResolvedAfter(e), e);
            && Recorded(db, e) && TicketDone(db, e)
            && |db.tickets| == |again.tickets| == 1
            && db.tickets[0].state == Resolved && again.tickets[0].state == Reopened && Core(again) != Core(db)
  {
    var db := Handle(EMPTY, e);
    assert |db.tickets| == 1 && |db.messages| == 1 && db.messages[0] in db.messages;
    var done := ResolvedAfter(e);
    assert done.tickets == [TicketRow(db.tickets[0].id, e.tenant.value, db.tickets[0].conversation, Resolved, 3)];
    assert Latest(done.tickets, e.tenant.value, done.threads[ThreadKey(e)]) == Some(0);
    RedeliveryIsAbsorbedIff(done, e);
  }

  /** With the conversation still under the same customer, the absorbed redelivery changes nothing at all. */
  lemma AbsorbedOwner(db: Db, e: Event)
    requires Recorded(db, e) && Keyed(e) && !TicketDone(db, e)
    ensures Handle(db, e) == db.(owner := db.owner[db.threads[ThreadKey(e)] := db.customers[CustomerKey(e)]])
  {
  }

  // ---------------------------------------------------------------- exactly once over runs

  ghost predicate Absorbs(db: Db, e: Event) {
    Handled(e) ==> Keyed(e) && Recorded(db, e) && !TicketDone(db, e)
  }

  lemma SeenGrows(db: Db, e: Event, d: Db, ticket: nat, tenant: nat, msgId: string)
    requires e.tenant.Some? && MessageAdded(db, e, d, ticket)
    requires Seen(db.messages, tenant, msgId) || (tenant == e.tenant.value && msgId == e.msgId && msgId != "")
    ensures Seen(d.messages, tenant, msgId)
  {
    if d.messages != db.messages {
      assert d.messages[|db.messages|] in d.messages;
      assert forall m :: m in db.messages ==> m in d.messages;
    }
  }

  /** After a write on e's thread the thread is filed and its newest ticket is not done. */
  lemma WrittenThreadIsLive(db: Db, e: Event, d: Db, ticket: nat)
    requires e.tenant.Some? && e.thread != "" && (OnKnownThread(db, e, d, ticket) || OnNewThread(db, e, d, ticket))
    ensures ThreadKey(e) in d.threads
    ensures var i := Latest(d.tickets, e.tenant.value, d.threads[ThreadKey(e)]);
            i.Some? && !Done(d.tickets[i.value].state)
  {
    if OnKnownThread(db, e, d, ticket) {
      var i := Latest(db.tickets, e.tenant.value, db.threads[ThreadKey(e)]).value;
      LatestUpdated(db.tickets, i, db.tickets[i].(state := Reopened), e.tenant.value, db.threads[ThreadKey(e)]);
    } else {
      LatestAppended(db.tickets, d.tickets[|db.tickets|], e.tenant.value, d.threads[ThreadKey(e)]);
    }
  }

  lemma HandlingRecords(db: Db, e: Event)
    requires Inv(db) && (Handled(e) ==> Keyed(e))
    ensures Absorbs(Handle(db, e), e)
  {
    if Handled(e) {
      var ticket := HandleShape(db, e);
      WrittenThreadIsLive(db, e, Handle(db, e), ticket);
      SeenGrows(db, e, Handle(db, e), ticket, e.tenant.value, e.msgId);
    }
  }

  /** A write on another event's thread leaves e's thread filed and its ticket not done. */
  lemma OtherWriteKeepsLive(db: Db, f: Event, d: Db, ticket: nat, tenant: nat, k: (nat, string, string))
    requires Filed(db) && f.tenant.Some? && (OnKnownThread(db, f, d, ticket) || OnNewThread(db, f, d, ticket))
    requires k in db.threads && k.0 == tenant
    requires !Done(db.tickets[Latest(db.tickets, tenant, db.threads[k]).value].state)
    ensures k in d.threads && d.threads[k] == db.threads[k]
    ensures var i := Latest(d.tickets, tenant, d.threads[k]);
            i.Some? && !Done(d.tickets[i.value].state)
  {
    if OnKnownThread(db, f, d, ticket) {
      var i := Latest(db.tickets, f.tenant.value, db.threads[ThreadKey(f)]).value;
      LatestUpdated(db.tickets, i, db.tickets[i].(state := Reopened), tenant, db.threads[k]);
    } else {
      LatestAppended(db.tickets, d.tickets[|db.tickets|], tenant, db.threads[k]);
    }
  }

  /** No other event makes e count again: none moves its ticket to a done state. */
  lemma HandlingKeepsAbsorbed(db: Db, e: Event, f: Event)
    requires Inv(db) && Absorbs(db, e)
    ensures Absorbs(Handle(db, f), e)
  {
    if Handled(e) && Handled(f) {
      var ticket := HandleShape(db, f);
      OtherWriteKeepsLive(db, f, Handle(db, f), ticket, e.tenant.value, ThreadKey(e));
      SeenGrows(db, f, Handle(db, f), ticket, e.tenant.value, e.msgId);
    }
  }

  lemma {:induction false} EarlierEventsAreAbsorbed(events: seq<Event>, e: Event)
    requires e in events && forall f :: f in events && Handled(f) ==> Keyed(f)
    ensures Absorbs(Run(events), e)
    decreases |events|
  {
    var init, last := events[..|events| - 1], events[|events| - 1];
    assert events == init + [last];
    NoDuplicateRows(init);
    if last == e {
      HandlingRecords(Run(init), e);
    } else {
      EarlierEventsAreAbsorbed(init, e);
      HandlingKeepsAbsorbed(Run(init), e, last);
    }
  }

  /** The same deliveries with every later duplicate removed. */
  function Firsts(events: seq<Event>): seq<Event> {
    if events == [] then []
    else
      var init, last := events[..|events| - 1], events[|events| - 1];
      if last in init then Firsts(init) else Firsts(init) + [last]
  }

  /** The customer column is written, never read. */
  lemma HandleReadsCore(a: Db, b: Db, e: Event)
    requires Core(a) == Core(b)
    ensures Core(Handle(a, e)) == Core(Handle(b, e))
  {
    assert b == a.(owner := b.owner);
    if Handled(e) {
      var (a1, u) := UpsertCustomer(a, e);
      var (b1, v) := UpsertCustomer(b, e);
      assert b1 == a1.(owner := b.owner) && u == v;
      ConversationReadsCore(a1, b1, e, u);
    }
  }

  lemma ConversationReadsCore(a: Db, b: Db, e: Event, u: nat)
    requires e.tenant.Some? && b == a.(owner := b.owner)
    ensures var (a2, c) := UpsertConversation(a, e, u);
            var (b2, k) := UpsertConversation(b, e, u);
            var (a3, t) := OpenOrReopenTicket(a2, e.tenant.value, c);
            var (b3, q) := OpenOrReopenTicket(b2, e.tenant.value, k);
            Core(AppendInboundMessage(a3, e.tenant.value, t, e)) == Core(AppendInboundMessage(b3, e.tenant.value, q, e))
  {
    var (a2, c) := UpsertConversation(a, e, u);
    var (b2, k) := UpsertConversation(b, e, u);
    assert b2 == a2.(owner := b2.owner) && c == k;
    TicketReadsCore(a2, b2, e, c);
  }

  lemma TicketReadsCore(a: Db, b: Db, e: Event, c: nat)
    requires e.tenant.Some? && b == a.(owner := b.owner)
    ensures var (a3, t) := OpenOrReopenTicket(a, e.tenant.value, c);
            var (b3, q) := OpenOrReopenTicket(b, e.tenant.value, c);
            Core(AppendInboundMessage(a3, e.tenant.value, t, e)) == Core(AppendInboundMessage(b3, e.tenant.value, q, e))
  {
    var (a3, t) := OpenOrReopenTicket(a, e.tenant.value, c);
    var (b3, q) := OpenOrReopenTicket(b, e.tenant.value, c);
    assert b3 == a3.(owner := b3.owner) && t == q;
  }

  /** At-least-once delivery has an exactly-once effect: with non-empty message ids and conversation keys, any
      sequence of deliveries leaves the conversations, tickets and messages that each event handled once would. */
  lemma {:induction false} ExactlyOnceEffect(events: seq<Event>)
    requires forall e :: e in events && Handled(e) ==> Keyed(e)
    ensures Core(Run(events)) == Core(Run(Firsts(events)))
    decreases |events|
  {
    if events != [] {
      var init, last := events[..|events| - 1], events[|events| - 1];
      assert events == init + [last];
      ExactlyOnceEffect(init);
      if last in init {
        EarlierEventsAreAbsorbed(init, last);
        if Handled(last) {
          RedeliveryIsAbsorbedIff(Run(init), last);
        }
      } else {
        HandleReadsCore(Run(init), Run(Firsts(init)), last);
        assert (Firsts(init) + [last])[..|Firsts(init)|] == Firsts(init);
      }
    }
  }

  function Committed(attempts: seq<Attempt>): seq<Event> {
    if attempts == [] then []
    else
      var init, a := Committed(attempts[..|attempts| - 1]), attempts[|attempts| - 1];
      if a.fate.Commits? then init + [a.e] else init
  }

  /** Attempts that fail roll back and leave nothing behind. */
  function RunAttempts(attempts: seq<Attempt>): Db {
    if attempts == [] then EMPTY
    else
      var db, a := RunAttempts(attempts[..|attempts| - 1]), attempts[|attempts| - 1];
      if a.fate.Commits? then Handle(db, a.e) else db
  }

  lemma {:induction false} AttemptsRunCommitted(attempts: seq<Attempt>)
    ensures RunAttempts(attempts) == Run(Committed(attempts))
    decreases |attempts|
  {
    if attempts != [] {
      AttemptsRunCommitted(attempts[..|attempts| - 1]);
      var done := Committed(attempts[..|attempts| - 1]);
      assert forall e :: (done + [e])[..|done|] == done;
    }
  }

  /** Crashes between commit and acknowledgement, and failed attempts in between, make no difference. */
  lemma CrashesAreInvisible(attempts: seq<Attempt>)
    requires forall a :: a in attempts && Handled(a.e) ==> Keyed(a.e)
    ensures Core(RunAttempts(attempts)) == Core(Run(Firsts(Committed(attempts))))
  {
    AttemptsRunCommitted(attempts);
    CommittedAreAttempted(attempts);
    ExactlyOnceEffect(Committed(attempts));
  }

  lemma {:induction false} CommittedAreAttempted(attempts: seq<Attempt>)
    ensures forall e :: e in Committed(attempts) ==> exists a :: a in attempts && a.e == e
    decreases |attempts|
  {
    if attempts != [] {
      var init, a := attempts[..|attempts| - 1], attempts[|attempts| - 1];
      assert attempts == init + [a];
      CommittedAreAttempted(init);
      forall e | e in Committed(attempts) ensures exists b :: b in attempts && b.e == e {
        if e in Committed(init) {
          var b :| b in init && b.e == e;
          assert b in attempts;
        } else {
          assert a in attempts;
        }
      }
    }
  }

  // ---------------------------------------------------------------- the customer column

  /** Whoever wrote last owns the conversation. */
  lemma OwnerIsLastWriter(db: Db, e: Event)
    requires Inv(db) && Handled(e) && Keyed(e)
    ensures var d := Handle(db, e);
            && ThreadKey(e) in d.threads && CustomerKey(e) in d.customers && d.threads[ThreadKey(e)] in d.owner
            && d.owner[d.threads[ThreadKey(e)]] == d.customers[CustomerKey(e)]
            && (forall k :: k in db.threads ==> k in d.threads && d.threads[k] == db.threads[k])
            && (forall k :: k in db.customers ==> k in d.customers && d.customers[k] == db.customers[k])
            && (forall c :: c in db.owner && c != d.threads[ThreadKey(e)] ==> c in d.owner && d.owner[c] == db.owner[c])
  {
    var ticket := HandleShape(db, e);
  }

  /** In each thread only one customer writes. */
  predicate OneCustomerPerThread(events: seq<Event>) {
    forall e, f :: e in events && f in events && Handled(e) && Handled(f) && ThreadKey(e) == ThreadKey(f) ==>
      CustomerKey(e) == CustomerKey(f)
  }

  ghost predicate OwnedBy(db: Db, e: Event) {
    Handled(e) ==>
      && ThreadKey(e) in db.threads && CustomerKey(e) in db.customers && db.threads[ThreadKey(e)] in db.owner
      && db.owner[db.threads[ThreadKey(e)]] == db.customers[CustomerKey(e)]
  }

  lemma HandlingKeepsOwned(db: Db, e: Event, f: Event)
    requires Inv(db) && OwnedBy(db, e) && (Handled(f) ==> Keyed(f))
    requires Handled(e) && Handled(f) && ThreadKey(e) == ThreadKey(f) ==> CustomerKey(e) == CustomerKey(f)
    ensures OwnedBy(Handle(db, f), e)
  {
    if Handled(e) && Handled(f) {
      OwnerIsLastWriter(db, f);
      HandleKeepsInv(db, f);
    }
  }

  lemma {:induction false} EarlierEventsOwn(events: seq<Event>, e: Event)
    requires e in events && OneCustomerPerThread(events) && forall f :: f in events && Handled(f) ==> Keyed(f)
    ensures OwnedBy(Run(events), e)
    decreases |events|
  {
    var init, last := events[..|events| - 1], events[|events| - 1];
    assert events == init + [last];
    NoDuplicateRows(init);
    if last == e {
      if Handled(e) {
        OwnerIsLastWriter(Run(init), e);
      }
    } else {
      EarlierEventsOwn(init, e);
      HandlingKeepsOwned(Run(init), e, last);
    }
  }

  /** With one customer per thread the exactly-once effect covers the whole database, row for row. */
  lemma {:induction false} ExactlyOnceEverywhere(events: seq<Event>)
    requires OneCustomerPerThread(events) && forall e :: e in events && Handled(e) ==> Keyed(e)
    ensures Run(events) == Run(Firsts(events))
    decreases |events|
  {
    if events != [] {
      var init, last := events[..|events| - 1], events[|events| - 1];
      assert events == init + [last];
      ExactlyOnceEverywhere(init);
      if last in init {
        EarlierEventsAreAbsorbed(init, last);
        EarlierEventsOwn(init, last);
        if Handled(last) {
          AbsorbedOwner(Run(init), last);
        }
      } else {
        assert (Firsts(init) + [last])[..|Firsts(init)|] == Firsts(init);
      }
    }
  }

  lemma TakesConversationBack(db: Db, e: Event, f: Event)
    requires Inv(db) && Handled(e) && Handled(f) && ThreadKey(e) == ThreadKey(f) && CustomerKey(e) != CustomerKey(f)
    requires Absorbs(db, e) && OwnedBy(db, f)
    ensures Handle(db, e) != db
  {
    AbsorbedOwner(db, e);
    var c := db.threads[ThreadKey(e)];
    assert db.customers[CustomerKey(e)] != db.customers[CustomerKey(f)];
    assert Handle(db, e).owner[c] != db.owner[c];
  }

  /** Otherwise it need not: in every run whose last writer f shares a thread with another customer's earlier
      event e, a redelivery of e takes the conversation back, though dropping the duplicate would not. */
  lemma RedeliverySwapsOwner(init: seq<Event>, f: Event, e: Event)
    requires e in init && forall x :: x in init + [f] && Handled(x) ==> Keyed(x)
    requires Handled(e) && Handled(f) && ThreadKey(e) == ThreadKey(f) && CustomerKey(e) != CustomerKey(f)
    ensures Firsts(init + [f] + [e]) == Firsts(init + [f]) && Run(init + [f] + [e]) != Run(init + [f])
  {
    var events := init + [f];
    assert events[..|init|] == init && (events + [e])[..|events|] == events;
    NoDuplicateRows(init);
    NoDuplicateRows(events);
    EarlierEventsAreAbsorbed(events, e);
    OwnerIsLastWriter(Run(init), f);
    TakesConversationBack(Run(events), e, f);
  }
}
