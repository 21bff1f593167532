/** The at-least-once ingress consumer: internal/ticket/ingress.go.

    One transaction per event writes customers, conversations, tickets and messages. Row ids are drawn from
    one counter; tickets and messages are kept in creation order. */
module Ingress {
  import opened Wrappers
  import opened TicketState

  /** The kinds that warrant a ticket, and everything else connectors publish (read, delivery, typing, ...). */
  datatype Kind =
    | KMessage | KPostback | KMention | KReply | KQuote | KDm | KComment | KIdentified
    | KOther(text: string)

  /** `tenant` is None when the id does not parse. */
  datatype Event = Event(tenant: Option<nat>, channel: string, kind: Kind, customer: string, thread: string,
                         msgId: string, body: string, occurredAt: Option<int>)

  datatype TicketRow = TicketRow(id: nat, tenant: nat, conversation: nat, state: State, priority: int)

  datatype Message = Message(tenant: nat, ticket: nat, body: string, msgId: Option<string>, occurredAt: Option<int>)

  /** `customers` is keyed by tenant, channel and external id, `threads` is the unique index on tenant, channel
      and thread (NULL threads are not in it), `owner` is conversations.customer_id. */
  datatype Db = Db(nextId: nat, customers: map<(nat, string, string), nat>, threads: map<(nat, string, string), nat>,
                   conversations: set<nat>, owner: map<nat, nat>, tickets: seq<TicketRow>, messages: seq<Message>)

  const EMPTY := Db(0, map[], map[], {}, map[], [], [])

  predicate ShouldCreateTicket(e: Event) {
    match e.kind
    case KMessage | KPostback | KMention | KReply | KQuote | KDm | KComment => true
    case KIdentified => true
    case KOther(_) => false
  }

  /** Events that reach the database. */
  predicate Handled(e: Event) {
    ShouldCreateTicket(e) && e.tenant.Some?
  }

  /** The eight kinds that warrant a ticket; receipts, typing and all others do not. */
  lemma KindsThatCount(e: Event)
    ensures Handled(e) <==> e.tenant.Some? && e.kind in {KMessage, KPostback, KMention, KReply, KQuote, KDm, KComment,
                                                          KIdentified}
  {
  }

  function CustomerKey(e: Event): (nat, string, string)
    requires e.tenant.Some?
  {
    (e.tenant.value, e.channel, e.customer)
  }

  function ThreadKey(e: Event): (nat, string, string)
    requires e.tenant.Some?
  {
    (e.tenant.value, e.channel, e.thread)
  }

  function UpsertCustomer(db: Db, e: Event): (Db, nat)
    requires e.tenant.Some?
  {
    if CustomerKey(e) in db.customers then (db, db.customers[CustomerKey(e)])
    else (db.(nextId := db.nextId + 1, customers := db.customers[CustomerKey(e) := db.nextId]), db.nextId)
  }

  /** INSERT ... ON CONFLICT (tenant, channel, thread) DO UPDATE SET customer_id. A NULL thread never conflicts. */
  function UpsertConversation(db: Db, e: Event, customer: nat): (Db, nat)
    requires e.tenant.Some?
  {
    if e.thread != "" && ThreadKey(e) in db.threads then
      var c := db.threads[ThreadKey(e)];
      (db.(owner := db.owner[c := customer]), c)
    else
      var c := db.nextId;
      (db.(nextId := c + 1, conversations := db.conversations + {c}, owner := db.owner[c := customer],
           threads := if e.thread == "" then db.threads else db.threads[ThreadKey(e) := c]), c)
  }

  /** Index of the newest ticket of a conversation. */
  function Latest(tickets: seq<TicketRow>, tenant: nat, c: nat): (i: Option<nat>)
    ensures i.Some? ==> i.value < |tickets| && tickets[i.value].tenant == tenant && tickets[i.value].conversation == c
    ensures i.None? ==> forall t :: t in tickets ==> !(t.tenant == tenant && t.conversation == c)
  {
    if tickets == [] then None
    else
      var n := |tickets| - 1;
      if tickets[n].tenant == tenant && tickets[n].conversation == c then Some(n)
      else
        assert tickets == tickets[..n] + [tickets[n]];
        Latest(tickets[..n], tenant, c)
  }

  function OpenOrReopenTicket(db: Db, tenant: nat, c: nat): (Db, nat) {
    var i := Latest(db.tickets, tenant, c);
    if i.None? then
      (db.(nextId := db.nextId + 1, tickets := db.tickets + [TicketRow(db.nextId, tenant, c, New, 3)]), db.nextId)
    else
      var t := db.tickets[i.value];
      (if Done(t.state) then db.(tickets := db.tickets[i.value := t.(state := Reopened)]) else db, t.id)
  }

  predicate Seen(messages: seq<Message>, tenant: nat, msgId: string) {
    exists m :: m in messages && m.tenant == tenant && m.msgId == Some(msgId)
  }

  function NullIfEmpty(s: string): Option<string> {
    if s == "" then None else Some(s)
  }

  function AppendInboundMessage(db: Db, tenant: nat, ticket: nat, e: Event): Db {
    if e.msgId != "" && Seen(db.messages, tenant, e.msgId) then db
    else db.(messages := db.messages + [Message(tenant, ticket, e.body, NullIfEmpty(e.msgId), e.occurredAt)])
  }

  function Handle(db: Db, e: Event): Db {
    if !Handled(e) then db
    else
      var (d1, customer) := UpsertCustomer(db, e);
      var (d2, c) := UpsertConversation(d1, e, customer);
      var (d3, ticket) := OpenOrReopenTicket(d2, e.tenant.value, c);
      AppendInboundMessage(d3, e.tenant.value, ticket, e)
  }

  /** What becomes of one delivery attempt. A lost acknowledgement is a committed attempt that is delivered again. */
  datatype Fate = Commits | RollsBack

  datatype Attempt = Attempt(e: Event, fate: Fate)

  /** The consumer with its tables; every step of the transaction is a write. */
  class Consumer {
    var nextId: nat
    var customers: map<(nat, string, string), nat>
    var threads: map<(nat, string, string), nat>
    var conversations: set<nat>
    var owner: map<nat, nat>
    var tickets: seq<TicketRow>
    var messages: seq<Message>

    constructor ()
      ensures Snapshot() == EMPTY
    {
      nextId, customers, threads, conversations, owner, tickets, messages := 0, map[], map[], {}, map[], [], [];
    }

    function Snapshot(): Db
      reads this
    {
      Db(nextId, customers, threads, conversations, owner, tickets, messages)
    }

    method FindOrCreateCustomer(e: Event) returns (id: nat)
      requires e.tenant.Some?
      modifies this`nextId, this`customers
      ensures (Snapshot(), id) == UpsertCustomer(old(Snapshot()), e)
    {
      if CustomerKey(e) in customers {
        return customers[CustomerKey(e)];
      }
      id := nextId;
      nextId := nextId + 1;
      customers := customers[CustomerKey(e) := id];
    }

    method FindOrCreateConversation(e: Event, customer: nat) returns (id: nat)
      requires e.tenant.Some?
      modifies this`nextId, this`threads, this`conversations, this`owner
      ensures (Snapshot(), id) == UpsertConversation(old(Snapshot()), e, customer)
    {
      if e.thread != "" && ThreadKey(e) in threads {
        id := threads[ThreadKey(e)];
        owner := owner[id := customer];
        return;
      }
      id := nextId;
      nextId := nextId + 1;
      conversations := conversations + {id};
      owner := owner[id := customer];
      if e.thread != "" {
        threads := threads[ThreadKey(e) := id];
      }
    }

    method FindOrOpenTicket(tenant: nat, c: nat) returns (id: nat)
      modifies this`nextId, this`tickets
      ensures (Snapshot(), id) == OpenOrReopenTicket(old(Snapshot()), tenant, c)
    {
      var i := Latest(tickets, tenant, c);
      if i.None? {
        id := nextId;
        nextId := nextId + 1;
        tickets := tickets + [TicketRow(id, tenant, c, New, 3)];
        return;
      }
      var t := tickets[i.value];
      id := t.id;
      if Done(t.state) {
        tickets := tickets[i.value := t.(state := Reopened)];
      }
    }

    method HandleEvent(e: Event)
      modifies this
      ensures Snapshot() == Handle(old(Snapshot()), e)
      ensures e.tenant.None? || e.kind.KOther? ==> Snapshot() == old(Snapshot())
      ensures e.tenant.Some? && !e.kind.KOther? ==>
                && CustomerKey(e) in customers && (e.thread != "" ==> ThreadKey(e) in threads)
                && (e.msgId == "" ==> |messages| == |old(messages)| + 1)
                && (e.msgId != "" ==> Seen(messages, e.tenant.value, e.msgId))
                && (|messages| > |old(messages)| ==>
                      var m := messages[|old(messages)|];
                      messages == old(messages) + [m] && m == Message(e.tenant.value, m.ticket, e.body,
                                                                      if e.msgId == "" then None else Some(e.msgId),
                                                                      e.occurredAt))
    {
      KindsThatCount(e);
      if !ShouldCreateTicket(e) || e.tenant.None? {
        return;
      }
      var tenant := e.tenant.value;
      var customer := FindOrCreateCustomer(e);
      var conversation := FindOrCreateConversation(e, customer);
      var ticket := FindOrOpenTicket(tenant, conversation);
      if e.msgId != "" {
        var seen := exists m :: m in messages && m.tenant == tenant && m.msgId == Some(e.msgId);
        if seen {
          return;
        }
      }
      messages := messages + [Message(tenant, ticket, e.body, NullIfEmpty(e.msgId), e.occurredAt)];
      assert messages[|old(messages)|] in messages;
    }
  }
}
