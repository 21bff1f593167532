/** Ingress transactions side by side, statement by statement: internal/ticket/ingress.go under READ COMMITTED.

    A transaction reads what is committed at each statement and shows its own writes only when it commits. The upsert of
    a filed thread's conversation locks its row until the end, so transactions on one thread queue there; nothing else
    is locked but, after a reopening, the ticket's row. A row's id is drawn when it is committed, as nobody can see it
    before. conversations.customer_id is not followed here. */
module IngressWorkers {
  import opened Wrappers
  import opened TicketState
  import opened Ingress
  import opened IngressProofs
  import opened IngressHistory

  type Taken = e: Event | Handled(e) witness Event(Some(0), "", KMessage, "", "", "", "", None)

  /** A transaction and what its statements have found so far: the customer (step 1), the conversation (2), the newest
      ticket by its place in the table and whether it was done (3), the reopening written (4), whether the message was
      there (5). It commits with step 6. */
  datatype Tx = Tx(e: Taken, step: nat, customer: Option<nat>, conversation: Option<nat>, ticket: Option<nat>,
                   reopen: bool, seen: bool)

  /** doubles: customer rows inserted beside an earlier one for the same reference. */
  datatype World = World(db: Db, doubles: seq<(nat, string, string)>, txs: map<nat, Tx>)

  datatype Act =
    | Begin(worker: nat, e: Event)
    | Next(worker: nat)
    | Rollback(worker: nat)
    | SetState(i: nat, to: State)

  function Start(): World {
    World(EMPTY, [], map[])
  }

  // ---------------------------------------------------------------- the statements

  function Known(db: Db, e: Taken): Option<nat> {
    if CustomerKey(e) in db.customers then Some(db.customers[CustomerKey(e)]) else None
  }

  function FiledUnder(db: Db, e: Taken): Option<nat> {
    if e.thread != "" && ThreadKey(e) in db.threads then Some(db.threads[ThreadKey(e)]) else None
  }

  function NewestOf(db: Db, e: Taken, c: Option<nat>): Option<nat> {
    if c.Some? then Latest(db.tickets, e.tenant.value, c.value) else None
  }

  function Identified(db: Db, tx: Tx): Tx {
    tx.(step := 1, customer := Known(db, tx.e))
  }

  function Attached(db: Db, tx: Tx): Tx {
    tx.(step := 2, conversation := FiledUnder(db, tx.e))
  }

  function Looked(db: Db, tx: Tx): Tx {
    var i := NewestOf(db, tx.e, tx.conversation);
    tx.(step := 3, ticket := i, reopen := i.Some? && i.value < |db.tickets| && Done(db.tickets[i.value].state))
  }

  function Checked(db: Db, tx: Tx): Tx {
    tx.(step := 5, seen := tx.e.msgId != "" && Seen(db.messages, tx.e.tenant.value, tx.e.msgId))
  }

  function WriteCustomer(db: Db, tx: Tx): Db {
    if tx.customer.Some? || CustomerKey(tx.e) in db.customers then db else UpsertCustomer(db, tx.e).0
  }

  function WriteConversation(db: Db, tx: Tx): (Db, nat) {
    if tx.conversation.Some? then (db, tx.conversation.value)
    else
      var c := db.nextId;
      (db.(nextId := c + 1, conversations := db.conversations + {c},
           threads := if tx.e.thread == "" then db.threads else db.threads[ThreadKey(tx.e) := c]), c)
  }

  function WriteTicket(db: Db, tx: Tx, c: nat): (Db, nat) {
    if tx.ticket.Some? && tx.ticket.value < |db.tickets| then
      (if tx.reopen then StateSet(db, tx.ticket.value, Reopened) else db, db.tickets[tx.ticket.value].id)
    else
      (db.(nextId := db.nextId + 1,
           tickets := db.tickets + [TicketRow(db.nextId, tx.e.tenant.value, c, New, 3)]), db.nextId)
  }

  function MessageOf(e: Taken, ticket: nat): Message {
    Message(e.tenant.value, ticket, e.body, NullIfEmpty(e.msgId), e.occurredAt)
  }

  function WriteMessage(db: Db, tx: Tx, ticket: nat): Db {
    if tx.seen then db else db.(messages := db.messages + [MessageOf(tx.e, ticket)])
  }

  /** All the writes of a transaction become visible. */
  function AfterCommit(db: Db, tx: Tx): Db {
    var d1 := WriteCustomer(db, tx);
    var (d2, c) := WriteConversation(d1, tx);
    var (d3, ticket) := WriteTicket(d2, tx, c);
    WriteMessage(d3, tx, ticket)
  }

  // ---------------------------------------------------------------- the interleaving

  predicate Holds(tx: Tx, key: (nat, string, string)) {
    tx.step >= 2 && tx.e.thread != "" && ThreadKey(tx.e) == key
  }

  /** Another open transaction holds the conversation's row. */
  predicate Blocked(w: World, k: nat, e: Taken) {
    e.thread != "" && exists other :: other in w.txs && other != k && Holds(w.txs[other], ThreadKey(e))
  }

  predicate RowLocked(w: World, i: nat) {
    exists k :: k in w.txs && w.txs[k].step >= 4 && w.txs[k].reopen && w.txs[k].ticket == Some(i)
  }

  predicate Ends(w: World, a: Act) {
    a.Next? && a.worker in w.txs && w.txs[a.worker].step >= 5
  }

  function Advanced(w: World, k: nat): Tx
    requires k in w.txs
  {
    var tx := w.txs[k];
    match tx.step
    case 0 => Identified(w.db, tx)
    case 1 => if Blocked(w, k, tx.e) then tx else Attached(w.db, tx)
    case 2 => Looked(w.db, tx)
    case 3 => tx.(step := 4)
    case _ => Checked(w.db, tx)
  }

  function Apply(w: World, a: Act): World {
    match a
    case Begin(k, e) =>
      if k in w.txs || !Handled(e) then w else w.(txs := w.txs[k := Tx(e, 0, None, None, None, false, false)])
    case Next(k) =>
      if k !in w.txs then w
      else if Ends(w, a) then
        var tx := w.txs[k];
        World(AfterCommit(w.db, tx),
              if tx.customer.None? && CustomerKey(tx.e) in w.db.customers then w.doubles + [CustomerKey(tx.e)]
              else w.doubles,
              w.txs - {k})
      else w.(txs := w.txs[k := Advanced(w, k)])
    case Rollback(k) => w.(txs := w.txs - {k})
    case SetState(i, to) => if RowLocked(w, i) then w else w.(db := StateSet(w.db, i, to))
  }

  function RunActs(acts: seq<Act>): World {
    if acts == [] then Start() else Apply(RunActs(acts[..|acts| - 1]), acts[|acts| - 1])
  }

  /** The transactions and state changes in the order of their commits. */
  function Did(w: World, a: Act): seq<Op> {
    if Ends(w, a) then [Deliver(w.txs[a.worker].e)]
    else if a.SetState? && !RowLocked(w, a.i) then [Op.SetState(a.i, a.to)]
    else []
  }

  function History(acts: seq<Act>): seq<Op> {
    if acts == [] then []
    else History(acts[..|acts| - 1]) + Did(RunActs(acts[..|acts| - 1]), acts[|acts| - 1])
  }

  // ---------------------------------------------------------------- one commit

  /** What a transaction has found is still there; its conversation and its ticket are still the right ones. */
  ghost predicate TxOk(db: Db, tx: Tx) {
    && tx.step <= 5
    && (tx.step >= 1 && tx.customer.Some? ==> CustomerKey(tx.e) in db.customers)
    && (tx.step >= 2 ==> tx.conversation == FiledUnder(db, tx.e))
    && (tx.step >= 3 ==> tx.ticket == NewestOf(db, tx.e, tx.conversation))
    && (tx.step >= 5 && tx.seen ==> tx.e.msgId != "" && Seen(db.messages, tx.e.tenant.value, tx.e.msgId))
  }

  /** Somebody has resolved the ticket since it was found open, or moved on a ticket that was found done. */
  predicate TicketMoved(db: Db, tx: Tx) {
    && tx.ticket.Some? && tx.ticket.value < |db.tickets|
    && var state := db.tickets[tx.ticket.value].state;
       if tx.reopen then !Done(state) && state != Reopened else Done(state)
  }

  /** Another transaction has committed the message since it was found missing. */
  predicate MessageCame(db: Db, tx: Tx) {
    !tx.seen && tx.e.msgId != "" && Seen(db.messages, tx.e.tenant.value, tx.e.msgId)
  }

  /** Two databases that differ at most in tickets, messages and conversations' customers. */
  predicate Alike(a: Db, b: Db) {
    a.(tickets := [], messages := [], owner := map[]) == b.(tickets := [], messages := [], owner := map[])
  }

  predicate KnownTicket(db: Db, tx: Tx) {
    tx.ticket.Some? && tx.ticket.value < |db.tickets|
  }

  function ReopenedIf(db: Db, i: nat, reopen: bool): seq<TicketRow> {
    if reopen then StateSet(db, i, Reopened).tickets else db.tickets
  }

  predicate Repeats(db: Db, e: Taken) {
    e.msgId != "" && Seen(db.messages, e.tenant.value, e.msgId)
  }

  lemma OldTicketCommit(db: Db, tx: Tx) returns (ticket: nat)
    requires Sound(db) && TxOk(db, tx) && tx.step == 5 && tx.conversation.Some?
    ensures KnownTicket(db, tx)
    ensures var d, h, i := AfterCommit(db, tx), Handle(db, tx.e), tx.ticket.value;
            && Alike(d, h)
            && d.tickets == ReopenedIf(db, i, tx.reopen) && h.tickets == ReopenedIf(db, i, Done(db.tickets[i].state))
            && d.messages == (if tx.seen then db.messages else db.messages + [MessageOf(tx.e, ticket)])
            && h.messages == if Repeats(db, tx.e) then db.messages else db.messages + [MessageOf(tx.e, ticket)]
  {
    var (d1, u) := UpsertCustomer(db, tx.e);
    CustomerStep(db, tx.e);
    assert WriteCustomer(db, tx) == d1;
    var (d2, c) := UpsertConversation(d1, tx.e, u);
    assert c == tx.conversation.value && Latest(db.tickets, tx.e.tenant.value, c) == tx.ticket;
    ticket := db.tickets[tx.ticket.value].id;
  }

  lemma NewConversation(db: Db, tx: Tx, u: nat)
    requires Sound(db) && tx.conversation.None? && FiledUnder(db, tx.e).None?
    ensures var (x, c) := WriteConversation(db, tx);
            var (y, k) := UpsertConversation(db, tx.e, u);
            && x == y.(owner := db.owner) && c == k && Latest(y.tickets, tx.e.tenant.value, c).None?
            && x.tickets == y.tickets == db.tickets && x.messages == y.messages == db.messages
  {
    var (y, c) := UpsertConversation(db, tx.e, u);
    assert c !in db.conversations;
  }

  lemma NewTicket(a: Db, b: Db, tx: Tx, c: nat)
    requires a == b.(owner := a.owner) && tx.ticket.None? && Latest(b.tickets, tx.e.tenant.value, c).None?
    ensures var (x, t) := WriteTicket(a, tx, c);
            var (y, q) := OpenOrReopenTicket(b, tx.e.tenant.value, c);
            && t == q && x == y.(owner := a.owner) && |x.tickets| == |a.tickets| + 1 && a.tickets <= x.tickets
            && x.messages == a.messages
  {
  }

  lemma NewTicketCommit(db: Db, tx: Tx) returns (ticket: nat)
    requires Sound(db) && TxOk(db, tx) && tx.step == 5 && tx.conversation.None?
    ensures !KnownTicket(db, tx)
    ensures var d, h := AfterCommit(db, tx), Handle(db, tx.e);
            && Alike(d, h) && d.tickets == h.tickets && |d.tickets| == |db.tickets| + 1 && db.tickets <= d.tickets
            && d.messages == (if tx.seen then db.messages else db.messages + [MessageOf(tx.e, ticket)])
            && h.messages == if Repeats(db, tx.e) then db.messages else db.messages + [MessageOf(tx.e, ticket)]
  {
    var (d1, u) := UpsertCustomer(db, tx.e);
    CustomerStep(db, tx.e);
    assert WriteCustomer(db, tx) == d1;
    NewConversation(d1, tx, u);
    var (x, c) := WriteConversation(d1, tx);
    NewTicket(x, UpsertConversation(d1, tx.e, u).0, tx, c);
    ticket := WriteTicket(x, tx, c).1;
  }

  lemma CoreParts(a: Db, b: Db)
    requires Alike(a, b)
    ensures Core(a) == Core(b) <==> a.tickets == b.tickets && a.messages == b.messages
  {
  }

  lemma ReopenedDiffers(db: Db, i: nat, reopen: bool)
    requires i < |db.tickets|
    ensures var state := db.tickets[i].state;
            ReopenedIf(db, i, reopen) == ReopenedIf(db, i, Done(state))
            <==> !(if reopen then !Done(state) && state != Reopened else Done(state))
  {
    var t := db.tickets[i];
    assert ReopenedIf(db, i, true)[i].state == Reopened && ReopenedIf(db, i, false)[i] == t;
    if t.state == Reopened {
      assert StateSet(db, i, Reopened).tickets == db.tickets;
    }
  }

  /** A commit leaves what the event handled in one go at that moment would leave, if and only if the ticket has not
      been moved and the message has not come since they were read. */
  lemma CommitIsSerialIff(db: Db, tx: Tx)
    requires Sound(db) && TxOk(db, tx) && tx.step == 5
    ensures Core(AfterCommit(db, tx)) == Core(Handle(db, tx.e)) <==> !TicketMoved(db, tx) && !MessageCame(db, tx)
  {
    var ticket: nat;
    if tx.conversation.Some? {
      ticket := OldTicketCommit(db, tx);
      ReopenedDiffers(db, tx.ticket.value, tx.reopen);
    } else {
      ticket := NewTicketCommit(db, tx);
    }
    CoreParts(AfterCommit(db, tx), Handle(db, tx.e));
    assert |db.messages + [MessageOf(tx.e, ticket)]| != |db.messages|;
  }

  // ---------------------------------------------------------------- what every interleaving keeps

  /** Open transactions that have passed their upsert are on different threads. */
  ghost predicate Exclusive(w: World) {
    forall j, k :: j in w.txs && k in w.txs && j != k && w.txs[k].step >= 2 && w.txs[k].e.thread != "" ==>
      !Holds(w.txs[j], ThreadKey(w.txs[k].e))
  }

  ghost predicate Consistent(w: World) {
    && Sound(w.db) && Exclusive(w)
    && forall k :: k in w.txs ==> TxOk(w.db, w.txs[k])
  }

  lemma SoundIgnoresRest(a: Db, b: Db)
    requires Sound(a) && Alike(a, b) && a.tickets == b.tickets
    ensures Sound(b)
  {
  }

  predicate Apart(e: Taken, f: Taken) {
    e.thread == "" || f.thread == "" || ThreadKey(e) != ThreadKey(f)
  }

  /** What a commit changes: its thread, its ticket, and new rows. */
  ghost predicate Effect(db: Db, tx: Tx, d: Db) {
    && (forall key :: key in db.customers || key == CustomerKey(tx.e) ==> key in d.customers)
    && db.messages <= d.messages
    && if tx.conversation.Some?
       then && KnownTicket(db, tx) && db.tickets[tx.ticket.value].conversation == tx.conversation.value
            && d.threads == db.threads && d.tickets == ReopenedIf(db, tx.ticket.value, tx.reopen)
       else && |d.tickets| == |db.tickets| + 1 && db.tickets <= d.tickets
            && d.tickets[|db.tickets|].conversation !in db.conversations
            && d.threads == if tx.e.thread == "" then db.threads
                            else db.threads[ThreadKey(tx.e) := d.tickets[|db.tickets|].conversation]
  }

  lemma OldEffect(db: Db, tx: Tx, d: Db, h: Db, t: nat)
    requires TxOk(db, tx) && tx.step == 5 && tx.conversation.Some? && Alike(d, h) && CustomersExtend(db, tx.e, h)
    requires OnKnownThread(db, tx.e, h, t) || OnNewThread(db, tx.e, h, t)
    requires KnownTicket(db, tx) && d.tickets == ReopenedIf(db, tx.ticket.value, tx.reopen) && db.messages <= d.messages
    ensures Effect(db, tx, d)
  {
  }

  lemma NewEffect(db: Db, tx: Tx, d: Db, h: Db, t: nat)
    requires TxOk(db, tx) && tx.step == 5 && tx.conversation.None? && Alike(d, h) && CustomersExtend(db, tx.e, h)
    requires OnKnownThread(db, tx.e, h, t) || OnNewThread(db, tx.e, h, t)
    requires d.tickets == h.tickets && db.messages <= d.messages
    ensures Effect(db, tx, d)
  {
  }

  lemma CommitEffect(db: Db, tx: Tx)
    requires Sound(db) && TxOk(db, tx) && tx.step == 5
    ensures Effect(db, tx, AfterCommit(db, tx))
  {
    var d, h := AfterCommit(db, tx), Handle(db, tx.e);
    var t := HandleShape(db, tx.e);
    if tx.conversation.Some? {
      var ticket := OldTicketCommit(db, tx);
      OldEffect(db, tx, d, h, t);
    } else {
      var ticket := NewTicketCommit(db, tx);
      NewEffect(db, tx, d, h, t);
    }
  }

  lemma OldKeepsSound(db: Db, d: Db, h: Db, i: nat, reopen: bool)
    requires Sound(h) && Alike(d, h) && i < |db.tickets| && d.tickets == ReopenedIf(db, i, reopen)
    requires h.tickets == ReopenedIf(db, i, Done(db.tickets[i].state))
    ensures Sound(d)
  {
    var h' := StateSet(h, i, d.tickets[i].state);
    StateSetKeepsSound(h, i, d.tickets[i].state);
    assert h'.tickets == d.tickets;
    SoundIgnoresRest(h', d);
  }

  lemma CommitKeepsSound(db: Db, tx: Tx)
    requires Sound(db) && TxOk(db, tx) && tx.step == 5
    ensures Sound(AfterCommit(db, tx))
  {
    HandleKeepsSound(db, tx.e);
    if tx.conversation.Some? {
      var ticket := OldTicketCommit(db, tx);
      OldKeepsSound(db, AfterCommit(db, tx), Handle(db, tx.e), tx.ticket.value, tx.reopen);
    } else {
      var ticket := NewTicketCommit(db, tx);
      SoundIgnoresRest(Handle(db, tx.e), AfterCommit(db, tx));
    }
  }

  lemma EffectKeepsSeen(db: Db, tx: Tx, d: Db, tenant: nat, msgId: string)
    requires Effect(db, tx, d) && Seen(db.messages, tenant, msgId)
    ensures Seen(d.messages, tenant, msgId)
  {
    assert forall m :: m in db.messages ==> m in d.messages;
  }

  lemma EffectKeepsNewest(db: Db, tx: Tx, d: Db, f: Taken)
    requires Sound(db) && TxOk(db, tx) && tx.step == 5 && Effect(db, tx, d) && Apart(tx.e, f)
    requires FiledUnder(db, f).Some?
    ensures var c := FiledUnder(db, f);
            && NewestOf(d, f, c) == NewestOf(db, f, c) && NewestOf(db, f, c).Some?
            && d.tickets[NewestOf(db, f, c).value] == db.tickets[NewestOf(db, f, c).value]
  {
    var c, n := FiledUnder(db, f).value, |db.tickets|;
    if tx.conversation.Some? {
      var i := tx.ticket.value;
      assert tx.conversation.value != c;
      LatestUpdated(db.tickets, i, db.tickets[i].(state := Reopened), f.tenant.value, c);
    } else {
      assert d.tickets == db.tickets + [d.tickets[n]];
      LatestAppended(db.tickets, d.tickets[n], f.tenant.value, c);
    }
  }

  lemma EffectKeepsOthers(db: Db, tx: Tx, d: Db, other: Tx)
    requires Sound(db) && TxOk(db, tx) && tx.step == 5 && Effect(db, tx, d)
    requires TxOk(db, other) && (other.step >= 2 ==> Apart(tx.e, other.e))
    ensures TxOk(d, other)
  {
    if other.step >= 2 && FiledUnder(db, other.e).Some? {
      EffectKeepsNewest(db, tx, d, other.e);
    }
    if other.step >= 5 && other.seen {
      EffectKeepsSeen(db, tx, d, other.e.tenant.value, other.e.msgId);
    }
  }

  lemma StateSetKeepsOk(db: Db, i: nat, to: State, tx: Tx)
    requires TxOk(db, tx)
    ensures TxOk(StateSet(db, i, to), tx)
  {
    if i < |db.tickets| && tx.conversation.Some? {
      LatestUpdated(db.tickets, i, db.tickets[i].(state := to), tx.e.tenant.value, tx.conversation.value);
    }
  }

  lemma CommitKeepsConsistent(w: World, k: nat)
    requires Consistent(w) && k in w.txs && w.txs[k].step == 5
    ensures Consistent(Apply(w, Next(k)))
  {
    var tx, w' := w.txs[k], Apply(w, Next(k));
    CommitKeepsSound(w.db, tx);
    CommitEffect(w.db, tx);
    forall j | j in w'.txs ensures TxOk(w'.db, w'.txs[j]) {
      assert w.txs[j].step >= 2 ==> Apart(tx.e, w.txs[j].e);
      EffectKeepsOthers(w.db, tx, w'.db, w.txs[j]);
    }
  }

  lemma AdvancedOk(w: World, k: nat)
    requires k in w.txs && TxOk(w.db, w.txs[k]) && w.txs[k].step < 5
    ensures TxOk(w.db, Advanced(w, k)) && Advanced(w, k).e == w.txs[k].e
    ensures Advanced(w, k).step >= 2 && w.txs[k].step < 2 ==> !Blocked(w, k, w.txs[k].e)
  {
  }

  lemma AdvanceKeepsExclusive(w: World, k: nat, tx: Tx)
    requires Exclusive(w) && k in w.txs && tx.e == w.txs[k].e
    requires tx.step >= 2 && w.txs[k].step < 2 ==> !Blocked(w, k, tx.e)
    ensures Exclusive(w.(txs := w.txs[k := tx]))
  {
  }

  lemma AdvanceKeepsConsistent(w: World, k: nat)
    requires Consistent(w) && k in w.txs && w.txs[k].step < 5
    ensures Consistent(Apply(w, Next(k)))
  {
    AdvancedOk(w, k);
    AdvanceKeepsExclusive(w, k, Advanced(w, k));
  }

  lemma ActKeepsConsistent(w: World, a: Act)
    requires Consistent(w)
    ensures Consistent(Apply(w, a))
  {
    match a
    case Begin(_, _) =>
    case Next(k) =>
      if k in w.txs {
        if w.txs[k].step == 5 {
          CommitKeepsConsistent(w, k);
        } else {
          AdvanceKeepsConsistent(w, k);
        }
      }
    case Rollback(_) =>
    case SetState(i, to) =>
      StateSetKeepsSound(w.db, i, to);
      forall k | k in w.txs ensures TxOk(StateSet(w.db, i, to), w.txs[k]) {
        StateSetKeepsOk(w.db, i, to, w.txs[k]);
      }
  }

  lemma {:induction false} ActsKeepConsistent(acts: seq<Act>)
    ensures Consistent(RunActs(acts))
    decreases |acts|
  {
    if acts != [] {
      ActsKeepConsistent(acts[..|acts| - 1]);
      ActKeepsConsistent(RunActs(acts[..|acts| - 1]), acts[|acts| - 1]);
    }
  }

  /** Whatever the interleaving, each conversation has exactly one ticket. */
  lemma OneTicketSideBySide(acts: seq<Act>)
    ensures OneTicketEach(RunActs(acts).db)
  {
    ActsKeepConsistent(acts);
  }
}
