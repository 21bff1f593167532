# Verification model of the support desk's stateful core

The repository is an omnichannel customer-support backend in Go over PostgreSQL, Redis and NATS. This project models
the parts of it whose correctness is about *runs* rather than single calls, and proves what every run keeps:

- **RateLimit, RateLimitExact**: the per-key token bucket kept in Redis by a Lua script.
- **Score, RoutingState, Engine, RoutingProofs, RoutingBooks, RoutingWitnesses, Queue**: routing tickets to agents
  with capacity, escalation, the bulk assignments that run beside them, and the re-evaluation sweep.
- **AuditEvent, AuditChain, AuditWriter**: the hash-chained audit ledger, its single writer and its verifier.
- **TicketState, TicketRepo, TicketLifecycle, Ordering, TicketList**: the ticket state graph, every path that writes
  it, bulk operations and the two-stage inbox query.
- **Ingress, IngressProofs, IngressHistory, IngressWorkers, IngressSerial, IngressWitnesses**: the at-least-once
  consumer that turns connector events into tickets and messages: its transactions one at a time, with agents' state
  changes in between, and side by side, statement by statement.
- **Subjects, Deliver, Dispatcher, DispatcherProofs, DispatcherRetries, DispatcherHealth**: webhook subject patterns,
  delivery outcomes, retries and subscription health.
- **Rollup, Materialise, MaterialiseProofs**: the nightly analytics refresh, its arithmetic and its cursor.
- **Fanout, Hub, HubPumps**: the realtime hub's subscriptions, the two lossy buffers in front of a socket, and the
  pumps that send without holding the hub's lock.

## How the model is laid out

A table is a map or a sequence; a transaction is one atomic step, or several where the code lets other transactions
run in between (routing, webhook workers, overlapping refreshes, ingress, hub pumps). Each component has an
`Apply` or step function on a value that holds its tables, and `Run` over a list of events. Where the Go code changes
things step by step, a class has the same fields and methods with the same branches, and every method is proved to
make exactly the step the function describes; the theorems are then about `Run`, for every list of events.
`dafny verify dfyconfig.toml` checks everything.

Clock readings, failing statements, crash points, endpoint responses and the order in which a query returns tied rows
are parameters of the steps they concern, so the theorems hold for every choice of them.

## Where the code and its own documentation disagree

The model follows the code. The lemmas named here are proved below.

- `Retry-After` is described as rounded up; it is truncated (`RetryAfterSufficesIff`, `RetryAfterCanFallShort`).
- An idle bucket's lifetime is said to be twice its refill time; above 2000 x capacity tokens per second it truncates to
  zero milliseconds and nothing is ever limited (`ExpiryIsUnobservableIff`).
- "Any change to any field" of an audit row is said to change its hash; the fields in the middle are hashed without
  separators, so bytes can move between neighbours (`MiddleIsAmbiguous`, `SameShapeIsBound`).
- `Verify` is said to walk in seq order; it reads `ORDER BY ts, seq`, so it rejects an honest ledger whose clock ran
  back (`VerifyAcceptsIffChronological`, `ClockBackIsRejected`).
- `Escalate` is said to be a no-op for a ticket already at the target tier; there is no such check. It also ignores
  required skills, and `Route` never returns the capacity of a ticket's previous assignee (`LoadsMatchHistory`).
- `ReleaseOnClose` is described as idempotent; a second release takes another unit (`ReleaseIsIdempotentIff`).
- Bulk assignments write neither a load nor an assignment row, so a later escalation can find no load to give back and
  start its row from an agent no row led to (`FloorCanBeHit`, `AssignmentsChainIff`, `LoadsMatchHistory`).
- The sweep routes what an earlier query found, and `Route` does not look at the state: a ticket resolved in between
  becomes `open` (`HistoryIsPathIff`, `SweepCanMisroute`).
- An ingress reopening reads the state without a lock and writes later by id, so it can take a ticket that was moved on
  in between from `open` to `reopened` (`ReopeningCanBeLate`). The other way round, a message that comes while its
  ticket is being resolved leaves it resolved (`ReopeningCanBeMissed`, `SideBySideIsSerialIff`).
- Appending a message is described as idempotent on its platform id; without a thread nothing keeps two deliveries apart
  and both can write it (`MessageCanDouble`, `NoMessageTwiceIff`). Finding or creating a customer has no unique key
  behind it, so two first deliveries at once leave two rows (`CustomerCanDouble`).
- The `ticket: ` prefix is said to mark refusals; a transaction that cannot begin carries it too, so a bulk state change
  reports it as one more failure and goes on (`BulkMovesExactly`, `BulkAccountsForAll`).
- The ingress handler is described as idempotent; a late redelivery reopens the ticket if that was resolved meanwhile
  (`RedeliveryIsAbsorbedIff`, `LateRedeliveryReopens`), and one after another customer's message hands the
  conversation back to an earlier customer (`RedeliverySwapsOwner`).
- `RefreshTenant` returns its own seed even when the insert was ignored for another run's: two first runs that overlap
  around midnight can leave a day out (`OvershootIsTheExactDanger`, `OvershootHappens`, `ApartIsOrderly`).
- A failed read of the cursor is taken for a missing one, so a run can skip days if the cursor is more than 90 days old
  (`BlindRunOvershoots`).
- Fan-out is said to be idempotent through its message ids, but the webhook stream keeps ids for two minutes only: an
  event fanned out again while its retries are still to come gets a second attempt 1 (`RepeatIsTheExactDanger`,
  `TwoMinutesAreTooShort`).
- The per-attempt delivery rows are called the audit trail of the retries; their insert may fail unnoticed while the
  counters are updated, and the other way round (`LogAndCountersCanPart`, `RecordsAreHonest`).
- The hub says it is safe against races between unsubscribing and closing. That is so for closing a channel twice
  (`ChannelsCloseOnce`), but a pump sends to its copy of the list without the lock, and a send to a channel closed
  meanwhile panics even with a default branch (`LeavingCanPanic`, `RemovalIsTheExactDanger`). A cancelled pump is not
  waited for, so beside its successor it can repeat messages (`OvertakingIsTheExactDanger`).
- The documented retry schedule 1s, 4s, 16s, 64s starts at 4 s: the waits are 4, 16, 64 and 256 seconds
  (`TransientsAreRetried`, `ExactlyFiveAttempts`).

## Assumptions

- Lua and Go floating point is read as exact real arithmetic. Redis and the callers of the limiter read one clock.
- SHA-256 is a function parameter with 32-byte results. Nothing is assumed about collisions: a theorem that needs
  their absence ends in "or these rows exhibit a collision (or a preimage of 32 zero bytes)".
- One audit `Writer` is alive at a time; an append whose commit fails is not stored.
- Routing runs within one tenant. Stored loads and limits are within the schema's ranges, all routing transactions are
  bounded by a pool of K connections, and agents' tiers, limits and active flags do not change during a run.
- A webhook message reaches at most one worker, once. The stream's message-id window is a parameter.
- No webhook subscription is created, deleted or re-enabled during a run.
- The mart's tickets do not change while refresh runs are considered, and session time is UTC.

## Model

| member | source | states |
|---|---|---|
| RateLimit.Limiter.Script | internal/pkg/ratelimit/ratelimit.go:75-106 | the read, refill, clamp, deduct, wait sequence of the script is the step function the theorems are about |
| RateLimit.Limiter.Allow | internal/pkg/ratelimit/ratelimit.go:44-108 | a call answers from what the key's expiry has left, stores the new fields or deletes them when the lifetime is not positive, and touches no other key |
| RateLimit.StepKeepsTokensInRange | internal/pkg/ratelimit/ratelimit.go:90-99 | stored tokens stay within zero and the capacity, whatever the clock does |
| RateLimit.AllowedIsBounded | internal/pkg/ratelimit/ratelimit.go:75-105 | for the script without the expiry it arms: over any sequence of clock readings, backward jumps included, the calls let through number at most capacity plus refill times the total forward movement |
| RateLimitExact.RefusedIff | internal/pkg/ratelimit/ratelimit.go:75-105 | for every bucket and clock, a call of a run without expiry is refused if and only if since some earlier call or itself the capacity, plus the refill for the time moved forward, minus the calls let through, is less than one token; a call let through is told no wait |
| RateLimitExact.RefusedAsDeployedIff | internal/pkg/ratelimit/ratelimit.go:65-108 | the same with key expiry, for a refill rate above zero and up to 2000 times the capacity |
| RateLimitExact.NeverRefills | internal/pkg/ratelimit/ratelimit.go:91-104 | without refill a refused caller is told no time and no later call is let through while the key lives |
| RateLimit.TtlCoversRefillIff | internal/pkg/ratelimit/ratelimit.go:65-73 | the truncated lifetime is long enough to refill the bucket, and positive, exactly when refill is at most 2000 times the capacity |
| RateLimit.ExpiryIsUnobservableIff | internal/pkg/ratelimit/ratelimit.go:65-108 | evicting idle keys changes no answer of any run if and only if refill is at most 2000 times the capacity |
| RateLimit.RateBoundIff | internal/pkg/ratelimit/ratelimit.go:65-108 | with expiry, the bound capacity plus refill times forward movement holds for every run if and only if the refill rate is positive and at most 2000 times the capacity |
| RateLimit.FrozenBound | internal/pkg/ratelimit/ratelimit.go:68-107 | without refill the limiter with expiry is bounded like one that refills once a minute: an idle minute evicts the key |
| RateLimit.ZeroTtlNeverLimits | internal/pkg/ratelimit/ratelimit.go:68-107 | with a lifetime of zero every call is let through, whatever the calls and the clock |
| RateLimit.BurstDrains | internal/pkg/ratelimit/ratelimit.go:94-104 | without expiry a burst of n calls on t whole tokens gets min(n, t) through |
| RateLimit.WaitIsTight | internal/pkg/ratelimit/ratelimit.go:91-107 | after a rejection with wait w, a call at t succeeds exactly when t is at least now + w, and an earlier one is told the same instant again |
| RateLimit.PollingDoesNotDelay | internal/pkg/ratelimit/ratelimit.go:91-107 | any number of rejected polls before the promised instant leaves the call at that instant successful |
| RateLimit.RetryAfterSufficesIff | internal/pkg/ratelimit/ratelimit.go:119-135 | coming back after the truncated header's seconds succeeds if and only if the wait was at most a second or whole seconds |
| RateLimit.RetryAfterCanFallShort | internal/pkg/ratelimit/ratelimit.go:119-135 | a concrete bucket whose client obeys the header and is rejected again |
| Score.Eligible | internal/routing/score.go:60-73 | the filter accepts exactly agents that are online, under their limit and have every required skill |
| Score.FreshnessOf | internal/routing/score.go:93-106 | freshness is the time since the last assignment, cut to 0 to 30 minutes and never assigned counting as 30, as a share of 30 minutes |
| Score.OrderSpelledOut | internal/routing/score.go:78-131 | what the order is: more spare slots first; then who was left alone for 30 minutes or never assigned; else who was assigned earlier; then the smaller id |
| Score.ScoreIsLexicographic | internal/routing/score.go:78-131 | comparing weighted scores, ties by id, is that order (spare slots, idle time in nanoseconds cut to 30 minutes, smaller id) for every ticket priority and weight |
| Score.Pick | internal/routing/score.go:108-131 | the loop returns the eligible agent that is best in that order, and none only if nobody is eligible |
| Score.BestIsUnique | internal/routing/score.go:108-131 | two listings of the same agents, in any order and for any priorities, lead to the same agent |
| Engine.FilterSkills | internal/routing/engine.go:195-213 | the flag loop keeps, in order, exactly the rows whose agent has every required skill |
| Engine.Skilled | internal/routing/engine.go:195-213 | an agent survives the filter if and only if it was listed and has every required skill |
| Engine.Engine.LockForRoute | internal/routing/engine.go:64-76 | begins a routing transaction on a lockable ticket, or reports it missing |
| Engine.Engine.LockForEscalate | internal/routing/escalation.go:41-77 | works out the starting tier (given, else the assignee's role) and goes from agent to senior_agent and from there to supervisor, or refuses |
| Engine.Engine.PickAgent | internal/routing/engine.go:78-84 | picks the best agent on the loads committed at that moment; one who is active, online, has a free slot and every required skill, or for an escalation the target role; fails and rolls back exactly when there is no such agent |
| RoutingState.LastAtIsLatest | internal/routing/engine.go:171-183 | an agent's last assignment is the latest of its rows, or the epoch if it has none |
| Engine.Engine.WriteAndCommit | internal/routing/engine.go:86-125 | the writes of Route and Escalate, table by table: assignee and state, an assignment row with the previous agent, one more load, and for an escalation one less for the previous agent, not below zero |
| RoutingProofs.OverbookingIsBounded | internal/routing/engine.go:64-213 | in every interleaving with at most K transactions open, bulk assignments and state changes in between included, load plus picks in flight is at most the agent's limit plus K - 1; with K = 1 the limit holds; no two transactions hold one ticket |
| RoutingWitnesses.OverbookingIsReached | internal/routing/engine.go:64-125 | for every K there is a run that brings an agent to its limit plus K - 1 |
| RoutingBooks.LoadsMatchHistory | internal/routing/escalation.go:92-130 | over every run, bulk assignments included, an agent's load is its assignment rows minus the escalations that took a ticket from it plus the times one of these found no load to take; it covers the tickets held but for strays; total load follows |
| RoutingBooks.BooksAreExactWithoutBulk | internal/routing/escalation.go:92-130 | in runs without bulk assignments: load is rows minus escalations and at least the tickets held, no drop is missed, rows chain, and the newest row names the assignee |
| RoutingBooks.AssignmentsChainIff | internal/routing/engine.go:86-125 | each ticket's rows chain from previous agent to next if and only if no commit ever takes a ticket that a bulk assignment has left with somebody else than its newest row names |
| RoutingBooks.AssigneeIsLastAgentIff | internal/ticket/bulk.go:38-75 | a ticket's assignee is the agent on its newest assignment row exactly unless a bulk assignment has since given it to somebody else |
| RoutingBooks.FloorIsNeverHit | internal/routing/escalation.go:119-127 | the zero floor never stops a drop for an agent from whom no stray ticket was ever escalated |
| RoutingBooks.MissNeedsStray | internal/routing/escalation.go:119-127 | a drop finds nothing to take only if this or an earlier escalation took a ticket no assignment row had given to that agent |
| RoutingWitnesses.FloorCanBeHit | internal/routing/escalation.go:108-127 | a ticket bulk-assigned to an idle agent and escalated: the floor is hit and the rows do not chain |
| RoutingBooks.EscalationsClimb | internal/routing/escalation.go:22-77 | when the tier is read from the assignee, each escalation goes exactly one tier up, so at most two follow each other without a routing or a bulk assignment |
| RoutingBooks.AtMostTwice | internal/routing/escalation.go:22-77 | without bulk assignments the rows show at most two escalations of a ticket in a row |
| RoutingProofs.EveryRunKeepsInv | internal/routing/engine.go:64-125 | row locks, the capacity bound and non-negative loads hold in every reachable state |
| Queue.WorkList | internal/routing/queue.go:56-80 | the seen-map loop over both scans keeps the first reference to each ticket |
| Queue.SweepRoutesEachOnce | internal/routing/queue.go:56-87 | no ticket is routed twice in a sweep, none scanned is lost, and one found by both scans keeps the first scan's reason |
| Queue.ReleaseIsIdempotentIff | internal/routing/queue.go:172-195 | releasing a ticket's capacity twice is the same as once if and only if there was nothing to release or the load was at most 1 |
| AuditEvent.ComputeHash | internal/audit/event.go:69-95 | feeding the hasher field by field hashes the canonical bytes |
| AuditEvent.ValidIff | internal/audit/event.go:46-64 | an event is accepted if and only if it has a tenant, an actor that is agent, system, customer or connector, an action and a correlation id; the first of these missing is reported |
| AuditEvent.CanonicalLayout | internal/audit/event.go:69-95 | the hashed bytes, place by place: number and time in eight bytes each, most significant first, the tenant, actor, action, resource, correlation id and payload, the previous hash |
| AuditEvent.CanonicalEqualIff | internal/audit/event.go:69-95 | equal bytes if and only if seq, time, tenant, previous hash and the concatenated middle are equal |
| AuditEvent.SameShapeIsBound | internal/audit/event.go:69-95 | among rows whose texts have the same widths, equal bytes if and only if every field is equal |
| AuditEvent.MiddleIsAmbiguous | internal/audit/event.go:66-95 | for every row with two bytes of action there is another valid row with the same hashed bytes |
| AuditChain.EqualBytes | internal/audit/writer.go:170-180 | the byte loop decides equality |
| AuditChain.Walk | internal/audit/writer.go:140-166 | accepts only chains; otherwise names the first row that is not linked and which of its two checks fails first |
| AuditChain.Verify | internal/audit/writer.go:129-166 | accepts exactly the ledgers whose rows ordered by (ts, seq) form a chain from the zero hash |
| AuditChain.ByTimeSorts | internal/audit/writer.go:129-140 | the query's view has the same rows in strictly increasing (ts, seq) order |
| AuditChain.HeadPinsHistory | internal/audit/writer.go:129-166 | two accepted ledgers with one head hash the same bytes row by row back to the start, or exhibit a collision or a preimage of the zero hash |
| AuditChain.HeadPinsFixedFields | internal/audit/event.go:69-99 | so they have equal length and agree on seq, time, tenant, previous hash and hash of every row |
| AuditWriter.Writer.Bootstrap | internal/audit/writer.go:39-59 | loads the hash and seq of the last row by (ts, seq), or the genesis values; a failing query leaves the writer as it was |
| AuditWriter.Writer.Append | internal/audit/writer.go:64-125 | validates, refuses before bootstrap, takes a seq that a late failure burns, links, stores and advances the cache |
| AuditWriter.AppendSpelledOut | internal/audit/writer.go:64-125 | an append is stored exactly if the event is valid, the writer ready and no statement fails; a failure after the number was taken burns it, any other changes nothing |
| AuditWriter.FilledSpelledOut | internal/audit/writer.go:97-105 | the stored row has the next number, the time cut to microseconds, the cached hash and its own |
| AuditWriter.BootReadsNewest | internal/audit/writer.go:39-59 | the cached hash and number are those of the row that is last by time, then number, or 32 zero bytes and 0 |
| AuditWriter.StoreRoundTrips | internal/audit/writer.go:182-187 | storing empty text, and no other, as NULL and scanning it back loses nothing |
| AuditWriter.HonestRunVerifies | internal/audit/writer.go:39-166 | every run of bootstraps, appends, failures, burnt seqs and restarts under a clock that does not run back is accepted, and the cached hash is the head throughout |
| AuditWriter.HonestRunIsConsistent | internal/audit/writer.go:64-125 | in such runs rows are linked in insertion order, seqs and times ascend, and the cache is the tail |
| AuditWriter.VerifyAcceptsIffChronological | internal/audit/writer.go:39-140 | whatever a run consists of, restarts after the clock ran back included, Verify accepts its ledger if and only if no row is earlier than the one stored before it, unless the rows exhibit a collision |
| AuditWriter.ClockBackIsRejected | internal/audit/writer.go:89-140 | two appends with the clock running back in between are rejected, short of a collision |
| AuditWriter.EveryRunIsWritten | internal/audit/writer.go:39-125 | in every run rows are hashed and seqs ascend, and either the cache is the latest row or the first row whose clock ran back links to a later one |
| AuditWriter.ChainAcceptedIffChronological | internal/audit/writer.go:127-140 | the same for any ledger that is a chain in seq order, however it came about |
| AuditWriter.MisplacedRowCollides | internal/audit/writer.go:129-166 | a row that also fits an earlier place shows two different rows with one hash |
| TicketState.OpeningIsLegalIff | internal/ticket/state.go:53-66 | moving to open is an edge or a stutter exactly when the ticket is not resolved or closed |
| TicketState.ReopeningIsLegalIff | internal/ticket/state.go:53-66 | moving to reopened is an edge or a stutter exactly when the ticket is resolved, closed or reopened already |
| TicketState.NoSelfEdge | internal/ticket/state.go:53-66 | no state has an edge to itself |
| TicketState.EdgesByTarget | internal/ticket/state.go:53-81 | the graph, target by target: open from new, pending, on hold and reopened; pending and on hold from open; resolved from open, pending and on hold; closed from resolved; reopened from resolved and closed; new never |
| TicketRepo.Repo.ChangeState | internal/ticket/repo.go:310-369 | succeeds exactly along those edges, with the right error otherwise; stamps resolved_at or closed_at anew when that is the target and leaves the rest alone; publishes once if the hook is set |
| TicketRepo.Repo.BulkState | internal/ticket/bulk.go:93-130 | runs the batch with the per-ticket hook detached, restores it, and publishes one envelope naming exactly the tickets moved; a transaction that cannot begin is one more failure, any other database error stops the batch, keeps what was moved and publishes nothing |
| TicketRepo.BulkMovesExactly | internal/ticket/bulk.go:93-130 | of the tickets whose transaction began exactly those with an edge to the target move, each reported once even if ids repeat; nothing else changes |
| TicketRepo.BulkAccountsForAll | internal/ticket/bulk.go:93-130 | successes and failures together are one per id; "not found" is said of missing tickets whose transaction began, and of every missing ticket unless its transaction could not begin |
| TicketRepo.BulkLeaves | internal/ticket/bulk.go:93-130 | what a batch leaves of each ticket: moved and stamped by its first transaction that begins, if its state has an edge to the target, else as it was |
| TicketRepo.Repo.BulkAssign | internal/ticket/bulk.go:27-75 | the update touches exactly the matching open tickets, a new one becoming open when it gets an agent, and counts them once each |
| TicketRepo.LimitedCallerCannotSteal | internal/ticket/bulk.go:27-75 | a caller limited to their own queue changes only unassigned or own tickets that are not done |
| TicketLifecycle.StepIsLegalIff | internal/ticket/state.go:53-81 | one step of any of the five writers moves tickets only along edges, except exactly when Route lands on done work or an ingress reopening on a ticket moved on since it was read |
| TicketLifecycle.HistoryIsPathIff | internal/ticket/ingress.go:292-320 | over every interleaving, the read and the later write of a reopening apart (one at a time per ticket, under the conversation's row lock), each ticket's history is a path in the graph if and only if neither of these two happens |
| TicketLifecycle.SweepCanMisroute | internal/routing/queue.go:56-119 | a concrete interleaving in which the sweep's Route takes a resolved ticket to open |
| TicketLifecycle.ReopeningCanBeLate | internal/ticket/ingress.go:297-320 | a resolved ticket is reopened by somebody else and routed between the read and the write of a reopening, which then takes it from open back to reopened |
| TicketLifecycle.ClosedAfterResolved | internal/ticket/repo.go:335-355 | under a clock that does not run back a closed ticket carries both stamps, resolved no later than closed, whatever the other writers did |
| TicketLifecycle.StampsAreLastReadings | internal/ticket/repo.go:334-347 | over every run, resolved_at and closed_at are the clock readings of the last change that took the ticket into resolved and into closed |
| TicketLifecycle.StepSpelledOut | internal/ticket/repo.go:310-369 | what each of the five writers leaves of a ticket, in literal states |
| Ordering.OrderingIsUnique | internal/ticket/repo.go:202-265 | rows told apart by their sort keys can be ordered in one way only |
| Ordering.CutsAgree | internal/ticket/repo.go:202-265 | sorting a cut of one ordering again, against cutting another ordering: same keys, and same rows if keys tell rows apart |
| TicketList.TagRollup | internal/ticket/repo.go:230-241 | the one grouped pass gives every visible ticket the tags a lookup of its own would |
| TicketList.List | internal/ticket/repo.go:145-305 | a limit outside 1 to 200 falls back to 50, the first rows of the filtered order are joined, and each row shows what JoinedShows says |
| TicketList.JoinedShows | internal/ticket/repo.go:244-265 | a row shows its conversation's channel and customer, the number of its messages, the body of the newest one, and exactly the tags linked to the ticket in slug order |
| TicketList.MatchingIsFilter | internal/ticket/repo.go:202-225 | each ticket is considered as often as it is stored if the filters, spelled out, let it through, and not at all otherwise |
| TicketList.TwoStagesAreOne | internal/ticket/repo.go:182-265 | the page of the two-stage query has the same (priority, created) sequence as joining all, sorting and cutting last, however ties fall; the very same rows if no two matching tickets tie |
| TicketList.TagsAreExactlyLinks | internal/ticket/repo.go:230-241 | a row's tags are exactly the tags linked to its ticket, each once, in slug order |
| TicketList.PageIsMostUrgent | internal/ticket/repo.go:226-228 | a matching ticket is missing from the page only if the page is full of tickets more urgent, or as urgent and no younger |
| Ingress.Consumer.FindOrCreateCustomer | internal/ticket/ingress.go:212-261 | the customer found by tenant, channel and external id, or a new one |
| Ingress.Consumer.FindOrCreateConversation | internal/ticket/ingress.go:273-286 | one conversation per thread, its customer overwritten; an empty thread never matches |
| Ingress.Consumer.FindOrOpenTicket | internal/ticket/ingress.go:292-343 | the newest ticket of the conversation, reopened if done, else a new one |
| Ingress.Consumer.HandleEvent | internal/ticket/ingress.go:112-208 | the whole transaction, message dedup included, is the step the theorems are about |
| Ingress.KindsThatCount | internal/ticket/ingress.go:184-208 | exactly the eight kinds of messages and identifications with a tenant reach the database; receipts, typing and all others leave it alone |
| IngressProofs.HandleShape | internal/ticket/ingress.go:135-182 | what an event writes, table by table: on a known thread its ticket reopened if done, else a new conversation with a new ticket of priority 3; and its message |
| IngressProofs.NoDuplicateRows | internal/ticket/ingress.go:273-369 | transactions one at a time: from an empty database, whatever is delivered however often, no tenant has a message id twice and each conversation has exactly one ticket |
| IngressProofs.RedeliveryIsAbsorbedIff | internal/ticket/ingress.go:292-369 | handling a recorded event again leaves all but the conversation's customer unchanged if and only if it has a message id and a thread and its ticket is not done |
| IngressProofs.LateRedeliveryReopens | internal/ticket/ingress.go:312-320 | any keyed event handled once, its ticket resolved, and delivered again reopens that ticket |
| IngressProofs.ExactlyOnceEffect | internal/ticket/ingress.go:112-182 | any delivery sequence of keyed events leaves the conversations, tickets and messages of the same sequence without later duplicates |
| IngressProofs.CrashesAreInvisible | internal/ticket/ingress.go:112-129 | rolled-back attempts and lost acknowledgements add nothing to that |
| IngressProofs.ExactlyOnceEverywhere | internal/ticket/ingress.go:135-182 | transactions one at a time: with one customer per thread the whole database is equal, row for row |
| IngressProofs.RedeliverySwapsOwner | internal/ticket/ingress.go:273-286 | otherwise a redelivery after another customer wrote on the thread always changes the conversation's customer |
| IngressHistory.DuplicatesAreHarmlessIff | internal/ticket/ingress.go:112-182 | with agents resolving and closing tickets in between, later duplicates of keyed events make no difference to conversations, tickets and messages at any time if and only if none arrives while its ticket is done |
| IngressWorkers.CommitIsSerialIff | internal/ticket/ingress.go:153-182 | in any interleaving of transactions a commit leaves what the event handled in one go at that moment would leave, if and only if neither was the ticket resolved or moved on nor did the message come since they were read |
| IngressWorkers.OneTicketSideBySide | internal/ticket/ingress.go:273-321 | in any interleaving each conversation has exactly one ticket |
| IngressSerial.SideBySideIsSerialIff | internal/ticket/ingress.go:135-182 | any number of workers leave, at every moment, the tables of the events handled one after the other in commit order, if and only if no transaction commits on such a change |
| IngressSerial.NoMessageTwiceIff | internal/ticket/ingress.go:349-369 | no tenant has a message id twice, if and only if no transaction commits a message that came since it looked |
| IngressSerial.ExactlyOnceSideBySide | internal/ticket/ingress.go:112-182 | any number of workers, with rollbacks and redeliveries, leave the conversations, tickets and messages of the history without its duplicates, if events are keyed, a message id has one thread, no ticket is changed between a transaction's read and its commit, and none is done when a duplicate is committed |
| IngressWitnesses.AloneIsHandle | internal/ticket/ingress.go:135-182 | a transaction nobody disturbs is the one the sequential theorems are about |
| IngressWitnesses.FailedLeavesNothing | internal/ticket/ingress.go:153-182 | in any interleaving, a transaction that fails after any of its statements leaves the tables, the locks and the other transactions as they were |
| IngressWitnesses.CustomerCanDouble | internal/ticket/ingress.go:212-261 | two deliveries of any event at once can leave two customer rows |
| IngressWitnesses.MessageCanDouble | internal/ticket/ingress.go:349-369 | two deliveries of any event without a thread can write its message twice |
| IngressWitnesses.ReopeningCanBeMissed | internal/ticket/ingress.go:297-320 | a message that comes while its ticket is being resolved can leave it resolved |
| Subjects.MatchSubject | internal/webhooks/match.go:15-42 | the index loop with its equality shortcut decides the token-match relation |
| Subjects.MatchAny | internal/webhooks/match.go:47-57 | true if there is no pattern or some pattern matches |
| Subjects.MatchIsPointwise | internal/webhooks/match.go:15-42 | closed form: tokens agree over the whole length, or up to the first tail wildcard with a token left |
| Subjects.TailPatternIsPrefix | internal/webhooks/match.go:15-42 | for a wildcard-free q, "q.>" matches exactly the subjects that start with "q." |
| Subjects.StarWidens | internal/webhooks/match.go:15-42 | replacing a token by a star loses no match |
| Subjects.TailWidens | internal/webhooks/match.go:15-42 | replacing a suffix by a tail wildcard loses no match |
| Subjects.SplitOfConcat | internal/webhooks/match.go:21-22 | splitting at the dots of a concatenation gives both token lists in order |
| Subjects.JoinOfSplit | internal/webhooks/match.go:21-22 | joining the tokens gives the subject back |
| Deliver.BackoffFor | internal/webhooks/deliver.go:199-212 | the multiplying loop with its early exit is min(4^(n-1), 300) for every n |
| Deliver.ClassesByCode | internal/webhooks/deliver.go:110-149 | tried again exactly on a failed transport, 408, 429 or 500 and above; delivered exactly on 200 to 299 |
| Deliver.ActiveIff | internal/webhooks/deliver.go:154-193 | over any outcomes, failures are the transients since the last delivery, and the subscription is active if and only if no outcome was permanent and no delivery-free stretch held 50 transients |
| Deliver.InactiveStaysInactive | internal/webhooks/deliver.go:154-193 | no outcome turns a subscription back on |
| Dispatcher.System.ActiveSubscriptions | internal/webhooks/dispatcher.go:103-124 | exactly the tenant's active subscriptions whose patterns match |
| Dispatcher.System.FanOutEvent | internal/webhooks/dispatcher.go:76-89 | queues attempt 1 for each of them and for no other |
| Dispatcher.System.Enqueue | internal/webhooks/dispatcher.go:127-147 | a message id the stream accepted less than its window ago is dropped |
| Dispatcher.System.RecordOutcome | internal/webhooks/deliver.go:154-193 | two statements, each of which may fail by itself |
| Dispatcher.System.UpdateCounters | internal/webhooks/deliver.go:170-192 | reset, disable, or bump with auto-disable at 50, or nothing if the statement fails |
| Dispatcher.System.InsertRow | internal/webhooks/deliver.go:158-168 | the delivery row, or nothing if the statement fails |
| Dispatcher.System.LoadSubscription | internal/webhooks/dispatcher.go:221-233 | a message whose subscription is gone or disabled is terminated, the others go on |
| Dispatcher.System.Deliver | internal/webhooks/deliver.go:103-149 | the request and the class of its answer |
| Dispatcher.System.AckOrRetry | internal/webhooks/dispatcher.go:243-266 | after a transient failure of attempt 1 to 4 the next one sleeps 4, 16, 64 or 256 seconds; after anything else, and after the fifth, the message is done with |
| Dispatcher.System.HandleMessage | internal/webhooks/dispatcher.go:212-267 | one message handled without interruption is these steps in this order; what it leaves of queue, log and counters is stated for every response code |
| Dispatcher.System.Requeue | internal/webhooks/dispatcher.go:271-290 | the timer publishes the next attempt under its own id |
| DispatcherProofs.RetriesAreBoundedAndSpaced | internal/webhooks/dispatcher.go:212-290 | in every run whose fan-outs repeat no event, with any number of workers, failing statements and dying handlers: the k-th attempt for a subscription and event is numbered k, k is at most 5, and attempt n+1 comes only after a transient n and at least 4, 16, 64 or 256 seconds later |
| DispatcherRetries.TransientsAreRetried | internal/webhooks/dispatcher.go:212-290 | the retries do come: in every orderly run that loses no message, an event whose last of fewer than five attempts failed transiently has exactly one item alive, the attempt still being recorded or the next one, asleep for exactly its 4, 16, 64 or 256 seconds since, queued or loaded, unless a worker found the subscription gone or disabled |
| DispatcherRetries.ExactlyFiveAttempts | internal/webhooks/dispatcher.go:212-290 | an endpoint that always answers 503 gets exactly five attempts, 0, 4, 20, 84 and 340 seconds after the first with prompt workers, and nothing is left |
| DispatcherProofs.PromptIsOrderly | internal/webhooks/dispatcher.go:127-147 | a run repeats no event if each is fanned out once, or again only within the window of its last accepted publication |
| DispatcherProofs.RepeatIsLate | internal/webhooks/dispatcher.go:127-147 | a repeat always comes later than the window after the id was last accepted |
| DispatcherProofs.RepeatIsTheExactDanger | internal/webhooks/dispatcher.go:127-147 | in every state reached in order, a fan-out to an active subscription allows a continuation that breaks the numbering if and only if it repeats the event: the window is over and something of the event is alive or was attempted |
| DispatcherProofs.TwoMinutesAreTooShort | internal/pkg/natsx/natsx.go:115-122 | with the two-minute window the stream gets by default, a fan-out two minutes after the first repeats it |
| DispatcherHealth.AutoDisableIff | internal/webhooks/deliver.go:154-193 | over every run a subscription is active if and only if the outcomes counted for it hold no permanent one and no delivery-free stretch of 50 transients |
| DispatcherHealth.DisabledIsFinal | internal/webhooks/dispatcher.go:212-233 | a disabled subscription stays disabled, and only handlers that had loaded it before still send, once each |
| DispatcherHealth.LoadedHandlersStillSend | internal/webhooks/dispatcher.go:212-241 | all of those can still send, so that bound is exact |
| DispatcherHealth.HealthFollowsCounts | internal/webhooks/deliver.go:154-193 | counters and flag of every subscription are what its counted outcomes say, in the order they were counted |
| DispatcherHealth.RecordsAreHonest | internal/webhooks/deliver.go:154-193 | every delivery row and every counted outcome stands for an attempt that was made, and no attempt is recorded or counted twice |
| DispatcherHealth.LogAndCountersCanPart | internal/webhooks/deliver.go:158-190 | in any fresh system a delivery can be counted and not logged, and logged and not counted |
| Rollup.Round | internal/analytics/materialise.go:150-152 | rounding half away from zero: off by at most one half, and halves go away from zero |
| Rollup.GroupsPartition | internal/analytics/materialise.go:134-177 | summed over the channels, any measure counts each of the day's tickets exactly once |
| Rollup.FilterIsHarmless | internal/analytics/materialise.go:175-177 | the day filter hides nothing from any measure but the reassignment count |
| Rollup.ValuesCount | internal/analytics/materialise.go:138-172 | what counts for each measure on a day of 86,400 seconds: created, resolved, closed or reassigned then, and for first contact that the conversation has no other ticket |
| Rollup.ChannelRowNumbers | internal/analytics/materialise.go:134-177 | a channel's counts are the numbers of its tickets created, resolved and closed that day |
| Rollup.ChannelAverageIsAccurate | internal/analytics/materialise.go:150-152 | its average resolution is within half a second, and there is none exactly if nothing was resolved |
| Rollup.ChannelRateIsAccurate | internal/analytics/materialise.go:165-172 | its first-contact rate is within half a ten-thousandth of the number of sole tickets over the resolved ones |
| Rollup.DirectSumsAreNumbers | internal/analytics/materialise.go:134-177 | the sums the row for all channels is compared with are numbers of tickets |
| Rollup.TermsAreNear | internal/analytics/materialise.go:150-172 | the weighted rounded averages of the channels are off by at most half a unit per resolved ticket |
| Rollup.AllRowIsAccurate | internal/analytics/materialise.go:129-209 | the row for all channels has exact counts, an average resolution within one second of the true mean and a first-contact rate within 0.0001 of the true rate |
| Materialise.Materialiser.RefreshDay | internal/analytics/materialise.go:114-209 | replaces exactly the day's rows: one for each channel with work that day, one for all channels if there is any, other days untouched |
| Materialise.Materialiser.RefreshTenant | internal/analytics/materialise.go:36-110 | the run with its failure points, an unreadable cursor among them, leaves cursor and rows as the run function says |
| Materialise.Materialiser.ReadCursor | internal/analytics/materialise.go:84-101 | the stored cursor, or the own seed if there is none or it cannot be read, inserted only if there is none |
| Materialise.RefreshedIsOk | internal/analytics/materialise.go:114-209 | after a refresh the day holds its roll-up and nothing else, and other days are untouched |
| MaterialiseProofs.CursorNeverLies | internal/analytics/materialise.go:36-125 | in any interleaving of runs, each stopped anywhere, unless one overshoots (goes on from its own seed although a day it skips is not right): the cursor stays behind today and every day after the seed up to it holds exactly its roll-up |
| MaterialiseProofs.ApartIsOrderly | internal/analytics/materialise.go:84-101 | no run overshoots as long as none starts between another's finding no cursor and inserting one and none fails to read a cursor older than 90 days, so any such series of runs is covered |
| MaterialiseProofs.OvershootSkipsADay | internal/analytics/materialise.go:92-101 | an overshooting run that completes one day takes the cursor past the wrong day |
| MaterialiseProofs.OvershootIsTheExactDanger | internal/analytics/materialise.go:84-110 | in every state reached in order, a step allows an orderly continuation with a wrong day behind the cursor if and only if it overshoots |
| MaterialiseProofs.OvershootHappens | internal/analytics/materialise.go:84-101 | two first-ever runs on either side of midnight can do that, exactly if the day between their seeds is not right |
| MaterialiseProofs.BlindRunOvershoots | internal/analytics/materialise.go:84-101 | so can a run that fails to read its cursor, exactly if a day between it and 90 days ago is not right |
| MaterialiseProofs.CursorNeverRetreats | internal/analytics/materialise.go:103-110 | the stored cursor never decreases and the seed is set once |
| MaterialiseProofs.FinishedRunCoversAllDays | internal/analytics/materialise.go:36-55 | when any run ends its loop in an orderly history, all days from the seed to the eve of its start are right |
| MaterialiseProofs.RunIsAWorker | internal/analytics/materialise.go:36-55 | one uninterrupted run is a run of steps of that interleaving model |
| MaterialiseProofs.CompletedRunIsIdempotent | internal/analytics/materialise.go:33-55 | a completed run leaves the cursor at yesterday, or where it was if later, and a second run changes nothing |
| MaterialiseProofs.ResumedRunCatchesUp | internal/analytics/materialise.go:44-53 | wherever a run stops, the next one ends with the mart the unstopped run would have left |
| Fanout.WrittenIsSubsequence | internal/realtime/server.go:136-145 | in every interleaving of publishing, forwarding and writing, what a socket gets from one channel is an ordered subsequence of what was published |
| Fanout.FramesAreAccountedFor | internal/realtime/hub.go:81-106 | every frame is written, under way or counted as dropped, the buffers keep their bounds, and a burst of at most 16 per channel and 32 per socket drops nothing |
| Fanout.ForwardToSocket | internal/realtime/server.go:136-145 | with no writer the socket buffer takes the oldest frames that fit and loses the rest |
| Hub.Hub.Subscribe | internal/realtime/hub.go:49-68 | appends a fresh open channel and starts the Redis subscription only for the first |
| Hub.Hub.Unsubscribe | internal/realtime/hub.go:112-142 | removes in place keeping the order of the rest, closes the channel, and tears down after the last; does nothing if closed or unknown |
| Hub.Hub.Close | internal/realtime/hub.go:147-168 | closes every listed channel once, in whatever order the maps are walked, and only the first time |
| Hub.Hub.Pump | internal/realtime/hub.go:92-103 | each subscriber of the channel gets the frame once if it has room; nobody else's buffer changes |
| Hub.RemovedAt | internal/realtime/hub.go:120-128 | removal of the first match keeps what is before and after it in order |
| Hub.RunKeepsInv | internal/realtime/hub.go:49-168 | in every run the three maps have the same keys, lists are non-empty and duplicate-free, no channel is in two lists, and a channel is open exactly while listed |
| Hub.ChannelsCloseOnce | internal/realtime/hub.go:108-168 | no channel is closed twice, even across Close and late unsubscribes; one no longer listed is closed; after Close none is open |
| HubPumps.SendPanicsIff | internal/realtime/hub.go:92-103 | a pump's next send panics exactly if that subscriber has left since the list was copied |
| HubPumps.GentleIsSafe | internal/realtime/hub.go:81-168 | in every interleaving of subscribing, leaving, closing, receiving and sending, no send meets a closed channel unless somebody a pump has copied and not served leaves |
| HubPumps.RemovalIsTheExactDanger | internal/realtime/hub.go:92-142 | in every state reached without that, a step lets the sends under way panic if and only if it is such a departure |
| HubPumps.LeavingCanPanic | internal/realtime/hub.go:92-132 | one subscriber leaving between the copy and its send |
| HubPumps.SentInOrder | internal/realtime/hub.go:49-106 | as long as no overtaken pump receives, every subscriber is sent each message at most once and in the order of publication |
| HubPumps.OvertakingIsTheExactDanger | internal/realtime/hub.go:54-142 | publishing and pumping alone can send somebody a message twice or late if and only if a pump has a successor on a channel with subscribers |
| HubPumps.OvertakingHappens | internal/realtime/hub.go:49-142 | leaving and coming back is enough for that |

## Left out

- More than one live audit Writer: the cached previous hash is not reloaded under the advisory lock.
- ReleaseOnClose is modelled as it is written, but nothing in the repository calls it, so no run contains it.
- Materialise.Materialiser.RefreshDay: the first-response, SLA, satisfaction and per-agent figures of the transaction
  are not modelled.
- Rollup.AllRowIsAccurate: first-response averages, SLA rates, satisfaction scores and per-agent rows are not modelled; the first-response weights do not match the tickets averaged, so the 'all' figure is not close to the mean.
- Fanout.WrittenIsSubsequence: one pump feeds a channel at a time; what a cancelled pump can do beside its successor is
  in HubPumps, which stops at the send and does not follow the frame to the socket.
- Hub.Hub.Pump: the method is one uninterrupted pass; passes that others run into are in HubPumps.
- Hub.Hub.Subscribe: requires an open hub, because subscribing after Close writes to a nil map.
- TicketList.List: the text search is given by its set of matching messages, slugs by their collation rank, and of two messages created at one instant the later row counts as last.
- TicketRepo.Repo.BulkState: two batches at once share the hook field, so one can save and restore the other's detached hook; batches are taken one at a time.
- TicketRepo.Repo.ChangeState: updated_at and the returned row's other columns are not modelled.
- Dispatcher.System.InsertRow: status text, response body and latency are not modelled.
- Dispatcher.System.UpdateCounters: disabled_at and the disable reason are not modelled.
- Dispatcher.System.Deliver: payload decoding, signing and the HTTP request are represented by the response only.
- Ingress.Consumer.FindOrCreateCustomer: display names and the back-fill of a customer's profile are not modelled.
- IngressProofs.ExactlyOnceEverywhere: the conversation's customer is followed for transactions one at a time only; the interleavings of IngressWorkers leave that column out.
- AppendMessage for agents (first-response stamp) and manual ticket creation: single updates without a property over runs.
- Float rounding in scores and in the Lua script, and the script's conversion of tokens to text and back.
- More than one tenant in routing; in the other components the tenant is part of the key where the code makes it so.
- HTTP handlers, connectors, OAuth, SMTP, storage clients, configuration, metrics, logging and the web interface.
- Small validators, plain CRUD, the data-subject-request states and survey tokens: they would only add easy members.
