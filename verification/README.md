# Verified model of the ticket engine

The engine reserves seats with Redis hold keys, records orders in PostgreSQL, and settles them through a
Redis stream that workers read at least once. Around that core stand a sliding-window rate limiter, a
cache shield for seating maps, a WebSocket room index and a nearby-event search. This project models
these parts and proves what they promise for every input and every run.

## How the model is built

**Reservation and settlement.** `Protocol` is a step system. Its state is the hold keys, seat rows, order
rows, stream and consumer group (`Domain.Store`), plus one program counter for each request in flight and
for each delivered entry. A step is one await of one process (`Advanced`), a stop of a process between two
awaits, time passing, the eviction of a hold key, the creation of the group, a read of new entries, or a claim
of idle ones. `Run` applies any list of steps, so a statement about `Run` is a statement about every
interleaving. A database transaction is one step, except that the read of a settlement is a step of its own,
as it is under read-committed isolation. An id drawn by a step is one that was never drawn before. `Service`
holds the same requests as methods over shared mutable state: before every await the other clients may do
anything to that state (`others[k]`), and each method is proved to be, await by await, the process of the
step system. `Refinement.ProcessIsRequest` closes the circle: each process of each interleaved run is such a
method run, and so is each batch of a worker (`Refinement.BatchIsTogether`).

**Draining.** `Drain`, `DrainRuns` and `DrainSchedules` follow any number of workers whose batches overlap.
An entry is attended if it is acknowledged or some task on it will not be refused; only claims shorten the list
of pending entries that nobody attends to. Callers are honest (`Releases.Honest`) if they quote only hold ids
that a response or a published event has shown.

**Rate limiter.** `SlidingWindow` replays a client's calls through the script's sorted set. Each call has a
Redis time and a time on the node that made it. `RateLimiter.Limiter` is the middleware.

**Stampede shield.** `Stampede` is a step system of concurrent readers over the cache key, the mutex key and
the database row of one event, with time, crashes, writes to the row, clears and evictions as steps.
`StampedeService` holds the reader's methods in the style of `Service`.

**Rooms.** `Rooms.Server` is the server object with its two indexes. A JavaScript `Set` is a list without
duplicates in insertion order, and a broadcast loops over the live list while members leave it.

**Nearby events.** `Nearby` parses both reply encodings and selects the closest events.

A key with a time to live of n ms is live for n ms after it is set and absent from then on.

## What the proofs found

- A seat never has two BOOKED orders, in every run (`Booking.NoDoubleBooking`, `Settlement.NeverOversold`).
  That a seat row also tells the truth about PROCESSING orders is false in general. The seat update at the end of
  `releaseSeat` names the seat and not the hold, and only order transactions make a row HELD, so a release that
  finds the row HELD always takes it away from an order. `Witnesses.ReleaseRace` is a run in which every
  request succeeds and a paid-for seat is offered again. The exact law is
  `ReleaseFree.TruthfulIffNeverFlipped`: a row is truthful if and only if no release flipped it, and
  `ReleaseFree.FlipStrandsOrder` says when a release flips it. An order left behind on a seat that is then
  sold stays PROCESSING for ever (`ReleaseFree.LostOrderStaysLost`).
- In every reachable state, releases and crashes included, an order can still be settled if and only if it is
  BOOKED already, or its seat is not SOLD and its entry is in the group or owed by a request that still runs
  (`Settleable.SettleableExactly`, and `Settleable.EntrySettleableExactly` for entries). Three kinds of
  order are left behind for ever, each shown by a run of honest requests: one whose entry is older than
  the consumer group, which starts at the end of the stream as the first worker finds it
  (`Witnesses.EarlyOrderIsSkipped`); one whose request stopped before its XADD (`Witnesses.StoppedOrder`); and one
  whose seat went to another order after a release flipped the row (`Witnesses.LostOrder`).
- After a release-free history the worker's own claims settle every order that can be settled
  (`Settleable.WorkerSettlesExactly`). With releases they need not: a claim looks at the first hundred pending
  entries only, and entries of lost orders stay pending for ever, so behind a hundred of them an abandoned entry is
  never claimed again (`Starvation.StarvedNeverSettles`; `Starvation.StarvedOrder` is such a run).
- An undisturbed order is accepted exactly if its event exists, the row is AVAILABLE and no hold is live, the
  caller's own included (`ServiceFacts.OrderAcceptedIff`). Between requests the hold protects less: an order
  request takes its own hold and does not look at it again before its transaction, so one that is slower than its
  ten minutes is accepted under a hold granted to somebody else meanwhile (`Witnesses.LateOrderPassesHold`).
  That is the only way past a hold, as long as no hold key is evicted and callers quote only hold ids they were
  shown (`OrderHolds.PassesHoldExactly`, `OrderHolds.HoldKeepsOrdersOff`).
- An order whose transaction is refused leaves a hold that nobody can name. No release can end it: it blocks its
  seat for exactly its ten minutes (`OrderHolds.RefusedHoldStays`; `Witnesses.RefusedOrder` is such a run).
- The 60 s spacing of seating-map hydrations depends on owners writing within their 5 s lease:
  `StampedeStaleness.StalledOwner` is a run without crash or eviction that hydrates twice within 5 s. Without that
  assumption, whenever the cache is cold less than 60 s after a hydration, the last hydration's map is still
  unwritten (`StampedeShield.EarlyMissIsUnwritten`). A missing event is never cached, so every reader that takes
  the mutex asks the database for it (`StampedeShield.MissingNeverCached`).
- The engine's own README.md speaks in line 67 of a five-minute seating-map cache and in line 63 of MULTI/EXEC
  pipelines in the rate limiter; the code uses 60 s and one Lua script, and the model follows the code. The JSDoc at
  src/workers/stream-consumer.worker.ts:157 says that the drain counts handled messages; the code counts
  delivered ones.

## Model

| member | source | states |
|---|---|---|
| Service.Backend.constructor | prisma/schema/ticket.prisma:13 | a fresh system has every seat AVAILABLE and nothing held, ordered or streamed |
| Service.Backend.AtomicSeatLock | src/scripts/lua/atomic_seat_lock.lua:1-29 | takes the key for the caller exactly when the lifetime is positive and no live hold is there, and otherwise changes nothing |
| Service.Backend.ReleaseSeatScript | src/scripts/lua/release_seat.lua:4-13 | deletes the key exactly for its own user and hold id |
| Service.Backend.AcquireSeatHold | src/services/redis-lock.service.ts:47-95 | one new id per call, and the script with the effective lifetime |
| Service.Backend.FindSeat | src/services/ticket.service.ts:152-166 | the three refusals of the seat check, and passing otherwise |
| Service.Backend.CreateOrderTransaction | src/services/ticket.service.ts:173-191 | AVAILABLE to HELD together with the PROCESSING row, or nothing |
| Service.Backend.FreeSeat | src/services/ticket.service.ts:267-270 | HELD to AVAILABLE by seat, or nothing |
| Service.Backend.SettleTransaction | src/workers/stream-consumer.worker.ts:89-99 | HELD to SOLD together with the order to BOOKED, or nothing |
| Service.Backend.InitializeOrderConsumerGroup | src/workers/stream-consumer.worker.ts:69-77 | creates the group at the end of the stream; a second call changes nothing |
| Service.Backend.ReadMessages | src/workers/stream-consumer.worker.ts:133-143 | delivers the next entries, at most ten, and makes them pending |
| Claims.IdleEntries | src/workers/stream-consumer.worker.ts:145-151 | idle entries out of the first hundred pending ones, in order and at most ten; one of these is passed over only for ten earlier ones |
| Service.Backend.ClaimPendingMessages | src/workers/stream-consumer.worker.ts:145-151 | makes these entries pending anew and hands out each as it is in the stream |
| Service.Backend.XAck | src/workers/stream-consumer.worker.ts:127 | moves a pending entry to the acknowledged ones |
| Service.HoldSeat | src/services/ticket.service.ts:71-136 | is the hold process of the step system whatever others do at each await |
| Service.CreateOrder | src/services/ticket.service.ts:147-240 | is the whole order process whatever others do at each await |
| Service.ReleaseSeat | src/services/ticket.service.ts:251-286 | is the release process whatever others do at each await |
| Service.SettleOrder | src/workers/stream-consumer.worker.ts:79-101 | read and transaction as separate awaits; returns at once on BOOKED, fails on a missing order or a seat that is not HELD |
| Service.HandleEntry | src/workers/stream-consumer.worker.ts:103-131 | is the delivery process: acknowledges only after settlement, and a failure leaves the entry pending |
| Service.ProcessMessage | src/workers/stream-consumer.worker.ts:103-131 | a message of another type or version, or with a bad payload, changes nothing; any other is handled as the entry its payload denotes |
| Service.HandleBatch | src/workers/stream-consumer.worker.ts:164 | the messages of a batch are handled together, await by await in any order, other clients between any two awaits |
| Service.ProcessAvailableOrderMessages | src/workers/stream-consumer.worker.ts:161-166 | group, claim, read, then the batch together, other clients before each; returns how many were delivered |
| Refinement.ProcessIsRequest | src/services/ticket.service.ts:147-240 | every process of every interleaved run is a driven request, up to any of its awaits |
| Refinement.BatchIsTogether | src/workers/stream-consumer.worker.ts:164 | a batch inside any interleaved run is a run of the event loop that handles its messages together |
| Identity.IdsInEveryRun | src/services/ticket.service.ts:168-237 | in every reachable state a hold id belongs to at most one request, stays undisclosed until its order exists, and every order has an entry or a request that owes it |
| Delivery.RunKeeps | src/workers/stream-consumer.worker.ts:133-151 | the group's books stay a partition, tasks handle delivered entries as they are in the stream, and the stream and cursor only grow |
| Booking.CommitOrderCounts | src/services/ticket.service.ts:173-191 | an order transaction keeps every seat's counts |
| Booking.FlipSeatCounts | src/services/ticket.service.ts:267-270 | a release's seat update keeps every seat's counts |
| Booking.CommitSettlementCounts | src/workers/stream-consumer.worker.ts:89-99 | a settlement keeps every seat's counts |
| Booking.HeldSeatUnbooked | src/workers/stream-consumer.worker.ts:89-99 | a settlement that finds its seat HELD settles a PROCESSING order |
| Booking.NoDoubleBooking | src/workers/stream-consumer.worker.ts:79-101 | in every reachable state a seat has one BOOKED order if SOLD and none otherwise, and one PROCESSING order for HELD plus one for each flip |
| Settlement.OrderSettledOnce | src/workers/stream-consumer.worker.ts:79-101 | over any run, settlements of an order equal its change to BOOKED, so there is at most one |
| Settlement.SeatSoldOnce | src/workers/stream-consumer.worker.ts:89-95 | over any run, settlements on a seat equal its change to SOLD, so there is at most one |
| Settlement.WinnerStays | src/workers/stream-consumer.worker.ts:79-101 | the first settlement's order is the seat's only BOOKED order in every later state |
| Settlement.AcknowledgedIsSold | src/workers/stream-consumer.worker.ts:103-131 | in every reachable state an acknowledged entry's order is BOOKED and its seat SOLD |
| Settlement.RedeliveryIsNoOp | AI_RULES.md:85 | in every reachable state the next step of anyone handling an acknowledged entry changes nothing |
| Settlement.BookedMatchSold | src/workers/stream-consumer.worker.ts:89-99 | BOOKED orders and SOLD seats are equally many, by an injection |
| Settlement.NeverOversold | src/workers/stream-consumer.worker.ts:89-99 | in every reachable state there are never more BOOKED orders than seats |
| Settlement.RunKeepsRows | prisma/schema/booking.prisma:7-13 | no run removes an order row or changes its key fields |
| Accounting.EntryInOnePlace | src/workers/stream-consumer.worker.ts:69-77 | every entry is exactly one of skipped, undelivered, pending, acknowledged |
| Accounting.OrderStreamedOnce | src/services/ticket.service.ts:173-237 | every order has exactly one equal entry, or exactly one request between commit and XADD |
| Accounting.StreamOnlyGrows | src/services/ticket.service.ts:224-237 | no entry is dropped, rewritten or moved |
| Accounting.SkippedOrderNeverSettled | src/workers/stream-consumer.worker.ts:71 | an order whose entry is older than the group is PROCESSING in every reachable state |
| Releases.HoldNeverReturns | src/scripts/lua/atomic_seat_lock.lua:10-22 | a hold that ended never blocks its seat again |
| Releases.HoldsTakeTurns | src/scripts/lua/atomic_seat_lock.lua:10-29 | lifetimes of holds on one seat are disjoint in every run |
| Releases.ReleaseIsExact | src/services/redis-lock.service.ts:109-122 | a successful release ends exactly the hold it names and no other |
| Releases.ReleaseSparesOrders | src/services/ticket.service.ts:259-266 | with disclosed ids only, an id that a release deletes has no order before or ever after |
| Releases.OrderHoldOnlyExpires | src/services/ticket.service.ts:259-266 | with disclosed ids only, the hold of an order ends only by expiry or eviction |
| OrderHolds.OrderCoveredUntilExpiry | src/services/ticket.service.ts:168-173 | with disclosed ids and no eviction, an order request before its transaction is covered by its own hold exactly until that hold's time is over |
| OrderHolds.PassesHoldExactly | src/services/ticket.service.ts:168-191 | an order is accepted under somebody else's live hold if and only if the row is AVAILABLE, a hold is live and the request's own time is over |
| OrderHolds.HoldKeepsOrdersOff | src/services/ticket.service.ts:98-116 | while a granted hold lives no order for its seat appears, if no order request for the seat runs its transaction late |
| OrderHolds.RefusalOrphans | src/services/ticket.service.ts:173-191 | a transaction is refused exactly if the row is not AVAILABLE, and then nobody carries, quotes or knows its hold id |
| OrderHolds.RefusedHoldStays | src/services/ticket.service.ts:168-191 | with disclosed ids and no eviction, in every later state a refused order's hold blocks its seat exactly until its time is over, and nobody can release it |
| OrderHolds.OrphanOnlyExpires | src/scripts/lua/release_seat.lua:10-13 | with evictions too, such a hold ends only by time or eviction |
| Witnesses.LateOrderPassesHold | src/services/ticket.service.ts:168-191 | a run in which an order is accepted under another user's granted, live hold |
| Witnesses.RefusedOrder | src/services/ticket.service.ts:168-191 | a run that ends with a refused order, its hold live and its id unknown to everybody |
| ReleaseFree.TruthfulIffNeverFlipped | src/services/ticket.service.ts:267-270 | a seat row tells the truth about its orders if and only if no release flipped it |
| ReleaseFree.ReleaseFreeRunsAreTruthful | src/services/ticket.service.ts:173-191 | without releases AVAILABLE means no order, HELD exactly one PROCESSING, SOLD exactly one BOOKED, and conversely |
| ReleaseFree.DeliveriesSucceed | src/workers/stream-consumer.worker.ts:79-101 | without releases every delivery finds its order, and its commit takes effect unless the order is BOOKED |
| ReleaseFree.UnbookedIsHeld | src/workers/stream-consumer.worker.ts:80-95 | an order on an unflipped seat is PROCESSING exactly while the seat is HELD |
| ReleaseFree.FlipStrandsOrder | src/services/ticket.service.ts:267-270 | a release changes a row exactly if it is HELD, and then leaves a PROCESSING order on an AVAILABLE seat |
| ReleaseFree.LostOrderStaysLost | src/workers/stream-consumer.worker.ts:89-95 | a PROCESSING order on a SOLD seat is PROCESSING in every later state |
| Witnesses.StrandRuns | src/services/ticket.service.ts:263-270 | from any state with a free seat, honest requests reach the seat AVAILABLE with one more PROCESSING order |
| Witnesses.ReleaseRace | src/services/ticket.service.ts:263-270 | a run of honest requests that reaches an AVAILABLE seat with a PROCESSING order |
| Witnesses.LostOrder | src/workers/stream-consumer.worker.ts:89-95 | a run whose accepted order is PROCESSING on a SOLD seat and can never be settled |
| Witnesses.EarlyOrderIsSkipped | src/workers/stream-consumer.worker.ts:71 | a run whose accepted order can never be settled, because the group was created after its entry |
| Witnesses.StoppedOrder | src/services/ticket.service.ts:173-237 | a run that leaves a HELD seat and an order without entry, which can never be settled |
| Drain.StepUnattended | src/workers/stream-consumer.worker.ts:145-151 | exactly the claims shorten the list of pending entries that nobody will settle |
| DrainRuns.TaskEnds | src/workers/stream-consumer.worker.ts:103-131 | a task that gets its turns ends, and then its order is BOOKED, however batches overlap |
| DrainRuns.AcknowledgedExactly | src/workers/stream-consumer.worker.ts:127-151 | once all tasks have ended, an entry is acknowledged if and only if it was read and, in case nobody attended to it at first, was claimed |
| DrainRuns.DrainSettles | src/workers/stream-consumer.worker.ts:133-166 | a new entry needs enough reads to reach it, an abandoned one enough claims of ten, and then each is settled |
| DrainRuns.WorkersDrain | src/workers/stream-consumer.worker.ts:183-189 | the same after any release-free history, with any number of workers, busy and crashed ones included |
| DrainSchedules.ClaimAtRestIsFull | src/workers/stream-consumer.worker.ts:145-151 | at rest a claim takes ten pending entries or all, although it looks at a hundred only |
| DrainSchedules.WorkersCanDrain | src/workers/stream-consumer.worker.ts:183-189 | after any release-free history with a group there is a continuation that settles every entry by the worker's own claims: 30 s of waiting and one poll for every ten entries of the longer queue |
| Settleable.SettleableExactly | src/workers/stream-consumer.worker.ts:79-151 | in every reachable state an order can still be settled if and only if it is BOOKED, or its seat is not SOLD and its entry is in the group or owed by a running request; releases are then not needed |
| Settleable.CheckedSeatsExist | src/services/ticket.service.ts:71-96 | in every reachable state each request past its seat check, and each order, names a seat with a row and an event |
| Settleable.EntrySettleableExactly | src/workers/stream-consumer.worker.ts:69-99 | an entry's order can still be settled if and only if the group does not start behind it and the order is BOOKED or its seat is not SOLD |
| Settleable.StoppedNeverSettles | src/services/ticket.service.ts:173-237 | an order whose request stopped between commit and XADD is settled in no continuation |
| Settleable.WorkerSettlesExactly | src/workers/stream-consumer.worker.ts:133-166 | after a release-free history the worker's own claims settle whatever can be settled |
| Settleable.WorkerReaches | src/workers/stream-consumer.worker.ts:145-151 | after any history they settle an undelivered entry, and a pending one among the first hundred, whose seat is not SOLD |
| Starvation.StarvedNeverSettles | src/workers/stream-consumer.worker.ts:145-151 | an entry nobody handles, behind a hundred pending entries of lost orders, is settled by no continuation of the workers |
| Starvation.StarvedOrder | src/workers/stream-consumer.worker.ts:145-151 | a run of honest requests that reaches such an entry, with its seat HELD |
| ServiceFacts.DeliveryOutcome | src/workers/stream-consumer.worker.ts:79-131 | the four outcomes of one undisturbed delivery |
| ServiceFacts.DeliveryAnswers | src/workers/stream-consumer.worker.ts:79-131 | each answer of a delivery by its guard, and what it does to seat, order and pending list |
| ServiceFacts.SeatChecks | src/services/ticket.service.ts:71-96 | the seat check of holdSeat and createOrder passes exactly if event and row exist and the row is not SOLD; otherwise it says which of these fails first |
| ServiceFacts.HoldGrantedIff | src/services/ticket.service.ts:71-136 | an undisturbed hold is granted if and only if event and row exist, the row is not SOLD and no hold is live; then the key is the caller's for 600 s, otherwise nothing changes |
| ServiceFacts.ReleaseAnswers | src/services/ticket.service.ts:251-286 | an undisturbed release is refused for an id with an order, refused for a hold that is not the caller's, and otherwise answered as released, with the key gone and a HELD row AVAILABLE |
| ServiceFacts.OrderAcceptedIff | src/services/ticket.service.ts:147-240 | an undisturbed order is accepted if and only if the event exists, the row is AVAILABLE and no hold is live; otherwise rows and stream are untouched |
| ServiceFacts.AcceptedOrder | src/services/ticket.service.ts:168-239 | an accepted order leaves its row, hold and stream entry with the caller, the seat and the expiry, and its id disclosed |
| ServiceFacts.OrderRefusals | src/services/ticket.service.ts:152-191 | each refusal of an undisturbed order by its guard |
| ServiceFacts.OrderThenDeliverySells | src/services/ticket.service.ts:147-240 | an undisturbed order on a free seat is accepted, and one delivery of its entry sells the seat to it |
| OrderEvents.ToMessage | src/workers/stream-consumer.worker.ts:26-36 | the record of the complete pairs; an odd last field is dropped |
| OrderEvents.LastPairWins | src/workers/stream-consumer.worker.ts:27-34 | a key has the value of its last pair and is absent without one |
| OrderEvents.WireRoundTrip | src/services/ticket.service.ts:224-237 | the worker understands an appended order as exactly the payload that was appended |
| OrderEvents.AcceptedExactly | src/workers/stream-consumer.worker.ts:38-57 | a message is accepted exactly if its last type and version fit and its last payload is an object with the six strings |
| OrderEvents.RefusedExactly | src/workers/stream-consumer.worker.ts:38-108 | what each refusal says about the message |
| OrderEvents.WireFields | src/services/ticket.service.ts:224-237 | the five fields of an appended order, and no others |
| Service.WireDenotesEntry | src/services/ticket.service.ts:224-237 | a message that createOrder wrote for an entry denotes that entry to the worker |
| SlidingWindow.Remembered | src/scripts/lua/sliding_window.lua:8-10 | a call is in the set as long as no later call is a window away from it |
| SlidingWindow.NodeTimeBound | src/middlewares/rateLimiter.ts:54-65 | at most `limit` calls pass in any span of windowMs - 2e of node time, under clock skew e |
| SlidingWindow.RedisTimeBound | src/scripts/lua/sliding_window.lua:8-13 | the same bound on Redis time |
| SlidingWindow.OnlyRecentRemembered | src/scripts/lua/sliding_window.lua:8 | the set holds no call that a window has passed |
| SlidingWindow.CountIsWindowCount | src/scripts/lua/sliding_window.lua:6-13 | the count is the number of all logged calls in the window, and a call passes exactly if that is within the limit |
| SlidingWindow.RetryAfterSuffices | src/middlewares/rateLimiter.ts:77-81 | a client that waits the advertised seconds plus twice the clock skew, by the nodes' clocks or by the Redis clock, passes after any history |
| SlidingWindow.RetryAfterIsLeast | src/middlewares/rateLimiter.ts:77-81 | the advertised wait is the least whole number of seconds, at least one, that covers the window |
| SlidingWindow.KeyLifetime | src/middlewares/rateLimiter.ts:55 | the key outlives the last call by the window, rounded up to whole seconds |
| SlidingWindow.NextCallCounts | src/scripts/lua/sliding_window.lua:8-13 | a further call while nothing leaves the window adds one to its count |
| RateLimiter.Limiter.SlidingWindowScript | src/scripts/lua/sliding_window.lua:1-17 | one client's set after the call, count, decision, remaining and reset |
| RateLimiter.Limiter.Handle | src/middlewares/rateLimiter.ts:37-91 | passes or rejects by the count, with every header exact; other clients' sets are untouched |
| RateLimiter.HandleLogged | src/middlewares/rateLimiter.ts:52-91 | each client's decisions and remaining calls are those of that client's own log |
| StampedeService.Backend.ReadCachedMap | src/services/stampede.service.ts:55-61 | the cached map while its lifetime runs |
| StampedeService.Backend.AcquireMutex | src/services/stampede.service.ts:35-39 | takes the mutex with a new token exactly when none is live |
| StampedeService.Backend.ReleaseMutex | src/scripts/lua/release_mutex.lua:1-4 | deletes the mutex only with its own token |
| StampedeService.Backend.LoadFromDatabase | src/services/stampede.service.ts:63-84 | the current row, or nothing when the event is missing |
| StampedeService.GetSeatingMapWithMetrics | src/services/stampede.service.ts:119-194 | is the reader of the step system whatever others do at each await |
| StampedeAnswers.WarmRead | src/services/stampede.service.ts:126-139 | an undisturbed read with a live cache answers the cached map as a cache hit and takes no mutex |
| StampedeAnswers.ColdRead | src/services/stampede.service.ts:141-174 | an undisturbed read with a cold cache and a free mutex answers the current row, caches it for 60 s and frees the mutex |
| StampedeAnswers.MissingRead | src/services/stampede.service.ts:144-174 | an undisturbed read of a missing event says so, caches nothing and frees the mutex |
| StampedeAnswers.BlockedRead | src/services/stampede.service.ts:176-193 | a reader that finds the cache cold and the mutex taken, and nothing else happening, polls eight times 25 ms apart, times out and changes nothing |
| StampedeAnswers.HandedOver | src/services/stampede.service.ts:176-191 | if the cache is filled while it waits, the reader answers that map as one it waited for |
| StampedeAnswers.MissingWasMissing | src/services/stampede.service.ts:63-84 | in every run a missing event is answered only by a reader that asked the database itself and found no row |
| StampedeAnswers.TimedOutWaited | src/services/stampede.service.ts:176-193 | in every run a reader times out only after eight polls of a cold cache, 25 ms apart and so 200 ms after it found the mutex taken |
| StampedeAnswers.ServedAsFlagged | src/services/stampede.service.ts:119-194 | in every run a served map was taken by the reader itself, from a live cache or from the database, and the four flags say how |
| StampedeService.HydrateAndRelease | src/services/stampede.service.ts:142-174 | the mutex is released after the hydration, whatever it gave |
| StampedeService.Hydrate | src/services/stampede.service.ts:144-170 | a map found by the recheck is served as it is; otherwise the owner loads and writes |
| StampedeService.AwaitHydration | src/services/stampede.service.ts:176-193 | at most eight polls 25 ms apart, and a time-out only after eight |
| StampedeMutex.OneOwner | src/services/stampede.service.ts:35-53 | in every reachable state at most one owner is within its lease |
| StampedeMutex.LateReleaseHarmless | src/scripts/lua/release_mutex.lua:1-4 | a release never takes the key from another owner within its lease |
| StampedeMutex.CrashedOwnerBlocksBriefly | src/services/stampede.service.ts:37 | 5000 ms later an owner's token no longer blocks, whatever became of the owner |
| StampedeShield.ReturnedMapWasDirect | src/services/stampede.service.ts:94-95 | in every run at all, a returned map is what a direct read gave at some earlier instant |
| StampedeShield.HydrationsSpaced | src/services/stampede.service.ts:141-174 | in lease-respecting runs successive hydrations are at least 60000 ms apart |
| StampedeShield.HydrationsCounted | src/services/stampede.service.ts:14-17 | so a span of T ms has at most T / 60000 + 1 of them |
| StampedeShield.EarlyMissIsUnwritten | src/services/stampede.service.ts:141-174 | in every run without a clear, a cold cache less than 60000 ms after a hydration means that its map is still unwritten |
| StampedeStaleness.CachedReadsAreFresh | src/services/stampede.service.ts:126-159 | in lease-respecting runs a cached map is a direct read of less than 65000 ms ago |
| StampedeStaleness.CachedReadsNeverGoBack | src/services/stampede.service.ts:126-192 | in lease-respecting runs cached maps never go back to an older version |
| StampedeStaleness.StalledOwner | src/services/stampede.service.ts:158-159 | a run whose owner outlives its lease hydrates twice within 5000 ms |
| Rooms.Server.RemoveFromRooms | src/websocket/socket.server.ts:18-31 | the socket leaves every room it is in, empty rooms go, nothing else changes |
| Rooms.Server.OnConnection | src/websocket/socket.server.ts:86-87 | a new socket starts alive and without rooms |
| Rooms.Server.OnPong | src/websocket/socket.server.ts:88-93 | a pong marks exactly this socket alive |
| Rooms.Server.OnBadFrame | src/websocket/socket.server.ts:95-99 | an unreadable frame is answered and changes no membership |
| Rooms.Server.OnSubscribe | src/websocket/socket.server.ts:100-111 | adds exactly this membership to both indexes |
| Rooms.Server.OnUnsubscribe | src/websocket/socket.server.ts:112-118 | removes exactly this membership from both indexes |
| Rooms.Server.OnClose | src/websocket/socket.server.ts:120 | a closed socket has no membership left |
| Rooms.Server.VisitRoom | src/websocket/socket.server.ts:63-69 | the loop over a room that shrinks under it visits every member once |
| Rooms.Server.OnSeatEvent | src/websocket/socket.server.ts:57-70 | one message to each open member, and every other member leaves all its rooms |
| Rooms.Server.OnHeartbeat | src/websocket/socket.server.ts:124-135 | exactly the clients silent since the last heartbeat are dropped, the others are pinged |
| Rooms.Server.CloseAll | src/websocket/socket.server.ts:140-145 | on shutdown no tracked client keeps a membership |
| Rooms.Server.Execute | src/websocket/socket.server.ts:86-135 | after any commands the indexes are exact inverses without empty rooms, and membership is the fold of the commands |
| Rooms.MembershipIsHistory | src/websocket/socket.server.ts:104-118 | a socket is in a room exactly if the last of its own commands and evictions subscribed it |
| Rooms.HistoryDecides | src/websocket/socket.server.ts:86-135 | who is known, tracked and alive follows from the commands alone: alive is whose last sign of life is younger than the last heartbeat on it |
| Rooms.HistoryDecidesRooms | src/websocket/socket.server.ts:57-135 | who is subscribed to what follows from the commands alone |
| Rooms.HeartbeatDropsSilent | src/websocket/socket.server.ts:124-135 | a heartbeat drops a tracked client if and only if it neither connected nor answered since the heartbeat before |
| Nearby.ParseGeoResults | src/services/geo.service.ts:123-149 | the parse of the reply, item by item |
| Nearby.ParsesExactly | src/services/geo.service.ts:123-149 | the result is exactly the well-formed pairs of either encoding, once each and in order; any other reply gives none |
| Nearby.EncodingsAgree | src/services/geo.service.ts:128-148 | nested and flat replies of the same list parse to that list |
| Nearby.SearchIsTopK | src/services/geo.service.ts:89-105 | sorted, within the limit, and no omitted matching event is strictly closer than a returned one |
| Nearby.SortIsStable | src/services/geo.service.ts:92 | events at equal distance keep their order |
| Nearby.SelectExactly | src/services/geo.service.ts:81-91 | exactly the matching events take part, each with its venue's distance |
| Nearby.SelectInOrder | src/services/geo.service.ts:81-91 | the candidates are the rows that are active, not started, with a nearby venue, once each and in order |
| Nearby.LastDistanceWins | src/services/geo.service.ts:89 | a venue has a distance exactly if it is listed, and then that of its last pair |
| Nearby.AnswersAreOffered | src/services/geo.service.ts:81-105 | every returned event is active, not started and at the distance of the last nearby pair of its venue |
| Nearby.OfferedIsAnswered | src/services/geo.service.ts:89-105 | every such event is returned, unless the answer is full and nothing in it is farther away |

## Left out

- Service.Backend.AcquireSeatHold: the returned expiry is on the Redis clock at the script; the code reads the clock of the node after the reply.
- Settleable.WorkerReaches: after a history with releases it says nothing of an abandoned entry that is neither among the first hundred pending ones nor behind a hundred of lost orders.
- StampedeService.AwaitHydration: returns without an answer when the given schedule of other clients ends while it still sleeps.
- Nearby.SearchIsTopK: speaks of the venues that the geo search returned; a venue beyond its COUNT is not seen.
- HTTP routes, validation and trimming of request fields, error middleware, logging, configuration and authentication.
- The endless poll loop of `startOrderConsumer` and its running flag; its body is a claim, a read and a batch.
- Messages of other types in the stream of the step system: only createOrder appends to it; `Service.ProcessMessage` refuses them.
- Redis and PostgreSQL clients, reconnection, retries, script loading and the fallback for missing scripts; each script runs once per call.
- The JSON text and the UUID generator: JSON is an abstract invertible encoding, and ids are never repeated.
- Colons inside identifiers: hold keys are pairs of event and seat, as are the row filters.
- Pub/Sub delivery between processes; of the broadcasts of holds and orders only the disclosure of the hold id is kept.
- The order status FAILED, which no code assigns.
- Several events in one stampede shield and several Redis nodes: keys of different events do not interact.
- The rate-limit bypass header and the skip hook; only calls that reach the script are modelled.
- GEOSEARCH itself, the index synchronisation, the search-query range check, and diagnostics.
