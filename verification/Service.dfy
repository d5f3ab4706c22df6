/** The ticket service and the order worker as they run: methods over the shared Redis and PostgreSQL
    state. Before every await the other clients may change that state in any way; `others[k]` is what
    they do before the k-th await. Each method is proved to be, await by await, the process of the step
    system in module Protocol. */
module Service {
  import opened Domain
  import opened Protocol
  import opened OrderEvents
  import opened Claims

  /** The run of one process whose k-th await finds what `others[k]` made of the stores. */
  function Drive(s: Store, p: Process, uuid: Id, others: seq<Store -> Store>, k: nat): (Store, Process)
    requires k <= |others|
    decreases |others| - k
  {
    if k == |others| || p.Finished? then (s, p)
    else
      var (s1, p1) := Advanced(others[k](s), p, uuid);
      Drive(s1, p1, uuid, others, k + 1)
  }

  lemma Await(s: Store, p: Process, uuid: Id, others: seq<Store -> Store>, k: nat, found: Store)
    requires k < |others| && !p.Finished? && found == others[k](s)
    ensures var (s1, p1) := Advanced(found, p, uuid);
      Drive(s, p, uuid, others, k) == Drive(s1, p1, uuid, others, k + 1)
  {
  }

  lemma ClaimedPending(s: Store, picked: seq<nat>, pending: map<nat, nat>)
    requires Claimable(s, picked)
    requires forall j :: j in pending <==> j in s.group.pending
    requires forall j :: j in pending ==> pending[j] == if j in picked then s.clock else s.group.pending[j]
    ensures Claim(s, picked).group.pending == pending
  {
    var claimed := Claim(s, picked).group.pending;
    forall j ensures j in claimed <==> j in pending {
      assert j in claimed <==> j in s.group.pending || j in picked;
    }
  }

  lemma ReadPending(s: Store, pending: map<nat, nat>)
    requires s.group.Group? && s.group.cursor <= |s.stream|
    requires forall k :: k in pending <==> k in s.group.pending || s.group.cursor <= k < s.group.cursor + NewCount(s)
    requires forall k :: k in pending ==> (pending[k] == if NextBatch(s, k) then s.clock else s.group.pending[k])
    ensures ReadNew(s).group.pending == pending
  {
    var read := ReadNew(s).group.pending;
    forall k ensures k in read <==> k in pending {
      assert k in read <==> k in s.group.pending || (0 <= k < |s.stream| && NextBatch(s, k));
    }
  }

  class Backend {
    var clock: nat
    var holds: map<Seat, Hold>
    var events: set<Id>
    var seats: map<Seat, SeatStatus>
    var orders: map<Id, Order>
    var stream: seq<Entry>
    var group: Group
    var used: set<Id>
    var disclosed: set<Id>
    var flips: map<Seat, nat>

    function View(): Store
      reads this
    {
      Store(clock, holds, events, seats, orders, stream, group, used, disclosed, flips)
    }

    constructor (events: set<Id>, seats: set<Seat>)
      ensures Init(World(View(), [])) && this.events == events && this.seats.Keys == seats
    {
      clock, holds, this.events := 0, map[], events;
      this.seats := map seat | seat in seats :: AVAILABLE;
      orders, stream, group := map[], [], NoGroup;
      used, disclosed, flips := {}, {}, map[];
    }

    /** Other clients run while a request waits. */
    method Yield(other: Store -> Store)
      modifies this
      ensures View() == other(old(View()))
    {
      var s := other(View());
      clock, holds, events, seats, orders := s.clock, s.holds, s.events, s.seats, s.orders;
      stream, group, used, disclosed, flips := s.stream, s.group, s.used, s.disclosed, s.flips;
    }

    // ---- Scripts ----

    method AtomicSeatLock(seat: Seat, user: Id, holdId: Id, ttlSeconds: int) returns (result: int)
      modifies this`holds
      ensures result == 1 || result == 0
      ensures result == 1 <==> ttlSeconds > 0 && !old(HoldLive(View(), seat))
      ensures result == 0 ==> holds == old(holds)
      ensures result == 1 ==> holds == old(holds)[seat := Hold(user, holdId, clock + ttlSeconds * 1000)]
    {
      if ttlSeconds <= 0 {
        return 0;
      }
      if !(seat in holds && clock < holds[seat].expiresAt) {
        holds := holds[seat := Hold(user, holdId, clock + ttlSeconds * 1000)];
        return 1;
      }
      return 0;
    }

    method ReleaseSeatScript(seat: Seat, user: Id, holdId: Id) returns (deleted: int)
      modifies this`holds
      ensures (View(), deleted == 1) == ReleaseHold(old(View()), seat, user, holdId)
      ensures deleted == 1 <==> old(HoldLive(View(), seat)) && old(holds)[seat].user == user && old(holds)[seat].holdId == holdId
      ensures holds == if deleted == 1 then old(holds) - {seat} else old(holds)
    {
      if !(seat in holds && clock < holds[seat].expiresAt) {
        return 0;
      }
      var current := holds[seat];
      if current.user == user && current.holdId == holdId {
        holds := holds - {seat};
        return 1;
      }
      return 0;
    }

    // ---- Lock service ----

    method AcquireSeatHold(seat: Seat, user: Id, ttlSeconds: int, uuid: Id) returns (result: int, expiresAt: nat)
      modifies this
      ensures (View(), result == 1) == AcquireHold(old(View()), seat, user, uuid, ttlSeconds)
      ensures result == 1 <==> !old(HoldLive(View(), seat))
      ensures expiresAt == clock + (if ttlSeconds > 0 then ttlSeconds else 600) * 1000
      ensures holds == if result == 1 then old(holds)[seat := Hold(user, uuid, expiresAt)] else old(holds)
    {
      var effectiveTtl := if ttlSeconds > 0 then ttlSeconds else HOLD_TTL_SECONDS;
      used := used + {uuid};
      result := AtomicSeatLock(seat, user, uuid, effectiveTtl);
      expiresAt := clock + effectiveTtl * 1000;
    }

    // ---- Database transactions ----

    method CreateOrderTransaction(seat: Seat, user: Id, holdId: Id, expiresAt: nat) returns (order: Option<Order>)
      modifies this
      ensures (View(), order.Some?) == CommitOrder(old(View()), seat, user, holdId, expiresAt)
      ensures order.Some? <==> seat in old(seats) && old(seats)[seat] == AVAILABLE && holdId !in old(orders)
      ensures order.Some? ==> order.value == Order(|old(orders)|, seat, user, expiresAt, PROCESSING)
      ensures order.Some? ==> seats == old(seats)[seat := HELD] && orders == old(orders)[holdId := order.value]
      ensures order.None? ==> seats == old(seats) && orders == old(orders)
    {
      if !(seat in seats && seats[seat] == AVAILABLE) || holdId in orders {
        return None;
      }
      seats := seats[seat := HELD];
      var row := Order(|orders|, seat, user, expiresAt, PROCESSING);
      orders := orders[holdId := row];
      return Some(row);
    }

    method FreeSeat(seat: Seat)
      modifies this
      ensures View() == FlipSeat(old(View()), seat)
      ensures seats == if seat in old(seats) && old(seats)[seat] == HELD then old(seats)[seat := AVAILABLE] else old(seats)
    {
      if seat in seats && seats[seat] == HELD {
        flips := flips[seat := if seat in flips then flips[seat] + 1 else 1];
        seats := seats[seat := AVAILABLE];
      }
    }

    method SettleTransaction(e: Entry) returns (ok: bool)
      modifies this
      ensures (View(), ok) == CommitSettlement(old(View()), e)
      ensures ok <==> e.seat in old(seats) && old(seats)[e.seat] == HELD && e.holdId in old(orders)
      ensures seats == if ok then old(seats)[e.seat := SOLD] else old(seats)
      ensures ok ==> orders == old(orders)[e.holdId := old(orders)[e.holdId].(status := BOOKED)]
      ensures !ok ==> orders == old(orders)
    {
      if !(e.seat in seats && seats[e.seat] == HELD) || e.holdId !in orders {
        return false;
      }
      seats := seats[e.seat := SOLD];
      orders := orders[e.holdId := orders[e.holdId].(status := BOOKED)];
      return true;
    }

    method FindSeat(seat: Seat) returns (problem: Option<Response>)
      ensures problem == SeatProblem(View(), seat)
      ensures problem == Some(EventNotFound) <==> seat.eventId !in events
      ensures problem == Some(SeatNotFound) <==> seat.eventId in events && seat !in seats
      ensures problem == Some(Rejected(AlreadySold)) <==> seat.eventId in events && seat in seats && seats[seat] == SOLD
      ensures problem.None? <==> seat.eventId in events && seat in seats && seats[seat] != SOLD
    {
      if seat.eventId !in events {
        return Some(EventNotFound);
      }
      if seat !in seats {
        return Some(SeatNotFound);
      }
      if seats[seat] == SOLD {
        return Some(Rejected(AlreadySold));
      }
      return None;
    }

    // ---- Stream commands ----

    method InitializeOrderConsumerGroup()
      modifies this`group
      ensures View() == CreateGroup(old(View()))
      ensures group == if old(group) == NoGroup then Group(|stream|, |stream|, map[], {}) else old(group)
    {
      if group == NoGroup {
        group := Group(|stream|, |stream|, map[], {});
      }
    }

    method ReadMessages() returns (messages: seq<Process>)
      requires group.Group? && group.cursor <= |stream|
      modifies this`group
      ensures View() == ReadNew(old(View())) && messages == NewTasks(old(View()))
      ensures |messages| == if |stream| - old(group).cursor < 10 then |stream| - old(group).cursor else 10
      ensures group.cursor == old(group).cursor + |messages|
      ensures forall i :: 0 <= i < |messages| ==>
        messages[i] == SettleRead(old(group).cursor + i, stream[old(group).cursor + i])
      ensures forall k :: old(group).cursor <= k < group.cursor ==> k in group.pending && group.pending[k] == clock
    {
      ghost var s := View();
      messages := [];
      var pending: map<nat, nat>, cursor: nat := group.pending, group.cursor;
      while |messages| < BATCH_SIZE && cursor < |stream|
        invariant View() == s
        invariant cursor == group.cursor + |messages| <= |stream| && |messages| <= NewCount(s)
        invariant forall i :: 0 <= i < |messages| ==> messages[i] == SettleRead(group.cursor + i, stream[group.cursor + i])
        invariant forall k :: k in pending <==> k in group.pending || group.cursor <= k < cursor
        invariant forall k :: k in pending ==> pending[k] == if group.cursor <= k < cursor then clock else group.pending[k]
      {
        messages := messages + [SettleRead(cursor, stream[cursor])];
        pending := pending[cursor := clock];
        cursor := cursor + 1;
      }
      assert |messages| == NewCount(s);
      ReadPending(s, pending);
      group := group.(cursor := cursor, pending := pending);
    }

    method ClaimPendingMessages() returns (messages: seq<Process>, picked: seq<nat>)
      requires group.Group? && group.cursor <= |stream|
      requires forall k :: k in group.pending ==> k < group.cursor
      modifies this`group
      ensures Claimable(old(View()), picked) && EarliestIdle(old(group).pending, clock, picked)
      ensures View() == Claim(old(View()), picked) && messages == ClaimTasks(old(View()), picked)
      ensures |messages| == |picked| && forall i :: 0 <= i < |picked| ==>
        messages[i] == SettleRead(picked[i], stream[picked[i]])
      ensures forall k :: k in picked ==> k in group.pending && group.pending[k] == clock
    {
      picked := IdleEntries(group.pending, group.cursor, clock);
      ghost var s := View();
      assert Claimable(s, picked) by {
        assert forall i :: 0 <= i < |picked| ==> Idle(group.pending, clock, picked[i]);
      }
      messages := TakeOver(picked);
    }

    /** The claimed entries are delivered anew. */
    method TakeOver(picked: seq<nat>) returns (messages: seq<Process>)
      requires Claimable(View(), picked)
      modifies this`group
      ensures View() == Claim(old(View()), picked) && messages == ClaimTasks(old(View()), picked)
    {
      ghost var s := View();
      messages := [];
      var pending: map<nat, nat> := group.pending;
      for i := 0 to |picked|
        invariant View() == s && |messages| == i
        invariant forall j :: 0 <= j < i ==> messages[j] == SettleRead(picked[j], stream[picked[j]])
        invariant forall j :: j in pending <==> j in group.pending
        invariant forall j :: j in pending ==> pending[j] == if j in picked[..i] then clock else group.pending[j]
      {
        messages := messages + [SettleRead(picked[i], stream[picked[i]])];
        pending := pending[picked[i] := clock];
      }
      assert picked[..|picked|] == picked;
      ClaimedPending(s, picked, pending);
      group := group.(pending := pending);
    }

    method XAck(position: nat)
      modifies this`group
      ensures View() == Acknowledge(old(View()), position)
      ensures old(group).NoGroup? ==> group == old(group)
      ensures old(group).Group? ==> group.Group? && group.pending == old(group).pending - {position}
      ensures old(group).Group? ==>
        group.acked == old(group).acked + if position in old(group).pending then {position} else {}
    {
      if group.Group? && position in group.pending {
        group := group.(pending := group.pending - {position}, acked := group.acked + {position});
      }
    }
  }

  // ---- Ticket service ----

  method HoldSeat(b: Backend, seat: Seat, user: Id, uuid: Id, others: seq<Store -> Store>) returns (r: Response)
    requires |others| == 3
    modifies b
    ensures (b.View(), Finished(r)) == Drive(old(b.View()), HoldRead(seat, user), uuid, others, 0)
  {
    ghost var s := b.View();
    b.Yield(others[0]);
    var problem := b.FindSeat(seat);
    Await(s, HoldRead(seat, user), uuid, others, 0, b.View());
    if problem.Some? {
      return problem.value;
    }
    r := GrantHold(b, seat, user, uuid, others);
  }

  /** The hold script, and the broadcast that shows the hold id. */
  method GrantHold(b: Backend, seat: Seat, user: Id, uuid: Id, others: seq<Store -> Store>) returns (r: Response)
    requires |others| == 3
    modifies b
    ensures (b.View(), Finished(r)) == Drive(old(b.View()), HoldAcquire(seat, user), uuid, others, 1)
  {
    ghost var s := b.View();
    b.Yield(others[1]);
    ghost var found := b.View();
    var result, expiresAt := b.AcquireSeatHold(seat, user, HOLD_TTL_SECONDS, uuid);
    Await(s, HoldAcquire(seat, user), uuid, others, 1, found);
    if result != 1 {
      return Rejected(HoldUnavailable);
    }
    s := b.View();
    b.Yield(others[2]);
    found := b.View();
    b.disclosed := b.disclosed + {uuid};
    Await(s, HoldPublish(seat, user, uuid, expiresAt), uuid, others, 2, found);
    return HoldGranted(uuid, expiresAt);
  }

  /** The end of an accepted order: the broadcast that shows its hold id, then the XADD. */
  method AnnounceOrder(b: Backend, entry: Entry, uuid: Id, others: seq<Store -> Store>, k: nat) returns (r: Response)
    requires k + 2 == |others|
    modifies b
    ensures (b.View(), Finished(r)) == Drive(old(b.View()), OrderPublish(entry), uuid, others, k)
  {
    ghost var s := b.View();
    b.Yield(others[k]);
    ghost var found := b.View();
    b.disclosed := b.disclosed + {entry.holdId};
    Await(s, OrderPublish(entry), uuid, others, k, found);
    s := b.View();
    b.Yield(others[k + 1]);
    found := b.View();
    b.stream := b.stream + [entry];
    Await(s, OrderAppend(entry), uuid, others, k + 1, found);
    return OrderAccepted(entry.orderId);
  }

  /** The start of an order: the seat check and the hold script. */
  method TakeOrderHold(b: Backend, seat: Seat, user: Id, uuid: Id, others: seq<Store -> Store>)
    returns (failure: Option<Response>, expiresAt: nat)
    requires |others| >= 2
    modifies b
    ensures Drive(old(b.View()), OrderRead(seat, user), uuid, others, 0) ==
            if failure.Some? then (b.View(), Finished(failure.value))
            else Drive(b.View(), OrderCommit(seat, user, uuid, expiresAt), uuid, others, 2)
  {
    ghost var s := b.View();
    b.Yield(others[0]);
    failure := b.FindSeat(seat);
    expiresAt := 0;
    Await(s, OrderRead(seat, user), uuid, others, 0, b.View());
    if failure.None? {
      failure, expiresAt := AcquireForOrder(b, seat, user, uuid, others);
    }
  }

  method AcquireForOrder(b: Backend, seat: Seat, user: Id, uuid: Id, others: seq<Store -> Store>)
    returns (failure: Option<Response>, expiresAt: nat)
    requires |others| >= 2
    modifies b
    ensures Drive(old(b.View()), OrderAcquire(seat, user), uuid, others, 1) ==
            if failure.Some? then (b.View(), Finished(failure.value))
            else Drive(b.View(), OrderCommit(seat, user, uuid, expiresAt), uuid, others, 2)
  {
    ghost var s := b.View();
    b.Yield(others[1]);
    ghost var found := b.View();
    var result, expiry := b.AcquireSeatHold(seat, user, HOLD_TTL_SECONDS, uuid);
    Await(s, OrderAcquire(seat, user), uuid, others, 1, found);
    return if result != 1 then Some(Rejected(HoldUnavailable)) else None, expiry;
  }

  method CreateOrder(b: Backend, seat: Seat, user: Id, uuid: Id, others: seq<Store -> Store>) returns (r: Response)
    requires |others| == 5
    modifies b
    ensures (b.View(), Finished(r)) == Drive(old(b.View()), OrderRead(seat, user), uuid, others, 0)
  {
    var failure, expiresAt := TakeOrderHold(b, seat, user, uuid, others);
    if failure.Some? {
      return failure.value;
    }
    ghost var s := b.View();
    b.Yield(others[2]);
    ghost var found := b.View();
    var order := b.CreateOrderTransaction(seat, user, uuid, expiresAt);
    Await(s, OrderCommit(seat, user, uuid, expiresAt), uuid, others, 2, found);
    if order.None? {
      return Rejected(SeatChanged);
    }
    r := AnnounceOrder(b, Entry(uuid, order.value.orderId, seat, user, expiresAt), uuid, others, 3);
  }

  /** The end of a release whose hold is deleted: the seat update, then the broadcast. */
  method FinishRelease(b: Backend, seat: Seat, user: Id, holdId: Id, uuid: Id, others: seq<Store -> Store>) returns (r: Response)
    requires |others| == 4
    modifies b
    ensures (b.View(), Finished(r)) == Drive(old(b.View()), ReleaseFlip(seat, user, holdId), uuid, others, 2)
  {
    ghost var s := b.View();
    b.Yield(others[2]);
    ghost var found := b.View();
    b.FreeSeat(seat);
    Await(s, ReleaseFlip(seat, user, holdId), uuid, others, 2, found);
    s := b.View();
    b.Yield(others[3]);
    Await(s, ReleasePublish(holdId), uuid, others, 3, b.View());
    return Released(holdId);
  }

  method ReleaseSeat(b: Backend, seat: Seat, user: Id, holdId: Id, uuid: Id, others: seq<Store -> Store>) returns (r: Response)
    requires |others| == 4
    modifies b
    ensures (b.View(), Finished(r)) == Drive(old(b.View()), ReleaseCheck(seat, user, holdId), uuid, others, 0)
  {
    ghost var s := b.View();
    b.Yield(others[0]);
    Await(s, ReleaseCheck(seat, user, holdId), uuid, others, 0, b.View());
    if holdId in b.orders {
      return Rejected(HasOrder);
    }
    s := b.View();
    b.Yield(others[1]);
    ghost var found := b.View();
    var deleted := b.ReleaseSeatScript(seat, user, holdId);
    Await(s, ReleaseDelete(seat, user, holdId), uuid, others, 1, found);
    if deleted != 1 {
      return Rejected(NotOwner);
    }
    r := FinishRelease(b, seat, user, holdId, uuid, others);
  }

  // ---- Order worker ----

  /** The settlement with its read and its transaction as separate awaits. A thrown error is returned as
      `failure`; otherwise the next await is the `k`-th. */
  method SettleOrder(b: Backend, position: nat, entry: Entry, uuid: Id, others: seq<Store -> Store>)
    returns (failure: Option<Response>, k: nat)
    requires |others| == 4
    modifies b
    ensures k <= 2
    ensures Drive(old(b.View()), SettleRead(position, entry), uuid, others, 0) ==
            if failure.Some? then (b.View(), Finished(failure.value))
            else Drive(b.View(), SettlePublish(position, entry), uuid, others, k)
  {
    ghost var s := b.View();
    b.Yield(others[0]);
    Await(s, SettleRead(position, entry), uuid, others, 0, b.View());
    if entry.holdId in b.orders && b.orders[entry.holdId].status == BOOKED {
      return None, 1;
    }
    if entry.holdId !in b.orders {
      return Some(OrderMissing), 1;
    }
    s := b.View();
    b.Yield(others[1]);
    ghost var found := b.View();
    var ok := b.SettleTransaction(entry);
    Await(s, SettleCommit(position, entry), uuid, others, 1, found);
    return if ok then None else Some(SeatNotHeld), 2;
  }

  /** Settlement, broadcast, XACK of an understood entry. A failed settlement leaves the entry pending. */
  method HandleEntry(b: Backend, position: nat, entry: Entry, uuid: Id, others: seq<Store -> Store>) returns (r: Response)
    requires |others| == 4
    modifies b
    ensures (b.View(), Finished(r)) == Drive(old(b.View()), SettleRead(position, entry), uuid, others, 0)
  {
    var failure, k := SettleOrder(b, position, entry, uuid, others);
    if failure.Some? {
      return failure.value;
    }
    ghost var s := b.View();
    b.Yield(others[k]);
    Await(s, SettlePublish(position, entry), uuid, others, k, b.View());
    s := b.View();
    b.Yield(others[k + 1]);
    ghost var found := b.View();
    b.XAck(position);
    Await(s, SettleAck(position, entry), uuid, others, k + 1, found);
    return Acknowledged;
  }

  /** What became of one message: it was not understood, or it was handled as an order. */
  datatype Outcome = NotUnderstood(reason: Failure) | Handled(response: Response)

  /** The entry that a payload denotes, for a naming of its strings. */
  function EntryOf(p: Payload, ids: string -> Id, time: string -> nat): Entry {
    Entry(ids(p.holdId), ids(p.orderId), Seat(ids(p.eventId), ids(p.seatId)), ids(p.userId), time(p.expiresAt))
  }

  /** A message that createOrder wrote for an entry, its ids and its time named in text, denotes that entry. */
  lemma WireDenotesEntry(e: Entry, eventId: string, occurredAt: string,
                         name: Id -> string, stamp: nat -> string, ids: string -> Id, time: string -> nat)
    requires (forall x :: ids(name(x)) == x) && (forall t :: time(stamp(t)) == t)
    ensures var p := Payload(name(e.holdId), name(e.orderId), name(e.seat.eventId), name(e.seat.seatId), name(e.user), stamp(e.expiresAt));
      Understand(Wire(eventId, occurredAt, p)) == Accepted(p) && EntryOf(p, ids, time) == e
  {
    WireRoundTrip(eventId, occurredAt, Payload(name(e.holdId), name(e.orderId), name(e.seat.eventId), name(e.seat.seatId),
                                               name(e.user), stamp(e.expiresAt)));
  }

  /** A raw message: checked, parsed and handled. A message that is not understood changes nothing and
      stays pending. */
  method ProcessMessage(b: Backend, position: nat, raw: seq<Field>, ids: string -> Id, time: string -> nat,
                        uuid: Id, others: seq<Store -> Store>) returns (r: Outcome)
    requires |others| == 4
    modifies b
    ensures match Understand(raw)
      case Refused(reason) => r == NotUnderstood(reason) && b.View() == old(b.View())
      case Accepted(p) =>
        r.Handled?
        && var e := Entry(ids(p.holdId), ids(p.orderId), Seat(ids(p.eventId), ids(p.seatId)), ids(p.userId), time(p.expiresAt));
        (b.View(), Finished(r.response)) == Drive(old(b.View()), SettleRead(position, e), uuid, others, 0)
  {
    var fields := ToMessage(raw);
    if !("eventType" in fields && fields["eventType"] == Text("order.created"))
       || !("schemaVersion" in fields && fields["schemaVersion"] == Text("1")) {
      return NotUnderstood(Unsupported);
    }
    var parsed := ParsePayload(fields);
    if parsed.Refused? {
      return NotUnderstood(parsed.reason);
    }
    var response := HandleEntry(b, position, EntryOf(parsed.payload, ids, time), uuid, others);
    return Handled(response);
  }

  // ---- A batch of deliveries ----

  predicate InBatch(p: Process) {
    p.SettleRead? || p.SettleCommit? || p.SettlePublish? || p.SettleAck? || p.Finished?
  }

  /** One turn of the event loop: what other clients do first, and whose handling goes on. */
  datatype Turn = Turn(before: Store -> Store, task: nat)

  /** The handlings of a batch run together, each from await to await, in the order of the turns. */
  function Together(s: Store, tasks: seq<Process>, turns: seq<Turn>): (Store, seq<Process>)
    decreases |turns|
  {
    if turns == [] then (s, tasks)
    else
      var found, i := turns[0].before(s), turns[0].task;
      if i < |tasks| then
        var (s1, p1) := Advanced(found, tasks[i], 0);
        Together(s1, tasks[i := p1], turns[1..])
      else Together(found, tasks, turns[1..])
  }

  /** One await of one handling. */
  method Resume(b: Backend, p: Process) returns (next: Process)
    requires InBatch(p)
    modifies b
    ensures (b.View(), next) == Advanced(old(b.View()), p, 0) && InBatch(next)
  {
    match p {
      case SettleRead(position, entry) =>
        if entry.holdId !in b.orders {
          return Finished(OrderMissing);
        }
        return if b.orders[entry.holdId].status == BOOKED then SettlePublish(position, entry) else SettleCommit(position, entry);
      case SettleCommit(position, entry) =>
        var ok := b.SettleTransaction(entry);
        return if ok then SettlePublish(position, entry) else Finished(SeatNotHeld);
      case SettlePublish(position, entry) =>
        return SettleAck(position, entry);
      case SettleAck(position, entry) =>
        b.XAck(position);
        return Finished(Acknowledged);
      case Finished(_) =>
        return p;
    }
  }

  /** All messages of a batch at once: their awaits interleave with each other and with other clients. */
  method HandleBatch(b: Backend, messages: seq<Process>, turns: seq<Turn>) returns (tasks: seq<Process>)
    requires forall i :: 0 <= i < |messages| ==> InBatch(messages[i])
    modifies b
    ensures (b.View(), tasks) == Together(old(b.View()), messages, turns)
  {
    tasks := messages;
    for i := 0 to |turns|
      invariant |tasks| == |messages| && forall j :: 0 <= j < |tasks| ==> InBatch(tasks[j])
      invariant Together(b.View(), tasks, turns[i..]) == Together(old(b.View()), messages, turns)
    {
      assert turns[i..][0] == turns[i] && turns[i..][1..] == turns[i + 1..];
      b.Yield(turns[i].before);
      if turns[i].task < |tasks| {
        var next := Resume(b, tasks[turns[i].task]);
        tasks := tasks[turns[i].task := next];
      }
    }
    assert turns[|turns|..] == [];
  }

  /** The group's own order: nothing pending that was not delivered, nothing delivered that is not there. */
  ghost predicate GroupInOrder(s: Store) {
    s.group.Group? ==> s.group.cursor <= |s.stream| && forall k :: k in s.group.pending ==> k < s.group.cursor
  }

  /** Other clients keep the group in order and never destroy it. */
  ghost predicate Orderly(other: Store -> Store) {
    forall s: Store :: GroupInOrder(s) ==> GroupInOrder(other(s)) && (s.group.Group? ==> other(s).group.Group?)
  }

  /** One controlled drain: group, idle claims, new reads, then the batch; other clients run before each
      of these and during the batch. */
  method ProcessAvailableOrderMessages(b: Backend, others: seq<Store -> Store>, turns: seq<Turn>)
    returns (handled: nat, ghost picked: seq<nat>, ghost tasks: seq<Process>)
    requires |others| == 3 && GroupInOrder(b.View()) && Orderly(others[0]) && Orderly(others[1]) && Orderly(others[2])
    modifies b
    ensures var grouped := others[1](CreateGroup(others[0](old(b.View()))));
      && grouped.group.Group? && Claimable(grouped, picked) && EarliestIdle(grouped.group.pending, grouped.clock, picked)
      && var claimed := others[2](Claim(grouped, picked));
      var batch := ClaimTasks(grouped, picked) + NewTasks(claimed);
      (b.View(), tasks) == Together(ReadNew(claimed), batch, turns) && handled == |batch|
  {
    PrepareGroup(b, others[0], others[1]);
    var messages, ids := Deliver(b, others[2]);
    var ends := HandleBatch(b, messages, turns);
    handled, picked, tasks := |messages|, ids, ends;
  }

  lemma OrderlyAt(other: Store -> Store, s: Store)
    requires Orderly(other) && GroupInOrder(s)
    ensures GroupInOrder(other(s)) && (s.group.Group? ==> other(s).group.Group?)
  {
  }

  lemma CreationInOrder(s: Store)
    requires GroupInOrder(s)
    ensures GroupInOrder(CreateGroup(s)) && CreateGroup(s).group.Group?
  {
  }

  lemma ClaimKeepsOrder(s: Store, picked: seq<nat>)
    requires GroupInOrder(s) && Claimable(s, picked)
    ensures GroupInOrder(Claim(s, picked)) && Claim(s, picked).group.Group?
  {
  }

  lemma DeliveriesInBatch(s: Store, picked: seq<nat>, claimed: Store)
    requires Claimable(s, picked)
    ensures var batch := ClaimTasks(s, picked) + NewTasks(claimed); forall i :: 0 <= i < |batch| ==> InBatch(batch[i])
  {
  }

  method PrepareGroup(b: Backend, first: Store -> Store, second: Store -> Store)
    requires GroupInOrder(b.View()) && Orderly(first) && Orderly(second)
    modifies b
    ensures b.View() == second(CreateGroup(first(old(b.View()))))
    ensures GroupInOrder(b.View()) && b.View().group.Group?
  {
    OrderlyAt(first, b.View());
    b.Yield(first);
    CreationInOrder(b.View());
    b.InitializeOrderConsumerGroup();
    OrderlyAt(second, b.View());
    b.Yield(second);
  }

  /** The two deliveries of a drain, the idle entries before the new ones. */
  method Deliver(b: Backend, other: Store -> Store) returns (messages: seq<Process>, picked: seq<nat>)
    requires GroupInOrder(b.View()) && b.View().group.Group? && Orderly(other)
    modifies b
    ensures var s := old(b.View());
      && Claimable(s, picked) && EarliestIdle(s.group.pending, s.clock, picked)
      && var claimed := other(Claim(s, picked));
      b.View() == ReadNew(claimed) && messages == ClaimTasks(s, picked) + NewTasks(claimed)
    ensures forall i :: 0 <= i < |messages| ==> InBatch(messages[i])
  {
    ghost var s := b.View();
    messages, picked := ClaimInOrder(b);
    OrderlyAt(other, b.View());
    b.Yield(other);
    DeliveriesInBatch(s, picked, b.View());
    var news := ReadInOrder(b);
    messages := messages + news;
  }

  method ClaimInOrder(b: Backend) returns (messages: seq<Process>, picked: seq<nat>)
    requires GroupInOrder(b.View()) && b.View().group.Group?
    modifies b
    ensures var s := old(b.View());
      && Claimable(s, picked) && EarliestIdle(s.group.pending, s.clock, picked)
      && b.View() == Claim(s, picked) && messages == ClaimTasks(s, picked)
    ensures GroupInOrder(b.View()) && b.View().group.Group?
  {
    ghost var s := b.View();
    messages, picked := b.ClaimPendingMessages();
    ClaimKeepsOrder(s, picked);
  }

  method ReadInOrder(b: Backend) returns (messages: seq<Process>)
    requires GroupInOrder(b.View()) && b.View().group.Group?
    modifies b
    ensures b.View() == ReadNew(old(b.View())) && messages == NewTasks(old(b.View()))
  {
    messages := b.ReadMessages();
  }

  // ---- Nobody else runs ----

  function Untouched(s: Store): Store { s }

  function Alone(): seq<Store -> Store> { [Untouched, Untouched, Untouched, Untouched] }
}
