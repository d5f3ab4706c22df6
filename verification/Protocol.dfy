/** Seat reservation and settlement as one interleaved step system. Every request and every stream
    delivery is a process that takes one step per await; steps of different processes interleave in any
    order, processes may stop between any two steps, and time, eviction and redelivery are steps too. */
module Protocol {
  import opened Domain

  datatype Conflict = AlreadySold | HoldUnavailable | SeatChanged | HasOrder | NotOwner

  datatype Response =
    | EventNotFound
    | SeatNotFound
    | Rejected(reason: Conflict)
    | HoldGranted(holdId: Id, expiresAt: nat)
    | OrderAccepted(orderId: Id)
    | Released(holdId: Id)
    | Acknowledged
    | OrderMissing
    | SeatNotHeld

  /** The program counters of `holdSeat`, `createOrder`, `releaseSeat` and of the worker's handling of
      one delivered entry, each with the local variables that are live there. */
  datatype Process =
    | HoldRead(seat: Seat, user: Id)
    | HoldAcquire(seat: Seat, user: Id)
    | HoldPublish(seat: Seat, user: Id, holdId: Id, expiresAt: nat)
    | OrderRead(seat: Seat, user: Id)
    | OrderAcquire(seat: Seat, user: Id)
    | OrderCommit(seat: Seat, user: Id, holdId: Id, expiresAt: nat)
    | OrderPublish(entry: Entry)
    | OrderAppend(entry: Entry)
    | ReleaseCheck(seat: Seat, user: Id, holdId: Id)
    | ReleaseDelete(seat: Seat, user: Id, holdId: Id)
    | ReleaseFlip(seat: Seat, user: Id, holdId: Id)
    | ReleasePublish(holdId: Id)
    | SettleRead(position: nat, entry: Entry)
    | SettleCommit(position: nat, entry: Entry)
    | SettlePublish(position: nat, entry: Entry)
    | SettleAck(position: nat, entry: Entry)
    | Finished(response: Response)
    | Crashed(at: Process)

  // ---- Atomic operations on the stores ----

  function EffectiveTtl(ttlSeconds: int): (r: nat)
    ensures r > 0
    ensures r == ttlSeconds || (ttlSeconds <= 0 && r == HOLD_TTL_SECONDS)
  {
    if ttlSeconds > 0 then ttlSeconds else HOLD_TTL_SECONDS
  }

  /** The seat-lock script run with a freshly generated hold id. */
  function AcquireHold(s: Store, seat: Seat, user: Id, holdId: Id, ttlSeconds: int): (Store, bool) {
    var s1 := s.(used := s.used + {holdId});
    if HoldLive(s, seat) then
      (s1, false)
    else
      var expiresAt := s.clock + EffectiveTtl(ttlSeconds) * 1000;
      (s1.(holds := s.holds[seat := Hold(user, holdId, expiresAt)]), true)
  }

  /** The release script: deletes the key only for the exact user and hold id. */
  function ReleaseHold(s: Store, seat: Seat, user: Id, holdId: Id): (Store, bool) {
    if Holds(s, seat, holdId) && s.holds[seat].user == user then
      (s.(holds := s.holds - {seat}), true)
    else
      (s, false)
  }

  /** The order transaction: AVAILABLE to HELD and the order row, or nothing at all. */
  function CommitOrder(s: Store, seat: Seat, user: Id, holdId: Id, expiresAt: nat): (Store, bool) {
    if HasStatus(s, seat, AVAILABLE) && holdId !in s.orders then
      var order := Order(|s.orders|, seat, user, expiresAt, PROCESSING);
      (s.(seats := s.seats[seat := HELD], orders := s.orders[holdId := order]), true)
    else
      (s, false)
  }

  /** The seat update at the end of a release; it names the seat, not the hold. */
  function FlipSeat(s: Store, seat: Seat): Store {
    if HasStatus(s, seat, HELD) then
      s.(seats := s.seats[seat := AVAILABLE], flips := s.flips[seat := Flips(s, seat) + 1])
    else
      s
  }

  /** The settlement transaction after its read: HELD to SOLD and the order to BOOKED, or nothing. */
  function CommitSettlement(s: Store, e: Entry): (Store, bool) {
    if HasStatus(s, e.seat, HELD) && e.holdId in s.orders then
      (s.(seats := s.seats[e.seat := SOLD],
          orders := s.orders[e.holdId := s.orders[e.holdId].(status := BOOKED)]), true)
    else
      (s, false)
  }

  function Disclose(s: Store, holdId: Id): Store {
    s.(disclosed := s.disclosed + {holdId})
  }

  function Append(s: Store, e: Entry): Store {
    s.(stream := s.stream + [e])
  }

  function Acknowledge(s: Store, position: nat): Store {
    if s.group.Group? && position in s.group.pending then
      s.(group := s.group.(pending := s.group.pending - {position}, acked := s.group.acked + {position}))
    else
      s
  }

  function CreateGroup(s: Store): Store {
    if s.group.NoGroup? then s.(group := Group(|s.stream|, |s.stream|, map[], {})) else s
  }

  /** How many entries one read for new messages returns. */
  function NewCount(s: Store): nat {
    if s.group.NoGroup? || |s.stream| <= s.group.cursor then 0
    else if |s.stream| - s.group.cursor < BATCH_SIZE then |s.stream| - s.group.cursor
    else BATCH_SIZE
  }

  predicate NextBatch(s: Store, position: nat) {
    s.group.Group? && s.group.cursor <= position < s.group.cursor + NewCount(s)
  }

  function ReadNew(s: Store): Store {
    if s.group.NoGroup? then s
    else
      var delivered := map k | 0 <= k < |s.stream| && NextBatch(s, k) :: s.clock;
      s.(group := s.group.(cursor := s.group.cursor + NewCount(s), pending := s.group.pending + delivered))
  }

  function NewTasks(s: Store): seq<Process> {
    seq(NewCount(s), i requires 0 <= i < NewCount(s) =>
      SettleRead(s.group.cursor + i, s.stream[s.group.cursor + i]))
  }

  /** The entries `picked` may be returned by one claim of idle pending entries. */
  predicate Claimable(s: Store, picked: seq<nat>) {
    && s.group.Group?
    && |picked| <= BATCH_SIZE
    && (forall i, j :: 0 <= i < j < |picked| ==> picked[i] != picked[j])
    && (forall i :: 0 <= i < |picked| ==>
          picked[i] in s.group.pending && picked[i] < |s.stream|
          && s.group.pending[picked[i]] + CLAIM_IDLE_MS <= s.clock)
  }

  function Claim(s: Store, picked: seq<nat>): Store
    requires Claimable(s, picked)
  {
    s.(group := s.group.(pending := s.group.pending + map k | k in picked :: s.clock))
  }

  function ClaimTasks(s: Store, picked: seq<nat>): seq<Process>
    requires Claimable(s, picked)
  {
    seq(|picked|, i requires 0 <= i < |picked| => SettleRead(picked[i], s.stream[picked[i]]))
  }

  // ---- One await of one process ----

  /** Why a seat cannot be held or ordered, as far as its row tells. */
  function SeatProblem(s: Store, seat: Seat): Option<Response> {
    if seat.eventId !in s.events then Some(EventNotFound)
    else if seat !in s.seats then Some(SeatNotFound)
    else if s.seats[seat] == SOLD then Some(Rejected(AlreadySold))
    else None
  }

  function SeatCheck(s: Store, seat: Seat, next: Process): Process {
    if SeatProblem(s, seat).Some? then Finished(SeatProblem(s, seat).value) else next
  }

  /** What a process does to the stores at its next await, and where it continues. */
  function Advanced(s: Store, p: Process, uuid: Id): (Store, Process) {
    match p
    case HoldRead(seat, user) => (s, SeatCheck(s, seat, HoldAcquire(seat, user)))
    case HoldAcquire(seat, user) =>
      var (s1, ok) := AcquireHold(s, seat, user, uuid, HOLD_TTL_SECONDS);
      (s1, if ok then HoldPublish(seat, user, uuid, s.clock + HOLD_TTL_SECONDS * 1000)
           else Finished(Rejected(HoldUnavailable)))
    case HoldPublish(seat, user, holdId, expiresAt) =>
      (Disclose(s, holdId), Finished(HoldGranted(holdId, expiresAt)))
    case OrderRead(seat, user) => (s, SeatCheck(s, seat, OrderAcquire(seat, user)))
    case OrderAcquire(seat, user) =>
      var (s1, ok) := AcquireHold(s, seat, user, uuid, HOLD_TTL_SECONDS);
      (s1, if ok then OrderCommit(seat, user, uuid, s.clock + HOLD_TTL_SECONDS * 1000)
           else Finished(Rejected(HoldUnavailable)))
    case OrderCommit(seat, user, holdId, expiresAt) =>
      var (s1, ok) := CommitOrder(s, seat, user, holdId, expiresAt);
      (s1, if ok then OrderPublish(Entry(holdId, |s.orders|, seat, user, expiresAt))
           else Finished(Rejected(SeatChanged)))
    case OrderPublish(entry) => (Disclose(s, entry.holdId), OrderAppend(entry))
    case OrderAppend(entry) => (Append(s, entry), Finished(OrderAccepted(entry.orderId)))
    case ReleaseCheck(seat, user, holdId) =>
      (s, if holdId in s.orders then Finished(Rejected(HasOrder)) else ReleaseDelete(seat, user, holdId))
    case ReleaseDelete(seat, user, holdId) =>
      var (s1, ok) := ReleaseHold(s, seat, user, holdId);
      (s1, if ok then ReleaseFlip(seat, user, holdId) else Finished(Rejected(NotOwner)))
    case ReleaseFlip(seat, user, holdId) => (FlipSeat(s, seat), ReleasePublish(holdId))
    case ReleasePublish(holdId) => (s, Finished(Released(holdId)))
    case SettleRead(position, entry) =>
      (s, if entry.holdId !in s.orders then Finished(OrderMissing)
          else if s.orders[entry.holdId].status == BOOKED then SettlePublish(position, entry)
          else SettleCommit(position, entry))
    case SettleCommit(position, entry) =>
      var (s1, ok) := CommitSettlement(s, entry);
      (s1, if ok then SettlePublish(position, entry) else Finished(SeatNotHeld))
    case SettlePublish(position, entry) => (s, SettleAck(position, entry))
    case SettleAck(position, entry) => (Acknowledge(s, position), Finished(Acknowledged))
    case Finished(_) => (s, p)
    case Crashed(_) => (s, p)
  }

  // ---- The whole system ----

  datatype World = World(store: Store, procs: seq<Process>)

  datatype Action =
    | Start(request: Process)
    | Advance(pid: nat, uuid: Id)
    | Crash(pid: nat)
    | Tick(ms: nat)
    | Evict(seat: Seat)
    | InitGroup
    | Read
    | Reclaim(picked: seq<nat>)

  predicate IsRequest(p: Process) {
    p.HoldRead? || p.OrderRead? || p.ReleaseCheck?
  }

  function Step(w: World, a: Action): World {
    match a
    case Start(request) => if IsRequest(request) then World(w.store, w.procs + [request]) else w
    case Advance(pid, uuid) =>
      if pid < |w.procs| && uuid !in w.store.used then
        var (s, p) := Advanced(w.store, w.procs[pid], uuid);
        World(s, w.procs[pid := p])
      else w
    case Crash(pid) =>
      if pid < |w.procs| && !w.procs[pid].Finished? && !w.procs[pid].Crashed? then
        World(w.store, w.procs[pid := Crashed(w.procs[pid])])
      else w
    case Tick(ms) => World(w.store.(clock := w.store.clock + ms), w.procs)
    case Evict(seat) => World(w.store.(holds := w.store.holds - {seat}), w.procs)
    case InitGroup => World(CreateGroup(w.store), w.procs)
    case Read => World(ReadNew(w.store), w.procs + NewTasks(w.store))
    case Reclaim(picked) =>
      if Claimable(w.store, picked) then World(Claim(w.store, picked), w.procs + ClaimTasks(w.store, picked))
      else w
  }

  function Run(w: World, actions: seq<Action>): World
    decreases |actions|
  {
    if actions == [] then w else Run(Step(w, actions[0]), actions[1..])
  }

  /** Before any request: every seat is AVAILABLE and nothing was ordered, held or streamed. */
  ghost predicate Init(w: World) {
    && (forall seat :: seat in w.store.seats ==> w.store.seats[seat] == AVAILABLE)
    && w.store.holds == map[] && w.store.orders == map[] && w.store.stream == []
    && w.store.group == NoGroup && w.store.disclosed == {} && w.store.flips == map[]
    && w.procs == []
  }

  lemma {:induction false} RunConcat(w: World, xs: seq<Action>, ys: seq<Action>)
    ensures Run(w, xs + ys) == Run(Run(w, xs), ys)
    decreases |xs|
  {
    if xs == [] {
      assert xs + ys == ys;
    } else {
      assert (xs + ys)[1..] == xs[1..] + ys;
      RunConcat(Step(w, xs[0]), xs[1..], ys);
    }
  }

  lemma RunOne(w: World, a: Action)
    ensures Run(w, [a]) == Step(w, a)
  {
    var one := [a];
    assert one[1..] == [];
  }

  lemma RunTwo(w: World, a: Action, b: Action)
    ensures Run(w, [a, b]) == Step(Step(w, a), b)
  {
    RunOne(w, a);
    RunOne(Step(w, a), b);
    RunConcat(w, [a], [b]);
    assert [a] + [b] == [a, b];
  }

  lemma RunThree(w: World, a: Action, b: Action, c: Action)
    ensures Run(w, [a, b, c]) == Step(Step(Step(w, a), b), c)
  {
    RunTwo(w, a, b);
    RunOne(Step(Step(w, a), b), c);
    RunConcat(w, [a, b], [c]);
    assert [a, b] + [c] == [a, b, c];
  }

  lemma RunFour(w: World, a: Action, b: Action, c: Action, d: Action)
    ensures Run(w, [a, b, c, d]) == Step(Step(Step(Step(w, a), b), c), d)
  {
    RunTwo(w, a, b);
    RunTwo(Step(Step(w, a), b), c, d);
    RunConcat(w, [a, b], [c, d]);
    assert [a, b] + [c, d] == [a, b, c, d];
  }
}
