/** Runs in which an order is skipped, lost, refused or stopped, each reachable by honest requests. */
module Witnesses {
  import opened Domain
  import opened Protocol
  import Identity
  import Booking
  import Settlement
  import ReleaseFree
  import opened Releases
  import opened Examples
  import opened Settleable
  import OrderHolds
  import DrainSchedules

  // ---- An order is stranded ----

  /** One more order on the seat, and the seat AVAILABLE as before. */
  ghost predicate Stranded(s: Store, s': Store, seat: Seat) {
    && s'.seats == s.seats && s'.events == s.events && s'.group == s.group
    && |s'.stream| == |s.stream| + 1 && s.stream <= s'.stream
    && s'.stream[|s.stream|].seat == seat && s'.stream[|s.stream|].holdId in s'.orders
    && s'.orders[s'.stream[|s.stream|].holdId].status == PROCESSING
    && (forall h :: h in s.orders ==> h in s'.orders && s'.orders[h] == s.orders[h])
    && (forall x :: !HoldLive(s, x) ==> !HoldLive(s', x))
  }

  function Granted(s: Store, seat: Seat, u: Id): Store {
    Disclose(Taken(s, seat, 1, u), u)
  }

  /** After a grant and the first half of its release. */
  function HalfReleased(s: Store, seat: Seat, u: Id): Store {
    var s1 := Granted(s, seat, u);
    s1.(holds := s1.holds - {seat})
  }

  /** A user takes a hold and begins to release it. */
  lemma HalfReleaseRuns(w: World, seat: Seat, u: Id) returns (actions: seq<Action>)
    requires Free(w.store, seat) && u !in w.store.orders && u !in w.store.used && u + 1 !in w.store.used
    ensures Honest(w, actions)
    ensures Run(w, actions) == World(HalfReleased(w.store, seat, u),
      w.procs + [Finished(HoldGranted(u, w.store.clock + 600_000))] + [ReleaseFlip(seat, 1, u)])
  {
    var n := |w.procs|;
    HoldRuns(w, seat, 1, u);
    var w1 := World(Granted(w.store, seat, u), w.procs + [Finished(HoldGranted(u, w.store.clock + 600_000))]);
    ReleaseRuns(w1, seat, 1, u, u + 1);
    Then(w, HoldPart(n, seat, 1, u), ReleasePart(n + 1, seat, 1, u, u + 1));
    actions := HoldPart(n, seat, 1, u) + ReleasePart(n + 1, seat, 1, u, u + 1);
  }

  /** The seat is as free as before and nothing but the holds has changed. */
  ghost predicate Halfway(s: Store, s1: Store, seat: Seat, u: Id) {
    && Free(s1, seat) && s1.seats == s.seats && s1.events == s.events && s1.orders == s.orders && s1.clock == s.clock
    && s1.stream == s.stream && s1.group == s.group && s1.used == s.used + {u}
    && forall x :: HoldLive(s1, x) ==> HoldLive(s, x)
  }

  lemma HalfReleasedFree(s: Store, seat: Seat, u: Id)
    requires Free(s, seat)
    ensures Halfway(s, HalfReleased(s, seat, u), seat, u)
  {
  }

  lemma HalfwayRuns(w: World, seat: Seat, u: Id) returns (actions: seq<Action>, w1: World)
    requires Free(w.store, seat) && u !in w.store.orders && u !in w.store.used && u + 1 !in w.store.used
    ensures Honest(w, actions) && Run(w, actions) == w1 && Halfway(w.store, w1.store, seat, u)
    ensures |w1.procs| == |w.procs| + 2 && w1.procs[|w.procs| + 1] == ReleaseFlip(seat, 1, u)
  {
    actions := HalfReleaseRuns(w, seat, u);
    HalfReleasedFree(w.store, seat, u);
    w1 := Run(w, actions);
  }

  lemma FlipStep(w: World, i: nat, seat: Seat, u: Id, uuid: Id)
    requires i < |w.procs| && w.procs[i] == ReleaseFlip(seat, 1, u) && uuid !in w.store.used
    ensures Step(w, Advance(i, uuid)) == World(FlipSeat(w.store, seat), w.procs[i := ReleasePublish(u)])
    ensures FlipSeat(w.store, seat).clock == w.store.clock
  {
  }

  /** The release ends after another user's order, and that order's hold runs out. */
  lemma FlipRuns(w: World, i: nat, seat: Seat, u: Id, uuid: Id)
    requires i < |w.procs| && w.procs[i] == ReleaseFlip(seat, 1, u) && uuid !in w.store.used
    ensures Run(w, [Advance(i, uuid), Tick(600_000)]) ==
      World(FlipSeat(w.store, seat).(clock := w.store.clock + 600_000), w.procs[i := ReleasePublish(u)])
    ensures Honest(w, [Advance(i, uuid), Tick(600_000)])
  {
    FlipStep(w, i, seat, u, uuid);
    RunTwo(w, Advance(i, uuid), Tick(600_000));
    HonestFree(w, [Advance(i, uuid), Tick(600_000)]);
  }

  lemma StrandedAfter(s: Store, s1: Store, seat: Seat, u: Id, v: Id)
    requires HasStatus(s, seat, AVAILABLE) && Free(s, seat) && v !in s.orders
    requires Halfway(s, s1, seat, u)
    ensures Stranded(s, Flipped(s1, seat, v), seat)
  {
  }

  lemma ThenAccept(w: World, before: seq<Action>, w1: World, seat: Seat, user: Id, v: Id) returns (actions: seq<Action>)
    requires Honest(w, before) && Run(w, before) == w1
    requires Free(w1.store, seat) && HasStatus(w1.store, seat, AVAILABLE)
    requires v !in w1.store.used && v + 1 !in w1.store.used && v !in w1.store.orders
    ensures Honest(w, actions)
    ensures Run(w, actions) == World(Accepted(w1.store, seat, user, v), w1.procs + [Finished(OrderAccepted(|w1.store.orders|))])
  {
    AcceptRuns(w1, seat, user, v);
    Then(w, before, AcceptPart(|w1.procs|, seat, user, v));
    actions := before + AcceptPart(|w1.procs|, seat, user, v);
  }

  lemma ThenFlip(w: World, before: seq<Action>, w2: World, i: nat, seat: Seat, u: Id, uuid: Id) returns (actions: seq<Action>)
    requires Honest(w, before) && Run(w, before) == w2
    requires i < |w2.procs| && w2.procs[i] == ReleaseFlip(seat, 1, u) && uuid !in w2.store.used
    ensures Honest(w, actions)
    ensures Run(w, actions) ==
      World(FlipSeat(w2.store, seat).(clock := w2.store.clock + 600_000), w2.procs[i := ReleasePublish(u)])
  {
    FlipRuns(w2, i, seat, u, uuid);
    Then(w, before, [Advance(i, uuid), Tick(600_000)]);
    actions := before + [Advance(i, uuid), Tick(600_000)];
  }

  lemma AcceptAndFlip(w: World, before: seq<Action>, w1: World, i: nat, seat: Seat, u: Id) returns (actions: seq<Action>)
    requires Honest(w, before) && Run(w, before) == w1
    requires Free(w1.store, seat) && HasStatus(w1.store, seat, AVAILABLE)
    requires i < |w1.procs| && w1.procs[i] == ReleaseFlip(seat, 1, u)
    requires forall x :: u < x ==> x !in w1.store.used && x !in w1.store.orders
    ensures Honest(w, actions)
    ensures Run(w, actions).store == Flipped(w1.store, seat, u + 1)
  {
    var second := ThenAccept(w, before, w1, seat, 2, u + 1);
    AcceptedUsed(w1.store, seat, 2, u + 1);
    actions := ThenFlip(w, second, Run(w, second), i, seat, u, u + 2);
  }

  /** The stores after the order, the seat update and ten minutes. */
  function Flipped(s1: Store, seat: Seat, v: Id): Store {
    FlipSeat(Accepted(s1, seat, 2, v), seat).(clock := s1.clock + 600_000)
  }

  lemma NewIds(s: Store, s1: Store, seat: Seat, u: Id)
    requires Halfway(s, s1, seat, u) && s.orders.Keys <= s.used && forall x :: x in s.used ==> x < u
    ensures u + 1 !in s.orders && forall x :: u < x ==> x !in s1.used && x !in s1.orders
  {
  }

  lemma HalfwayReady(s: Store, s1: Store, seat: Seat, u: Id)
    requires Halfway(s, s1, seat, u) && HasStatus(s, seat, AVAILABLE) && Free(s, seat)
    requires s.orders.Keys <= s.used && forall x :: x in s.used ==> x < u
    ensures Free(s1, seat) && HasStatus(s1, seat, AVAILABLE)
    ensures forall x :: u < x ==> x !in s1.used && x !in s1.orders
    ensures Stranded(s, Flipped(s1, seat, u + 1), seat)
  {
    NewIds(s, s1, seat, u);
    StrandedAfter(s, s1, seat, u, u + 1);
  }

  /** The race of a release with an order, on any free seat of any system. */
  lemma StrandRuns(w: World, seat: Seat) returns (actions: seq<Action>)
    requires Free(w.store, seat) && HasStatus(w.store, seat, AVAILABLE) && w.store.orders.Keys <= w.store.used
    ensures Honest(w, actions) && Stranded(w.store, Run(w, actions).store, seat)
  {
    var u := DrainSchedules.Fresh(w.store.used);
    var first, w1 := HalfwayRuns(w, seat, u);
    HalfwayReady(w.store, w1.store, seat, u);
    actions := AcceptAndFlip(w, first, w1, |w.procs| + 1, seat, u);
  }

  lemma AcceptedUsed(s: Store, seat: Seat, user: Id, u: Id)
    ensures Accepted(s, seat, user, u).used == s.used + {u} && Accepted(s, seat, user, u).clock == s.clock
  {
  }

  // ---- Runs ----

  /** One quiet step more. */
  lemma ThenStep(w: World, before: seq<Action>, a: Action)
    requires Honest(w, before) && !a.Start?
    ensures Honest(w, before + [a]) && Run(w, before + [a]) == Step(Run(w, before), a)
  {
    HonestFree(Run(w, before), [a]);
    Then(w, before, [a]);
    RunOne(Run(w, before), a);
  }

  /** A user takes a hold and releases it; between the release's Redis delete and its seat update another
      user orders the seat. Every request succeeds, and the order's seat is offered again. */
  lemma ReleaseRace() returns (actions: seq<Action>, holdId: Id)
    ensures Init(START) && Honest(START, actions)
    ensures var s := Run(START, actions).store;
      HasStatus(s, SEAT, AVAILABLE) && holdId in Booking.OrdersOn(s, SEAT, PROCESSING)
  {
    actions := StrandRuns(START, SEAT);
    HistorySound(START, actions);
    holdId := Run(START, actions).store.stream[0].holdId;
    EntryInGroup(Run(START, actions), 0);
  }

  /** The first order is accepted before any worker has started: its entry is skipped, and the order can
      never be settled. */
  lemma EarlyOrderIsSkipped() returns (actions: seq<Action>)
    ensures Init(START) && Honest(START, actions)
    ensures var w := Run(START, actions);
      && w.procs == [Finished(OrderAccepted(0))] && |w.store.stream| == 1 && w.store.stream[0].holdId == 10
      && w.store.group.Group? && w.store.group.start == 1 && !CanSettle(w, 10)
  {
    AcceptRuns(START, SEAT, 1, 10);
    var part := AcceptPart(0, SEAT, 1, 10);
    ThenStep(START, part, InitGroup);
    actions := part + [InitGroup];
    EntrySettleableExactly(START, actions, 0);
  }

  lemma ThenOrder(w: World, before: seq<Action>, w1: World, seat: Seat, user: Id, u: Id) returns (actions: seq<Action>)
    requires Honest(w, before) && Run(w, before) == w1 && Free(w1.store, seat) && u !in w1.store.used
    ensures Honest(w, actions)
    ensures OrderHolds.NoEviction(before) ==> OrderHolds.NoEviction(actions)
    ensures Run(w, actions) ==
      World(Taken(w1.store, seat, user, u), w1.procs + [OrderCommit(seat, user, u, w1.store.clock + 600_000)])
  {
    OrderRuns(w1, seat, user, u);
    Then(w, before, OrderPart(|w1.procs|, seat, user, u));
    actions := before + OrderPart(|w1.procs|, seat, user, u);
  }

  lemma ThenHold(w: World, before: seq<Action>, w1: World, seat: Seat, user: Id, u: Id) returns (actions: seq<Action>)
    requires Honest(w, before) && Run(w, before) == w1
    requires Free(w1.store, seat) && u !in w1.store.used && u + 1 !in w1.store.used
    ensures Honest(w, actions)
    ensures OrderHolds.NoEviction(before) ==> OrderHolds.NoEviction(actions)
    ensures Run(w, actions) == World(Disclose(Taken(w1.store, seat, user, u), u),
                                     w1.procs + [Finished(HoldGranted(u, w1.store.clock + 600_000))])
  {
    HoldRuns(w1, seat, user, u);
    Then(w, before, HoldPart(|w1.procs|, seat, user, u));
    actions := before + HoldPart(|w1.procs|, seat, user, u);
  }

  lemma ThenCommit(w: World, before: seq<Action>, w1: World, i: nat, uuid: Id) returns (actions: seq<Action>)
    requires Honest(w, before) && Run(w, before) == w1 && uuid !in w1.store.used
    requires i < |w1.procs| && w1.procs[i].OrderCommit?
    requires HasStatus(w1.store, w1.procs[i].seat, AVAILABLE) && w1.procs[i].holdId !in w1.store.orders
    ensures Honest(w, actions)
    ensures var p := w1.procs[i];
      Run(w, actions) == World(CommitOrder(w1.store, p.seat, p.user, p.holdId, p.expiresAt).0,
        w1.procs[i := OrderPublish(Entry(p.holdId, |w1.store.orders|, p.seat, p.user, p.expiresAt))])
  {
    var p := w1.procs[i];
    CommitStep(w1, i, p.seat, p.user, p.holdId, uuid, p.expiresAt);
    ThenStep(w, before, Advance(i, uuid));
    actions := before + [Advance(i, uuid)];
  }

  /** An order request stops between its transaction and its XADD: the seat is HELD, and the order can
      never be settled. */
  lemma StoppedOrder() returns (actions: seq<Action>)
    ensures Init(START) && Honest(START, actions)
    ensures var s := Run(START, actions).store;
      HasStatus(s, SEAT, HELD) && 10 in s.orders && s.stream == [] && !CanSettle(Run(START, actions), 10)
  {
    actions := UpToCommitted();
    var w := Run(START, actions);
    ThenStep(START, actions, Crash(0));
    actions := actions + [Crash(0)];
    var end := Run(START, actions);
    assert end.store == w.store && |end.procs| == 1 && end.procs[0].Crashed?;
    SettleableExactly(START, actions, 10);
  }

  lemma UpToCommitted() returns (actions: seq<Action>)
    ensures Honest(START, actions)
    ensures var w := Run(START, actions);
      && w.procs == [OrderPublish(Entry(10, 0, SEAT, 1, 600_000))] && w.store.stream == []
      && HasStatus(w.store, SEAT, HELD) && 10 in w.store.orders && !Settlement.IsBooked(w.store, 10)
  {
    actions := ThenOrder(START, [], START, SEAT, 1, 10);
    TakenKeepsRows(START.store, SEAT, 1, 10);
    actions := ThenCommit(START, actions, Run(START, actions), 0, 11);
  }

  /** Two orders on one seat, the second after the race freed the seat, and both entries undelivered. */
  lemma TwoOrders() returns (actions: seq<Action>)
    ensures Honest(START, actions)
    ensures var s := Run(START, actions).store;
      && HasStatus(s, SEAT, HELD) && s.group.Group? && s.group.start == 0 && |s.stream| == 2
      && s.stream[0].seat == SEAT == s.stream[1].seat
  {
    ThenStep(START, [], InitGroup);
    var first := [] + [InitGroup];
    var w1 := Run(START, first);
    var strand := StrandRuns(w1, SEAT);
    Then(START, first, strand);
    var w2 := Run(w1, strand);
    HistorySound(START, first + strand);
    var v := DrainSchedules.Fresh(w2.store.used);
    actions := ThenAccept(START, first + strand, w2, SEAT, 3, v);
    AcceptedRows(w2.store, SEAT, 3, v);
  }

  lemma AcceptedRows(s: Store, seat: Seat, user: Id, u: Id)
    requires HasStatus(s, seat, AVAILABLE) && u !in s.orders
    ensures var s' := Accepted(s, seat, user, u);
      && HasStatus(s', seat, HELD) && s'.group == s.group && |s'.stream| == |s.stream| + 1 && s.stream <= s'.stream
      && s'.stream[|s.stream|].seat == seat && s'.stream[|s.stream|].holdId == u
      && u in s'.orders && s'.orders[u].status == PROCESSING
  {
  }

  /** The race, a second order for the seat that is offered again, and a delivery: the first order has lost
      its seat. */
  lemma LostOrder() returns (actions: seq<Action>, holdId: Id)
    ensures Init(START) && Honest(START, actions)
    ensures var s := Run(START, actions).store;
      && holdId in s.orders && s.orders[holdId].seat == SEAT && s.orders[holdId].status == PROCESSING
      && HasStatus(s, SEAT, SOLD) && !CanSettle(Run(START, actions), holdId)
  {
    var before := TwoOrders();
    var w := Run(START, before);
    holdId := w.store.stream[0].holdId;
    var settle := SecondSettles(w, before);
    Then(START, before, settle);
    actions := before + settle;
    SettleableExactly(START, actions, holdId);
  }

  lemma SecondSettles(w: World, before: seq<Action>) returns (settle: seq<Action>)
    requires w == Run(START, before) && Init(START)
    requires var s := w.store;
      && HasStatus(s, SEAT, HELD) && s.group.Group? && s.group.start == 0 && |s.stream| == 2
      && s.stream[0].seat == SEAT == s.stream[1].seat
    ensures Honest(w, settle)
    ensures var s, h := Run(w, settle).store, w.store.stream[0].holdId;
      h in s.orders && s.orders[h].seat == SEAT && s.orders[h].status == PROCESSING && HasStatus(s, SEAT, SOLD)
  {
    HistorySound(START, before);
    EntryInGroup(w, 0);
    EntryInGroup(w, 1);
    var h := w.store.stream[1].holdId;
    assert h != w.store.stream[0].holdId;
    if Settlement.IsBooked(w.store, h) {
      Settlement.BookedSold(w.store, h);
    }
    settle := HeldSettles(w, 1);
    NoReleaseHonest(w, settle);
    LoserStays(w, settle, h, w.store.stream[0].holdId);
  }

  lemma NoReleaseHonest(w: World, actions: seq<Action>)
    requires ReleaseFree.NoRelease(actions)
    ensures Honest(w, actions)
  {
    HonestFree(w, actions);
  }

  /** Of two orders for a seat only one is ever BOOKED. */
  lemma LoserStays(w: World, actions: seq<Action>, winner: Id, loser: Id)
    requires Sound(w) && winner in w.store.orders && loser in w.store.orders && winner != loser
    requires w.store.orders[winner].seat == w.store.orders[loser].seat
    requires Settlement.IsBooked(Run(w, actions).store, winner)
    ensures var s := Run(w, actions).store;
      && loser in s.orders && s.orders[loser].seat == w.store.orders[loser].seat
      && s.orders[loser].status == PROCESSING && HasStatus(s, w.store.orders[loser].seat, SOLD)
  {
    var s, seat := Run(w, actions).store, w.store.orders[loser].seat;
    RunSound(w, actions);
    Settlement.RunKeepsRows(w, actions);
    Settlement.BookedSold(s, winner);
    Settlement.OnlyBooked(s, seat, winner);
    assert s.orders[loser].status == BOOKED ==> loser in Booking.OrdersOn(s, seat, BOOKED);
  }

  /** A refused transaction at the end of a run. */
  lemma ThenRefused(w: World, before: seq<Action>, w1: World, i: nat, uuid: Id) returns (actions: seq<Action>)
    requires Init(w) && Honest(w, before) && Run(w, before) == w1 && uuid !in w1.store.used
    requires i < |w1.procs| && w1.procs[i].OrderCommit? && !HasStatus(w1.store, w1.procs[i].seat, AVAILABLE)
    ensures Honest(w, actions) && (OrderHolds.NoEviction(before) ==> OrderHolds.NoEviction(actions))
    ensures Run(w, actions) == World(w1.store, w1.procs[i := Finished(Rejected(SeatChanged))])
    ensures OrderHolds.Orphan(Run(w, actions), w1.procs[i].holdId)
  {
    Identity.InitInv(w);
    Identity.RunKeeps(w, before);
    OrderHolds.RunKeepsQuoted(w, before);
    OrderHolds.RefusalOrphans(w1, i, uuid);
    ThenStep(w, before, Advance(i, uuid));
    actions := before + [Advance(i, uuid)];
  }

  lemma OrderAndWait() returns (actions: seq<Action>)
    ensures Honest(START, actions) && OrderHolds.NoEviction(actions)
    ensures var w := Run(START, actions);
      && w.procs == [Finished(OrderAccepted(0))] && w.store.clock == 600_000 && w.store.used == {10}
      && HasStatus(w.store, SEAT, HELD) && Free(w.store, SEAT)
  {
    AcceptRuns(START, SEAT, 1, 10);
    var part := AcceptPart(0, SEAT, 1, 10);
    ThenStep(START, part, Tick(600_000));
    actions := part + [Tick(600_000)];
  }

  /** The first order's hold has run out while its seat is HELD, and a second order request took its own. */
  lemma SecondOrder() returns (actions: seq<Action>)
    ensures Honest(START, actions) && OrderHolds.NoEviction(actions)
    ensures var w := Run(START, actions);
      && w.procs == [Finished(OrderAccepted(0)), OrderCommit(SEAT, 2, 20, 1_200_000)]
      && HasStatus(w.store, SEAT, HELD) && Holds(w.store, SEAT, 20) && 21 !in w.store.used
  {
    var before := OrderAndWait();
    var w := Run(START, before);
    actions := ThenOrder(START, before, w, SEAT, 2, 20);
    TakenKeepsRows(w.store, SEAT, 2, 20);
  }

  /** The second order is refused: its hold is live, and nobody can name it. */
  lemma RefusedOrder() returns (actions: seq<Action>)
    ensures Init(START) && Honest(START, actions) && OrderHolds.NoEviction(actions)
    ensures var w := Run(START, actions);
      && w.procs == [Finished(OrderAccepted(0)), Finished(Rejected(SeatChanged))]
      && Holds(w.store, SEAT, 20) && OrderHolds.Orphan(w, 20)
  {
    var before := SecondOrder();
    actions := ThenRefused(START, before, Run(START, before), 1, 21);
  }

  // ---- An order under another user's hold ----

  /** An order request has taken its hold, and ten minutes later has not run its transaction. */
  lemma SlowOrder() returns (actions: seq<Action>)
    ensures Honest(START, actions) && OrderHolds.NoEviction(actions)
    ensures var w := Run(START, actions);
      && w.procs == [OrderCommit(SEAT, 1, 10, 600_000)] && w.store.clock == 600_000 && w.store.used == {10}
      && HasStatus(w.store, SEAT, AVAILABLE) && Free(w.store, SEAT) && w.store.orders == map[]
  {
    var before := ThenOrder(START, [], START, SEAT, 1, 10);
    TakenKeepsRows(START.store, SEAT, 1, 10);
    ThenStep(START, before, Tick(600_000));
    actions := before + [Tick(600_000)];
  }

  /** Another user is granted the seat. */
  lemma SlowOrderAndGrant() returns (actions: seq<Action>)
    ensures Honest(START, actions) && OrderHolds.NoEviction(actions)
    ensures var w := Run(START, actions);
      && w.procs == [OrderCommit(SEAT, 1, 10, 600_000), Finished(HoldGranted(20, 1_200_000))]
      && HasStatus(w.store, SEAT, AVAILABLE) && Holds(w.store, SEAT, 20) && w.store.orders == map[] && 21 !in w.store.used
  {
    var before := SlowOrder();
    var w := Run(START, before);
    TakenKeepsRows(w.store, SEAT, 2, 20);
    actions := ThenHold(START, before, w, SEAT, 2, 20);
  }

  lemma CommitKeepsHold(s: Store, seat: Seat, user: Id, u: Id, expiresAt: nat, e: Entry, holdId: Id)
    requires HasStatus(s, seat, AVAILABLE) && u !in s.orders && Holds(s, seat, holdId)
    ensures var s' := Append(Disclose(CommitOrder(s, seat, user, u, expiresAt).0, u), e);
      Holds(s', seat, holdId) && u in s'.orders && s'.orders[u].user == user
  {
  }

  /** One user is granted the seat and another user's order for it is accepted while the grant lives: the
      order request was slower than its own hold. */
  lemma LateOrderPassesHold() returns (actions: seq<Action>)
    ensures Init(START) && Honest(START, actions) && OrderHolds.NoEviction(actions)
    ensures var w := Run(START, actions);
      && w.procs == [Finished(OrderAccepted(0)), Finished(HoldGranted(20, 1_200_000))]
      && Holds(w.store, SEAT, 20) && 10 in w.store.orders && w.store.orders[10].user == 1
  {
    var before := SlowOrderAndGrant();
    var w := Run(START, before);
    CommitRuns(w, 0, SEAT, 1, 10, 21, 600_000);
    CommitKeepsHold(w.store, SEAT, 1, 10, 600_000, Entry(10, 0, SEAT, 1, 600_000), 20);
    HonestFree(w, CommitPart(0, 21));
    Then(START, before, CommitPart(0, 21));
    actions := before + CommitPart(0, 21);
  }
}
