/** Seat status against orders: exact while nobody releases, and exactly how a release breaks it. */
module ReleaseFree {
  import opened Domain
  import opened Protocol
  import opened Booking
  import Identity
  import Delivery
  import Settlement

  predicate IsRelease(p: Process) {
    p.ReleaseCheck? || p.ReleaseDelete? || p.ReleaseFlip?
  }

  ghost predicate NoRelease(actions: seq<Action>) {
    forall i :: 0 <= i < |actions| && actions[i].Start? ==> !IsRelease(actions[i].request)
  }

  ghost predicate Unreleased(w: World) {
    && (forall i :: 0 <= i < |w.procs| ==> !IsRelease(Identity.Core(w.procs[i])))
    && (forall seat :: Flips(w.store, seat) == 0)
  }

  lemma AdvancedUnreleased(s: Store, p: Process, uuid: Id)
    requires !IsRelease(Identity.Core(p)) && forall seat :: Flips(s, seat) == 0
    ensures !IsRelease(Identity.Core(Advanced(s, p, uuid).1))
    ensures forall seat :: Flips(Advanced(s, p, uuid).0, seat) == 0
  {
    assert forall seat :: Flips(Advanced(s, p, uuid).0, seat) == Flips(s, seat);
  }

  lemma StepKeepsUnreleased(w: World, a: Action)
    requires Unreleased(w) && (a.Start? ==> !IsRelease(a.request))
    ensures Unreleased(Step(w, a))
  {
    var w' := Step(w, a);
    if a.Advance? && a.pid < |w.procs| && a.uuid !in w.store.used {
      AdvancedUnreleased(w.store, w.procs[a.pid], a.uuid);
    } else {
      assert forall seat :: Flips(w'.store, seat) == Flips(w.store, seat);
    }
  }

  lemma {:induction false} RunKeepsUnreleased(w: World, actions: seq<Action>)
    requires Unreleased(w) && NoRelease(actions)
    ensures Unreleased(Run(w, actions))
    decreases |actions|
  {
    if actions != [] {
      StepKeepsUnreleased(w, actions[0]);
      RunKeepsUnreleased(Step(w, actions[0]), actions[1..]);
    }
  }

  // ---- The exact correspondence ----

  function OrdersFor(s: Store, seat: Seat): set<Id> {
    set h | h in s.orders && s.orders[h].seat == seat
  }

  lemma OrdersSplit(s: Store, seat: Seat)
    ensures OrdersFor(s, seat) == OrdersOn(s, seat, PROCESSING) + OrdersOn(s, seat, BOOKED)
    ensures |OrdersFor(s, seat)| == |OrdersOn(s, seat, PROCESSING)| + |OrdersOn(s, seat, BOOKED)|
  {
    assert OrdersFor(s, seat) == OrdersOn(s, seat, PROCESSING) + OrdersOn(s, seat, BOOKED);
    assert OrdersOn(s, seat, PROCESSING) !! OrdersOn(s, seat, BOOKED);
  }

  /** A seat row tells the truth about its orders: AVAILABLE means none, HELD exactly one that is
      PROCESSING, SOLD exactly one that is BOOKED. */
  ghost predicate Truthful(s: Store, seat: Seat) {
    && (HasStatus(s, seat, AVAILABLE) <==> seat in s.seats && |OrdersFor(s, seat)| == 0)
    && (HasStatus(s, seat, HELD) <==> |OrdersFor(s, seat)| == 1 && |OrdersOn(s, seat, PROCESSING)| == 1)
    && (HasStatus(s, seat, SOLD) <==> |OrdersFor(s, seat)| == 1 && |OrdersOn(s, seat, BOOKED)| == 1)
  }

  /** In any state a seat row is truthful if and only if no release ever flipped the row. */
  lemma TruthfulIffNeverFlipped(s: Store, seat: Seat)
    requires Counts(s)
    ensures Flips(s, seat) == 0 ==> Truthful(s, seat)
    ensures seat in s.seats ==> (Truthful(s, seat) <==> Flips(s, seat) == 0)
  {
    assert SeatCounts(s, seat);
    OrdersSplit(s, seat);
  }

  /** Without releases every seat row is truthful in every reachable state. */
  lemma ReleaseFreeRunsAreTruthful(w: World, actions: seq<Action>, seat: Seat)
    requires Init(w) && NoRelease(actions)
    ensures Truthful(Run(w, actions).store, seat)
  {
    Booking.InitInv(w);
    Booking.RunKeeps(w, actions);
    RunKeepsUnreleased(w, actions);
    TruthfulIffNeverFlipped(Run(w, actions).store, seat);
  }

  /** An order is PROCESSING only while its seat is HELD, if its seat was never flipped. */
  lemma UnbookedIsHeld(s: Store, holdId: Id)
    requires Counts(s) && holdId in s.orders && Flips(s, s.orders[holdId].seat) == 0
    ensures s.orders[holdId].status == PROCESSING <==> HasStatus(s, s.orders[holdId].seat, HELD)
  {
    var seat := s.orders[holdId].seat;
    assert SeatCounts(s, seat);
    OrdersSplit(s, seat);
    if s.orders[holdId].status == PROCESSING {
      assert holdId in OrdersOn(s, seat, PROCESSING);
    } else {
      assert holdId in OrdersOn(s, seat, BOOKED);
    }
  }

  /** Without releases no delivery fails: the read of a settlement finds its order, and its commit takes
      effect unless the order is BOOKED already. */
  lemma DeliveriesSucceed(w: World, actions: seq<Action>, pid: nat, uuid: Id)
    requires Init(w) && NoRelease(actions)
    requires var now := Run(w, actions); pid < |now.procs| && Delivery.IsTask(now.procs[pid])
    ensures var now := Run(w, actions);
      var p := now.procs[pid];
      var (s', p') := Advanced(now.store, p, uuid);
      && (p.SettleRead? ==> p' == SettleCommit(p.position, p.entry) || p' == SettlePublish(p.position, p.entry))
      && (p.SettleCommit? ==> Settlement.IsBooked(s', p.entry.holdId))
      && (p.SettleCommit? && !Settlement.IsBooked(now.store, p.entry.holdId) ==> p' == SettlePublish(p.position, p.entry))
  {
    Booking.InitInv(w);
    Booking.RunKeeps(w, actions);
    RunKeepsUnreleased(w, actions);
    var now := Run(w, actions);
    TaskOrder(now, pid);
    UnbookedIsHeld(now.store, now.procs[pid].entry.holdId);
  }

  // ---- What a release does to it ----

  /** Only order transactions make a row HELD, so a release that finds the row HELD strands an order:
      the seat is AVAILABLE again while the order is still PROCESSING. It is harmless if and only if the
      row is not HELD at that moment. */
  lemma FlipStrandsOrder(s: Store, seat: Seat)
    requires Counts(s)
    ensures HasStatus(s, seat, HELD) <==>
            HasStatus(FlipSeat(s, seat), seat, AVAILABLE) && !HasStatus(s, seat, AVAILABLE)
    ensures HasStatus(s, seat, HELD) ==>
            exists h :: h in OrdersOn(FlipSeat(s, seat), seat, PROCESSING)
    ensures !HasStatus(s, seat, HELD) ==> FlipSeat(s, seat) == s
  {
    assert SeatCounts(s, seat);
    if HasStatus(s, seat, HELD) {
      var h :| h in OrdersOn(s, seat, PROCESSING);
      assert h in OrdersOn(FlipSeat(s, seat), seat, PROCESSING);
    }
  }

  /** An order left PROCESSING on a SOLD seat stays so in every later state: it lost the seat for good. */
  lemma {:induction false} LostOrderStaysLost(w: World, actions: seq<Action>, holdId: Id)
    requires Booking.Inv(w) && holdId in w.store.orders && w.store.orders[holdId].status == PROCESSING
    requires HasStatus(w.store, w.store.orders[holdId].seat, SOLD)
    ensures holdId in Run(w, actions).store.orders && Run(w, actions).store.orders[holdId].status == PROCESSING
  {
    var seat := w.store.orders[holdId].seat;
    var end := Run(w, actions).store;
    assert SeatCounts(w.store, seat);
    var winner :| winner in OrdersOn(w.store, seat, BOOKED);
    Booking.RunKeeps(w, actions);
    Settlement.RunKeepsRows(w, actions);
    Settlement.OrderSettledOnce(w, actions, winner);
    Settlement.OnlyBooked(end, seat, winner);
    assert end.orders[holdId].status == BOOKED ==> holdId in OrdersOn(end, seat, BOOKED);
  }
}
