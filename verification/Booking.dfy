/** No double booking: how many orders of a seat can be PROCESSING or BOOKED, over every run. */
module Booking {
  import opened Domain
  import opened Protocol
  import Identity
  import Delivery

  function OrdersOn(s: Store, seat: Seat, status: OrderStatus): set<Id> {
    set h | h in s.orders && s.orders[h].seat == seat && s.orders[h].status == status
  }

  function AllOrders(s: Store, status: OrderStatus): set<Id> {
    set h | h in s.orders && s.orders[h].status == status
  }

  function SeatsWith(s: Store, status: SeatStatus): set<Seat> {
    set seat | seat in s.seats && s.seats[seat] == status
  }

  function Unit(b: bool): nat { if b then 1 else 0 }

  /** A SOLD seat has one BOOKED order and no other seat has any; a seat has one PROCESSING order for
      being HELD and one more for every release that moved it back to AVAILABLE. */
  ghost predicate SeatCounts(s: Store, seat: Seat) {
    && |OrdersOn(s, seat, BOOKED)| == Unit(HasStatus(s, seat, SOLD))
    && |OrdersOn(s, seat, PROCESSING)| == Flips(s, seat) + Unit(HasStatus(s, seat, HELD))
  }

  ghost predicate Counts(s: Store) {
    forall seat :: SeatCounts(s, seat)
  }

  /** The steps that change seat rows or order rows, seen on the stores alone. */
  ghost predicate SameRows(s: Store, s': Store) {
    s'.seats == s.seats && s'.orders == s.orders && s'.flips == s.flips
  }

  lemma SameRowsCounts(s: Store, s': Store)
    requires Counts(s) && SameRows(s, s')
    ensures Counts(s')
  {
    forall seat ensures SeatCounts(s', seat) {
      assert SeatCounts(s, seat);
      assert OrdersOn(s', seat, BOOKED) == OrdersOn(s, seat, BOOKED);
      assert OrdersOn(s', seat, PROCESSING) == OrdersOn(s, seat, PROCESSING);
    }
  }

  predicate IsOrder(s: Store, h: Id, seat: Seat, status: OrderStatus) {
    h in s.orders && s.orders[h].seat == seat && s.orders[h].status == status
  }

  /** Writing one order row moves at most that order in or out of a seat's counts. */
  lemma CountAfterWrite(s: Store, s': Store, h: Id, seat: Seat, status: OrderStatus)
    requires h in s'.orders && s'.orders == s.orders[h := s'.orders[h]]
    ensures |OrdersOn(s', seat, status)| + Unit(IsOrder(s, h, seat, status)) ==
            |OrdersOn(s, seat, status)| + Unit(IsOrder(s', h, seat, status))
  {
    var others := OrdersOn(s, seat, status) - {h};
    assert OrdersOn(s, seat, status) == if IsOrder(s, h, seat, status) then others + {h} else others;
    assert OrdersOn(s', seat, status) == if IsOrder(s', h, seat, status) then others + {h} else others;
  }

  lemma CommittedSeatCounts(s: Store, seat: Seat, user: Id, holdId: Id, expiresAt: nat, x: Seat)
    requires SeatCounts(s, x) && CommitOrder(s, seat, user, holdId, expiresAt).1
    ensures SeatCounts(CommitOrder(s, seat, user, holdId, expiresAt).0, x)
  {
    var s' := CommitOrder(s, seat, user, holdId, expiresAt).0;
    CountAfterWrite(s, s', holdId, x, BOOKED);
    CountAfterWrite(s, s', holdId, x, PROCESSING);
  }

  lemma CommitOrderCounts(s: Store, seat: Seat, user: Id, holdId: Id, expiresAt: nat)
    requires Counts(s)
    ensures Counts(CommitOrder(s, seat, user, holdId, expiresAt).0)
  {
    var (s', ok) := CommitOrder(s, seat, user, holdId, expiresAt);
    if ok {
      forall x ensures SeatCounts(s', x) {
        assert SeatCounts(s, x);
        CommittedSeatCounts(s, seat, user, holdId, expiresAt, x);
      }
    }
  }

  lemma FlipSeatCounts(s: Store, seat: Seat)
    requires Counts(s)
    ensures Counts(FlipSeat(s, seat))
  {
    var s' := FlipSeat(s, seat);
    forall x ensures SeatCounts(s', x) {
      assert SeatCounts(s, x);
      assert OrdersOn(s', x, BOOKED) == OrdersOn(s, x, BOOKED);
      assert OrdersOn(s', x, PROCESSING) == OrdersOn(s, x, PROCESSING);
    }
  }

  /** While a seat is HELD none of its orders is BOOKED, so a settlement that finds it HELD settles an
      order that was PROCESSING. */
  lemma HeldSeatUnbooked(s: Store, e: Entry)
    requires SeatCounts(s, e.seat) && HasStatus(s, e.seat, HELD)
    requires e.holdId in s.orders && s.orders[e.holdId].seat == e.seat
    ensures s.orders[e.holdId].status == PROCESSING
  {
    assert e.holdId !in OrdersOn(s, e.seat, BOOKED);
  }

  lemma SettledSeatCounts(s: Store, e: Entry, seat: Seat)
    requires SeatCounts(s, e.seat) && SeatCounts(s, seat) && CommitSettlement(s, e).1
    requires s.orders[e.holdId].seat == e.seat
    ensures SeatCounts(CommitSettlement(s, e).0, seat)
  {
    var s' := CommitSettlement(s, e).0;
    HeldSeatUnbooked(s, e);
    CountAfterWrite(s, s', e.holdId, seat, BOOKED);
    CountAfterWrite(s, s', e.holdId, seat, PROCESSING);
  }

  lemma CommitSettlementCounts(s: Store, e: Entry)
    requires Counts(s)
    requires e.holdId in s.orders ==> s.orders[e.holdId].seat == e.seat
    ensures Counts(CommitSettlement(s, e).0)
  {
    var (s', ok) := CommitSettlement(s, e);
    if ok {
      forall seat ensures SeatCounts(s', seat) {
        assert SeatCounts(s, seat) && SeatCounts(s, e.seat);
        SettledSeatCounts(s, e, seat);
      }
    }
  }

  // ---- Every run ----

  ghost predicate Inv(w: World) {
    Identity.Inv(w) && Delivery.Inv(w) && Counts(w.store)
  }

  lemma InitInv(w: World)
    requires Init(w)
    ensures Inv(w)
  {
    Identity.InitInv(w);
    forall seat ensures SeatCounts(w.store, seat) {
      assert OrdersOn(w.store, seat, BOOKED) == {};
      assert OrdersOn(w.store, seat, PROCESSING) == {};
    }
  }

  /** The order of a delivered entry exists and is for the entry's seat. */
  lemma TaskOrder(w: World, pid: nat)
    requires Inv(w) && pid < |w.procs| && Delivery.IsTask(Identity.Core(w.procs[pid]))
    ensures var e := Identity.Core(w.procs[pid]).entry;
      e.holdId in w.store.orders && Matches(e, w.store.orders[e.holdId])
  {
    var p := Identity.Core(w.procs[pid]);
    assert w.store.stream[p.position] == p.entry;
  }

  lemma AdvancedCounts(s: Store, p: Process, uuid: Id)
    requires Counts(s)
    requires p.SettleCommit? && p.entry.holdId in s.orders ==> s.orders[p.entry.holdId].seat == p.entry.seat
    ensures Counts(Advanced(s, p, uuid).0)
  {
    var s' := Advanced(s, p, uuid).0;
    if p.OrderCommit? {
      CommitOrderCounts(s, p.seat, p.user, p.holdId, p.expiresAt);
    } else if p.ReleaseFlip? {
      FlipSeatCounts(s, p.seat);
    } else if p.SettleCommit? {
      CommitSettlementCounts(s, p.entry);
    } else {
      SameRowsCounts(s, s');
    }
  }

  lemma StepKeeps(w: World, a: Action)
    requires Inv(w)
    ensures Inv(Step(w, a))
  {
    Identity.StepKeeps(w, a);
    Delivery.StepKeeps(w, a);
    var w' := Step(w, a);
    if a.Advance? && a.pid < |w.procs| && a.uuid !in w.store.used {
      if w.procs[a.pid].SettleCommit? {
        TaskOrder(w, a.pid);
      }
      AdvancedCounts(w.store, w.procs[a.pid], a.uuid);
    } else {
      SameRowsCounts(w.store, w'.store);
    }
  }

  lemma {:induction false} RunKeeps(w: World, actions: seq<Action>)
    requires Inv(w)
    ensures Inv(Run(w, actions))
    decreases |actions|
  {
    if actions != [] {
      StepKeeps(w, actions[0]);
      RunKeeps(Step(w, actions[0]), actions[1..]);
    }
  }

  /** From a fresh start, whatever requests, deliveries, crashes, expiries and releases interleave, a seat
      never has two BOOKED orders, has one exactly when it is SOLD, and its PROCESSING orders are accounted
      for by its HELD status and by the releases that flipped it. */
  lemma NoDoubleBooking(w: World, actions: seq<Action>, seat: Seat)
    requires Init(w)
    ensures SeatCounts(Run(w, actions).store, seat)
  {
    InitInv(w);
    RunKeeps(w, actions);
    assert Counts(Run(w, actions).store);
  }
}
