/** Exactly-once settlement over at-least-once delivery, and what an acknowledgement proves. */
module Settlement {
  import opened Domain
  import opened Protocol
  import opened Booking
  import Identity
  import Delivery
  import Sets

  predicate IsBooked(s: Store, holdId: Id) {
    holdId in s.orders && s.orders[holdId].status == BOOKED
  }

  /** The entry whose settlement transaction takes effect in this step, if any. */
  function SettledBy(w: World, a: Action): Option<Entry> {
    if a.Advance? && a.pid < |w.procs| && a.uuid !in w.store.used && w.procs[a.pid].SettleCommit?
       && CommitSettlement(w.store, w.procs[a.pid].entry).1
    then Some(w.procs[a.pid].entry) else None
  }

  /** How often in a run a settlement of this order takes effect. */
  function SettlementsOf(w: World, actions: seq<Action>, holdId: Id): nat
    decreases |actions|
  {
    if actions == [] then 0
    else
      var now := SettledBy(w, actions[0]);
      Unit(now.Some? && now.value.holdId == holdId) + SettlementsOf(Step(w, actions[0]), actions[1..], holdId)
  }

  /** How often in a run a settlement sells this seat. */
  function SettlementsOn(w: World, actions: seq<Action>, seat: Seat): nat
    decreases |actions|
  {
    if actions == [] then 0
    else
      var now := SettledBy(w, actions[0]);
      Unit(now.Some? && now.value.seat == seat) + SettlementsOn(Step(w, actions[0]), actions[1..], seat)
  }

  /** Which order one await of one process turns BOOKED, and which seat it sells. */
  predicate Settles(s: Store, p: Process) {
    p.SettleCommit? && CommitSettlement(s, p.entry).1
  }

  /** What the invariants say about the rows a process is about to write. */
  ghost predicate Entitled(s: Store, p: Process) {
    && (p.OrderCommit? ==> p.holdId !in s.orders)
    && (p.SettleCommit? ==> p.entry.holdId in s.orders && s.orders[p.entry.holdId].seat == p.entry.seat)
    && (p.SettleCommit? ==> SeatCounts(s, p.entry.seat))
  }

  lemma AdvancedBooks(s: Store, p: Process, uuid: Id, holdId: Id)
    requires Entitled(s, p)
    ensures Unit(IsBooked(Advanced(s, p, uuid).0, holdId)) ==
            Unit(IsBooked(s, holdId)) + Unit(Settles(s, p) && p.entry.holdId == holdId)
  {
    if Settles(s, p) {
      HeldSeatUnbooked(s, p.entry);
    }
  }

  lemma AdvancedSells(s: Store, p: Process, uuid: Id, seat: Seat)
    ensures Unit(HasStatus(Advanced(s, p, uuid).0, seat, SOLD)) ==
            Unit(HasStatus(s, seat, SOLD)) + Unit(Settles(s, p) && p.entry.seat == seat)
  {
  }

  lemma MoverEntitled(w: World, pid: nat)
    requires Booking.Inv(w) && pid < |w.procs|
    ensures Entitled(w.store, w.procs[pid])
  {
    var p := w.procs[pid];
    if p.OrderCommit? {
      assert Identity.HoldOf(p) !in w.store.orders;
    } else if p.SettleCommit? {
      TaskOrder(w, pid);
      assert SeatCounts(w.store, p.entry.seat);
    }
  }

  lemma StepBooks(w: World, a: Action, holdId: Id)
    requires Booking.Inv(w)
    ensures Unit(IsBooked(Step(w, a).store, holdId)) ==
            Unit(IsBooked(w.store, holdId)) + Unit(SettledBy(w, a).Some? && SettledBy(w, a).value.holdId == holdId)
  {
    if a.Advance? && a.pid < |w.procs| {
      MoverEntitled(w, a.pid);
      AdvancedBooks(w.store, w.procs[a.pid], a.uuid, holdId);
    }
  }

  lemma StepSells(w: World, a: Action, seat: Seat)
    ensures Unit(HasStatus(Step(w, a).store, seat, SOLD)) ==
            Unit(HasStatus(w.store, seat, SOLD)) + Unit(SettledBy(w, a).Some? && SettledBy(w, a).value.seat == seat)
  {
    if a.Advance? && a.pid < |w.procs| {
      AdvancedSells(w.store, w.procs[a.pid], a.uuid, seat);
    }
  }

  /** Settlements are conserved: each one turns exactly one order BOOKED, and nothing turns it back. So
      an order is settled at most once, however often its entry is delivered. */
  lemma {:induction false} OrderSettledOnce(w: World, actions: seq<Action>, holdId: Id)
    requires Booking.Inv(w)
    ensures SettlementsOf(w, actions, holdId) + Unit(IsBooked(w.store, holdId)) ==
            Unit(IsBooked(Run(w, actions).store, holdId))
    ensures SettlementsOf(w, actions, holdId) <= 1
    decreases |actions|
  {
    if actions != [] {
      StepBooks(w, actions[0], holdId);
      Booking.StepKeeps(w, actions[0]);
      OrderSettledOnce(Step(w, actions[0]), actions[1..], holdId);
    }
  }

  /** Likewise a seat is sold at most once, and stays SOLD. */
  lemma {:induction false} SeatSoldOnce(w: World, actions: seq<Action>, seat: Seat)
    requires Booking.Inv(w)
    ensures SettlementsOn(w, actions, seat) + Unit(HasStatus(w.store, seat, SOLD)) ==
            Unit(HasStatus(Run(w, actions).store, seat, SOLD))
    ensures SettlementsOn(w, actions, seat) <= 1
    decreases |actions|
  {
    if actions != [] {
      StepSells(w, actions[0], seat);
      Booking.StepKeeps(w, actions[0]);
      SeatSoldOnce(Step(w, actions[0]), actions[1..], seat);
    }
  }

  /** Order rows are kept for ever with their key fields. */
  lemma StepKeepsRows(w: World, a: Action)
    requires Booking.Inv(w)
    ensures Identity.OrdersKept(w.store, Step(w, a).store)
  {
    if a.Advance? && a.pid < |w.procs| {
      MoverEntitled(w, a.pid);
      AdvancedKeepsRows(w.store, w.procs[a.pid], a.uuid);
    }
  }

  lemma AdvancedKeepsRows(s: Store, p: Process, uuid: Id)
    requires Entitled(s, p)
    ensures Identity.OrdersKept(s, Advanced(s, p, uuid).0)
  {
  }

  lemma {:induction false} RunKeepsRows(w: World, actions: seq<Action>)
    requires Booking.Inv(w)
    ensures Identity.OrdersKept(w.store, Run(w, actions).store)
    decreases |actions|
  {
    if actions != [] {
      StepKeepsRows(w, actions[0]);
      Booking.StepKeeps(w, actions[0]);
      RunKeepsRows(Step(w, actions[0]), actions[1..]);
    }
  }

  /** The first settlement of a seat decides it: in every later state the seat is SOLD and its one
      BOOKED order is the winner's. */
  lemma {:induction false} WinnerStays(w: World, a: Action, later: seq<Action>)
    requires Booking.Inv(w) && SettledBy(w, a).Some?
    ensures var e := SettledBy(w, a).value;
            var end := Run(Step(w, a), later).store;
            HasStatus(end, e.seat, SOLD) && OrdersOn(end, e.seat, BOOKED) == {e.holdId}
  {
    var e := SettledBy(w, a).value;
    var w1 := Step(w, a);
    var end := Run(w1, later);
    TaskOrder(w, a.pid);
    Booking.StepKeeps(w, a);
    Booking.RunKeeps(w1, later);
    SeatSoldOnce(w1, later, e.seat);
    OrderSettledOnce(w1, later, e.holdId);
    RunKeepsRows(w1, later);
    OnlyBooked(end.store, e.seat, e.holdId);
  }

  /** A BOOKED order is the only one on its seat. */
  lemma OnlyBooked(s: Store, seat: Seat, holdId: Id)
    requires Counts(s) && IsBooked(s, holdId) && s.orders[holdId].seat == seat
    ensures OrdersOn(s, seat, BOOKED) == {holdId}
  {
    assert SeatCounts(s, seat);
    Sets.SubsetSize({holdId}, OrdersOn(s, seat, BOOKED));
    assert |OrdersOn(s, seat, BOOKED) - {holdId}| == 0;
  }

  // ---- Acknowledgements ----

  predicate PaidProcess(s: Store, p: Process) {
    p.SettlePublish? || p.SettleAck? ==> IsBooked(s, p.entry.holdId)
  }

  /** An entry past its settlement, and an acknowledged entry, has a BOOKED order. */
  ghost predicate Paid(w: World) {
    && (forall i :: 0 <= i < |w.procs| ==> PaidProcess(w.store, Identity.Core(w.procs[i])))
    && (w.store.group.Group? ==> forall k :: k in w.store.group.acked && k < |w.store.stream| ==>
          IsBooked(w.store, w.store.stream[k].holdId))
  }

  ghost predicate BookedKept(s: Store, s': Store) {
    forall h :: IsBooked(s, h) ==> IsBooked(s', h)
  }

  lemma StepKeepsBooked(w: World, a: Action)
    requires Booking.Inv(w)
    ensures BookedKept(w.store, Step(w, a).store)
  {
    forall h | IsBooked(w.store, h) ensures IsBooked(Step(w, a).store, h) {
      StepBooks(w, a, h);
    }
  }

  /** One await of one process leaves a paid process, or acknowledges a paid entry. */
  lemma AdvancedPaid(s: Store, p: Process, uuid: Id)
    requires PaidProcess(s, Identity.Core(p))
    ensures var (s', p') := Advanced(s, p, uuid);
      && PaidProcess(s', Identity.Core(p'))
      && (s'.group == s.group || (p.SettleAck? && s'.group.Group? && s.group.Group? && s'.group.acked == s.group.acked + {p.position}))
  {
  }

  /** Worker processes appear only unsettled, so moving one process keeps the others paid. */
  lemma PaidAfter(w: World, w': World)
    requires Delivery.Inv(w) && Paid(w) && BookedKept(w.store, w'.store) && Delivery.Grows(w.store, w'.store)
    requires |w.procs| <= |w'.procs|
    requires forall i :: 0 <= i < |w'.procs| ==>
      (i < |w.procs| && Identity.Core(w'.procs[i]) == Identity.Core(w.procs[i]))
      || PaidProcess(w'.store, Identity.Core(w'.procs[i]))
    requires w'.store.group.Group? ==> forall k :: k in w'.store.group.acked ==>
      (w.store.group.Group? && k in w.store.group.acked)
      || (k < |w'.store.stream| && IsBooked(w'.store, w'.store.stream[k].holdId))
    ensures Paid(w')
  {
  }

  lemma AdvanceKeepsPaid(w: World, pid: nat, uuid: Id)
    requires Booking.Inv(w) && Paid(w) && pid < |w.procs| && uuid !in w.store.used
    ensures Paid(Step(w, Advance(pid, uuid)))
  {
    var a := Advance(pid, uuid);
    StepKeepsBooked(w, a);
    Delivery.StepKeeps(w, a);
    var p := w.procs[pid];
    AdvancedPaid(w.store, p, uuid);
    var (s', p') := Advanced(w.store, p, uuid);
    assert Step(w, a) == World(s', w.procs[pid := p']);
    if p.SettleAck? {
      AckedPosition(w, pid, s'.stream);
    }
    PaidAfter(w, World(s', w.procs[pid := p']));
  }

  lemma AckedPosition(w: World, pid: nat, stream: seq<Entry>)
    requires Delivery.Inv(w) && pid < |w.procs| && w.procs[pid].SettleAck? && w.store.stream <= stream
    ensures w.procs[pid].position < |stream| && stream[w.procs[pid].position] == w.procs[pid].entry
  {
    assert Identity.Core(w.procs[pid]) == w.procs[pid];
  }

  lemma StepKeepsPaid(w: World, a: Action)
    requires Booking.Inv(w) && Paid(w)
    ensures Paid(Step(w, a))
  {
    var w' := Step(w, a);
    if w' == w {
    } else if a.Advance? {
      AdvanceKeepsPaid(w, a.pid, a.uuid);
    } else {
      StepKeepsBooked(w, a);
      Delivery.StepKeeps(w, a);
      PaidAfter(w, w');
    }
  }

  lemma {:induction false} RunKeepsPaid(w: World, actions: seq<Action>)
    requires Booking.Inv(w) && Paid(w)
    ensures Booking.Inv(Run(w, actions)) && Paid(Run(w, actions))
    decreases |actions|
  {
    if actions != [] {
      StepKeepsPaid(w, actions[0]);
      Booking.StepKeeps(w, actions[0]);
      RunKeepsPaid(Step(w, actions[0]), actions[1..]);
    }
  }

  /** A BOOKED order's seat is SOLD. */
  lemma BookedSold(s: Store, holdId: Id)
    requires Counts(s) && IsBooked(s, holdId)
    ensures HasStatus(s, s.orders[holdId].seat, SOLD)
  {
    assert SeatCounts(s, s.orders[holdId].seat);
    assert holdId in OrdersOn(s, s.orders[holdId].seat, BOOKED);
  }

  /** An acknowledgement is proof of sale, in every reachable state. */
  lemma AcknowledgedIsSold(w: World, actions: seq<Action>, k: nat)
    requires Init(w)
    requires var s := Run(w, actions).store; s.group.Group? && k in s.group.acked
    ensures var s := Run(w, actions).store;
      k < |s.stream| && IsBooked(s, s.stream[k].holdId) && HasStatus(s, s.stream[k].seat, SOLD)
  {
    Booking.InitInv(w);
    RunKeepsPaid(w, actions);
    var s := Run(w, actions).store;
    BookedSold(s, s.stream[k].holdId);
  }

  /** Redelivery is harmless: in every reachable state, whoever handles an acknowledged entry again, and
      wherever that handling stands, its next step changes nothing at all. */
  lemma RedeliveryIsNoOp(w: World, actions: seq<Action>, pid: nat, uuid: Id)
    requires Init(w)
    requires var now := Run(w, actions);
      && pid < |now.procs| && Delivery.IsTask(now.procs[pid])
      && now.store.group.Group? && now.procs[pid].position in now.store.group.acked
    ensures Step(Run(w, actions), Advance(pid, uuid)).store == Run(w, actions).store
  {
    AcknowledgedIsSold(w, actions, Run(w, actions).procs[pid].position);
    Booking.InitInv(w);
    RunKeepsPaid(w, actions);
    var now := Run(w, actions);
    var p := now.procs[pid];
    assert Identity.Core(p) == p && now.store.stream[p.position] == p.entry;
    assert p.position !in now.store.group.pending;
    AdvancedPaidTask(now.store, p, uuid);
  }

  lemma AdvancedPaidTask(s: Store, p: Process, uuid: Id)
    requires Delivery.IsTask(p) && HasStatus(s, p.entry.seat, SOLD)
    requires s.group.Group? && p.position !in s.group.pending
    ensures Advanced(s, p, uuid).0 == s
  {
  }

  // ---- The whole house ----

  /** BOOKED orders and SOLD seats are in one-to-one correspondence. */
  lemma BookedMatchSold(s: Store)
    requires Counts(s)
    ensures |AllOrders(s, BOOKED)| == |SeatsWith(s, SOLD)|
  {
    var seatOf := map h | h in AllOrders(s, BOOKED) :: s.orders[h].seat;
    forall x, y | x in seatOf && y in seatOf && seatOf[x] == seatOf[y] ensures x == y {
      assert SeatCounts(s, seatOf[x]);
      if x != y {
        Sets.SubsetSize({x, y}, OrdersOn(s, seatOf[x], BOOKED));
      }
    }
    Sets.ImageSize(seatOf);
    assert seatOf.Keys == AllOrders(s, BOOKED);
    forall seat ensures seat in SeatsWith(s, SOLD) <==> seat in Sets.Image(seatOf) {
      assert SeatCounts(s, seat);
      if seat in SeatsWith(s, SOLD) {
        var h :| h in OrdersOn(s, seat, BOOKED);
        assert seatOf[h] == seat;
      }
      if seat in Sets.Image(seatOf) {
        var h :| h in seatOf && seatOf[h] == seat;
        BookedSold(s, h);
      }
    }
    assert SeatsWith(s, SOLD) == Sets.Image(seatOf);
  }

  /** Never oversold: in every reachable state there are as many BOOKED orders as SOLD seats, so never
      more than there are seats. */
  lemma NeverOversold(w: World, actions: seq<Action>)
    requires Init(w)
    ensures var s := Run(w, actions).store;
      |AllOrders(s, BOOKED)| == |SeatsWith(s, SOLD)| <= |s.seats.Keys|
  {
    Booking.InitInv(w);
    Booking.RunKeeps(w, actions);
    var s := Run(w, actions).store;
    BookedMatchSold(s);
    Sets.SubsetSize(SeatsWith(s, SOLD), s.seats.Keys);
  }
}
