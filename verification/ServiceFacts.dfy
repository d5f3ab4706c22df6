/** What whole requests do when nobody else runs, as the service's callers see it. */
module ServiceFacts {
  import opened Domain
  import opened Protocol
  import opened Service
  import Settlement

  function Alone5(): seq<Store -> Store> { Alone() + [Untouched] }

  /** The stores and the answer after one delivery of an entry. */
  function Delivery(s: Store, position: nat, e: Entry): (Store, Process) {
    Drive(s, SettleRead(position, e), 0, Alone(), 0)
  }

  lemma Awaits(s: Store, p: Process, others: seq<Store -> Store>, uuid: Id, k: nat)
    requires k < |others| && !p.Finished? && others[k] == Untouched
    ensures Drive(s, p, uuid, others, k) == Drive(Advanced(s, p, uuid).0, Advanced(s, p, uuid).1, uuid, others, k + 1)
  {
    Await(s, p, uuid, others, k, s);
  }

  lemma DeliveryEnds(s: Store, position: nat, e: Entry, k: nat)
    requires k <= 2
    ensures Drive(s, SettlePublish(position, e), 0, Alone(), k) == (Acknowledge(s, position), Finished(Acknowledged))
  {
    Awaits(s, SettlePublish(position, e), Alone(), 0, k);
    Awaits(s, SettleAck(position, e), Alone(), 0, k + 1);
  }

  lemma DeliveryCommits(s: Store, position: nat, e: Entry)
    requires e.holdId in s.orders
    ensures Drive(s, SettleCommit(position, e), 0, Alone(), 1) ==
      if HasStatus(s, e.seat, HELD) then (Acknowledge(CommitSettlement(s, e).0, position), Finished(Acknowledged))
      else (s, Finished(SeatNotHeld))
  {
    Awaits(s, SettleCommit(position, e), Alone(), 0, 1);
    if HasStatus(s, e.seat, HELD) {
      DeliveryEnds(CommitSettlement(s, e).0, position, e, 2);
    }
  }

  /** The four answers of an undisturbed delivery, and what each does to the rows. */
  lemma DeliveryAnswers(s: Store, position: nat, e: Entry)
    ensures var (s', p) := Delivery(s, position, e);
      var h := e.holdId;
      && (p == Finished(OrderMissing) <==> h !in s.orders)
      && (p == Finished(SeatNotHeld) <==> h in s.orders && s.orders[h].status != BOOKED && !(e.seat in s.seats && s.seats[e.seat] == HELD))
      && (p == Finished(Acknowledged) <==> h in s.orders && (s.orders[h].status == BOOKED || (e.seat in s.seats && s.seats[e.seat] == HELD)))
      && (p != Finished(Acknowledged) ==> s' == s)
      && (p == Finished(Acknowledged) ==> h in s'.orders && s'.orders == s.orders[h := s.orders[h].(status := BOOKED)])
      && (p == Finished(Acknowledged) ==>
            s'.seats == if s.orders[h].status == BOOKED then s.seats else s.seats[e.seat := SOLD])
      && (p == Finished(Acknowledged) && s.group.Group? ==> s'.group.Group? && s'.group.pending == s.group.pending - {position})
      && s'.stream == s.stream && s'.holds == s.holds
  {
    DeliveryOutcome(s, position, e);
  }

  /** A delivery in full: four outcomes, decided by the order and the seat. */
  lemma DeliveryOutcome(s: Store, position: nat, e: Entry)
    ensures Delivery(s, position, e) ==
      if e.holdId !in s.orders then (s, Finished(OrderMissing))
      else if s.orders[e.holdId].status == BOOKED then (Acknowledge(s, position), Finished(Acknowledged))
      else if HasStatus(s, e.seat, HELD) then (Acknowledge(CommitSettlement(s, e).0, position), Finished(Acknowledged))
      else (s, Finished(SeatNotHeld))
  {
    Awaits(s, SettleRead(position, e), Alone(), 0, 0);
    if e.holdId in s.orders {
      if s.orders[e.holdId].status == BOOKED {
        DeliveryEnds(s, position, e, 1);
      } else {
        DeliveryCommits(s, position, e);
      }
    }
  }

  /** Two awaits into an order on a seat that is not sold and not held: the hold is taken. */
  lemma OrderAcquires(s: Store, seat: Seat, user: Id, uuid: Id)
    requires seat.eventId in s.events && seat in s.seats && s.seats[seat] != SOLD && !HoldLive(s, seat)
    ensures Drive(s, OrderRead(seat, user), uuid, Alone5(), 0) ==
      Drive(AcquireHold(s, seat, user, uuid, HOLD_TTL_SECONDS).0, OrderCommit(seat, user, uuid, s.clock + 600_000), uuid, Alone5(), 2)
  {
    AcquireTaken(s, seat, user, uuid);
    Awaits(s, OrderRead(seat, user), Alone5(), uuid, 0);
    Awaits(s, OrderAcquire(seat, user), Alone5(), uuid, 1);
  }

  lemma AcquireTaken(s: Store, seat: Seat, user: Id, uuid: Id)
    requires !HoldLive(s, seat)
    ensures Advanced(s, OrderAcquire(seat, user), uuid) ==
      (AcquireHold(s, seat, user, uuid, HOLD_TTL_SECONDS).0, OrderCommit(seat, user, uuid, s.clock + 600_000))
  {
  }

  /** An order alone on an AVAILABLE seat without a live hold is accepted, and one delivery of the entry
      it appended sells the seat to it. */
  lemma OrderThenDeliverySells(s: Store, seat: Seat, user: Id, uuid: Id)
    requires seat.eventId in s.events && HasStatus(s, seat, AVAILABLE) && !HoldLive(s, seat)
    requires uuid !in s.orders
    ensures var (s1, p) := Drive(s, OrderRead(seat, user), uuid, Alone5(), 0);
      && p.Finished? && p.response.OrderAccepted? && |s1.stream| == |s.stream| + 1
      && var (s2, q) := Delivery(s1, |s.stream|, s1.stream[|s.stream|]);
      && q == Finished(Acknowledged) && HasStatus(s2, seat, SOLD) && Settlement.IsBooked(s2, uuid)
      && s2.orders[uuid].user == user && s2.orders[uuid].orderId == p.response.orderId
  {
    OrderAlone(s, seat, user, uuid);
    var s1 := Drive(s, OrderRead(seat, user), uuid, Alone5(), 0).0;
    DeliveryOutcome(s1, |s.stream|, s1.stream[|s.stream|]);
  }

  /** The stores after a successful order transaction. */
  function Ordered(s: Store, seat: Seat, user: Id, uuid: Id): Store {
    CommitOrder(AcquireHold(s, seat, user, uuid, HOLD_TTL_SECONDS).0, seat, user, uuid, s.clock + 600_000).0
  }

  lemma OrderCommits(s: Store, seat: Seat, user: Id, uuid: Id)
    requires seat.eventId in s.events && HasStatus(s, seat, AVAILABLE) && !HoldLive(s, seat)
    requires uuid !in s.orders
    ensures Drive(s, OrderRead(seat, user), uuid, Alone5(), 0) ==
      Drive(Ordered(s, seat, user, uuid), OrderPublish(Entry(uuid, |s.orders|, seat, user, s.clock + 600_000)), uuid, Alone5(), 3)
  {
    OrderAcquires(s, seat, user, uuid);
    var s1 := AcquireHold(s, seat, user, uuid, HOLD_TTL_SECONDS).0;
    CommitTaken(s1, seat, user, uuid, s.clock + 600_000);
    Awaits(s1, OrderCommit(seat, user, uuid, s.clock + 600_000), Alone5(), uuid, 2);
  }

  lemma CommitTaken(s: Store, seat: Seat, user: Id, uuid: Id, expiresAt: nat)
    requires HasStatus(s, seat, AVAILABLE) && uuid !in s.orders
    ensures Advanced(s, OrderCommit(seat, user, uuid, expiresAt), uuid) ==
      (CommitOrder(s, seat, user, uuid, expiresAt).0, OrderPublish(Entry(uuid, |s.orders|, seat, user, expiresAt)))
  {
  }

  lemma OrderAlone(s: Store, seat: Seat, user: Id, uuid: Id)
    requires seat.eventId in s.events && HasStatus(s, seat, AVAILABLE) && !HoldLive(s, seat)
    requires uuid !in s.orders
    ensures var e := Entry(uuid, |s.orders|, seat, user, s.clock + 600_000);
      Drive(s, OrderRead(seat, user), uuid, Alone5(), 0) ==
        (Append(Disclose(Ordered(s, seat, user, uuid), uuid), e), Finished(OrderAccepted(|s.orders|)))
  {
    OrderCommits(s, seat, user, uuid);
    var e := Entry(uuid, |s.orders|, seat, user, s.clock + 600_000);
    var s2 := Ordered(s, seat, user, uuid);
    Awaits(s2, OrderPublish(e), Alone5(), uuid, 3);
    Awaits(Disclose(s2, uuid), OrderAppend(e), Alone5(), uuid, 4);
  }

  /** An undisturbed order is accepted if and only if its event exists, the row is AVAILABLE and no hold is
      live on the seat, the caller's own included; otherwise rows and stream stay as they were. */
  lemma OrderAcceptedIff(s: Store, seat: Seat, user: Id, uuid: Id)
    requires uuid !in s.orders
    ensures var (s', p) := Drive(s, OrderRead(seat, user), uuid, Alone5(), 0);
      var free := seat.eventId in s.events && HasStatus(s, seat, AVAILABLE) && !HoldLive(s, seat);
      && p.Finished? && (p.response.OrderAccepted? <==> free)
      && (!free ==> s'.orders == s.orders && s'.seats == s.seats && s'.stream == s.stream)
      && (HoldLive(s, seat) ==> s'.holds == s.holds)
  {
    if seat.eventId in s.events && seat in s.seats && s.seats[seat] != SOLD && !HoldLive(s, seat) {
      if s.seats[seat] == AVAILABLE {
        OrderAlone(s, seat, user, uuid);
      } else {
        OrderLosesRow(s, seat, user, uuid);
      }
    } else {
      OrderRefused(s, seat, user, uuid);
    }
  }

  /** What an accepted order leaves behind: the row HELD, its own row, hold and entry with the caller, the
      seat and the expiry, and its hold id disclosed. */
  lemma AcceptedOrder(s: Store, seat: Seat, user: Id, uuid: Id)
    requires seat.eventId in s.events && HasStatus(s, seat, AVAILABLE) && !HoldLive(s, seat)
    requires uuid !in s.orders
    ensures var (s', p) := Drive(s, OrderRead(seat, user), uuid, Alone5(), 0);
      var id, expiresAt := |s.orders|, s.clock + 600_000;
      && p == Finished(OrderAccepted(id))
      && s'.seats == s.seats[seat := HELD]
      && s'.orders == s.orders[uuid := Order(id, seat, user, expiresAt, PROCESSING)]
      && s'.holds == s.holds[seat := Hold(user, uuid, expiresAt)]
      && s'.stream == s.stream + [Entry(uuid, id, seat, user, expiresAt)]
      && s'.disclosed == s.disclosed + {uuid} && s'.group == s.group && s'.clock == s.clock
  {
    OrderAlone(s, seat, user, uuid);
    AcceptedFields(s, seat, user, uuid);
  }

  lemma AcceptedFields(s: Store, seat: Seat, user: Id, uuid: Id)
    requires HasStatus(s, seat, AVAILABLE) && !HoldLive(s, seat) && uuid !in s.orders
    ensures var id, expiresAt := |s.orders|, s.clock + 600_000;
      var s' := Append(Disclose(Ordered(s, seat, user, uuid), uuid), Entry(uuid, id, seat, user, expiresAt));
      && s'.seats == s.seats[seat := HELD]
      && s'.orders == s.orders[uuid := Order(id, seat, user, expiresAt, PROCESSING)]
      && s'.holds == s.holds[seat := Hold(user, uuid, expiresAt)]
      && s'.stream == s.stream + [Entry(uuid, id, seat, user, expiresAt)]
      && s'.disclosed == s.disclosed + {uuid} && s'.group == s.group && s'.clock == s.clock
  {
  }

  /** The refusals of an undisturbed order, each by its guard. */
  lemma OrderRefusals(s: Store, seat: Seat, user: Id, uuid: Id)
    requires uuid !in s.orders
    ensures var p := Drive(s, OrderRead(seat, user), uuid, Alone5(), 0).1;
      && (seat.eventId !in s.events ==> p == Finished(EventNotFound))
      && (seat.eventId in s.events && seat !in s.seats ==> p == Finished(SeatNotFound))
      && (seat.eventId in s.events && HasStatus(s, seat, SOLD) ==> p == Finished(Rejected(AlreadySold)))
      && (seat.eventId in s.events && seat in s.seats && s.seats[seat] != SOLD && HoldLive(s, seat) ==>
            p == Finished(Rejected(HoldUnavailable)))
      && (seat.eventId in s.events && HasStatus(s, seat, HELD) && !HoldLive(s, seat) ==>
            p == Finished(Rejected(SeatChanged)))
  {
    if seat.eventId in s.events && seat in s.seats && s.seats[seat] != SOLD && !HoldLive(s, seat) {
      if s.seats[seat] == HELD {
        OrderLosesRow(s, seat, user, uuid);
      }
    } else {
      OrderRefused(s, seat, user, uuid);
    }
  }

  /** The refusal by the transaction. */
  lemma OrderLosesRow(s: Store, seat: Seat, user: Id, uuid: Id)
    requires seat.eventId in s.events && HasStatus(s, seat, HELD) && !HoldLive(s, seat)
    ensures var (s', p) := Drive(s, OrderRead(seat, user), uuid, Alone5(), 0);
      p == Finished(Rejected(SeatChanged)) && s'.orders == s.orders && s'.seats == s.seats && s'.stream == s.stream
  {
    OrderAcquires(s, seat, user, uuid);
    var s1 := AcquireHold(s, seat, user, uuid, HOLD_TTL_SECONDS).0;
    Awaits(s1, OrderCommit(seat, user, uuid, s.clock + 600_000), Alone5(), uuid, 2);
  }

  /** The refusals before the transaction. */
  lemma OrderRefused(s: Store, seat: Seat, user: Id, uuid: Id)
    requires SeatProblem(s, seat).Some? || HoldLive(s, seat)
    ensures var (s', p) := Drive(s, OrderRead(seat, user), uuid, Alone5(), 0);
      && p == Finished(if SeatProblem(s, seat).Some? then SeatProblem(s, seat).value else Rejected(HoldUnavailable))
      && s'.orders == s.orders && s'.seats == s.seats && s'.holds == s.holds && s'.stream == s.stream
  {
    Awaits(s, OrderRead(seat, user), Alone5(), uuid, 0);
    if SeatProblem(s, seat).None? {
      Awaits(s, OrderAcquire(seat, user), Alone5(), uuid, 1);
    }
  }

  // ---- Holds ----

  function Alone3(): seq<Store -> Store> { [Untouched, Untouched, Untouched] }

  /** The seat check of holdSeat and of createOrder: it goes on exactly if event and row exist and the row is
      not SOLD, and otherwise names what is wrong. */
  lemma SeatChecks(s: Store, seat: Seat, user: Id, uuid: Id)
    ensures var (h, o) := (Advanced(s, HoldRead(seat, user), uuid), Advanced(s, OrderRead(seat, user), uuid));
      var passes := seat.eventId in s.events && seat in s.seats && s.seats[seat] != SOLD;
      && h.0 == s && o.0 == s
      && (h.1 == HoldAcquire(seat, user) <==> passes) && (o.1 == OrderAcquire(seat, user) <==> passes)
      && (h.1.HoldAcquire? <==> passes) && (o.1.OrderAcquire? <==> passes)
      && (!passes ==> h.1 == o.1)
      && (h.1 == Finished(EventNotFound) <==> seat.eventId !in s.events)
      && (h.1 == Finished(SeatNotFound) <==> seat.eventId in s.events && seat !in s.seats)
      && (h.1 == Finished(Rejected(AlreadySold)) <==> seat.eventId in s.events && seat in s.seats && s.seats[seat] == SOLD)
  {
  }

  lemma HoldTakes(s: Store, seat: Seat, user: Id, uuid: Id)
    requires !HoldLive(s, seat)
    ensures Drive(s, HoldAcquire(seat, user), uuid, Alone3(), 1) ==
      (Disclose(AcquireHold(s, seat, user, uuid, HOLD_TTL_SECONDS).0, uuid), Finished(HoldGranted(uuid, s.clock + 600_000)))
  {
    var s1 := AcquireHold(s, seat, user, uuid, HOLD_TTL_SECONDS).0;
    Awaits(s, HoldAcquire(seat, user), Alone3(), uuid, 1);
    Awaits(s1, HoldPublish(seat, user, uuid, s.clock + 600_000), Alone3(), uuid, 2);
  }

  lemma HoldStopsAtCheck(s: Store, seat: Seat, user: Id, uuid: Id)
    requires !(seat.eventId in s.events && seat in s.seats && s.seats[seat] != SOLD)
    ensures Drive(s, HoldRead(seat, user), uuid, Alone3(), 0) ==
      (s, Finished(if seat.eventId !in s.events then EventNotFound else if seat !in s.seats then SeatNotFound
                   else Rejected(AlreadySold)))
  {
    SeatChecks(s, seat, user, uuid);
    Awaits(s, HoldRead(seat, user), Alone3(), uuid, 0);
  }

  lemma HoldGoesOn(s: Store, seat: Seat, user: Id, uuid: Id)
    requires seat.eventId in s.events && seat in s.seats && s.seats[seat] != SOLD
    ensures Drive(s, HoldRead(seat, user), uuid, Alone3(), 0) == Drive(s, HoldAcquire(seat, user), uuid, Alone3(), 1)
  {
    SeatChecks(s, seat, user, uuid);
    Awaits(s, HoldRead(seat, user), Alone3(), uuid, 0);
  }

  lemma HoldRefused(s: Store, seat: Seat, user: Id, uuid: Id)
    requires seat.eventId in s.events && seat in s.seats && s.seats[seat] != SOLD && HoldLive(s, seat)
    ensures Drive(s, HoldRead(seat, user), uuid, Alone3(), 0) ==
      (s.(used := s.used + {uuid}), Finished(Rejected(HoldUnavailable)))
  {
    HoldGoesOn(s, seat, user, uuid);
    Awaits(s, HoldAcquire(seat, user), Alone3(), uuid, 1);
  }

  lemma GrantFields(s: Store, seat: Seat, user: Id, uuid: Id)
    requires !HoldLive(s, seat)
    ensures var s' := Disclose(AcquireHold(s, seat, user, uuid, HOLD_TTL_SECONDS).0, uuid);
      && s'.holds == s.holds[seat := Hold(user, uuid, s.clock + 600_000)] && s'.disclosed == s.disclosed + {uuid}
      && s'.seats == s.seats && s'.events == s.events && s'.orders == s.orders && s'.stream == s.stream
      && s'.group == s.group && s'.clock == s.clock
  {
  }

  /** An undisturbed hold is granted if and only if event and row exist, the row is not SOLD and no hold is
      live. Then the key is the caller's for 600 s and its id is disclosed; otherwise holds and disclosed ids
      stay as they were. Rows, orders and stream always do. */
  lemma HoldGrantedIff(s: Store, seat: Seat, user: Id, uuid: Id)
    ensures var (s', p) := Drive(s, HoldRead(seat, user), uuid, Alone3(), 0);
      var live := seat in s.holds && s.clock < s.holds[seat].expiresAt;
      var open := seat.eventId in s.events && seat in s.seats && s.seats[seat] != SOLD;
      && p.Finished? && (p.response.HoldGranted? <==> open && !live)
      && (open && !live ==> p == Finished(HoldGranted(uuid, s.clock + 600_000)))
      && (open && !live ==> s'.holds == s.holds[seat := Hold(user, uuid, s.clock + 600_000)])
      && (open && !live ==> s'.disclosed == s.disclosed + {uuid})
      && (!(open && !live) ==> s'.holds == s.holds && s'.disclosed == s.disclosed)
      && (open && live ==> p == Finished(Rejected(HoldUnavailable)))
      && (seat.eventId !in s.events ==> p == Finished(EventNotFound))
      && (seat.eventId in s.events && seat !in s.seats ==> p == Finished(SeatNotFound))
      && (seat.eventId in s.events && seat in s.seats && s.seats[seat] == SOLD ==> p == Finished(Rejected(AlreadySold)))
      && s'.seats == s.seats && s'.events == s.events && s'.orders == s.orders && s'.stream == s.stream
      && s'.group == s.group && s'.clock == s.clock
  {
    if !(seat.eventId in s.events && seat in s.seats && s.seats[seat] != SOLD) {
      HoldStopsAtCheck(s, seat, user, uuid);
    } else if HoldLive(s, seat) {
      HoldRefused(s, seat, user, uuid);
    } else {
      HoldGoesOn(s, seat, user, uuid);
      HoldTakes(s, seat, user, uuid);
      GrantFields(s, seat, user, uuid);
    }
  }

  // ---- Releases ----

  lemma ReleaseEnds(s: Store, seat: Seat, user: Id, holdId: Id, uuid: Id)
    ensures Drive(s, ReleaseFlip(seat, user, holdId), uuid, Alone(), 2) == (FlipSeat(s, seat), Finished(Released(holdId)))
  {
    Awaits(s, ReleaseFlip(seat, user, holdId), Alone(), uuid, 2);
    Awaits(FlipSeat(s, seat), ReleasePublish(holdId), Alone(), uuid, 3);
  }

  /** The three answers of an undisturbed release: refused because the id has an order, refused because it is
      not the caller's live hold, or released, with the key gone and a HELD row AVAILABLE. */
  lemma ReleaseAnswers(s: Store, seat: Seat, user: Id, holdId: Id, uuid: Id)
    ensures var (s', p) := Drive(s, ReleaseCheck(seat, user, holdId), uuid, Alone(), 0);
      var own := seat in s.holds && s.clock < s.holds[seat].expiresAt && s.holds[seat].user == user && s.holds[seat].holdId == holdId;
      && (p == Finished(Rejected(HasOrder)) <==> holdId in s.orders)
      && (p == Finished(Rejected(NotOwner)) <==> holdId !in s.orders && !own)
      && (p == Finished(Released(holdId)) <==> holdId !in s.orders && own)
      && (p == Finished(Released(holdId)) ==> s'.holds == s.holds - {seat})
      && (p == Finished(Released(holdId)) ==>
            s'.seats == if HasStatus(s, seat, HELD) then s.seats[seat := AVAILABLE] else s.seats)
      && (p != Finished(Released(holdId)) ==> s' == s)
      && s'.orders == s.orders && s'.stream == s.stream && s'.disclosed == s.disclosed
  {
    Awaits(s, ReleaseCheck(seat, user, holdId), Alone(), uuid, 0);
    if holdId !in s.orders {
      Awaits(s, ReleaseDelete(seat, user, holdId), Alone(), uuid, 1);
      if Holds(s, seat, holdId) && s.holds[seat].user == user {
        ReleaseEnds(s.(holds := s.holds - {seat}), seat, user, holdId, uuid);
      }
    }
  }
}
