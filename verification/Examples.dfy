/** A small system for concrete runs: one event with one seat, and nothing done yet. */
module Examples {
  import opened Domain
  import opened Protocol
  import opened Releases

  const SEAT := Seat(1, 1)
  const START := World(Store(0, map[], {1}, map[SEAT := AVAILABLE], map[], [], NoGroup, {}, {}, map[]), [])

  // ---- Whole requests as parts of a run ----

  /** A run with one more part. */
  lemma Then(w: World, before: seq<Action>, part: seq<Action>)
    requires Honest(w, before) && Honest(Run(w, before), part)
    ensures Honest(w, before + part) && Run(w, before + part) == Run(Run(w, before), part)
  {
    RunConcat(w, before, part);
    HonestConcat(w, before, part);
  }

  lemma {:induction false} HonestConcat(w: World, xs: seq<Action>, ys: seq<Action>)
    requires Honest(w, xs) && Honest(Run(w, xs), ys)
    ensures Honest(w, xs + ys)
    decreases |xs|
  {
    if xs == [] {
      assert xs + ys == ys;
    } else {
      var w1 := Step(w, xs[0]);
      assert Run(w, xs) == Run(w1, xs[1..]);
      HonestConcat(w1, xs[1..], ys);
      assert (xs + ys)[0] == xs[0] && (xs + ys)[1..] == xs[1..] + ys;
    }
  }

  lemma {:induction false} HonestFree(w: World, actions: seq<Action>)
    requires forall i :: 0 <= i < |actions| && actions[i].Start? ==> !actions[i].request.ReleaseCheck?
    ensures Honest(w, actions)
    decreases |actions|
  {
    if actions != [] {
      HonestFree(Step(w, actions[0]), actions[1..]);
    }
  }

  /** A seat that can be taken: it is not SOLD and no hold is live on it. */
  predicate Free(s: Store, seat: Seat) {
    seat.eventId in s.events && seat in s.seats && s.seats[seat] != SOLD && !HoldLive(s, seat)
  }

  /** The stores after a hold was taken. */
  function Taken(s: Store, seat: Seat, user: Id, u: Id): Store {
    AcquireHold(s, seat, user, u, HOLD_TTL_SECONDS).0
  }

  lemma TakenKeepsRows(s: Store, seat: Seat, user: Id, u: Id)
    ensures var s' := Taken(s, seat, user, u);
      s'.seats == s.seats && s'.orders == s.orders && s'.used == s.used + {u} && s'.stream == s.stream
  {
  }

  function HoldPart(n: nat, seat: Seat, user: Id, u: Id): seq<Action> {
    [Start(HoldRead(seat, user)), Advance(n, u), Advance(n, u)] + [Advance(n, u + 1)]
  }

  lemma HoldStep(s: Store, procs: seq<Process>, seat: Seat, user: Id, u: Id)
    requires !HoldLive(s, seat) && u !in s.used
    ensures Step(World(s, procs + [HoldAcquire(seat, user)]), Advance(|procs|, u)) ==
      World(Taken(s, seat, user, u), procs + [HoldPublish(seat, user, u, s.clock + 600_000)])
  {
  }

  lemma HoldChecked(s: Store, procs: seq<Process>, seat: Seat, user: Id, u: Id)
    requires Free(s, seat) && u !in s.used
    ensures Step(Step(World(s, procs), Start(HoldRead(seat, user))), Advance(|procs|, u)) ==
      World(s, procs + [HoldAcquire(seat, user)])
  {
    assert Step(World(s, procs), Start(HoldRead(seat, user))) == World(s, procs + [HoldRead(seat, user)]);
  }

  lemma HoldTaken(w: World, seat: Seat, user: Id, u: Id)
    requires Free(w.store, seat) && u !in w.store.used
    ensures var n := |w.procs|;
      Run(w, [Start(HoldRead(seat, user)), Advance(n, u), Advance(n, u)]) ==
      World(Taken(w.store, seat, user, u), w.procs + [HoldPublish(seat, user, u, w.store.clock + 600_000)])
  {
    HoldChecked(w.store, w.procs, seat, user, u);
    HoldStep(w.store, w.procs, seat, user, u);
    RunThree(w, Start(HoldRead(seat, user)), Advance(|w.procs|, u), Advance(|w.procs|, u));
  }

  lemma HoldShown(s: Store, procs: seq<Process>, seat: Seat, user: Id, u: Id, uuid: Id, expiresAt: nat)
    requires uuid !in s.used
    ensures Run(World(s, procs + [HoldPublish(seat, user, u, expiresAt)]), [Advance(|procs|, uuid)]) ==
      World(Disclose(s, u), procs + [Finished(HoldGranted(u, expiresAt))])
  {
    RunOne(World(s, procs + [HoldPublish(seat, user, u, expiresAt)]), Advance(|procs|, uuid));
  }

  /** A user is granted the seat. */
  lemma HoldRuns(w: World, seat: Seat, user: Id, u: Id)
    requires Free(w.store, seat) && u !in w.store.used && u + 1 !in w.store.used
    ensures var part := HoldPart(|w.procs|, seat, user, u);
      && Honest(w, part)
      && Run(w, part) == World(Disclose(Taken(w.store, seat, user, u), u),
                               w.procs + [Finished(HoldGranted(u, w.store.clock + 600_000))])
  {
    var n := |w.procs|;
    HonestFree(w, HoldPart(n, seat, user, u));
    HoldTaken(w, seat, user, u);
    TakenKeepsRows(w.store, seat, user, u);
    HoldShown(Taken(w.store, seat, user, u), w.procs, seat, user, u, u + 1, w.store.clock + 600_000);
    RunConcat(w, [Start(HoldRead(seat, user)), Advance(n, u), Advance(n, u)], [Advance(n, u + 1)]);
  }

  function OrderPart(n: nat, seat: Seat, user: Id, u: Id): seq<Action> {
    [Start(OrderRead(seat, user)), Advance(n, u), Advance(n, u)]
  }

  /** An order request up to its transaction. */
  lemma OrderRuns(w: World, seat: Seat, user: Id, u: Id)
    requires Free(w.store, seat) && u !in w.store.used
    ensures var part := OrderPart(|w.procs|, seat, user, u);
      && Honest(w, part)
      && Run(w, part) == World(Taken(w.store, seat, user, u),
                               w.procs + [OrderCommit(seat, user, u, w.store.clock + 600_000)])
  {
    var n := |w.procs|;
    var a, b := Start(OrderRead(seat, user)), Advance(n, u);
    HonestFree(w, OrderPart(n, seat, user, u));
    var w1 := Step(w, a);
    assert w1.procs == w.procs + [OrderRead(seat, user)];
    var w2 := Step(w1, b);
    assert w2 == World(w.store, w.procs + [OrderAcquire(seat, user)]);
    RunThree(w, a, b, b);
  }

  /** The stores after an accepted order. */
  function Accepted(s: Store, seat: Seat, user: Id, u: Id): Store {
    Append(Disclose(CommitOrder(Taken(s, seat, user, u), seat, user, u, s.clock + 600_000).0, u), Entry(u, |s.orders|, seat, user, s.clock + 600_000))
  }

  function AcceptPart(n: nat, seat: Seat, user: Id, u: Id): seq<Action> {
    OrderPart(n, seat, user, u) + CommitPart(n, u + 1)
  }

  function CommitPart(n: nat, uuid: Id): seq<Action> {
    [Advance(n, uuid), Advance(n, uuid), Advance(n, uuid)]
  }

  lemma CommitStep(w: World, n: nat, seat: Seat, user: Id, u: Id, uuid: Id, expiresAt: nat)
    requires n < |w.procs| && w.procs[n] == OrderCommit(seat, user, u, expiresAt) && uuid !in w.store.used
    requires HasStatus(w.store, seat, AVAILABLE) && u !in w.store.orders
    ensures Step(w, Advance(n, uuid)) == World(CommitOrder(w.store, seat, user, u, expiresAt).0,
      w.procs[n := OrderPublish(Entry(u, |w.store.orders|, seat, user, expiresAt))])
  {
  }

  lemma AnnounceRuns(w: World, n: nat, e: Entry, uuid: Id)
    requires n < |w.procs| && w.procs[n] == OrderPublish(e) && uuid !in w.store.used
    ensures Step(Step(w, Advance(n, uuid)), Advance(n, uuid)) ==
      World(Append(Disclose(w.store, e.holdId), e), w.procs[n := Finished(OrderAccepted(e.orderId))])
  {
    var w1 := Step(w, Advance(n, uuid));
    assert w1 == World(Disclose(w.store, e.holdId), w.procs[n := OrderAppend(e)]);
  }

  lemma CommitRuns(w: World, n: nat, seat: Seat, user: Id, u: Id, uuid: Id, expiresAt: nat)
    requires n < |w.procs| && w.procs[n] == OrderCommit(seat, user, u, expiresAt) && uuid !in w.store.used
    requires HasStatus(w.store, seat, AVAILABLE) && u !in w.store.orders
    ensures var e := Entry(u, |w.store.orders|, seat, user, expiresAt);
      Run(w, CommitPart(n, uuid)) == World(Append(Disclose(CommitOrder(w.store, seat, user, u, expiresAt).0, u), e),
                                 w.procs[n := Finished(OrderAccepted(|w.store.orders|))])
  {
    var a := Advance(n, uuid);
    CommitStep(w, n, seat, user, u, uuid, expiresAt);
    AnnounceRuns(Step(w, a), n, Entry(u, |w.store.orders|, seat, user, expiresAt), uuid);
    RunThree(w, a, a, a);
  }

  lemma AcceptEnds(s: Store, procs: seq<Process>, seat: Seat, user: Id, u: Id, uuid: Id, expiresAt: nat)
    requires HasStatus(s, seat, AVAILABLE) && u !in s.orders && uuid !in s.used
    ensures Run(World(s, procs + [OrderCommit(seat, user, u, expiresAt)]), CommitPart(|procs|, uuid)) ==
      World(Append(Disclose(CommitOrder(s, seat, user, u, expiresAt).0, u), Entry(u, |s.orders|, seat, user, expiresAt)),
            procs + [Finished(OrderAccepted(|s.orders|))])
  {
    var w := World(s, procs + [OrderCommit(seat, user, u, expiresAt)]);
    CommitRuns(w, |procs|, seat, user, u, uuid, expiresAt);
    assert w.procs[|procs| := Finished(OrderAccepted(|s.orders|))] == procs + [Finished(OrderAccepted(|s.orders|))];
  }

  /** The last awaits of an order on a free seat. */
  lemma TakenIsAccepted(s: Store, procs: seq<Process>, seat: Seat, user: Id, u: Id)
    requires HasStatus(s, seat, AVAILABLE) && u !in s.orders && u + 1 !in s.used
    ensures Run(World(Taken(s, seat, user, u), procs + [OrderCommit(seat, user, u, s.clock + 600_000)]), CommitPart(|procs|, u + 1)) ==
      World(Accepted(s, seat, user, u), procs + [Finished(OrderAccepted(|s.orders|))])
  {
    TakenKeepsRows(s, seat, user, u);
    AcceptEnds(Taken(s, seat, user, u), procs, seat, user, u, u + 1, s.clock + 600_000);
  }

  lemma AcceptJoins(w: World, w1: World, w2: World, n: nat, seat: Seat, user: Id, u: Id)
    requires Run(w, OrderPart(n, seat, user, u)) == w1 && Run(w1, CommitPart(n, u + 1)) == w2
    ensures Run(w, AcceptPart(n, seat, user, u)) == w2
  {
    RunConcat(w, OrderPart(n, seat, user, u), CommitPart(n, u + 1));
  }

  lemma OrderEnds(s: Store, procs: seq<Process>, seat: Seat, user: Id, u: Id)
    requires Free(s, seat) && u !in s.used
    ensures Run(World(s, procs), OrderPart(|procs|, seat, user, u)) ==
            World(Taken(s, seat, user, u), procs + [OrderCommit(seat, user, u, s.clock + 600_000)])
  {
    OrderRuns(World(s, procs), seat, user, u);
  }

  /** An order is accepted. */
  lemma AcceptRuns(w: World, seat: Seat, user: Id, u: Id)
    requires Free(w.store, seat) && HasStatus(w.store, seat, AVAILABLE)
    requires u !in w.store.used && u + 1 !in w.store.used && u !in w.store.orders
    ensures Honest(w, AcceptPart(|w.procs|, seat, user, u))
    ensures Run(w, AcceptPart(|w.procs|, seat, user, u)) ==
            World(Accepted(w.store, seat, user, u), w.procs + [Finished(OrderAccepted(|w.store.orders|))])
  {
    var s, procs := w.store, w.procs;
    OrderEnds(s, procs, seat, user, u);
    TakenIsAccepted(s, procs, seat, user, u);
    AcceptJoins(w, World(Taken(s, seat, user, u), procs + [OrderCommit(seat, user, u, s.clock + 600_000)]),
                World(Accepted(s, seat, user, u), procs + [Finished(OrderAccepted(|s.orders|))]), |procs|, seat, user, u);
    AcceptHonest(w, |procs|, seat, user, u);
  }

  lemma AcceptHonest(w: World, n: nat, seat: Seat, user: Id, u: Id)
    ensures Honest(w, AcceptPart(n, seat, user, u))
  {
    HonestFree(w, AcceptPart(n, seat, user, u));
  }

  function ReleasePart(n: nat, seat: Seat, user: Id, holdId: Id, uuid: Id): seq<Action> {
    [Start(ReleaseCheck(seat, user, holdId)), Advance(n, uuid), Advance(n, uuid)]
  }

  /** A release up to its seat update. */
  lemma ReleaseRuns(w: World, seat: Seat, user: Id, holdId: Id, uuid: Id)
    requires Holds(w.store, seat, holdId) && w.store.holds[seat].user == user
    requires holdId in w.store.disclosed && holdId !in w.store.orders && uuid !in w.store.used
    ensures var part := ReleasePart(|w.procs|, seat, user, holdId, uuid);
      && Honest(w, part)
      && Run(w, part) == World(w.store.(holds := w.store.holds - {seat}), w.procs + [ReleaseFlip(seat, user, holdId)])
  {
    var n := |w.procs|;
    var a, b := Start(ReleaseCheck(seat, user, holdId)), Advance(n, uuid);
    var w1 := Step(w, a);
    assert w1.procs == w.procs + [ReleaseCheck(seat, user, holdId)];
    var w2 := Step(w1, b);
    assert w2 == World(w.store, w.procs + [ReleaseDelete(seat, user, holdId)]);
    RunThree(w, a, b, b);
    var part := ReleasePart(n, seat, user, holdId, uuid);
    assert part[1..] == [b, b];
    HonestFree(w1, [b, b]);
  }
}
