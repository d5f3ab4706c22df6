/** Which orders can still be settled, in every reachable state, releases and crashes included. */
module Settleable {
  import opened Domain
  import opened Protocol
  import Accounting
  import Identity
  import Delivery
  import Booking
  import Settlement
  import ReleaseFree
  import Claims
  import opened DrainSchedules
  import DrainRuns

  // ---- Rows exist ----

  /** The seat and the event of every order exist, and so do those of every request that has passed its seat
      check. */
  ghost predicate RowsExist(w: World) {
    && (forall h :: h in w.store.orders ==>
          w.store.orders[h].seat in w.store.seats && w.store.orders[h].seat.eventId in w.store.events)
    && (forall i :: 0 <= i < |w.procs| ==> CheckedExists(w.store, Identity.Core(w.procs[i])))
  }

  /** A hold or order request between its seat check and its last word on the seat. */
  predicate Checked(p: Process) {
    p.HoldAcquire? || p.HoldPublish? || p.OrderAcquire? || p.OrderCommit?
  }

  predicate CheckedExists(s: Store, p: Process) {
    Checked(p) ==> p.seat in s.seats && p.seat.eventId in s.events
  }

  lemma AdvancedSeats(s: Store, p: Process, uuid: Id)
    ensures var s' := Advanced(s, p, uuid).0; s'.seats.Keys == s.seats.Keys && s'.events == s.events
  {
  }

  lemma AdvancedChecked(s: Store, p: Process, uuid: Id)
    requires CheckedExists(s, Identity.Core(p))
    ensures CheckedExists(s, Identity.Core(Advanced(s, p, uuid).1))
  {
  }

  lemma AdvancedOrders(s: Store, p: Process, uuid: Id)
    requires CheckedExists(s, Identity.Core(p))
    requires forall h :: h in s.orders ==> s.orders[h].seat in s.seats && s.orders[h].seat.eventId in s.events
    ensures var s' := Advanced(s, p, uuid).0;
      forall h :: h in s'.orders ==> s'.orders[h].seat in s.seats && s'.orders[h].seat.eventId in s.events
  {
  }

  lemma StepKeepsRows(w: World, a: Action)
    requires RowsExist(w)
    ensures RowsExist(Step(w, a))
  {
    if a.Advance? && a.pid < |w.procs| && a.uuid !in w.store.used {
      AdvancedSeats(w.store, w.procs[a.pid], a.uuid);
      AdvancedChecked(w.store, w.procs[a.pid], a.uuid);
      AdvancedOrders(w.store, w.procs[a.pid], a.uuid);
    }
  }

  /** Only an order with an entry is ever settled. */
  ghost predicate BookedStreamed(s: Store) {
    forall h :: Settlement.IsBooked(s, h) ==> Identity.Streamed(s, h)
  }

  lemma StepKeepsStreamed(w: World, a: Action)
    requires Booking.Inv(w) && BookedStreamed(w.store)
    ensures BookedStreamed(Step(w, a).store)
  {
    var s' := Step(w, a).store;
    Delivery.StepKeeps(w, a);
    forall h | Settlement.IsBooked(s', h) ensures Identity.Streamed(s', h) {
      Settlement.StepBooks(w, a, h);
      var k: nat;
      if Settlement.IsBooked(w.store, h) {
        k :| 0 <= k < |w.store.stream| && w.store.stream[k].holdId == h;
      } else {
        k := w.procs[a.pid].position;
        assert w.store.stream[k] == w.procs[a.pid].entry;
      }
      assert s'.stream[k].holdId == h;
    }
  }

  ghost predicate Sound(w: World) {
    Booking.Inv(w) && Settlement.Paid(w) && RowsExist(w) && TimesPast(w.store) && BookedStreamed(w.store)
  }

  lemma {:induction false} RunSound(w: World, actions: seq<Action>)
    requires Sound(w)
    ensures Sound(Run(w, actions))
    decreases |actions|
  {
    if actions != [] {
      Booking.StepKeeps(w, actions[0]);
      Settlement.StepKeepsPaid(w, actions[0]);
      StepKeepsRows(w, actions[0]);
      StepKeepsPast(w, actions[0]);
      StepKeepsStreamed(w, actions[0]);
      RunSound(Step(w, actions[0]), actions[1..]);
    }
  }

  lemma HistorySound(w: World, history: seq<Action>)
    requires Init(w)
    ensures Sound(Run(w, history))
  {
    Booking.InitInv(w);
    RunSound(w, history);
  }

  /** In every reachable state each request that is past its seat check names a seat that has a row and an
      event, and so does every order. */
  lemma CheckedSeatsExist(w: World, actions: seq<Action>, i: nat)
    requires Init(w) && i < |Run(w, actions).procs|
    ensures var s, p := Run(w, actions).store, Run(w, actions).procs[i];
      p.HoldAcquire? || p.HoldPublish? || p.OrderAcquire? || p.OrderCommit? ==>
        p.seat in s.seats && p.seat.eventId in s.events
    ensures var s := Run(w, actions).store;
      forall h :: h in s.orders ==> s.orders[h].seat in s.seats && s.orders[h].seat.eventId in s.events
  {
    HistorySound(w, actions);
    assert Identity.Core(Run(w, actions).procs[i]) == Run(w, actions).procs[i] || Run(w, actions).procs[i].Crashed?;
  }

  // ---- Continuations ----

  /** No releases and no claims. */
  predicate Plain(actions: seq<Action>) {
    forall i :: 0 <= i < |actions| ==>
      !actions[i].Reclaim? && (actions[i].Start? ==> !ReleaseFree.IsRelease(actions[i].request))
  }

  /** The continuation `actions` leads from `w` to a task for entry k and leaves rows and stream alone. */
  ghost predicate Delivers(w: World, actions: seq<Action>, k: nat) {
    var w' := Run(w, actions);
    && k < |w.store.stream|
    && w'.store.orders == w.store.orders && w'.store.seats == w.store.seats && w'.store.stream == w.store.stream
    && exists i :: 0 <= i < |w'.procs| && w'.procs[i] == SettleRead(k, w.store.stream[k])
  }

  lemma ReadStarts(w: World, k: nat)
    requires NextBatch(w.store, k) && k < |w.store.stream|
    ensures Delivers(w, [Read], k)
  {
    RunOne(w, Read);
    var i := |w.procs| + (k - w.store.group.cursor);
    assert Step(w, Read).procs[i] == NewTasks(w.store)[k - w.store.group.cursor];
  }

  /** Reads reach every entry that was never delivered. */
  lemma {:induction false} ReadsReach(w: World, k: nat) returns (actions: seq<Action>)
    requires Delivery.GroupSound(w.store) && w.store.group.Group? && w.store.group.cursor <= k < |w.store.stream|
    ensures Plain(actions) && Delivers(w, actions, k)
    decreases k - w.store.group.cursor
  {
    if NextBatch(w.store, k) {
      ReadStarts(w, k);
      actions := [Read];
    } else {
      var w1 := Step(w, Read);
      Delivery.ReadKeeps(w.store);
      var rest := ReadsReach(w1, k);
      actions := [Read] + rest;
      RunOne(w, Read);
      RunConcat(w, [Read], rest);
    }
  }

  lemma ClaimStarts(w: World, picked: seq<nat>, k: nat)
    requires Claimable(w.store, picked) && k in picked && k < |w.store.stream|
    ensures Delivers(w, [Reclaim(picked)], k)
  {
    RunOne(w, Reclaim(picked));
    var j :| 0 <= j < |picked| && picked[j] == k;
    assert Step(w, Reclaim(picked)).procs[|w.procs| + j] == ClaimTasks(w.store, picked)[j];
  }

  function IdleUpTo(s: Store, k: nat): set<nat>
    requires s.group.Group?
  {
    set j | j in s.group.pending && j <= k && Claims.Idle(s.group.pending, s.clock, j)
  }

  /** A worker's claim that does not reach entry k takes ten idle entries before it. */
  lemma ClaimApproaches(s: Store, picked: seq<nat>, k: nat)
    requires s.group.Group? && Claimable(s, picked) && Claims.EarliestIdle(s.group.pending, s.clock, picked)
    requires Claims.Idle(s.group.pending, s.clock, k) && Claims.InScan(s.group.pending, k) && k !in picked
    ensures var c := Claim(s, picked);
      && Claims.Idle(c.group.pending, c.clock, k) && Claims.InScan(c.group.pending, k)
      && IdleUpTo(c, k) < IdleUpTo(s, k)
  {
    var c := Claim(s, picked);
    Drain.ClaimedStore(s, picked);
    assert Claims.PendingBefore(c.group.pending, k) == Claims.PendingBefore(s.group.pending, k);
    assert |picked| == BATCH_SIZE && picked[0] in picked && picked[0] < k;
    assert picked[0] in IdleUpTo(s, k) && picked[0] !in IdleUpTo(c, k);
  }

  /** Entry k is idle and among the first hundred pending ones. */
  ghost predicate WithinScan(s: Store, k: nat) {
    && s.group.Group? && Delivery.GroupSound(s)
    && Claims.Idle(s.group.pending, s.clock, k) && Claims.InScan(s.group.pending, k)
  }

  lemma NextClaim(s: Store, picked: seq<nat>, k: nat)
    requires WithinScan(s, k) && Claimable(s, picked)
    requires Claims.EarliestIdle(s.group.pending, s.clock, picked) && k !in picked
    ensures WithinScan(Claim(s, picked), k) && IdleUpTo(Claim(s, picked), k) < IdleUpTo(s, k)
  {
    ClaimApproaches(s, picked, k);
    Drain.ClaimedStore(s, picked);
  }

  /** The worker's claims reach every idle entry among the first hundred pending ones. */
  lemma {:induction false} ClaimsReach(w: World, k: nat) returns (actions: seq<Action>)
    requires WithinScan(w.store, k)
    ensures ReleaseFree.NoRelease(actions) && WorkerClaims(w, actions) && Delivers(w, actions, k)
    decreases IdleUpTo(w.store, k)
  {
    var picked := ClaimExists(w.store);
    OneClaim(w, picked);
    if k in picked {
      ClaimStarts(w, picked, k);
      actions := [Reclaim(picked)];
    } else {
      NextClaim(w.store, picked, k);
      var rest := ClaimsReach(Step(w, Reclaim(picked)), k);
      actions := [Reclaim(picked)] + rest;
      ClaimFirst(w, picked, rest, k);
    }
  }

  lemma OneClaim(w: World, picked: seq<nat>)
    requires w.store.group.Group? && Claims.EarliestIdle(w.store.group.pending, w.store.clock, picked)
    ensures WorkerClaims(w, [Reclaim(picked)])
  {
    var one := [Reclaim(picked)];
    assert one[1..] == [];
  }

  lemma ClaimFirst(w: World, picked: seq<nat>, rest: seq<Action>, k: nat)
    requires Claimable(w.store, picked) && WorkerClaims(w, [Reclaim(picked)])
    requires WorkerClaims(Step(w, Reclaim(picked)), rest) && Delivers(Step(w, Reclaim(picked)), rest, k)
    ensures WorkerClaims(w, [Reclaim(picked)] + rest) && Delivers(w, [Reclaim(picked)] + rest, k)
  {
    RunOne(w, Reclaim(picked));
    RunConcat(w, [Reclaim(picked)], rest);
    WorkerClaimsAdd(w, [Reclaim(picked)], rest);
  }

  /** After 30 s entry k can be claimed, by the worker's own claims if it is among the first hundred. */
  lemma PendingReached(w: World, k: nat) returns (actions: seq<Action>)
    requires Delivery.GroupSound(w.store) && TimesPast(w.store) && w.store.group.Group? && k in w.store.group.pending
    ensures ReleaseFree.NoRelease(actions) && Delivers(w, actions, k)
    ensures Claims.InScan(w.store.group.pending, k) ==> WorkerClaims(w, actions)
  {
    var wait := [Tick(CLAIM_IDLE_MS)];
    RunOne(w, wait[0]);
    var w1 := Step(w, wait[0]);
    var rest: seq<Action>;
    if Claims.InScan(w.store.group.pending, k) {
      rest := ClaimsReach(w1, k);
      NoClaims(w, wait);
      WorkerClaimsAdd(w, wait, rest);
    } else {
      ClaimStarts(w1, [k], k);
      rest := [Reclaim([k])];
    }
    actions := wait + rest;
    RunConcat(w, wait, rest);
  }

  /** A task at its start settles its entry in two awaits if the seat is HELD. */
  lemma TaskSettles(w: World, i: nat, k: nat) returns (actions: seq<Action>)
    requires i < |w.procs| && k < |w.store.stream| && w.procs[i] == SettleRead(k, w.store.stream[k])
    requires var e := w.store.stream[k];
      e.holdId in w.store.orders && !Settlement.IsBooked(w.store, e.holdId) && HasStatus(w.store, e.seat, HELD)
    ensures Plain(actions) && Run(w, actions).store == CommitSettlement(w.store, w.store.stream[k]).0
    ensures Settlement.IsBooked(Run(w, actions).store, w.store.stream[k].holdId)
  {
    var uuid := Fresh(w.store.used);
    var a := Advance(i, uuid);
    var w1 := Step(w, a);
    assert w1.store == w.store && w1.procs[i] == SettleCommit(k, w.store.stream[k]);
    actions := [a, a];
    assert actions[1..] == [a];
    RunOne(w1, a);
  }

  /** What opening the way for an order of the seat leaves alone. */
  ghost predicate Reopened(w: World, w': World, seat: Seat) {
    && HasStatus(w'.store, seat, HELD) && w'.store.stream == w.store.stream && w'.store.group == w.store.group
    && forall h :: h in w.store.orders ==> h in w'.store.orders && w'.store.orders[h] == w.store.orders[h]
  }

  /** A new order request takes a free seat's hold. */
  lemma OrderStarts(w: World, seat: Seat, u: Id)
    requires HasStatus(w.store, seat, AVAILABLE) && !HoldLive(w.store, seat) && seat.eventId in w.store.events
    requires u !in w.store.used
    ensures var n := |w.procs|;
      var w3 := Step(Step(Step(w, Start(OrderRead(seat, 0))), Advance(n, u)), Advance(n, u));
      && w3.procs == w.procs + [OrderCommit(seat, 0, u, w.store.clock + 600_000)]
      && w3.store == AcquireHold(w.store, seat, 0, u, HOLD_TTL_SECONDS).0
  {
    var n := |w.procs|;
    var w1 := Step(w, Start(OrderRead(seat, 0)));
    assert w1.procs == w.procs + [OrderRead(seat, 0)];
    var w2 := Step(w1, Advance(n, u));
    assert w2.store == w.store && w2.procs == w.procs + [OrderAcquire(seat, 0)];
  }

  lemma OrderCommits(w: World, n: nat, u: Id, uuid: Id, expiresAt: nat, seat: Seat)
    requires n < |w.procs| && w.procs[n] == OrderCommit(seat, 0, u, expiresAt) && uuid !in w.store.used
    requires HasStatus(w.store, seat, AVAILABLE) && u !in w.store.orders
    ensures Reopened(w, Step(w, Advance(n, uuid)), seat)
  {
  }

  lemma OrderTakes(w: World, seat: Seat, u: Id) returns (actions: seq<Action>)
    requires HasStatus(w.store, seat, AVAILABLE) && !HoldLive(w.store, seat) && seat.eventId in w.store.events
    requires u !in w.store.orders && u !in w.store.used && u + 1 !in w.store.used
    ensures Plain(actions) && Reopened(w, Run(w, actions), seat)
  {
    var n := |w.procs|;
    var b, c, d := Start(OrderRead(seat, 0)), Advance(n, u), Advance(n, u + 1);
    var w1 := Step(w, b);
    var w2 := Step(w1, c);
    var w3 := Step(w2, c);
    OrderStarts(w, seat, u);
    OrderCommits(w3, n, u, u + 1, w.store.clock + 600_000, seat);
    actions := [b, c, c, d];
    RunFour(w, b, c, c, d);
  }

  /** An AVAILABLE seat becomes HELD again by a new order, once the live hold has run out. */
  lemma SeatReopens(w: World, seat: Seat) returns (actions: seq<Action>)
    requires HasStatus(w.store, seat, AVAILABLE) && seat.eventId in w.store.events
    requires w.store.orders.Keys <= w.store.used
    ensures Plain(actions) && Reopened(w, Run(w, actions), seat)
  {
    var wait := [Tick(if seat in w.store.holds then w.store.holds[seat].expiresAt else 0)];
    RunOne(w, wait[0]);
    var w1 := Step(w, wait[0]);
    var u := Fresh(w.store.used);
    var rest := OrderTakes(w1, seat, u);
    actions := wait + rest;
    RunConcat(w, wait, rest);
  }

  // ---- Entries ----

  lemma EntryReached(w: World, k: nat) returns (actions: seq<Action>)
    requires Sound(w) && w.store.group.Group? && w.store.group.start <= k < |w.store.stream|
    requires !Settlement.IsBooked(w.store, w.store.stream[k].holdId)
    ensures ReleaseFree.NoRelease(actions) && Delivers(w, actions, k)
    ensures k >= w.store.group.cursor || Claims.InScan(w.store.group.pending, k) ==> WorkerClaims(w, actions)
  {
    assert Delivery.GroupSound(w.store);
    if k >= w.store.group.cursor {
      actions := ReadsReach(w, k);
      NoClaims(w, actions);
    } else {
      assert k !in w.store.group.acked;
      actions := PendingReached(w, k);
    }
  }

  /** An entry of the group whose seat is HELD can be settled. */
  lemma HeldSettles(w: World, k: nat) returns (actions: seq<Action>)
    requires Sound(w) && w.store.group.Group? && w.store.group.start <= k < |w.store.stream|
    requires !Settlement.IsBooked(w.store, w.store.stream[k].holdId) && HasStatus(w.store, w.store.stream[k].seat, HELD)
    ensures ReleaseFree.NoRelease(actions) && Settlement.IsBooked(Run(w, actions).store, w.store.stream[k].holdId)
    ensures k >= w.store.group.cursor || Claims.InScan(w.store.group.pending, k) ==> WorkerClaims(w, actions)
  {
    var before := EntryReached(w, k);
    var w1 := Run(w, before);
    var i :| 0 <= i < |w1.procs| && w1.procs[i] == SettleRead(k, w.store.stream[k]);
    assert w.store.stream[k].holdId in w.store.orders;
    var rest := TaskSettles(w1, i, k);
    actions := before + rest;
    RunConcat(w, before, rest);
    NoClaims(w1, rest);
    if k >= w.store.group.cursor || Claims.InScan(w.store.group.pending, k) {
      WorkerClaimsAdd(w, before, rest);
    }
  }

  /** So can one whose seat is AVAILABLE again, and hence every one whose seat is not SOLD. */
  lemma UnsoldSettles(w: World, k: nat) returns (actions: seq<Action>)
    requires Sound(w) && w.store.group.Group? && w.store.group.start <= k < |w.store.stream|
    requires !Settlement.IsBooked(w.store, w.store.stream[k].holdId) && !HasStatus(w.store, w.store.stream[k].seat, SOLD)
    ensures ReleaseFree.NoRelease(actions) && Settlement.IsBooked(Run(w, actions).store, w.store.stream[k].holdId)
    ensures k >= w.store.group.cursor || Claims.InScan(w.store.group.pending, k) ==> WorkerClaims(w, actions)
  {
    var e := w.store.stream[k];
    assert e.holdId in w.store.orders && w.store.orders[e.holdId].seat == e.seat;
    if HasStatus(w.store, e.seat, HELD) {
      actions := HeldSettles(w, k);
    } else {
      var first := SeatReopens(w, e.seat);
      var w1 := Run(w, first);
      RunSound(w, first);
      var rest := HeldSettles(w1, k);
      actions := first + rest;
      PlainFirst(w, first, rest);
    }
  }

  // ---- Orders ----

  /** The order is BOOKED at the end of some continuation. */
  ghost predicate CanSettle(w: World, holdId: Id) {
    exists rest :: Settlement.IsBooked(Run(w, rest).store, holdId)
  }

  /** It is at the end of one without releases. */
  ghost predicate SettlesWithoutReleases(w: World, holdId: Id) {
    exists rest :: ReleaseFree.NoRelease(rest) && Settlement.IsBooked(Run(w, rest).store, holdId)
  }

  /** It is at the end of one in which, moreover, every claim is one that the worker's scan makes. */
  ghost predicate WorkerSettles(w: World, holdId: Id) {
    exists rest :: ReleaseFree.NoRelease(rest) && WorkerClaims(w, rest) && Settlement.IsBooked(Run(w, rest).store, holdId)
  }

  /** A request that is still running owes the order's entry. */
  ghost predicate Owing(w: World, holdId: Id) {
    exists i :: 0 <= i < |w.procs| && !w.procs[i].Crashed? && Identity.AwaitsStream(w.procs[i])
                && Identity.HoldOf(w.procs[i]) == holdId
  }

  predicate EntryOf(s: Store, holdId: Id, k: nat) {
    k < |s.stream| && s.stream[k].holdId == holdId
  }

  /** The order has an entry and the group does not start behind it. */
  ghost predicate InGroup(s: Store, holdId: Id) {
    s.group.Group? && exists k :: s.group.start <= k && EntryOf(s, holdId, k)
  }

  /** The order is BOOKED, or its seat is not SOLD and its entry is in the group or will still come. */
  ghost predicate Settleable(w: World, holdId: Id)
    requires holdId in w.store.orders
  {
    || Settlement.IsBooked(w.store, holdId)
    || (!HasStatus(w.store, w.store.orders[holdId].seat, SOLD) && (InGroup(w.store, holdId) || Owing(w, holdId)))
  }

  // -- What can be settled --

  /** A running request appends its entry behind the start of the group. */
  lemma OwedEntryComes(w: World, i: nat) returns (actions: seq<Action>)
    requires Delivery.GroupSound(w.store) && i < |w.procs| && (w.procs[i].OrderPublish? || w.procs[i].OrderAppend?)
    ensures var s, s' := w.store, Run(w, actions).store;
      && Plain(actions) && s'.orders == s.orders && s'.seats == s.seats && s'.stream == s.stream + [w.procs[i].entry]
      && s'.group.Group? && s'.group.start <= |s.stream| && s'.group.cursor <= |s.stream|
  {
    var uuid := Fresh(w.store.used);
    var a := Advance(i, uuid);
    var w1 := Step(w, InitGroup);
    actions := [InitGroup] + if w.procs[i].OrderPublish? then [a, a] else [a];
    RunOne(w, InitGroup);
    RunConcat(w, [InitGroup], actions[1..]);
    if w.procs[i].OrderPublish? {
      var w2 := Step(w1, a);
      assert [a, a][1..] == [a] && w2.procs[i] == OrderAppend(w.procs[i].entry);
      RunOne(w2, a);
    } else {
      RunOne(w1, a);
    }
  }

  lemma OwedSettles(w: World, holdId: Id) returns (actions: seq<Action>)
    requires Sound(w) && holdId in w.store.orders && !Settlement.IsBooked(w.store, holdId)
    requires !HasStatus(w.store, w.store.orders[holdId].seat, SOLD) && Owing(w, holdId)
    ensures ReleaseFree.NoRelease(actions) && WorkerClaims(w, actions) && Settlement.IsBooked(Run(w, actions).store, holdId)
  {
    var i :| 0 <= i < |w.procs| && !w.procs[i].Crashed? && Identity.AwaitsStream(w.procs[i])
             && Identity.HoldOf(w.procs[i]) == holdId;
    assert Identity.Core(w.procs[i]) == w.procs[i];
    var first := OwedEntryComes(w, i);
    var w1 := Run(w, first);
    RunSound(w, first);
    assert w1.store.stream[|w.store.stream|] == w.procs[i].entry;
    var rest := UnsoldSettles(w1, |w.store.stream|);
    actions := first + rest;
    PlainFirst(w, first, rest);
  }

  lemma PlainFirst(w: World, first: seq<Action>, rest: seq<Action>)
    requires Plain(first)
    ensures Run(w, first + rest) == Run(Run(w, first), rest)
    ensures ReleaseFree.NoRelease(rest) ==> ReleaseFree.NoRelease(first + rest)
    ensures WorkerClaims(Run(w, first), rest) ==> WorkerClaims(w, first + rest)
  {
    RunConcat(w, first, rest);
    NoClaims(w, first);
    if WorkerClaims(Run(w, first), rest) {
      WorkerClaimsAdd(w, first, rest);
    }
  }

  // -- What cannot --

  lemma {:induction false} StoppedStays(w: World, actions: seq<Action>, i: nat)
    requires i < |w.procs| && w.procs[i].Crashed?
    ensures i < |Run(w, actions).procs| && Run(w, actions).procs[i] == w.procs[i]
    decreases |actions|
  {
    if actions != [] {
      StoppedStays(Step(w, actions[0]), actions[1..], i);
    }
  }

  /** An order whose request stopped before its XADD never gets an entry, and so is never settled. */
  lemma StoppedNeverSettles(w: World, rest: seq<Action>, i: nat)
    requires Sound(w) && i < |w.procs| && w.procs[i].Crashed? && Identity.AwaitsStream(w.procs[i])
    ensures !Settlement.IsBooked(Run(w, rest).store, Identity.HoldOf(w.procs[i]))
  {
    RunSound(w, rest);
    StoppedStays(w, rest, i);
    assert !Identity.Streamed(Run(w, rest).store, Identity.HoldOf(w.procs[i]));
  }

  lemma UnsettleableStays(w: World, history: seq<Action>, rest: seq<Action>, holdId: Id)
    requires Init(w)
    requires var now := Run(w, history); holdId in now.store.orders && !Settleable(now, holdId)
    ensures !Settlement.IsBooked(Run(Run(w, history), rest).store, holdId)
  {
    HistorySound(w, history);
    var now := Run(w, history);
    if HasStatus(now.store, now.store.orders[holdId].seat, SOLD) {
      ReleaseFree.LostOrderStaysLost(now, rest, holdId);
    } else if Identity.Streamed(now.store, holdId) {
      var k :| 0 <= k < |now.store.stream| && now.store.stream[k].holdId == holdId;
      assert EntryOf(now.store, holdId, k);
      Accounting.NeverSettles(w, history, rest, k);
    } else {
      var i :| 0 <= i < |now.procs| && Identity.AwaitsStream(now.procs[i]) && Identity.HoldOf(now.procs[i]) == holdId;
      StoppedNeverSettles(now, rest, i);
    }
  }

  // -- The exact condition --

  /** In every reachable state, an order can still be settled if and only if it is BOOKED already, or its
      seat is not SOLD and its entry is in the group or owed by a request that still runs. Releases are
      then never needed. */
  lemma SettleableExactly(w: World, history: seq<Action>, holdId: Id)
    requires Init(w) && holdId in Run(w, history).store.orders
    ensures var now := Run(w, history);
      && (CanSettle(now, holdId) <==> Settleable(now, holdId))
      && (CanSettle(now, holdId) ==> SettlesWithoutReleases(now, holdId))
  {
    var now := Run(w, history);
    if Settleable(now, holdId) {
      HistorySound(w, history);
      var rest := SettlingRun(now, holdId);
    } else {
      forall rest ensures !Settlement.IsBooked(Run(now, rest).store, holdId) {
        UnsettleableStays(w, history, rest, holdId);
      }
    }
  }

  lemma SettlingRun(w: World, holdId: Id) returns (rest: seq<Action>)
    requires Sound(w) && holdId in w.store.orders && Settleable(w, holdId)
    ensures ReleaseFree.NoRelease(rest) && Settlement.IsBooked(Run(w, rest).store, holdId)
  {
    if Settlement.IsBooked(w.store, holdId) {
      rest := [];
    } else if Owing(w, holdId) {
      rest := OwedSettles(w, holdId);
    } else {
      var k :| w.store.group.start <= k && EntryOf(w.store, holdId, k);
      assert w.store.orders[holdId].seat == w.store.stream[k].seat;
      rest := UnsoldSettles(w, k);
    }
  }

  /** For an entry: its order can still be settled if and only if the group exists and does not start
      behind it, and the order is BOOKED already or its seat is not SOLD. */
  lemma EntrySettleableExactly(w: World, history: seq<Action>, k: nat)
    requires Init(w) && k < |Run(w, history).store.stream|
    ensures var now := Run(w, history);
      var e := now.store.stream[k];
      CanSettle(now, e.holdId) <==>
      now.store.group.Group? && now.store.group.start <= k
      && (Settlement.IsBooked(now.store, e.holdId) || !HasStatus(now.store, e.seat, SOLD))
  {
    HistorySound(w, history);
    var now := Run(w, history);
    var h := now.store.stream[k].holdId;
    SettleableExactly(w, history, h);
    EntryInGroup(now, k);
    if now.store.group.NoGroup? || k < now.store.group.start {
      Accounting.NeverSettles(w, history, [], k);
    }
  }

  lemma EntryInGroup(w: World, k: nat)
    requires Sound(w) && k < |w.store.stream|
    ensures var e := w.store.stream[k];
      && e.holdId in w.store.orders && w.store.orders[e.holdId].seat == e.seat && !Owing(w, e.holdId)
      && (InGroup(w.store, e.holdId) <==> w.store.group.Group? && w.store.group.start <= k)
  {
    var s, h := w.store, w.store.stream[k].holdId;
    assert EntryOf(s, h, k);
    forall l: nat | EntryOf(s, h, l) ensures l == k {
      assert s.stream[l].holdId == s.stream[k].holdId;
    }
    assert Identity.Streamed(s, h);
  }

  /** After a release-free history the worker's own claims do. */
  lemma WorkerSettlesExactly(w: World, history: seq<Action>, holdId: Id)
    requires Init(w) && ReleaseFree.NoRelease(history) && holdId in Run(w, history).store.orders
    ensures var now := Run(w, history); CanSettle(now, holdId) <==> WorkerSettles(now, holdId)
  {
    var now := Run(w, history);
    SettleableExactly(w, history, holdId);
    if Settleable(now, holdId) && !Settlement.IsBooked(now.store, holdId) {
      HistorySound(w, history);
      var rest: seq<Action>;
      if Owing(now, holdId) {
        rest := OwedSettles(now, holdId);
      } else {
        var k :| now.store.group.start <= k && EntryOf(now.store, holdId, k);
        rest := WorkersCanDrain(w, history);
        assert DrainRuns.Settled(now.store, k, Run(now, rest).store);
      }
    } else if Settleable(now, holdId) {
      assert Run(now, []) == now && WorkerClaims(now, []);
    }
  }

  /** After any history they do if the entry is still owed or undelivered, or among the first hundred
      pending ones. */
  lemma WorkerReaches(w: World, history: seq<Action>, k: nat)
    requires Init(w) && k < |Run(w, history).store.stream|
    requires var s := Run(w, history).store;
      s.group.Group? && s.group.start <= k && !HasStatus(s, s.stream[k].seat, SOLD)
      && (k >= s.group.cursor || Claims.InScan(s.group.pending, k))
    ensures var now := Run(w, history); WorkerSettles(now, now.store.stream[k].holdId)
  {
    HistorySound(w, history);
    var now := Run(w, history);
    EntryInGroup(now, k);
    if Settlement.IsBooked(now.store, now.store.stream[k].holdId) {
      assert Run(now, []) == now && WorkerClaims(now, []);
    } else {
      var rest := UnsoldSettles(now, k);
    }
  }
}
