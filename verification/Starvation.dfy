/** Redelivery can starve: a claim looks at the first hundred pending entries only, and the entries of lost
    orders stay pending for ever. */
module Starvation {
  import opened Domain
  import opened Protocol
  import Identity
  import Delivery
  import Settlement
  import ReleaseFree
  import Claims
  import Sets
  import opened Releases
  import opened Examples
  import opened Settleable
  import opened Witnesses
  import opened DrainSchedules

  /** The order is PROCESSING and its seat is SOLD to another. */
  predicate Lost(s: Store, holdId: Id) {
    holdId in s.orders && s.orders[holdId].status == PROCESSING && HasStatus(s, s.orders[holdId].seat, SOLD)
  }

  function LostBefore(s: Store, k: nat): set<nat>
    requires s.group.Group?
  {
    set j | j in s.group.pending && j < k && j < |s.stream| && Lost(s, s.stream[j].holdId)
  }

  /** Nobody handles entry k, and a hundred entries of lost orders are pending before it. */
  ghost predicate Starved(w: World, k: nat) {
    && w.store.group.Group? && k in w.store.group.pending && k < |w.store.stream|
    && !Settlement.IsBooked(w.store, w.store.stream[k].holdId)
    && CLAIM_SCAN <= |LostBefore(w.store, k)|
    && forall i :: 0 <= i < |w.procs| && Delivery.IsTask(w.procs[i]) ==> w.procs[i].position != k
  }

  // ---- Lost entries stay pending ----

  lemma StepKeepsLost(w: World, a: Action, holdId: Id)
    requires Sound(w) && Lost(w.store, holdId)
    ensures Lost(Step(w, a).store, holdId)
  {
    RunOne(w, a);
    ReleaseFree.LostOrderStaysLost(w, [a], holdId);
    Settlement.StepKeepsRows(w, a);
    Settlement.StepSells(w, a, w.store.orders[holdId].seat);
  }

  /** Only an acknowledgement takes an entry off the pending list, and only after settlement. */
  lemma UnbookedStaysPending(w: World, a: Action, k: nat)
    requires Sound(w) && w.store.group.Group? && k in w.store.group.pending && k < |w.store.stream|
    requires !Settlement.IsBooked(w.store, w.store.stream[k].holdId)
    ensures var s' := Step(w, a).store;
      s'.group.Group? && k in s'.group.pending && k < |s'.stream| && s'.stream[k] == w.store.stream[k]
  {
    Delivery.StepKeeps(w, a);
    if a.Advance? && a.pid < |w.procs| && a.uuid !in w.store.used {
      var p := w.procs[a.pid];
      Delivery.AdvancedStream(w.store, p, a.uuid);
      if p.SettleAck? {
        assert Identity.Core(p) == p && w.store.stream[p.position] == p.entry;
        assert Settlement.PaidProcess(w.store, p);
      }
    } else if a.Read? {
      Drain.ReadStore(w.store);
    }
  }

  lemma StepKeepsLostBefore(w: World, a: Action, k: nat)
    requires Sound(w) && w.store.group.Group?
    ensures Step(w, a).store.group.Group? && LostBefore(w.store, k) <= LostBefore(Step(w, a).store, k)
  {
    Delivery.StepKeeps(w, a);
    forall j | j in LostBefore(w.store, k) ensures j in LostBefore(Step(w, a).store, k) {
      UnbookedStaysPending(w, a, j);
      StepKeepsLost(w, a, w.store.stream[j].holdId);
    }
  }

  // ---- A starved entry stays so ----

  lemma StarvedOutOfScan(s: Store, k: nat)
    requires s.group.Group? && CLAIM_SCAN <= |LostBefore(s, k)|
    ensures !Claims.InScan(s.group.pending, k)
  {
    Sets.SubsetSize(LostBefore(s, k), Claims.PendingBefore(s.group.pending, k));
  }

  /** No step starts a task for the entry, or settles it without one. */
  lemma StarvedGetsNoTask(w: World, a: Action, k: nat)
    requires Sound(w) && Starved(w, k)
    requires a.Reclaim? ==> Claims.EarliestIdle(w.store.group.pending, w.store.clock, a.picked)
    ensures forall i :: 0 <= i < |Step(w, a).procs| && Delivery.IsTask(Step(w, a).procs[i]) ==> Step(w, a).procs[i].position != k
  {
    var w' := Step(w, a);
    StarvedOutOfScan(w.store, k);
    assert k < w.store.group.cursor by {
      assert Delivery.GroupSound(w.store);
    }
    if a.Advance? {
      if a.pid < |w.procs| {
        Delivery.AdvancedTask(w.store, w.procs[a.pid], a.uuid);
      }
    } else {
      forall i | 0 <= i < |w'.procs| && Delivery.IsTask(w'.procs[i]) ensures w'.procs[i].position != k {
        if i >= |w.procs| {
          Drain.NewTaskOf(w, a, i);
        }
      }
    }
  }

  lemma StarvedNotBooked(w: World, a: Action, k: nat)
    requires Sound(w) && Starved(w, k)
    ensures !Settlement.IsBooked(Step(w, a).store, w.store.stream[k].holdId)
  {
    Settlement.StepBooks(w, a, w.store.stream[k].holdId);
    if Settlement.SettledBy(w, a).Some? {
      var p := w.procs[a.pid];
      assert Identity.Core(p) == p && w.store.stream[p.position] == p.entry;
    }
  }

  lemma StepStarved(w: World, a: Action, k: nat)
    requires Sound(w) && Starved(w, k)
    requires a.Reclaim? ==> Claims.EarliestIdle(w.store.group.pending, w.store.clock, a.picked)
    ensures Starved(Step(w, a), k) && Step(w, a).store.stream[k] == w.store.stream[k]
  {
    StarvedNotBooked(w, a, k);
    UnbookedStaysPending(w, a, k);
    StepKeepsLostBefore(w, a, k);
    Sets.SubsetSize(LostBefore(w.store, k), LostBefore(Step(w, a).store, k));
    StarvedGetsNoTask(w, a, k);
  }

  lemma {:induction false} RunStarved(w: World, actions: seq<Action>, k: nat)
    requires Sound(w) && Starved(w, k) && WorkerClaims(w, actions)
    ensures Starved(Run(w, actions), k) && Run(w, actions).store.stream[k] == w.store.stream[k]
    decreases |actions|
  {
    if actions != [] {
      StepStarved(w, actions[0], k);
      RunOne(w, actions[0]);
      RunSound(w, [actions[0]]);
      RunStarved(Step(w, actions[0]), actions[1..], k);
    }
  }

  /** In no continuation do the workers settle a starved entry, whatever else runs. */
  lemma StarvedNeverSettles(w: World, history: seq<Action>, rest: seq<Action>, k: nat)
    requires Init(w) && Starved(Run(w, history), k) && WorkerClaims(Run(w, history), rest)
    ensures var now := Run(w, history);
      && !Settlement.IsBooked(Run(now, rest).store, now.store.stream[k].holdId)
      && Run(now, rest).store.group.Group? && k in Run(now, rest).store.group.pending
  {
    HistorySound(w, history);
    RunStarved(Run(w, history), rest, k);
  }

  // ---- It happens ----

  const OTHER := Seat(1, 2)
  const TWO_SEATS := World(
    Store(0, map[], {1}, map[SEAT := AVAILABLE, OTHER := AVAILABLE], map[], [], NoGroup, {}, {}, map[]), [])

  /** Undelivered orders for the first seat, which is on offer all the same. */
  ghost predicate Crowd(s: Store, m: nat) {
    && Free(s, SEAT) && HasStatus(s, SEAT, AVAILABLE) && Free(s, OTHER) && HasStatus(s, OTHER, AVAILABLE)
    && s.group.Group? && s.group.start == 0 && s.group.cursor == 0
    && |s.stream| == m && forall j :: 0 <= j < m ==> s.stream[j].seat == SEAT
  }

  lemma StrandGrowsCrowd(s: Store, s': Store, m: nat)
    requires Crowd(s, m) && Stranded(s, s', SEAT)
    ensures Crowd(s', m + 1)
  {
    assert forall j :: 0 <= j < m ==> s'.stream[j] == s.stream[j];
  }

  /** The race, m times over. */
  lemma {:induction false} CrowdExists(m: nat) returns (actions: seq<Action>)
    ensures Honest(TWO_SEATS, actions) && Crowd(Run(TWO_SEATS, actions).store, m)
    decreases m
  {
    if m == 0 {
      ThenStep(TWO_SEATS, [], InitGroup);
      actions := [] + [InitGroup];
    } else {
      var before := CrowdExists(m - 1);
      HistorySound(TWO_SEATS, before);
      var w := Run(TWO_SEATS, before);
      var strand := StrandRuns(w, SEAT);
      StrandGrowsCrowd(w.store, Run(w, strand).store, m - 1);
      Then(TWO_SEATS, before, strand);
      actions := before + strand;
    }
  }

  /** One more order for each seat, and neither row flipped since. */
  ghost predicate Ordered(s: Store) {
    && HasStatus(s, SEAT, HELD) && HasStatus(s, OTHER, HELD)
    && s.group.Group? && s.group.start == 0 && s.group.cursor == 0
    && |s.stream| == CLAIM_SCAN + 2 && s.stream[CLAIM_SCAN + 1].seat == OTHER
    && (forall j :: 0 <= j <= CLAIM_SCAN ==> s.stream[j].seat == SEAT)
    && forall j :: CLAIM_SCAN <= j <= CLAIM_SCAN + 1 ==> !Settlement.IsBooked(s, s.stream[j].holdId)
  }

  lemma AcceptedElsewhere(s: Store, seat: Seat, user: Id, u: Id, x: Seat)
    requires x != seat && HasStatus(s, seat, AVAILABLE) && u !in s.orders
    ensures var s' := Accepted(s, seat, user, u);
      && (HoldLive(s', x) <==> HoldLive(s, x)) && (x in s'.seats <==> x in s.seats)
      && (x in s.seats ==> s'.seats[x] == s.seats[x]) && s'.events == s.events
      && forall h :: h in s.orders ==> h in s'.orders && s'.orders[h] == s.orders[h]
  {
  }

  /** The first of these two orders has been accepted. */
  ghost predicate HalfOrdered(s: Store) {
    && HasStatus(s, SEAT, HELD) && HasStatus(s, OTHER, AVAILABLE) && Free(s, OTHER)
    && s.group.Group? && s.group.start == 0 && s.group.cursor == 0
    && |s.stream| == CLAIM_SCAN + 1 && (forall j :: 0 <= j <= CLAIM_SCAN ==> s.stream[j].seat == SEAT)
    && s.stream[CLAIM_SCAN].holdId in s.orders && !Settlement.IsBooked(s, s.stream[CLAIM_SCAN].holdId)
  }

  lemma CrowdToHalf(s: Store, v: Id)
    requires Crowd(s, CLAIM_SCAN) && v !in s.orders
    ensures HalfOrdered(Accepted(s, SEAT, 3, v))
  {
    var s' := Accepted(s, SEAT, 3, v);
    AcceptedRows(s, SEAT, 3, v);
    AcceptedElsewhere(s, SEAT, 3, v, OTHER);
    assert forall j :: 0 <= j < CLAIM_SCAN ==> s'.stream[j] == s.stream[j];
  }

  lemma HalfToOrdered(s: Store, v: Id)
    requires HalfOrdered(s) && v !in s.orders
    ensures Ordered(Accepted(s, OTHER, 4, v))
  {
    var s' := Accepted(s, OTHER, 4, v);
    AcceptedRows(s, OTHER, 4, v);
    AcceptedElsewhere(s, OTHER, 4, v, SEAT);
    assert forall j :: 0 <= j <= CLAIM_SCAN ==> s'.stream[j] == s.stream[j];
  }

  lemma HalfExists() returns (actions: seq<Action>)
    ensures Honest(TWO_SEATS, actions) && HalfOrdered(Run(TWO_SEATS, actions).store)
  {
    var before := CrowdExists(CLAIM_SCAN);
    var w := Run(TWO_SEATS, before);
    var v := NewId(before);
    CrowdToHalf(w.store, v);
    actions := ThenAccept(TWO_SEATS, before, w, SEAT, 3, v);
  }

  lemma OrderedExists() returns (actions: seq<Action>)
    ensures Honest(TWO_SEATS, actions) && Ordered(Run(TWO_SEATS, actions).store)
  {
    var before := HalfExists();
    var w := Run(TWO_SEATS, before);
    var v := NewId(before);
    HalfToOrdered(w.store, v);
    actions := ThenAccept(TWO_SEATS, before, w, OTHER, 4, v);
  }

  lemma NewId(history: seq<Action>) returns (v: Id)
    ensures var s := Run(TWO_SEATS, history).store; v !in s.used && v + 1 !in s.used && v !in s.orders
  {
    v := Fresh(Run(TWO_SEATS, history).store.used);
    HistorySound(TWO_SEATS, history);
  }

  /** Every process stops. */
  lemma {:induction false} AllStop(w: World, n: nat) returns (actions: seq<Action>)
    requires n <= |w.procs| && forall i :: n <= i < |w.procs| ==> !Delivery.IsTask(w.procs[i])
    ensures Plain(actions) && Run(w, actions).store == w.store
    ensures forall i :: 0 <= i < |Run(w, actions).procs| ==> !Delivery.IsTask(Run(w, actions).procs[i])
    decreases n
  {
    if n == 0 {
      actions := [];
    } else {
      var w1 := Step(w, Crash(n - 1));
      RunOne(w, Crash(n - 1));
      var rest := AllStop(w1, n - 1);
      actions := [Crash(n - 1)] + rest;
      RunConcat(w, [Crash(n - 1)], rest);
    }
  }

  /** The last order for the first seat is settled, the entry after it is delivered, and then every process
      stops. */
  lemma SettleAndStop(w: World) returns (actions: seq<Action>)
    requires Sound(w) && Ordered(w.store)
    ensures Plain(actions)
    ensures var end := Run(w, actions);
      && end.store.stream == w.store.stream && end.store.group.Group? && CLAIM_SCAN + 1 < end.store.group.cursor
      && Settlement.IsBooked(end.store, w.store.stream[CLAIM_SCAN].holdId)
      && !Settlement.IsBooked(end.store, w.store.stream[CLAIM_SCAN + 1].holdId) && HasStatus(end.store, OTHER, HELD)
      && forall i :: 0 <= i < |end.procs| ==> !Delivery.IsTask(end.procs[i])
  {
    var first := FirstSettles(w);
    var w1 := Run(w, first);
    RunSound(w, first);
    var second := NextDelivered(w1, CLAIM_SCAN + 1);
    var w2 := Run(w1, second);
    var third := AllStop(w2, |w2.procs|);
    actions := first + second + third;
    RunConcat(w, first, second);
    RunConcat(w, first + second, third);
  }

  lemma FirstSettles(w: World) returns (actions: seq<Action>)
    requires Sound(w) && Ordered(w.store)
    ensures Plain(actions)
    ensures var s := Run(w, actions).store;
      && s.stream == w.store.stream && s.group.Group? && HasStatus(s, OTHER, HELD)
      && Settlement.IsBooked(s, w.store.stream[CLAIM_SCAN].holdId)
      && !Settlement.IsBooked(s, w.store.stream[CLAIM_SCAN + 1].holdId)
  {
    var k := CLAIM_SCAN;
    var reach := ReadsReach(w, k);
    var w1 := Run(w, reach);
    var i :| 0 <= i < |w1.procs| && w1.procs[i] == SettleRead(k, w.store.stream[k]);
    assert w.store.stream[k].holdId in w.store.orders && w.store.stream[k].holdId != w.store.stream[k + 1].holdId;
    var settle := TaskSettles(w1, i, k);
    actions := reach + settle;
    RunConcat(w, reach, settle);
    Delivery.RunKeeps(w, actions);
  }

  lemma NextDelivered(w: World, k: nat) returns (actions: seq<Action>)
    requires Sound(w) && w.store.group.Group? && k < |w.store.stream|
    ensures Plain(actions)
    ensures var s := Run(w, actions).store;
      && s.stream == w.store.stream && s.orders == w.store.orders && s.seats == w.store.seats
      && s.group.Group? && k < s.group.cursor
  {
    if k < w.store.group.cursor {
      actions := [];
    } else {
      actions := ReadsReach(w, k);
      var w' := Run(w, actions);
      RunSound(w, actions);
      var i :| 0 <= i < |w'.procs| && w'.procs[i] == SettleRead(k, w.store.stream[k]);
      assert Identity.Core(w'.procs[i]) == w'.procs[i];
    }
  }

  function Below(n: nat): (r: set<nat>)
    ensures |r| == n && forall j: nat :: j in r <==> j < n
  {
    if n == 0 then {} else Below(n - 1) + {n - 1}
  }

  lemma UnbookedIsPending(w: World, k: nat)
    requires Sound(w) && w.store.group.Group? && w.store.group.start <= k < w.store.group.cursor
    requires k < |w.store.stream| && !Settlement.IsBooked(w.store, w.store.stream[k].holdId)
    ensures k in w.store.group.pending
  {
    assert Delivery.GroupSound(w.store);
  }

  lemma HundredLost(w: World, actions: seq<Action>)
    requires Sound(w) && Ordered(w.store)
    requires var s := Run(w, actions).store;
      && s.stream == w.store.stream && s.group.Group? && CLAIM_SCAN + 1 < s.group.cursor
      && Settlement.IsBooked(s, w.store.stream[CLAIM_SCAN].holdId)
    ensures CLAIM_SCAN <= |LostBefore(Run(w, actions).store, CLAIM_SCAN + 1)|
  {
    var end := Run(w, actions);
    var first := Below(CLAIM_SCAN);
    RunSound(w, actions);
    Delivery.RunKeeps(w, actions);
    forall j | j in first ensures j in LostBefore(end.store, CLAIM_SCAN + 1) {
      OneLost(w, actions, j);
    }
    Sets.SubsetSize(first, LostBefore(end.store, CLAIM_SCAN + 1));
  }

  lemma OneLost(w: World, actions: seq<Action>, j: nat)
    requires Sound(w) && Ordered(w.store) && j < CLAIM_SCAN
    requires var s := Run(w, actions).store;
      && s.stream == w.store.stream && s.group.Group? && CLAIM_SCAN + 1 < s.group.cursor
      && Settlement.IsBooked(s, w.store.stream[CLAIM_SCAN].holdId)
    ensures j in LostBefore(Run(w, actions).store, CLAIM_SCAN + 1)
  {
    var end := Run(w, actions);
    EntryInGroup(w, j);
    EntryInGroup(w, CLAIM_SCAN);
    assert w.store.stream[j].holdId != w.store.stream[CLAIM_SCAN].holdId;
    LoserStays(w, actions, w.store.stream[CLAIM_SCAN].holdId, w.store.stream[j].holdId);
    RunSound(w, actions);
    Delivery.RunKeeps(w, actions);
    UnbookedIsPending(end, j);
  }

  /** A hundred and one orders fall to one seat by the race, and one of them wins it; the worker that was
      delivered the next order's entry stops. That order's seat is HELD and it could be settled, but no
      worker will ever claim its entry. */
  lemma StarvedOrder() returns (actions: seq<Action>, k: nat)
    ensures Init(TWO_SEATS) && Honest(TWO_SEATS, actions)
    ensures var w := Run(TWO_SEATS, actions);
      && Starved(w, k) && HasStatus(w.store, OTHER, HELD)
      && CanSettle(w, w.store.stream[k].holdId) && !WorkerSettles(w, w.store.stream[k].holdId)
  {
    k := CLAIM_SCAN + 1;
    var before := OrderedExists();
    var w := Run(TWO_SEATS, before);
    HistorySound(TWO_SEATS, before);
    var last := SettleAndStop(w);
    HundredLost(w, last);
    NoReleaseHonest(w, last);
    Then(TWO_SEATS, before, last);
    actions := before + last;
    HistorySound(TWO_SEATS, actions);
    var end := Run(TWO_SEATS, actions);
    Delivery.RunKeeps(w, last);
    UnbookedIsPending(end, k);
    StarvedFor(actions, k);
  }

  lemma StarvedFor(actions: seq<Action>, k: nat)
    requires var w := Run(TWO_SEATS, actions);
      Starved(w, k) && w.store.group.start <= k && !HasStatus(w.store, w.store.stream[k].seat, SOLD)
    ensures var w := Run(TWO_SEATS, actions);
      CanSettle(w, w.store.stream[k].holdId) && !WorkerSettles(w, w.store.stream[k].holdId)
  {
    var w := Run(TWO_SEATS, actions);
    EntrySettleableExactly(TWO_SEATS, actions, k);
    forall rest | WorkerClaims(w, rest) ensures !Settlement.IsBooked(Run(w, rest).store, w.store.stream[k].holdId) {
      StarvedNeverSettles(TWO_SEATS, actions, rest, k);
    }
  }
}
