/** What a hold protects: how long an order request is covered by its own hold, when an order can get past
    another user's hold, and what becomes of the hold of a refused order. */
module OrderHolds {
  import opened Domain
  import opened Protocol
  import Identity
  import opened Releases
  import opened ReleaseFree

  predicate NoEviction(actions: seq<Action>) {
    forall i :: 0 <= i < |actions| ==> !actions[i].Evict?
  }

  /** The hold was taken until `expiresAt`, and nothing but time ends it. */
  ghost predicate Kept(s: Store, seat: Seat, holdId: Id, expiresAt: nat) {
    && (s.clock < expiresAt ==> seat in s.holds && s.holds[seat].holdId == holdId)
    && (seat in s.holds && s.holds[seat].holdId == holdId ==> s.holds[seat].expiresAt == expiresAt)
  }

  lemma AdvancedKept(s: Store, p: Process, uuid: Id, seat: Seat, holdId: Id, expiresAt: nat)
    requires Kept(s, seat, holdId, expiresAt) && holdId in s.used && uuid !in s.used
    requires p.ReleaseDelete? ==> p.holdId != holdId
    ensures Kept(Advanced(s, p, uuid).0, seat, holdId, expiresAt)
  {
  }

  ghost predicate NoDelete(w: World, holdId: Id) {
    forall i :: 0 <= i < |w.procs| && Identity.Core(w.procs[i]).ReleaseDelete? ==>
      Identity.Core(w.procs[i]).holdId != holdId
  }

  lemma StepKept(w: World, a: Action, seat: Seat, holdId: Id, expiresAt: nat)
    requires Kept(w.store, seat, holdId, expiresAt) && holdId in w.store.used && NoDelete(w, holdId) && !a.Evict?
    ensures Kept(Step(w, a).store, seat, holdId, expiresAt)
  {
    if a.Advance? && a.pid < |w.procs| && a.uuid !in w.store.used {
      assert Identity.Core(w.procs[a.pid]) == w.procs[a.pid] || w.procs[a.pid].Crashed?;
      AdvancedKept(w.store, w.procs[a.pid], a.uuid, seat, holdId, expiresAt);
    }
  }

  // ---- An order request and its own hold ----

  ghost predicate OrdersCovered(w: World) {
    forall i :: 0 <= i < |w.procs| && Identity.AwaitsOrder(w.procs[i]) ==>
      var p := Identity.Core(w.procs[i]); Kept(w.store, p.seat, p.holdId, p.expiresAt)
  }

  lemma NewOrderKept(s: Store, p: Process, uuid: Id)
    requires Advanced(s, p, uuid).1.OrderCommit?
    ensures var (s', p') := Advanced(s, p, uuid); Kept(s', p'.seat, p'.holdId, p'.expiresAt)
  {
  }

  lemma AwaitsOrderAfter(s: Store, p: Process, uuid: Id)
    ensures Identity.AwaitsOrder(Advanced(s, p, uuid).1) ==>
      Advanced(s, p, uuid).1.OrderCommit? || (p.Crashed? && Advanced(s, p, uuid) == (s, p))
  {
  }

  lemma StepKeepsOrder(w: World, a: Action, i: nat)
    requires Identity.Inv(w) && ReleasesSound(w) && OrdersCovered(w) && !a.Evict?
    requires i < |Step(w, a).procs| && Identity.AwaitsOrder(Step(w, a).procs[i])
    ensures var p := Identity.Core(Step(w, a).procs[i]); Kept(Step(w, a).store, p.seat, p.holdId, p.expiresAt)
  {
    var p' := Step(w, a).procs[i];
    if a.Advance? && a.pid == i && i < |w.procs| && a.uuid !in w.store.used {
      AwaitsOrderAfter(w.store, w.procs[i], a.uuid);
      if p'.OrderCommit? {
        NewOrderKept(w.store, w.procs[i], a.uuid);
      }
    } else {
      assert i < |w.procs| && Identity.Core(w.procs[i]) == Identity.Core(p');
      var p := Identity.Core(p');
      assert p.holdId in w.store.used && NoDelete(w, p.holdId);
      StepKept(w, a, p.seat, p.holdId, p.expiresAt);
    }
  }

  lemma {:induction false} RunKeepsOrders(w: World, actions: seq<Action>)
    requires Identity.Inv(w) && ReleasesSound(w) && OrdersCovered(w) && Honest(w, actions) && NoEviction(actions)
    ensures Identity.Inv(Run(w, actions)) && ReleasesSound(Run(w, actions)) && OrdersCovered(Run(w, actions))
    decreases |actions|
  {
    if actions != [] {
      var w1 := Step(w, actions[0]);
      forall i | 0 <= i < |w1.procs| && Identity.AwaitsOrder(w1.procs[i])
        ensures var p := Identity.Core(w1.procs[i]); Kept(w1.store, p.seat, p.holdId, p.expiresAt)
      {
        StepKeepsOrder(w, actions[0], i);
      }
      StepKeepsReleases(w, actions[0]);
      Identity.StepKeeps(w, actions[0]);
      RunKeepsOrders(w1, actions[1..]);
    }
  }

  /** An order request before its transaction is covered by its own hold exactly until the time it was
      granted runs out. So it runs under somebody else's live hold if and only if that time is over. */
  lemma OrderCoveredUntilExpiry(w: World, actions: seq<Action>, pid: nat)
    requires Init(w) && Honest(w, actions) && NoEviction(actions)
    requires var now := Run(w, actions); pid < |now.procs| && now.procs[pid].OrderCommit?
    ensures var s := Run(w, actions).store;
      var p := Run(w, actions).procs[pid];
      && (Holds(s, p.seat, p.holdId) <==> s.clock < p.expiresAt)
      && (HoldLive(s, p.seat) ==> (s.holds[p.seat].holdId != p.holdId <==> p.expiresAt <= s.clock))
  {
    Identity.InitInv(w);
    RunKeepsOrders(w, actions);
    assert Identity.AwaitsOrder(Run(w, actions).procs[pid]);
  }

  /** An order is accepted under somebody else's live hold if and only if the row is AVAILABLE, a hold is
      live, and the request's own hold time is over. */
  lemma PassesHoldExactly(w: World, actions: seq<Action>, pid: nat, uuid: Id)
    requires Init(w) && Honest(w, actions) && NoEviction(actions)
    requires var now := Run(w, actions);
      pid < |now.procs| && now.procs[pid].OrderCommit? && uuid !in now.store.used
    ensures var now := Run(w, actions);
      var s, p := now.store, now.procs[pid];
      var accepted := Step(now, Advance(pid, uuid)).procs[pid].OrderPublish?;
      accepted && HoldLive(s, p.seat) && s.holds[p.seat].holdId != p.holdId <==>
      HasStatus(s, p.seat, AVAILABLE) && HoldLive(s, p.seat) && p.expiresAt <= s.clock
  {
    OrderCoveredUntilExpiry(w, actions, pid);
    Identity.InitInv(w);
    Identity.RunKeeps(w, actions);
    var p := Run(w, actions).procs[pid];
    assert Identity.AwaitsOrder(p) && Identity.HoldOf(p) == p.holdId;
  }

  // ---- A granted hold and the orders of others ----

  /** If the step runs an order transaction for the seat, the request's own hold time is not over. */
  predicate PromptStep(w: World, a: Action, seat: Seat) {
    a.Advance? && a.pid < |w.procs| && w.procs[a.pid].OrderCommit? && w.procs[a.pid].seat == seat ==>
      w.store.clock < w.procs[a.pid].expiresAt
  }

  predicate Prompt(w: World, actions: seq<Action>, seat: Seat)
    decreases |actions|
  {
    actions != [] ==> PromptStep(w, actions[0], seat) && Prompt(Step(w, actions[0]), actions[1..], seat)
  }

  /** Only an order transaction for the seat adds an order to it. */
  lemma AdvancedOrders(s: Store, p: Process, uuid: Id, seat: Seat)
    requires !(p.OrderCommit? && p.seat == seat)
    ensures OrdersFor(Advanced(s, p, uuid).0, seat) == OrdersFor(s, seat)
  {
  }

  lemma StepKeepsOff(w: World, a: Action, seat: Seat, holdId: Id)
    requires OrdersCovered(w) && PromptStep(w, a, seat)
    requires Holds(w.store, seat, holdId) && Retired(w, holdId)
    ensures OrdersFor(Step(w, a).store, seat) == OrdersFor(w.store, seat)
  {
    if a.Advance? && a.pid < |w.procs| && a.uuid !in w.store.used {
      var p := w.procs[a.pid];
      assert !(p.OrderCommit? && p.seat == seat) by {
        assert p.OrderCommit? ==> Identity.AwaitsOrder(p);
      }
      AdvancedOrders(w.store, p, a.uuid, seat);
    }
  }

  lemma {:induction false} RunKeepsOff(w: World, actions: seq<Action>, seat: Seat, holdId: Id)
    requires Identity.Inv(w) && ReleasesSound(w) && OrdersCovered(w)
    requires Honest(w, actions) && NoEviction(actions) && Prompt(w, actions, seat)
    requires Retired(w, holdId) && Holds(w.store, seat, holdId) && Holds(Run(w, actions).store, seat, holdId)
    ensures OrdersFor(Run(w, actions).store, seat) == OrdersFor(w.store, seat)
    decreases |actions|
  {
    if actions != [] {
      var w1 := Step(w, actions[0]);
      StepKeepsOff(w, actions[0], seat, holdId);
      StepRetired(w, actions[0], holdId);
      RunKeepsOrders(w, [actions[0]]);
      assert Run(w, [actions[0]]) == Run(w1, [actions[0]][1..]);
      if !Holds(w1.store, seat, holdId) {
        HoldNeverReturns(w1, actions[1..], seat, holdId);
      }
      RunKeepsOff(w1, actions[1..], seat, holdId);
    }
  }

  /** A hold that holdSeat took, and a hold that it granted, never gets an order. */
  ghost predicate GrantsRetired(w: World) {
    forall i :: 0 <= i < |w.procs| ==>
      var p := Identity.Core(w.procs[i]);
      && (p.HoldPublish? ==> Retired(w, p.holdId))
      && (p.Finished? && p.response.HoldGranted? ==> Retired(w, p.response.holdId))
  }

  lemma AdvancedGrant(s: Store, p: Process, uuid: Id)
    ensures var p' := Identity.Core(Advanced(s, p, uuid).1);
      && (p'.HoldPublish? ==> p' == Identity.Core(p) || (p.HoldAcquire? && p'.holdId == uuid && uuid in Advanced(s, p, uuid).0.used))
      && (p'.Finished? && p'.response.HoldGranted? ==>
            p' == Identity.Core(p) || (p.HoldPublish? && p'.response.holdId == p.holdId))
  {
  }

  lemma NewGrantRetired(w: World, pid: nat, uuid: Id)
    requires Identity.Inv(w) && pid < |w.procs| && w.procs[pid].HoldAcquire? && uuid !in w.store.used
    requires uuid in Step(w, Advance(pid, uuid)).store.used
    ensures Retired(Step(w, Advance(pid, uuid)), uuid)
  {
    var w' := Step(w, Advance(pid, uuid));
    forall i | 0 <= i < |w'.procs| && Identity.AwaitsOrder(w'.procs[i]) ensures Identity.HoldOf(w'.procs[i]) != uuid {
      assert w'.procs[i] == w.procs[i] && Identity.Carries(w.procs[i]);
    }
    assert w'.store.orders == w.store.orders;
  }

  lemma StepKeepsGrants(w: World, a: Action)
    requires Identity.Inv(w) && GrantsRetired(w)
    ensures GrantsRetired(Step(w, a))
  {
    var w' := Step(w, a);
    forall h | Retired(w, h) ensures Retired(w', h) {
      StepRetired(w, a, h);
    }
    if a.Advance? && a.pid < |w.procs| && a.uuid !in w.store.used {
      AdvancedGrant(w.store, w.procs[a.pid], a.uuid);
      if w.procs[a.pid].HoldAcquire? && w'.procs[a.pid].HoldPublish? {
        NewGrantRetired(w, a.pid, a.uuid);
      }
    }
  }

  lemma {:induction false} RunKeepsGrants(w: World, actions: seq<Action>)
    requires Identity.Inv(w) && GrantsRetired(w)
    ensures GrantsRetired(Run(w, actions))
    decreases |actions|
  {
    if actions != [] {
      StepKeepsGrants(w, actions[0]);
      Identity.StepKeeps(w, actions[0]);
      RunKeepsGrants(Step(w, actions[0]), actions[1..]);
    }
  }

  /** A granted hold keeps every order off its seat while it lives, provided that no order request for
      the seat runs its transaction after its own ten minutes. The proviso cannot be dropped, as
      Witnesses.LateOrderPassesHold shows. */
  lemma HoldKeepsOrdersOff(w: World, before: seq<Action>, during: seq<Action>, pid: nat, seat: Seat)
    requires Init(w) && Honest(w, before) && NoEviction(before)
    requires var now := Run(w, before);
      && Honest(now, during) && NoEviction(during) && Prompt(now, during, seat)
      && pid < |now.procs| && now.procs[pid].Finished? && now.procs[pid].response.HoldGranted?
      && var holdId := now.procs[pid].response.holdId;
      Holds(now.store, seat, holdId) && Holds(Run(now, during).store, seat, holdId)
    ensures var now := Run(w, before);
      OrdersFor(Run(now, during).store, seat) == OrdersFor(now.store, seat)
  {
    Identity.InitInv(w);
    RunKeepsOrders(w, before);
    RunKeepsGrants(w, before);
    var now := Run(w, before);
    assert Identity.Core(now.procs[pid]) == now.procs[pid];
    RunKeepsOff(now, during, seat, now.procs[pid].response.holdId);
  }

  // ---- The hold of a refused order ----

  predicate Releasing(p: Process) {
    p.ReleaseCheck? || p.ReleaseDelete? || p.ReleaseFlip? || p.ReleasePublish?
  }

  /** Every release names an id that was disclosed before. */
  ghost predicate ReleasesQuoted(w: World) {
    forall i :: 0 <= i < |w.procs| && Releasing(Identity.Core(w.procs[i])) ==>
      Identity.Core(w.procs[i]).holdId in w.store.disclosed
  }

  /** Nobody knows the id and nobody can do anything with it: it was drawn, it has no order, it was never
      disclosed, and no request carries or quotes it. */
  ghost predicate Orphan(w: World, holdId: Id) {
    && holdId in w.store.used && holdId !in w.store.orders && holdId !in w.store.disclosed
    && (forall i :: 0 <= i < |w.procs| && Identity.Carries(w.procs[i]) ==> Identity.HoldOf(w.procs[i]) != holdId)
    && (forall i :: 0 <= i < |w.procs| && Releasing(Identity.Core(w.procs[i])) ==> Identity.Core(w.procs[i]).holdId != holdId)
  }

  lemma AdvancedQuotes(s: Store, p: Process, uuid: Id)
    ensures s.disclosed <= Advanced(s, p, uuid).0.disclosed
    ensures var p' := Identity.Core(Advanced(s, p, uuid).1);
      Releasing(p') ==> Releasing(Identity.Core(p)) && p'.holdId == Identity.Core(p).holdId
  {
  }

  lemma StepKeepsQuoted(w: World, a: Action)
    requires ReleasesQuoted(w) && HonestStep(w, a)
    ensures ReleasesQuoted(Step(w, a))
  {
    if a.Advance? && a.pid < |w.procs| && a.uuid !in w.store.used {
      AdvancedQuotes(w.store, w.procs[a.pid], a.uuid);
    }
  }

  lemma {:induction false} RunKeepsQuoted(w: World, actions: seq<Action>)
    requires ReleasesQuoted(w) && Honest(w, actions)
    ensures ReleasesQuoted(Run(w, actions))
    decreases |actions|
  {
    if actions != [] {
      StepKeepsQuoted(w, actions[0]);
      RunKeepsQuoted(Step(w, actions[0]), actions[1..]);
    }
  }

  lemma OrphanStore(s: Store, p: Process, uuid: Id, holdId: Id)
    requires holdId in s.used && holdId !in s.orders && holdId !in s.disclosed
    requires Identity.Carries(p) ==> Identity.HoldOf(p) != holdId
    ensures var s' := Advanced(s, p, uuid).0; holdId in s'.used && holdId !in s'.orders && holdId !in s'.disclosed
  {
  }

  lemma OrphanProcess(s: Store, p: Process, uuid: Id, holdId: Id)
    requires uuid != holdId && (Identity.Carries(p) ==> Identity.HoldOf(p) != holdId)
    ensures var p' := Advanced(s, p, uuid).1; Identity.Carries(p') ==> Identity.HoldOf(p') != holdId
  {
  }

  lemma StepOrphan(w: World, a: Action, holdId: Id)
    requires Orphan(w, holdId) && HonestStep(w, a)
    ensures Orphan(Step(w, a), holdId)
  {
    if a.Advance? && a.pid < |w.procs| && a.uuid !in w.store.used {
      var p := w.procs[a.pid];
      OrphanStore(w.store, p, a.uuid, holdId);
      OrphanProcess(w.store, p, a.uuid, holdId);
      AdvancedQuotes(w.store, p, a.uuid);
      var (s', p') := Advanced(w.store, p, a.uuid);
      MovedOrphan(w, a.pid, s', p', holdId);
    }
  }

  lemma MovedOrphan(w: World, pid: nat, s': Store, p': Process, holdId: Id)
    requires Orphan(w, holdId) && pid < |w.procs|
    requires holdId in s'.used && holdId !in s'.orders && holdId !in s'.disclosed
    requires Identity.Carries(p') ==> Identity.HoldOf(p') != holdId
    requires Releasing(Identity.Core(p')) ==> Identity.Core(p').holdId != holdId
    ensures Orphan(World(s', w.procs[pid := p']), holdId)
  {
  }

  /** What every later state of an orphaned hold looks like. */
  lemma {:induction false} RunOrphan(w: World, actions: seq<Action>, seat: Seat, holdId: Id, expiresAt: nat)
    requires Orphan(w, holdId) && Kept(w.store, seat, holdId, expiresAt)
    requires Honest(w, actions) && NoEviction(actions)
    ensures Orphan(Run(w, actions), holdId) && Kept(Run(w, actions).store, seat, holdId, expiresAt)
    decreases |actions|
  {
    if actions != [] {
      assert NoDelete(w, holdId);
      StepKept(w, actions[0], seat, holdId, expiresAt);
      StepOrphan(w, actions[0], holdId);
      RunOrphan(Step(w, actions[0]), actions[1..], seat, holdId, expiresAt);
    }
  }

  /** An order transaction is refused exactly when the row is not AVAILABLE, and then its hold is orphaned. */
  lemma RefusalOrphans(w: World, pid: nat, uuid: Id)
    requires Identity.Inv(w) && ReleasesQuoted(w)
    requires pid < |w.procs| && w.procs[pid].OrderCommit? && uuid !in w.store.used
    ensures var p, w1 := w.procs[pid], Step(w, Advance(pid, uuid));
      && (HasStatus(w.store, p.seat, AVAILABLE) <==> w1.procs[pid] != Finished(Rejected(SeatChanged)))
      && (!HasStatus(w.store, p.seat, AVAILABLE) ==> w1.store == w.store && Orphan(w1, p.holdId))
  {
    var p, w1 := w.procs[pid], Step(w, Advance(pid, uuid));
    assert Identity.AwaitsOrder(p) && Identity.HoldOf(p) == p.holdId;
    if !HasStatus(w.store, p.seat, AVAILABLE) {
      assert w1.store == w.store && w1.procs[pid] == Finished(Rejected(SeatChanged));
      forall i | 0 <= i < |w1.procs| && Identity.Carries(w1.procs[i]) ensures Identity.HoldOf(w1.procs[i]) != p.holdId {
        assert w1.procs[i] == w.procs[i] && Identity.Carries(w.procs[i]);
        assert i < pid || pid < i;
      }
    }
  }

  /** A refused order leaves a hold that nobody can name: in every later state it blocks the seat exactly
      until its ten minutes are over, it has no order and is undisclosed, and no release quotes it. */
  lemma RefusedHoldStays(w: World, before: seq<Action>, pid: nat, uuid: Id, after: seq<Action>)
    requires Init(w) && Honest(w, before) && NoEviction(before)
    requires var now := Run(w, before);
      && pid < |now.procs| && now.procs[pid].OrderCommit? && uuid !in now.store.used
      && !HasStatus(now.store, now.procs[pid].seat, AVAILABLE)
      && Honest(Step(now, Advance(pid, uuid)), after) && NoEviction(after)
    ensures var now := Run(w, before);
      var p := now.procs[pid];
      var end := Run(Step(now, Advance(pid, uuid)), after);
      && Orphan(end, p.holdId) && (Holds(end.store, p.seat, p.holdId) <==> end.store.clock < p.expiresAt)
  {
    Identity.InitInv(w);
    RunKeepsOrders(w, before);
    RunKeepsQuoted(w, before);
    var now := Run(w, before);
    var p := now.procs[pid];
    assert Identity.AwaitsOrder(p);
    RefusalOrphans(now, pid, uuid);
    RunOrphan(Step(now, Advance(pid, uuid)), after, p.seat, p.holdId, p.expiresAt);
  }

  /** With evictions too, an orphaned hold ends only by eviction or by time. */
  lemma OrphanOnlyExpires(w: World, a: Action, seat: Seat, holdId: Id)
    requires Orphan(w, holdId) && HonestStep(w, a) && !a.Tick? && !a.Evict? && Holds(w.store, seat, holdId)
    ensures Orphan(Step(w, a), holdId) && Holds(Step(w, a).store, seat, holdId)
  {
    StepOrphan(w, a, holdId);
    if a.Advance? && a.pid < |w.procs| && a.uuid !in w.store.used {
      AdvancedSparesHold(w.store, w.procs[a.pid], a.uuid, seat, holdId);
    }
  }
}
