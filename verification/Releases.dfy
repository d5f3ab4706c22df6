/** Hold lifetimes, and what a release can and cannot undo. */
module Releases {
  import opened Domain
  import opened Protocol
  import Identity

  // ---- Hold lifetimes ----

  lemma AdvancedHolds(s: Store, p: Process, uuid: Id, seat: Seat, holdId: Id)
    requires holdId in s.used && uuid !in s.used && !Holds(s, seat, holdId)
    ensures !Holds(Advanced(s, p, uuid).0, seat, holdId) && holdId in Advanced(s, p, uuid).0.used
  {
  }

  lemma StepHolds(w: World, a: Action, seat: Seat, holdId: Id)
    requires holdId in w.store.used && !Holds(w.store, seat, holdId)
    ensures !Holds(Step(w, a).store, seat, holdId) && holdId in Step(w, a).store.used
  {
    if a.Advance? && a.pid < |w.procs| && a.uuid !in w.store.used {
      AdvancedHolds(w.store, w.procs[a.pid], a.uuid, seat, holdId);
    }
  }

  /** A hold that has ended, by release, expiry or eviction, never blocks its seat again. */
  lemma {:induction false} HoldNeverReturns(w: World, actions: seq<Action>, seat: Seat, holdId: Id)
    requires holdId in w.store.used && !Holds(w.store, seat, holdId)
    ensures !Holds(Run(w, actions).store, seat, holdId)
    decreases |actions|
  {
    if actions != [] {
      StepHolds(w, actions[0], seat, holdId);
      HoldNeverReturns(Step(w, actions[0]), actions[1..], seat, holdId);
    }
  }

  /** Holds on one seat have disjoint lifetimes: when a second hold is seen after a first, the first is
      over for good. */
  lemma HoldsTakeTurns(w: World, before: seq<Action>, between: seq<Action>, after: seq<Action>, seat: Seat, first: Id, second: Id)
    requires Init(w) && first != second
    requires Holds(Run(w, before).store, seat, first)
    requires Holds(Run(Run(w, before), between).store, seat, second)
    ensures !Holds(Run(Run(Run(w, before), between), after).store, seat, first)
  {
    Identity.InitInv(w);
    Identity.RunKeeps(w, before);
    UsedStays(Run(w, before), between, first);
    HoldNeverReturns(Run(Run(w, before), between), after, seat, first);
  }

  lemma {:induction false} UsedStays(w: World, actions: seq<Action>, id: Id)
    requires id in w.store.used
    ensures id in Run(w, actions).store.used
    decreases |actions|
  {
    if actions != [] {
      var a := actions[0];
      if a.Advance? && a.pid < |w.procs| {
        AdvancedUsed(w.store, w.procs[a.pid], a.uuid);
      }
      UsedStays(Step(w, a), actions[1..], id);
    }
  }

  lemma AdvancedUsed(s: Store, p: Process, uuid: Id)
    ensures s.used <= Advanced(s, p, uuid).0.used
  {
  }

  /** A successful release ends exactly the hold it names; every other hold, on this seat or another,
      newer or older, blocks its seat exactly as before. */
  lemma ReleaseIsExact(s: Store, seat: Seat, user: Id, holdId: Id, other: Seat, id: Id)
    ensures var (s', ok) := ReleaseHold(s, seat, user, holdId);
      && (ok ==> Holds(s, seat, holdId) && s.holds[seat].user == user)
      && (Holds(s', other, id) <==> Holds(s, other, id) && !(ok && other == seat && id == holdId))
  {
  }

  // ---- Released ids never have orders ----

  ghost predicate HonestStep(w: World, a: Action) {
    a.Start? && a.request.ReleaseCheck? ==> a.request.holdId in w.store.disclosed
  }

  /** Callers quote only hold ids that a response or a published event has shown them. */
  ghost predicate Honest(w: World, actions: seq<Action>)
    decreases |actions|
  {
    actions != [] ==> HonestStep(w, actions[0]) && Honest(Step(w, actions[0]), actions[1..])
  }

  /** No order has this id and no request can still create one. */
  ghost predicate Retired(w: World, holdId: Id) {
    && holdId in w.store.used && holdId !in w.store.orders
    && (forall i :: 0 <= i < |w.procs| && Identity.AwaitsOrder(w.procs[i]) ==> Identity.HoldOf(w.procs[i]) != holdId)
  }

  lemma AdvancedRetired(s: Store, p: Process, uuid: Id, holdId: Id)
    requires holdId in s.used && holdId !in s.orders && uuid !in s.used
    requires Identity.AwaitsOrder(p) ==> Identity.HoldOf(p) != holdId
    ensures var (s', p') := Advanced(s, p, uuid);
      && holdId in s'.used && holdId !in s'.orders
      && (Identity.AwaitsOrder(p') ==> Identity.HoldOf(p') != holdId)
  {
  }

  lemma StepRetired(w: World, a: Action, holdId: Id)
    requires Retired(w, holdId)
    ensures Retired(Step(w, a), holdId)
  {
    if a.Advance? && a.pid < |w.procs| && a.uuid !in w.store.used {
      AdvancedRetired(w.store, w.procs[a.pid], a.uuid, holdId);
    }
  }

  lemma {:induction false} RunRetired(w: World, actions: seq<Action>, holdId: Id)
    requires Retired(w, holdId)
    ensures Retired(Run(w, actions), holdId)
    decreases |actions|
  {
    if actions != [] {
      StepRetired(w, actions[0], holdId);
      RunRetired(Step(w, actions[0]), actions[1..], holdId);
    }
  }

  /** A release past its order check names a retired id. */
  ghost predicate ReleasesSound(w: World) {
    forall i :: 0 <= i < |w.procs| ==>
      var p := Identity.Core(w.procs[i]);
      && (p.ReleaseCheck? ==> p.holdId in w.store.disclosed)
      && (p.ReleaseDelete? || p.ReleaseFlip? ==> Retired(w, p.holdId))
  }

  lemma DisclosedStays(s: Store, p: Process, uuid: Id)
    ensures s.disclosed <= Advanced(s, p, uuid).0.disclosed
  {
  }

  lemma AdvancedRelease(s: Store, p: Process, uuid: Id)
    ensures var p' := Advanced(s, p, uuid).1;
      && (p'.ReleaseCheck? ==> p' == p)
      && (p'.ReleaseDelete? ==> p.ReleaseCheck? && p.holdId == p'.holdId && p.holdId !in s.orders)
      && (p'.ReleaseFlip? ==> p.ReleaseDelete? && p.holdId == p'.holdId)
      && (p'.Crashed? ==> p' == p)
  {
  }

  lemma AdvanceKeepsReleases(w: World, pid: nat, uuid: Id)
    requires Identity.Inv(w) && ReleasesSound(w) && pid < |w.procs| && uuid !in w.store.used
    ensures ReleasesSound(Step(w, Advance(pid, uuid)))
  {
    var w' := Step(w, Advance(pid, uuid));
    var p := w.procs[pid];
    DisclosedStays(w.store, p, uuid);
    AdvancedRelease(w.store, p, uuid);
    forall i | 0 <= i < |w'.procs| && (Identity.Core(w'.procs[i]).ReleaseDelete? || Identity.Core(w'.procs[i]).ReleaseFlip?)
      ensures Retired(w', Identity.Core(w'.procs[i]).holdId)
    {
      var h := Identity.Core(w'.procs[i]).holdId;
      assert Retired(w, h);
      StepRetired(w, Advance(pid, uuid), h);
    }
  }

  lemma StepKeepsReleases(w: World, a: Action)
    requires Identity.Inv(w) && ReleasesSound(w) && HonestStep(w, a)
    ensures ReleasesSound(Step(w, a))
  {
    var w' := Step(w, a);
    if w' == w {
    } else if a.Advance? {
      AdvanceKeepsReleases(w, a.pid, a.uuid);
    } else {
      forall h | Retired(w, h) ensures Retired(w', h) {
        StepRetired(w, a, h);
      }
    }
  }

  lemma {:induction false} RunKeepsReleases(w: World, actions: seq<Action>)
    requires Identity.Inv(w) && ReleasesSound(w) && Honest(w, actions)
    ensures Identity.Inv(Run(w, actions)) && ReleasesSound(Run(w, actions))
    decreases |actions|
  {
    if actions != [] {
      StepKeepsReleases(w, actions[0]);
      Identity.StepKeeps(w, actions[0]);
      RunKeepsReleases(Step(w, actions[0]), actions[1..]);
    }
  }

  /** A hold id that a release deletes from Redis has no order and never gets one, whatever follows. */
  lemma ReleaseSparesOrders(w: World, before: seq<Action>, pid: nat, uuid: Id, after: seq<Action>)
    requires Init(w) && Honest(w, before)
    requires var now := Run(w, before);
      pid < |now.procs| && now.procs[pid].ReleaseDelete?
    ensures var now := Run(w, before);
      var holdId := now.procs[pid].holdId;
      holdId !in now.store.orders && holdId !in Run(Step(now, Advance(pid, uuid)), after).store.orders
  {
    Identity.InitInv(w);
    RunKeepsReleases(w, before);
    var now := Run(w, before);
    var holdId := now.procs[pid].holdId;
    StepRetired(now, Advance(pid, uuid), holdId);
    RunRetired(Step(now, Advance(pid, uuid)), after, holdId);
  }

  /** The hold of an order ends only by expiry or eviction: every other step leaves it in place. */
  lemma OrderHoldOnlyExpires(w: World, before: seq<Action>, a: Action, seat: Seat, holdId: Id)
    requires Init(w) && Honest(w, before)
    requires !a.Tick? && !a.Evict?
    requires var now := Run(w, before).store; holdId in now.orders && Holds(now, seat, holdId)
    ensures Holds(Step(Run(w, before), a).store, seat, holdId)
  {
    Identity.InitInv(w);
    RunKeepsReleases(w, before);
    var now := Run(w, before);
    if a.Advance? && a.pid < |now.procs| && a.uuid !in now.store.used {
      var p := now.procs[a.pid];
      assert p.ReleaseDelete? ==> Retired(now, p.holdId);
      AdvancedSparesHold(now.store, p, a.uuid, seat, holdId);
    }
  }

  lemma AdvancedSparesHold(s: Store, p: Process, uuid: Id, seat: Seat, holdId: Id)
    requires Holds(s, seat, holdId) && (p.ReleaseDelete? ==> p.holdId != holdId)
    ensures Holds(Advanced(s, p, uuid).0, seat, holdId)
  {
  }
}
