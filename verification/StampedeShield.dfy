/** How often the database is asked, and how old a served map can be. */
module StampedeShield {
  import opened Domain
  import opened Stampede
  import StampedeMutex

  // ---- Every run at all: maps are real ----

  /** At the instant `takenAt` a direct read returned exactly this content. */
  ghost predicate WasDirect(s: Shield, snap: Snapshot) {
    && snap.version < |s.history|
    && s.history[snap.version] == Version(Some(snap.content), s.history[snap.version].since)
    && s.history[snap.version].since <= snap.takenAt <= s.clock
    && (snap.version + 1 < |s.history| ==> snap.takenAt <= s.history[snap.version + 1].since)
  }

  ghost predicate Timed(s: Shield) {
    && |s.history| > 0
    && (forall i :: 0 <= i < |s.history| ==> s.history[i].since <= s.clock)
  }

  function SnapOf(r: Reader): Option<Snapshot> {
    match Core(r)
    case Write(_, _, snap) => Some(snap)
    case Release(_, _, Served(snap, _)) => Some(snap)
    case Done(Served(snap, _)) => Some(snap)
    case _ => None
  }

  ghost predicate Genuine(w: World) {
    && Timed(w.shield)
    && (w.shield.cache.Some? ==> WasDirect(w.shield, w.shield.cache.value.snap))
    && (forall i :: 0 <= i < |w.readers| && SnapOf(w.readers[i]).Some? ==> WasDirect(w.shield, SnapOf(w.readers[i]).value))
    && (forall k :: 0 <= k < |w.shield.serves| ==> WasDirect(w.shield, w.shield.serves[k].snap))
  }

  lemma AdvancedGenuine(s: Shield, r: Reader, uuid: Id)
    requires Timed(s)
    requires s.cache.Some? ==> WasDirect(s, s.cache.value.snap)
    requires SnapOf(r).Some? ==> WasDirect(s, SnapOf(r).value)
    ensures var (s', r') := Advanced(s, r, uuid);
      && s'.history == s.history && s'.clock == s.clock
      && (s'.cache.Some? ==> WasDirect(s, s'.cache.value.snap))
      && (SnapOf(r').Some? ==> WasDirect(s, SnapOf(r').value))
      && (s'.serves == s.serves || (CacheLive(s) && s'.serves == s.serves + [Serve(s.cache.value.snap, s.clock)]))
  {
  }

  lemma AdvanceKeepsGenuine(w: World, pid: nat, uuid: Id)
    requires Genuine(w) && pid < |w.readers| && uuid !in w.shield.tokens
    ensures Genuine(Step(w, Advance(pid, uuid)))
  {
    AdvancedGenuine(w.shield, w.readers[pid], uuid);
    var w' := Step(w, Advance(pid, uuid));
    assert forall snap :: WasDirect(w.shield, snap) ==> WasDirect(w'.shield, snap);
  }

  lemma StepKeepsGenuine(w: World, a: Action)
    requires Genuine(w)
    ensures Genuine(Step(w, a))
  {
    var w' := Step(w, a);
    if w' == w {
    } else if a.Advance? {
      AdvanceKeepsGenuine(w, a.pid, a.uuid);
    } else {
      assert forall snap :: WasDirect(w.shield, snap) ==> WasDirect(w'.shield, snap);
    }
  }

  lemma {:induction false} RunKeepsGenuine(w: World, actions: seq<Action>)
    requires Genuine(w)
    ensures Genuine(Run(w, actions))
    decreases |actions|
  {
    if actions != [] {
      StepKeepsGenuine(w, actions[0]);
      RunKeepsGenuine(Step(w, actions[0]), actions[1..]);
    }
  }

  /** Whatever stalls, crashes, evictions and clears happen, every map a reader returns is what a direct
      read returned at some earlier instant. */
  lemma ReturnedMapWasDirect(w: World, actions: seq<Action>, pid: nat)
    requires Init(w)
    requires var end := Run(w, actions); pid < |end.readers| && end.readers[pid].Done? && end.readers[pid].outcome.Served?
    ensures var end := Run(w, actions); WasDirect(end.shield, end.readers[pid].outcome.snap)
  {
    RunKeepsGenuine(w, actions);
    var end := Run(w, actions);
    assert SnapOf(end.readers[pid]).Some?;
  }

  // ---- Lease-respecting runs ----

  /** Every reader that loaded a map and has not written it is still within its lease. */
  ghost predicate Timely(w: World) {
    forall i :: 0 <= i < |w.readers| && Core(w.readers[i]).Write? ==> w.shield.clock < LeaseOf(w.readers[i])
  }

  /** Owners that hydrate write before their lease ends, and nobody clears the cache or evicts keys. */
  ghost predicate LeaseRespecting(w: World, actions: seq<Action>)
    decreases |actions|
  {
    Timely(w) && (actions != [] ==>
      !actions[0].ClearCache? && !actions[0].EvictLock? && LeaseRespecting(Step(w, actions[0]), actions[1..]))
  }

  ghost predicate Loaded(w: World, at: nat) {
    exists i :: 0 <= i < |w.readers| && Core(w.readers[i]).Write? && Core(w.readers[i]).snap.takenAt == at
  }

  ghost predicate Spaced(loads: seq<nat>) {
    forall i :: 0 < i < |loads| ==> loads[i - 1] + CACHE_TTL_MS <= loads[i]
  }

  /** The last hydration is on its way to the cache, or in it, or a cache lifetime ago; an owner that
      found the cache cold in its lease still has it cold. */
  ghost predicate Cold(w: World) {
    && Spaced(w.shield.loads)
    && (w.shield.loads != [] ==>
          var last := w.shield.loads[|w.shield.loads| - 1];
          && last <= w.shield.clock
          && (last + CACHE_TTL_MS <= w.shield.clock
              || (w.shield.cache.Some? && last + CACHE_TTL_MS <= w.shield.cache.value.expiresAt)
              || Loaded(w, last)))
    && (forall i :: 0 <= i < |w.readers| && Core(w.readers[i]).Load? && w.shield.clock < LeaseOf(w.readers[i]) ==>
          !CacheLive(w.shield))
  }

  ghost predicate Inv(w: World) {
    StampedeMutex.Inv(w) && Timely(w) && Cold(w)
  }

  /** Two readers within their leases are the same reader. */
  lemma SameOwner(w: World, i: nat, j: nat)
    requires StampedeMutex.Inv(w)
    requires i < |w.readers| && j < |w.readers| && Owner(w.readers[i]) && Owner(w.readers[j])
    requires w.shield.clock < LeaseOf(w.readers[i]) && w.shield.clock < LeaseOf(w.readers[j])
    ensures i == j
  {
  }

  /** A hydration happens only a cache lifetime after the last one. */
  lemma LoadIsSpaced(w: World, pid: nat)
    requires Inv(w) && pid < |w.readers| && w.readers[pid].Load? && w.shield.clock < LeaseOf(w.readers[pid])
    ensures w.shield.loads != [] ==> w.shield.loads[|w.shield.loads| - 1] + CACHE_TTL_MS <= w.shield.clock
  {
    if w.shield.loads != [] && Loaded(w, w.shield.loads[|w.shield.loads| - 1]) {
      var i :| 0 <= i < |w.readers| && Core(w.readers[i]).Write?;
      SameOwner(w, pid, i);
    }
  }

  lemma LoadKeepsCold(w: World, pid: nat, uuid: Id)
    requires Inv(w) && pid < |w.readers| && w.readers[pid].Load? && uuid !in w.shield.tokens
    requires Timely(Step(w, Advance(pid, uuid)))
    ensures Cold(Step(w, Advance(pid, uuid)))
  {
    var w' := Step(w, Advance(pid, uuid));
    if Direct(w.shield).Some? {
      assert Core(w'.readers[pid]).Write? && w'.readers[pid].snap.takenAt == w.shield.clock;
      LoadIsSpaced(w, pid);
    } else {
      LoadedStays(w, pid, w');
    }
  }

  lemma LoadedStays(w: World, pid: nat, w': World)
    requires pid < |w.readers| && |w.readers| <= |w'.readers|
    requires !Core(w.readers[pid]).Write?
    requires forall i :: 0 <= i < |w.readers| && i != pid ==> Core(w'.readers[i]) == Core(w.readers[i])
    ensures forall at :: Loaded(w, at) ==> Loaded(w', at)
  {
    forall at | Loaded(w, at) ensures Loaded(w', at) {
      var i :| 0 <= i < |w.readers| && Core(w.readers[i]).Write? && Core(w.readers[i]).snap.takenAt == at;
      assert Core(w'.readers[i]).Write? && Core(w'.readers[i]).snap.takenAt == at;
    }
  }

  lemma WriteKeepsCold(w: World, pid: nat, uuid: Id)
    requires Inv(w) && pid < |w.readers| && w.readers[pid].Write? && uuid !in w.shield.tokens
    ensures Cold(Step(w, Advance(pid, uuid)))
  {
    var w' := Step(w, Advance(pid, uuid));
    forall i | 0 <= i < |w'.readers| && Core(w'.readers[i]).Load? && w'.shield.clock < LeaseOf(w'.readers[i])
      ensures false
    {
      SameOwner(w, pid, i);
    }
  }

  lemma OtherKeepsCold(w: World, pid: nat, uuid: Id)
    requires Inv(w) && pid < |w.readers| && uuid !in w.shield.tokens
    requires !w.readers[pid].Load? && !w.readers[pid].Write?
    ensures Cold(Step(w, Advance(pid, uuid)))
  {
    var w' := Step(w, Advance(pid, uuid));
    var r, r' := w.readers[pid], w'.readers[pid];
    assert w'.shield.cache == w.shield.cache && w'.shield.loads == w.shield.loads && w'.shield.clock == w.shield.clock;
    assert Core(r').Load? ==> !CacheLive(w.shield) || Core(r') == Core(r);
    if Core(r).Write? {
      assert r' == r;
      assert w'.readers == w.readers;
      assert forall at :: Loaded(w, at) ==> Loaded(w', at);
    } else {
      LoadedStays(w, pid, w');
    }
  }

  lemma QuietKeepsCold(w: World, w': World)
    requires Inv(w)
    requires w'.shield.cache == w.shield.cache && w'.shield.loads == w.shield.loads && w.shield.clock <= w'.shield.clock
    requires |w.readers| <= |w'.readers|
    requires forall i :: 0 <= i < |w.readers| ==> Core(w'.readers[i]) == Core(w.readers[i])
    requires forall i :: |w.readers| <= i < |w'.readers| ==> w'.readers[i] == CheckCache
    ensures Cold(w')
  {
    forall at | Loaded(w, at) ensures Loaded(w', at) {
      var i :| 0 <= i < |w.readers| && Core(w.readers[i]).Write? && Core(w.readers[i]).snap.takenAt == at;
      assert Core(w'.readers[i]).Write?;
    }
  }

  lemma StepKeeps(w: World, a: Action)
    requires Inv(w) && !a.ClearCache? && !a.EvictLock? && Timely(Step(w, a))
    ensures Inv(Step(w, a))
  {
    StampedeMutex.StepKeeps(w, a);
    if a.Advance? && a.pid < |w.readers| && a.uuid !in w.shield.tokens {
      if w.readers[a.pid].Load? {
        LoadKeepsCold(w, a.pid, a.uuid);
      } else if w.readers[a.pid].Write? {
        WriteKeepsCold(w, a.pid, a.uuid);
      } else {
        OtherKeepsCold(w, a.pid, a.uuid);
      }
    } else {
      QuietKeepsCold(w, Step(w, a));
    }
  }

  lemma {:induction false} RunKeeps(w: World, actions: seq<Action>)
    requires Inv(w) && LeaseRespecting(w, actions)
    ensures Inv(Run(w, actions))
    decreases |actions|
  {
    if actions != [] {
      assert Timely(Step(w, actions[0]));
      StepKeeps(w, actions[0]);
      RunKeeps(Step(w, actions[0]), actions[1..]);
    }
  }

  /** Any number of readers hydrate at most once per cache lifetime. */
  lemma HydrationsSpaced(w: World, actions: seq<Action>)
    requires Init(w) && LeaseRespecting(w, actions)
    ensures Spaced(Run(w, actions).shield.loads)
  {
    RunKeeps(w, actions);
  }

  lemma {:induction false} SpacedApart(loads: seq<nat>, i: nat, j: nat)
    requires Spaced(loads) && i <= j < |loads|
    ensures loads[i] + CACHE_TTL_MS * (j - i) <= loads[j]
    decreases j
  {
    if i < j {
      SpacedApart(loads, i, j - 1);
    }
  }

  /** So the loads i to j that fall within a span of T ms number at most T / 60000 + 1. */
  lemma HydrationsCounted(w: World, actions: seq<Action>, i: nat, j: nat, span: nat)
    requires Init(w) && LeaseRespecting(w, actions)
    requires var loads := Run(w, actions).shield.loads; i <= j < |loads| && loads[j] <= loads[i] + span
    ensures j - i + 1 <= span / CACHE_TTL_MS + 1
  {
    HydrationsSpaced(w, actions);
    SpacedApart(Run(w, actions).shield.loads, i, j);
  }

  // ---- Without any lease assumption ----

  predicate NoClear(actions: seq<Action>) {
    forall i :: 0 <= i < |actions| ==> !actions[i].ClearCache?
  }

  /** The last hydration is a cache lifetime ago, or in the cache for at least that long, or not yet
      written. */
  ghost predicate LastLoadKept(w: World) {
    w.shield.loads != [] ==>
      var last := w.shield.loads[|w.shield.loads| - 1];
      && last <= w.shield.clock
      && ((w.shield.cache.Some? && last + CACHE_TTL_MS <= w.shield.cache.value.expiresAt) || Loaded(w, last))
  }

  lemma AdvanceKeepsLast(w: World, pid: nat, uuid: Id)
    requires LastLoadKept(w) && pid < |w.readers| && uuid !in w.shield.tokens
    ensures LastLoadKept(Step(w, Advance(pid, uuid)))
  {
    var w' := Step(w, Advance(pid, uuid));
    var r := w.readers[pid];
    if r.Load? && Direct(w.shield).Some? {
      assert Core(w'.readers[pid]).Write? && w'.readers[pid].snap.takenAt == w.shield.clock;
    } else if Core(r).Write? && !r.Write? {
      assert w' == w;
    } else if !r.Write? {
      OtherChanges(w.shield, r, uuid);
      LoadedStays(w, pid, w');
    }
  }

  lemma OtherChanges(s: Shield, r: Reader, uuid: Id)
    requires !r.Write? && !(r.Load? && Direct(s).Some?)
    ensures var s' := Advanced(s, r, uuid).0; s'.cache == s.cache && s'.loads == s.loads && s'.clock == s.clock
  {
  }

  lemma QuietKeepsLast(w: World, w': World)
    requires LastLoadKept(w)
    requires w'.shield.cache == w.shield.cache && w'.shield.loads == w.shield.loads && w.shield.clock <= w'.shield.clock
    requires |w.readers| <= |w'.readers|
    requires forall i :: 0 <= i < |w.readers| ==> Core(w'.readers[i]) == Core(w.readers[i])
    ensures LastLoadKept(w')
  {
    forall at | Loaded(w, at) ensures Loaded(w', at) {
      var i :| 0 <= i < |w.readers| && Core(w.readers[i]).Write? && Core(w.readers[i]).snap.takenAt == at;
      assert Core(w'.readers[i]).Write?;
    }
  }

  lemma {:induction false} RunKeepsLast(w: World, actions: seq<Action>)
    requires LastLoadKept(w) && NoClear(actions)
    ensures LastLoadKept(Run(w, actions))
    decreases |actions|
  {
    if actions != [] {
      var a := actions[0];
      if a.Advance? && a.pid < |w.readers| && a.uuid !in w.shield.tokens {
        AdvanceKeepsLast(w, a.pid, a.uuid);
      } else {
        QuietKeepsLast(w, Step(w, a));
      }
      RunKeepsLast(Step(w, a), actions[1..]);
    }
  }

  /** In every run without a clear, stalls, crashes and evictions of the mutex included: when the cache is
      cold less than 60 s after the last hydration, that hydration's map is still unwritten. */
  lemma EarlyMissIsUnwritten(w: World, actions: seq<Action>)
    requires Init(w) && NoClear(actions)
    requires var s := Run(w, actions).shield;
      s.loads != [] && s.clock < s.loads[|s.loads| - 1] + CACHE_TTL_MS && !CacheLive(s)
    ensures var end := Run(w, actions); Loaded(end, end.shield.loads[|end.shield.loads| - 1])
  {
    RunKeepsLast(w, actions);
  }

  /** A missing event is never cached: the owner's load leaves everything as it is. */
  lemma MissingNeverCached(s: Shield, r: Reader, uuid: Id)
    requires r.Load? && Direct(s).None?
    ensures Advanced(s, r, uuid) == (s, Release(r.token, r.leaseEnd, EventMissing))
  {
  }
}
