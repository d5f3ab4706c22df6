/** Bounded staleness of what readers take from the cache. */
module StampedeStaleness {
  import opened Domain
  import opened Stampede
  import opened StampedeShield

  const MAX_STALE_MS: nat := CACHE_TTL_MS + LOCK_TTL_MS

  predicate NotNewer(a: Snapshot, b: Snapshot) {
    a.takenAt <= b.takenAt && a.version <= b.version
  }

  /** The cached map was written within a lease of its load, and is no older than any map served. */
  ghost predicate CacheAged(s: Shield) {
    && (s.serves != [] ==> s.cache.Some?)
    && (s.cache.Some? ==>
          && s.cache.value.expiresAt < s.cache.value.snap.takenAt + MAX_STALE_MS
          && s.cache.value.snap.takenAt <= s.clock && s.cache.value.snap.version < |s.history|
          && forall k :: 0 <= k < |s.serves| ==> NotNewer(s.serves[k].snap, s.cache.value.snap))
  }

  ghost predicate ServesAged(s: Shield) {
    && (forall k :: 0 <= k < |s.serves| ==>
          s.serves[k].snap.takenAt <= s.serves[k].at < s.serves[k].snap.takenAt + MAX_STALE_MS)
    && (forall k, l :: 0 <= k < l < |s.serves| ==>
          NotNewer(s.serves[k].snap, s.serves[l].snap) && s.serves[k].at <= s.serves[l].at)
    && (forall k :: 0 <= k < |s.serves| ==> s.serves[k].at <= s.clock)
  }

  ghost predicate WriteAged(s: Shield, r: Reader) {
    Core(r).Write? ==>
      && LeaseOf(r) <= Core(r).snap.takenAt + LOCK_TTL_MS
      && Core(r).snap.takenAt <= s.clock && Core(r).snap.version < |s.history|
      && (s.cache.Some? ==> NotNewer(s.cache.value.snap, Core(r).snap))
  }

  ghost predicate Aged(w: World) {
    && |w.shield.history| > 0
    && CacheAged(w.shield) && ServesAged(w.shield)
    && (forall i :: 0 <= i < |w.readers| ==> WriteAged(w.shield, w.readers[i]))
  }

  /** A read that finds the cache live leaves everything in order. */
  lemma ServeAged(s: Shield)
    requires CacheAged(s) && ServesAged(s) && CacheLive(s)
    ensures CacheAged(ServeCached(s)) && ServesAged(ServeCached(s))
  {
  }

  /** What one await keeps of the two staleness predicates, and of its reader's pending write. */
  ghost predicate AgedMove(s: Shield, r: Reader, s': Shield, r': Reader) {
    && CacheAged(s') && ServesAged(s') && WriteAged(s', r')
    && s'.history == s.history && s'.clock == s.clock
    && (s'.cache == s.cache || r.Write?)
  }

  lemma WriteMoves(s: Shield, r: Reader, uuid: Id)
    requires CacheAged(s) && ServesAged(s) && WriteAged(s, r)
    requires r.Write? && s.clock < LeaseOf(r)
    ensures AgedMove(s, r, Advanced(s, r, uuid).0, Advanced(s, r, uuid).1)
  {
    var s' := Advanced(s, r, uuid).0;
    assert s'.serves == s.serves;
    assert s.serves != [] ==> NotNewer(s.cache.value.snap, r.snap);
  }

  lemma LoadMoves(s: Shield, r: Reader, uuid: Id)
    requires |s.history| > 0 && CacheAged(s) && ServesAged(s)
    requires r.Load? && LeaseOf(r) <= s.clock + LOCK_TTL_MS
    ensures AgedMove(s, r, Advanced(s, r, uuid).0, Advanced(s, r, uuid).1)
  {
    assert Advanced(s, r, uuid).0.serves == s.serves;
  }

  /** An await that neither loads nor writes serves the cached map or touches nothing that ages. */
  lemma ReadChanges(s: Shield, r: Reader, uuid: Id)
    requires !r.Write? && !r.Load?
    ensures var (s', r') := Advanced(s, r, uuid);
      && s'.history == s.history && s'.clock == s.clock && s'.cache == s.cache
      && (s'.serves == s.serves || (CacheLive(s) && s'.serves == ServeCached(s).serves))
      && (Core(r').Write? ==> r' == r)
  {
  }

  lemma ReadMoves(s: Shield, r: Reader, uuid: Id)
    requires CacheAged(s) && ServesAged(s) && WriteAged(s, r)
    requires !r.Write? && !r.Load?
    ensures AgedMove(s, r, Advanced(s, r, uuid).0, Advanced(s, r, uuid).1)
  {
    ReadChanges(s, r, uuid);
    if CacheLive(s) {
      ServeAged(s);
    }
  }

  lemma AdvancedAged(s: Shield, r: Reader, uuid: Id)
    requires |s.history| > 0 && CacheAged(s) && ServesAged(s) && WriteAged(s, r)
    requires Owner(r) ==> LeaseOf(r) <= s.clock + LOCK_TTL_MS
    requires r.Write? ==> s.clock < LeaseOf(r)
    ensures AgedMove(s, r, Advanced(s, r, uuid).0, Advanced(s, r, uuid).1)
  {
    if r.Write? {
      WriteMoves(s, r, uuid);
    } else if r.Load? {
      LoadMoves(s, r, uuid);
    } else {
      ReadMoves(s, r, uuid);
    }
  }

  lemma AdvanceKeepsAged(w: World, pid: nat, uuid: Id)
    requires Inv(w) && Aged(w) && pid < |w.readers| && uuid !in w.shield.tokens
    ensures Aged(Step(w, Advance(pid, uuid)))
  {
    var w' := Step(w, Advance(pid, uuid));
    AdvancedAged(w.shield, w.readers[pid], uuid);
    if w.readers[pid].Write? {
      forall i | 0 <= i < |w'.readers| ensures !Core(w'.readers[i]).Write? {
        if i != pid && Core(w.readers[i]).Write? {
          SameOwner(w, pid, i);
        }
      }
    }
  }

  lemma StepKeepsAged(w: World, a: Action)
    requires Inv(w) && Aged(w) && !a.ClearCache?
    ensures Aged(Step(w, a))
  {
    if Step(w, a) != w {
      if a.Advance? {
        AdvanceKeepsAged(w, a.pid, a.uuid);
      } else {
        QuietAged(w, Step(w, a));
      }
    }
  }

  /** Steps that serve nothing, write nothing and move no reader. */
  lemma QuietAged(w: World, w': World)
    requires Aged(w)
    requires w'.shield.cache == w.shield.cache && w'.shield.serves == w.shield.serves
    requires w.shield.clock <= w'.shield.clock && |w.shield.history| <= |w'.shield.history|
    requires forall i :: 0 <= i < |w'.readers| && Core(w'.readers[i]).Write? ==>
      i < |w.readers| && Core(w'.readers[i]) == Core(w.readers[i])
    ensures Aged(w')
  {
  }

  lemma {:induction false} RunKeepsAged(w: World, actions: seq<Action>)
    requires Inv(w) && Aged(w) && LeaseRespecting(w, actions)
    ensures Aged(Run(w, actions))
    decreases |actions|
  {
    if actions != [] {
      assert Timely(Step(w, actions[0]));
      StepKeepsAged(w, actions[0]);
      StepKeeps(w, actions[0]);
      RunKeepsAged(Step(w, actions[0]), actions[1..]);
    }
  }

  /** In lease-respecting runs every map read from the cache is what a direct read returned less than
      65000 ms earlier. */
  lemma CachedReadsAreFresh(w: World, actions: seq<Action>, k: nat)
    requires Init(w) && LeaseRespecting(w, actions) && k < |Run(w, actions).shield.serves|
    ensures var s := Run(w, actions).shield;
      WasDirect(s, s.serves[k].snap) && s.serves[k].snap.takenAt <= s.serves[k].at < s.serves[k].snap.takenAt + 65_000
  {
    RunKeepsAged(w, actions);
    RunKeepsGenuine(w, actions);
  }

  /** And over time the maps read from the cache never go back to an older version. */
  lemma CachedReadsNeverGoBack(w: World, actions: seq<Action>, k: nat, l: nat)
    requires Init(w) && LeaseRespecting(w, actions) && k <= l < |Run(w, actions).shield.serves|
    ensures var s := Run(w, actions).shield;
      s.serves[k].at <= s.serves[l].at && s.serves[k].snap.version <= s.serves[l].snap.version
  {
    RunKeepsAged(w, actions);
  }

  // ---- The lease matters ----

  /** An owner that outlives its lease between load and write lets a second reader load as well: two
      hydrations 5000 ms apart, without any crash, clear or eviction. */
  lemma StalledOwner() returns (w: World, actions: seq<Action>)
    ensures Init(w) && forall i :: 0 <= i < |actions| ==> actions[i].Start? || actions[i].Advance? || actions[i].Tick?
    ensures Run(w, actions).shield.loads == [0, 5_000]
  {
    w := World(Shield(0, None, None, [Version(Some(7), 0)], {}, [], []), []);
    var a := FirstStalls(w);
    var w1 := Run(w, a);
    var second := [Tick(5_000), Start, Advance(1, 2), Advance(1, 2), Advance(1, 3)];
    a := StalledPart(w, a, second);
    var w2 := Run(w, a);
    assert w2.readers[1] == Load(2, 10_000) && w2.shield.loads == [0] && w2.shield.clock == 5_000;
    RunThen(w, a, Advance(1, 3));
    actions := a + [Advance(1, 3)];
  }

  /** The first owner has loaded and not yet written. */
  lemma FirstStalls(w: World) returns (a: seq<Action>)
    requires w == World(Shield(0, None, None, [Version(Some(7), 0)], {}, [], []), [])
    ensures a == [Start, Advance(0, 1), Advance(0, 1), Advance(0, 2), Advance(0, 2)]
    ensures Run(w, a) == World(Shield(0, None, Some(Lock(1, 5_000)), [Version(Some(7), 0)], {1}, [0], []),
                               [Write(1, 5_000, Snapshot(7, 0, 0))])
  {
    a := StalledPart(w, [], [Start, Advance(0, 1), Advance(0, 1), Advance(0, 2), Advance(0, 2)]);
  }

  lemma StalledPart(w: World, before: seq<Action>, part: seq<Action>) returns (actions: seq<Action>)
    requires |part| == 5
    ensures actions == before + part
    ensures Run(w, actions) == Step(Step(Step(Step(Step(Run(w, before), part[0]), part[1]), part[2]), part[3]), part[4])
  {
    actions := before;
    RunThen(w, actions, part[0]);
    actions := actions + [part[0]];
    RunThen(w, actions, part[1]);
    actions := actions + [part[1]];
    RunThen(w, actions, part[2]);
    actions := actions + [part[2]];
    RunThen(w, actions, part[3]);
    actions := actions + [part[3]];
    RunThen(w, actions, part[4]);
    actions := actions + [part[4]];
  }
}
