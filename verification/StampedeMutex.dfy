/** Who owns the mutex, in every run in which Redis does not evict it. */
module StampedeMutex {
  import opened Domain
  import opened Stampede

  /** An owner whose lease runs holds the key with its own token; tokens are never shared. */
  ghost predicate Inv(w: World) {
    && (w.shield.lock.Some? ==>
          w.shield.lock.value.token in w.shield.tokens && w.shield.lock.value.expiresAt <= w.shield.clock + LOCK_TTL_MS)
    && (forall i :: 0 <= i < |w.readers| && Owner(w.readers[i]) ==>
          TokenOf(w.readers[i]) in w.shield.tokens && LeaseOf(w.readers[i]) <= w.shield.clock + LOCK_TTL_MS)
    && (forall i, j :: 0 <= i < j < |w.readers| && Owner(w.readers[i]) && Owner(w.readers[j]) ==>
          TokenOf(w.readers[i]) != TokenOf(w.readers[j]))
    && (forall i :: 0 <= i < |w.readers| && Owner(w.readers[i]) && w.shield.clock < LeaseOf(w.readers[i]) ==>
          w.shield.lock == Some(Lock(TokenOf(w.readers[i]), LeaseOf(w.readers[i]))))
  }

  /** What one await does to the mutex and to its reader's ownership. */
  lemma AdvancedOwner(s: Shield, r: Reader, uuid: Id)
    requires uuid !in s.tokens
    ensures var (s', r') := Advanced(s, r, uuid);
      && s.tokens <= s'.tokens && s'.clock == s.clock
      && (Owner(r') ==>
            (Owner(r) && TokenOf(r') == TokenOf(r) && LeaseOf(r') == LeaseOf(r) && s'.lock == s.lock)
            || (TokenOf(r') == uuid && uuid in s'.tokens && LeaseOf(r') == s.clock + LOCK_TTL_MS
                && !LockLive(s) && s'.lock == Some(Lock(uuid, s.clock + LOCK_TTL_MS))))
      && (!Owner(r') ==> s'.lock == s.lock || (Owner(r) && LockLive(s) && s.lock.value.token == TokenOf(r) && s'.lock == None))
  {
  }

  lemma AdvanceKeeps(w: World, pid: nat, uuid: Id)
    requires Inv(w) && pid < |w.readers| && uuid !in w.shield.tokens
    ensures Inv(Step(w, Advance(pid, uuid)))
  {
    AdvancedOwner(w.shield, w.readers[pid], uuid);
  }

  lemma StepKeeps(w: World, a: Action)
    requires Inv(w) && !a.EvictLock?
    ensures Inv(Step(w, a))
  {
    if a.Advance? && a.pid < |w.readers| && a.uuid !in w.shield.tokens {
      AdvanceKeeps(w, a.pid, a.uuid);
    }
  }

  ghost predicate NoLockEviction(actions: seq<Action>) {
    forall i :: 0 <= i < |actions| ==> !actions[i].EvictLock?
  }

  lemma {:induction false} RunKeeps(w: World, actions: seq<Action>)
    requires Inv(w) && NoLockEviction(actions)
    ensures Inv(Run(w, actions))
    decreases |actions|
  {
    if actions != [] {
      StepKeeps(w, actions[0]);
      RunKeeps(Step(w, actions[0]), actions[1..]);
    }
  }

  /** In every reachable state at most one reader is an owner within its lease. */
  lemma OneOwner(w: World, actions: seq<Action>, i: nat, j: nat)
    requires Init(w) && NoLockEviction(actions)
    requires var end := Run(w, actions);
      && i < |end.readers| && j < |end.readers| && Owner(end.readers[i]) && Owner(end.readers[j])
      && end.shield.clock < LeaseOf(end.readers[i]) && end.shield.clock < LeaseOf(end.readers[j])
    ensures i == j
  {
    RunKeeps(w, actions);
  }

  /** A late release never takes the mutex from a newer owner: whoever else is within its lease before
      the release still holds the key afterwards. */
  lemma LateReleaseHarmless(w: World, actions: seq<Action>, pid: nat, uuid: Id, owner: nat)
    requires Init(w) && NoLockEviction(actions)
    requires var now := Run(w, actions);
      && pid < |now.readers| && now.readers[pid].Release? && uuid !in now.shield.tokens
      && owner < |now.readers| && owner != pid && Owner(now.readers[owner])
      && now.shield.clock < LeaseOf(now.readers[owner])
    ensures var now := Run(w, actions);
      Step(now, Advance(pid, uuid)).shield.lock == Some(Lock(TokenOf(now.readers[owner]), LeaseOf(now.readers[owner])))
  {
    RunKeeps(w, actions);
    var now := Run(w, actions);
    assert TokenOf(now.readers[owner]) != TokenOf(now.readers[pid]) by {
      if owner < pid { assert Inv(now); } else { assert Inv(now); }
    }
  }

  /** The mutex that some owner holds now is no longer a live one of that owner at any state at least
      5000 ms later, whether the owner released it, stalled or crashed. */
  lemma {:induction false} LeaseEnds(w: World, actions: seq<Action>, token: Id, until: nat)
    requires token in w.shield.tokens
    requires w.shield.lock.Some? && w.shield.lock.value.token == token ==> w.shield.lock.value.expiresAt <= until
    ensures var end := Run(w, actions).shield;
      end.clock >= until ==> !(LockLive(end) && end.lock.value.token == token)
    decreases |actions|
  {
    if actions != [] {
      var a := actions[0];
      var w1 := Step(w, a);
      if a.Advance? && a.pid < |w.readers| && a.uuid !in w.shield.tokens {
        var (s', r') := Advanced(w.shield, w.readers[a.pid], a.uuid);
        assert s'.lock == w.shield.lock || s'.lock == None || s'.lock.value.token == a.uuid;
      }
      LeaseEnds(w1, actions[1..], token, until);
    }
  }

  lemma CrashedOwnerBlocksBriefly(w: World, before: seq<Action>, after: seq<Action>)
    requires Init(w) && NoLockEviction(before) && LockLive(Run(w, before).shield)
    ensures var now := Run(w, before).shield;
      var end := Run(Run(w, before), after).shield;
      end.clock >= now.clock + LOCK_TTL_MS ==> !(LockLive(end) && end.lock.value.token == now.lock.value.token)
  {
    RunKeeps(w, before);
    var now := Run(w, before);
    LeaseEnds(now, after, now.shield.lock.value.token, now.shield.clock + LOCK_TTL_MS);
  }
}
