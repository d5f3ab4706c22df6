/** What a reader of the seating map answers: alone, and in every run what its answer says about its own
    steps. */
module StampedeAnswers {
  import opened Domain
  import opened Stampede
  import StampedeService

  // ---- A reader alone ----

  function Untouched(s: Shield): Shield { s }

  function Alone(): seq<Shield -> Shield> {
    [Untouched, Untouched, Untouched, Untouched, Untouched, Untouched]
  }

  lemma Awaits(s: Shield, r: Reader, uuid: Id, k: nat)
    requires k < 6 && !r.Done?
    ensures StampedeService.Drive(s, r, uuid, Alone(), k) ==
            StampedeService.Drive(Advanced(s, r, uuid).0, Advanced(s, r, uuid).1, uuid, Alone(), k + 1)
  {
    StampedeService.Await(s, r, uuid, Alone(), k, s);
  }

  /** With a live cache the reader answers the cached map, and takes no mutex. */
  lemma WarmRead(s: Shield, uuid: Id)
    requires s.cache.Some? && s.clock < s.cache.value.expiresAt
    ensures StampedeService.Drive(s, CheckCache, uuid, Alone(), 0) ==
      (s.(serves := s.serves + [Serve(s.cache.value.snap, s.clock)]),
       Done(Served(s.cache.value.snap, Meta(true, false, false, false))))
  {
    Awaits(s, CheckCache, uuid, 0);
  }

  predicate Cold(s: Shield) {
    && !(s.cache.Some? && s.clock < s.cache.value.expiresAt)
    && !(s.lock.Some? && s.clock < s.lock.value.expiresAt)
  }

  /** The stores with the mutex taken by `uuid`. */
  function Locked(s: Shield, uuid: Id): Shield {
    s.(tokens := s.tokens + {uuid}, lock := Some(Lock(uuid, s.clock + 5_000)))
  }

  lemma ColdReadLocks(s: Shield, uuid: Id)
    requires Cold(s)
    ensures StampedeService.Drive(s, CheckCache, uuid, Alone(), 0) ==
            StampedeService.Drive(Locked(s, uuid), Load(uuid, s.clock + 5_000), uuid, Alone(), 3)
  {
    Awaits(s, CheckCache, uuid, 0);
    Awaits(s, Acquire, uuid, 1);
    Awaits(Locked(s, uuid), Recheck(uuid, s.clock + 5_000), uuid, 2);
  }

  /** With a cold cache and a free mutex the reader answers the current row; then the cache holds it for 60 s
      and the mutex is free again. */
  lemma ColdRead(s: Shield, uuid: Id)
    requires Cold(s) && s.history != [] && s.history[|s.history| - 1].content.Some?
    ensures var (s', r) := StampedeService.Drive(s, CheckCache, uuid, Alone(), 0);
      var snap := Snapshot(s.history[|s.history| - 1].content.value, |s.history| - 1, s.clock);
      && r == Done(Served(snap, Meta(false, true, false, true)))
      && s'.cache == Some(Cached(snap, s.clock + 60_000)) && s'.lock == None && s'.loads == s.loads + [s.clock]
      && s'.history == s.history && s'.serves == s.serves && s'.clock == s.clock
  {
    var lease := s.clock + 5_000;
    var snap := Snapshot(s.history[|s.history| - 1].content.value, |s.history| - 1, s.clock);
    var answer := Served(snap, Meta(false, true, false, true));
    var s1 := Locked(s, uuid);
    var s2 := s1.(loads := s1.loads + [s1.clock]);
    var s3 := s2.(cache := Some(Cached(snap, s2.clock + 60_000)));
    ColdReadLocks(s, uuid);
    Awaits(s1, Load(uuid, lease), uuid, 3);
    Awaits(s2, Write(uuid, lease, snap), uuid, 4);
    Awaits(s3, Release(uuid, lease, answer), uuid, 5);
  }

  /** A missing event is answered as missing: nothing is cached, and the mutex is free again. */
  lemma MissingRead(s: Shield, uuid: Id)
    requires Cold(s) && s.history != [] && s.history[|s.history| - 1].content.None?
    ensures var (s', r) := StampedeService.Drive(s, CheckCache, uuid, Alone(), 0);
      && r == Done(EventMissing) && s'.cache == s.cache && s'.lock == None && s'.loads == s.loads
      && s'.history == s.history && s'.serves == s.serves && s'.clock == s.clock
  {
    var s1 := Locked(s, uuid);
    ColdReadLocks(s, uuid);
    Awaits(s1, Load(uuid, s.clock + 5_000), uuid, 3);
    Awaits(s1, Release(uuid, s.clock + 5_000, EventMissing), uuid, 4);
  }

  // ---- A reader that finds the mutex taken ----

  function Later(s: Shield): Shield {
    s.(clock := s.clock + 25)
  }

  predicate Blocked(s: Shield) {
    && !(s.cache.Some? && s.clock < s.cache.value.expiresAt)
    && s.lock.Some? && s.clock < s.lock.value.expiresAt
  }

  /** The stores after a vain try at the mutex and i waits. */
  function Waiting(s: Shield, uuid: Id, i: nat): Shield {
    s.(tokens := s.tokens + {uuid}, clock := s.clock + 25 * i)
  }

  /** Nothing happens at the first two awaits, and 25 ms pass before each of the next n. */
  function Patience(n: nat): seq<Shield -> Shield> {
    [Untouched, Untouched] + seq(n, i => Later)
  }

  lemma BlockedWaits(s: Shield, uuid: Id, others: seq<Shield -> Shield>)
    requires Blocked(s) && |others| >= 2 && others[0] == Untouched && others[1] == Untouched
    ensures StampedeService.Drive(s, CheckCache, uuid, others, 0) ==
            StampedeService.Drive(Waiting(s, uuid, 0), Wait(0, s.clock + 25), uuid, others, 2)
  {
    StampedeService.Await(s, CheckCache, uuid, others, 0, s);
    StampedeService.Await(s, Acquire, uuid, others, 1, s);
  }

  lemma {:induction false} WaitsOn(s: Shield, uuid: Id, k: nat)
    requires Blocked(s) && k < 8
    ensures StampedeService.Drive(Waiting(s, uuid, k), Wait(k, s.clock + 25 * (k + 1)), uuid, Patience(8), k + 2) ==
            (Waiting(s, uuid, 8), Done(TimedOut))
    decreases 8 - k
  {
    var now, later := Waiting(s, uuid, k), Waiting(s, uuid, k + 1);
    assert Patience(8)[k + 2] == Later && Later(now) == later;
    StampedeService.Await(now, Wait(k, s.clock + 25 * (k + 1)), uuid, Patience(8), k + 2, later);
    if k < 7 {
      WaitsOn(s, uuid, k + 1);
    }
  }

  /** With a cold cache and the mutex taken the reader polls eight times, 25 ms apart, and then times out;
      it changes nothing. */
  lemma BlockedRead(s: Shield, uuid: Id)
    requires Blocked(s)
    ensures StampedeService.Drive(s, CheckCache, uuid, Patience(8), 0) ==
      (s.(tokens := s.tokens + {uuid}, clock := s.clock + 200), Done(TimedOut))
  {
    BlockedJoins(s, uuid, Patience(8), Waiting(s, uuid, 8));
  }

  lemma BlockedJoins(s: Shield, uuid: Id, others: seq<Shield -> Shield>, end: Shield)
    requires Blocked(s) && others == Patience(8) && end == Waiting(s, uuid, 8)
    ensures StampedeService.Drive(s, CheckCache, uuid, others, 0) == (end, Done(TimedOut))
  {
    BlockedWaits(s, uuid, others);
    WaitsOn(s, uuid, 0);
  }

  /** If the owner fills the cache meanwhile, the reader answers that map as one it waited for. */
  lemma HandedOver(s: Shield, uuid: Id, c: Cached)
    requires Blocked(s) && s.clock + 25 < c.expiresAt
    ensures var fill := (x: Shield) => x.(clock := x.clock + 25, cache := Some(c));
      var (s', r) := StampedeService.Drive(s, CheckCache, uuid, [Untouched, Untouched, fill], 0);
      && r == Done(Served(c.snap, Meta(true, false, true, false)))
      && s'.cache == Some(c) && s'.lock == s.lock && s'.loads == s.loads
      && s'.serves == s.serves + [Serve(c.snap, s.clock + 25)]
  {
    var fill := (x: Shield) => x.(clock := x.clock + 25, cache := Some(c));
    var others := [Untouched, Untouched, fill];
    var now := Waiting(s, uuid, 0);
    BlockedWaits(s, uuid, others);
    StampedeService.Await(now, Wait(0, s.clock + 25), uuid, others, 2, now.(clock := now.clock + 25, cache := Some(c)));
  }

  // ---- A reader's steps in a run ----

  /** The world before the n-th action. */
  function At(w: World, actions: seq<Action>, n: nat): World
    requires n <= |actions|
  {
    Run(w, actions[..n])
  }

  /** The n-th action is an await of the reader. */
  ghost predicate Moves(w: World, actions: seq<Action>, n: nat, pid: nat) {
    && n < |actions| && actions[n].Advance? && actions[n].pid == pid
    && pid < |At(w, actions, n).readers| && actions[n].uuid !in At(w, actions, n).shield.tokens
  }

  /** And it is the reader's first. */
  ghost predicate MovesFirst(w: World, actions: seq<Action>, n: nat, pid: nat) {
    Moves(w, actions, n, pid) && forall m: nat :: m < n ==> !Moves(w, actions, m, pid)
  }

  /** There the reader found the cache live with this map, and took it. */
  ghost predicate TookCached(w: World, actions: seq<Action>, n: nat, pid: nat, snap: Snapshot) {
    && Moves(w, actions, n, pid)
    && var s, s' := At(w, actions, n).shield, At(w, actions, n + 1).shield;
    && s.cache.Some? && s.clock < s.cache.value.expiresAt && s.cache.value.snap == snap
    && s'.serves == s.serves + [Serve(snap, s.clock)]
  }

  /** There the reader asked the database, and this was the row. */
  ghost predicate ReadRow(w: World, actions: seq<Action>, n: nat, pid: nat, snap: Snapshot) {
    && Moves(w, actions, n, pid)
    && var s := At(w, actions, n).shield;
    && s.history != [] && s.history[|s.history| - 1].content == Some(snap.content)
    && snap.version == |s.history| - 1 && snap.takenAt == s.clock
  }

  /** There the reader asked the database, and there was no row. */
  ghost predicate ReadNothing(w: World, actions: seq<Action>, n: nat, pid: nat) {
    && Moves(w, actions, n, pid)
    && var s := At(w, actions, n).shield;
    s.history == [] || s.history[|s.history| - 1].content == None
  }

  /** There the reader found the mutex free, and took it for five seconds. */
  ghost predicate TookMutex(w: World, actions: seq<Action>, n: nat, pid: nat) {
    && Moves(w, actions, n, pid)
    && var s, s' := At(w, actions, n).shield, At(w, actions, n + 1).shield;
    && !(s.lock.Some? && s.clock < s.lock.value.expiresAt)
    && s'.lock.Some? && s'.lock.value.expiresAt == s.clock + 5_000
  }

  /** There the reader found the mutex taken. */
  ghost predicate FoundTaken(w: World, actions: seq<Action>, n: nat, pid: nat) {
    && Moves(w, actions, n, pid)
    && var s := At(w, actions, n).shield;
    s.lock.Some? && s.clock < s.lock.value.expiresAt
  }

  /** There the reader polled a cold cache. */
  ghost predicate PolledCold(w: World, actions: seq<Action>, n: nat, pid: nat) {
    && Moves(w, actions, n, pid)
    && var s := At(w, actions, n).shield;
    !(s.cache.Some? && s.clock < s.cache.value.expiresAt)
  }

  /** The n-th action is such a poll, 25 ms or more after the action `last`. */
  ghost predicate PolledAfter(w: World, actions: seq<Action>, pid: nat, last: nat, n: nat) {
    && PolledCold(w, actions, n, pid) && last < n
    && At(w, actions, n).shield.clock >= At(w, actions, last).shield.clock + 25
  }

  function Latest(begin: nat, polls: seq<nat>): nat {
    if polls == [] then begin else polls[|polls| - 1]
  }

  /** Since it found the mutex taken the reader has polled a cold cache at `polls`, each 25 ms or more after
      the one before. */
  ghost predicate Waited(w: World, actions: seq<Action>, pid: nat, begin: nat, polls: seq<nat>)
    decreases |polls|
  {
    if polls == [] then FoundTaken(w, actions, begin, pid)
    else
      var before := polls[..|polls| - 1];
      && Waited(w, actions, pid, begin, before)
      && PolledAfter(w, actions, pid, Latest(begin, before), polls[|polls| - 1])
  }

  // ---- Why a reader answers what it answers ----

  /** The steps that bear a reader's answer: where it took the mutex, where its map or the absence of a row
      comes from, where it began to wait, and its polls. */
  datatype Evidence = Evidence(mutex: nat, source: nat, begin: nat, polls: seq<nat>)

  /** An owner's answer, with the flags that go with it. */
  ghost predicate OwnerAnswer(w: World, actions: seq<Action>, pid: nat, o: Outcome, ev: Evidence) {
    && TookMutex(w, actions, ev.mutex, pid)
    && match o
       case EventMissing => ReadNothing(w, actions, ev.source, pid)
       case TimedOut => false
       case Served(snap, meta) =>
         || (meta == Meta(true, true, false, false) && TookCached(w, actions, ev.source, pid, snap))
         || (meta == Meta(false, true, false, true) && ReadRow(w, actions, ev.source, pid, snap))
  }

  /** The answer of a reader that never had the mutex. */
  ghost predicate OtherAnswer(w: World, actions: seq<Action>, pid: nat, o: Outcome, ev: Evidence) {
    match o
    case EventMissing => false
    case TimedOut => |ev.polls| == 8 && Waited(w, actions, pid, ev.begin, ev.polls)
    case Served(snap, meta) =>
      && TookCached(w, actions, ev.source, pid, snap)
      && ((meta == Meta(true, false, false, false) && MovesFirst(w, actions, ev.source, pid))
          || (meta == Meta(true, false, true, false) && Waited(w, actions, pid, ev.begin, ev.polls)))
  }

  ghost predicate Justified(w: World, actions: seq<Action>, pid: nat, r: Reader, ev: Evidence) {
    match r
    case CheckCache => forall n :: !Moves(w, actions, n, pid)
    case Acquire => true
    case Recheck(_, _) => TookMutex(w, actions, ev.mutex, pid)
    case Load(_, _) => TookMutex(w, actions, ev.mutex, pid)
    case Write(_, _, snap) => TookMutex(w, actions, ev.mutex, pid) && ReadRow(w, actions, ev.source, pid, snap)
    case Release(_, _, o) => OwnerAnswer(w, actions, pid, o, ev)
    case Wait(k, readyAt) =>
      && |ev.polls| == k < 8 && Waited(w, actions, pid, ev.begin, ev.polls)
      && var last := Latest(ev.begin, ev.polls);
      last < |actions| && readyAt == At(w, actions, last).shield.clock + 25
    case Done(o) => OwnerAnswer(w, actions, pid, o, ev) || OtherAnswer(w, actions, pid, o, ev)
    case Crashed(_) => true
  }

  // -- One more action --

  lemma SameBefore(w: World, before: seq<Action>, a: Action, n: nat)
    requires n <= |before|
    ensures At(w, before + [a], n) == At(w, before, n)
  {
    assert (before + [a])[..n] == before[..n];
  }

  lemma SameMoves(w: World, before: seq<Action>, a: Action, n: nat, pid: nat)
    requires Moves(w, before, n, pid)
    ensures Moves(w, before + [a], n, pid)
    ensures At(w, before + [a], n) == At(w, before, n) && At(w, before + [a], n + 1) == At(w, before, n + 1)
  {
    SameBefore(w, before, a, n);
    SameBefore(w, before, a, n + 1);
  }

  lemma {:induction false} WaitedExtends(w: World, before: seq<Action>, a: Action, pid: nat, begin: nat, polls: seq<nat>)
    requires Waited(w, before, pid, begin, polls)
    ensures Waited(w, before + [a], pid, begin, polls)
    ensures Latest(begin, polls) < |before|
    decreases |polls|
  {
    if polls == [] {
      SameMoves(w, before, a, begin, pid);
    } else {
      var first, n := polls[..|polls| - 1], polls[|polls| - 1];
      WaitedExtends(w, before, a, pid, begin, first);
      SameMoves(w, before, a, n, pid);
      SameBefore(w, before, a, Latest(begin, first));
    }
  }

  lemma OwnerExtends(w: World, before: seq<Action>, a: Action, pid: nat, o: Outcome, ev: Evidence)
    requires OwnerAnswer(w, before, pid, o, ev)
    ensures OwnerAnswer(w, before + [a], pid, o, ev)
  {
    SameMoves(w, before, a, ev.mutex, pid);
    SameMoves(w, before, a, ev.source, pid);
  }

  lemma FirstStays(w: World, before: seq<Action>, a: Action, n: nat, pid: nat)
    requires MovesFirst(w, before, n, pid)
    ensures MovesFirst(w, before + [a], n, pid)
  {
    SameMoves(w, before, a, n, pid);
    forall m: nat | m < n ensures !Moves(w, before + [a], m, pid) {
      SameBefore(w, before, a, m);
      assert !Moves(w, before, m, pid);
    }
  }

  lemma OtherExtends(w: World, before: seq<Action>, a: Action, pid: nat, o: Outcome, ev: Evidence)
    requires OtherAnswer(w, before, pid, o, ev)
    ensures OtherAnswer(w, before + [a], pid, o, ev)
  {
    if o.Served? {
      SameMoves(w, before, a, ev.source, pid);
      if MovesFirst(w, before, ev.source, pid) {
        FirstStays(w, before, a, ev.source, pid);
      }
    }
    if Waited(w, before, pid, ev.begin, ev.polls) {
      WaitedExtends(w, before, a, pid, ev.begin, ev.polls);
    }
  }

  lemma Extends(w: World, before: seq<Action>, a: Action, pid: nat, r: Reader, ev: Evidence)
    requires Justified(w, before, pid, r, ev) && !r.CheckCache?
    ensures Justified(w, before + [a], pid, r, ev)
  {
    match r
    case Recheck(_, _) => SameMoves(w, before, a, ev.mutex, pid);
    case Load(_, _) => SameMoves(w, before, a, ev.mutex, pid);
    case Write(_, _, _) =>
      SameMoves(w, before, a, ev.mutex, pid);
      SameMoves(w, before, a, ev.source, pid);
    case Release(_, _, o) => OwnerExtends(w, before, a, pid, o, ev);
    case Wait(k, _) =>
      WaitedExtends(w, before, a, pid, ev.begin, ev.polls);
      SameBefore(w, before, a, Latest(ev.begin, ev.polls));
    case Done(o) =>
      if OwnerAnswer(w, before, pid, o, ev) {
        OwnerExtends(w, before, a, pid, o, ev);
      } else {
        OtherExtends(w, before, a, pid, o, ev);
      }
    case _ =>
  }

  // -- One await of the reader --

  /** The last action of a run is an await of the reader. */
  ghost predicate LastMoves(w: World, before: seq<Action>, a: Action, pid: nat) {
    a.Advance? && a.pid == pid && pid < |Run(w, before).readers| && a.uuid !in Run(w, before).shield.tokens
  }

  lemma LastAt(w: World, before: seq<Action>, a: Action, pid: nat)
    requires LastMoves(w, before, a, pid)
    ensures Moves(w, before + [a], |before|, pid)
    ensures At(w, before + [a], |before|) == Run(w, before)
    ensures At(w, before + [a], |before| + 1) == Step(Run(w, before), a)
    ensures Run(w, before + [a]) == Step(Run(w, before), a)
  {
    assert (before + [a])[..|before|] == before && (before + [a])[..|before| + 1] == before + [a];
    RunThen(w, before, a);
  }

  /** A step that finds the cache live takes its map. */
  lemma LastTakes(w: World, before: seq<Action>, a: Action, pid: nat)
    requires LastMoves(w, before, a, pid)
    requires var s, r := Run(w, before).shield, Run(w, before).readers[pid];
      && s.cache.Some? && s.clock < s.cache.value.expiresAt
      && (r.CheckCache? || r.Recheck? || (r.Wait? && r.readyAt <= s.clock))
    ensures TookCached(w, before + [a], |before|, pid, Run(w, before).shield.cache.value.snap)
  {
    LastAt(w, before, a, pid);
  }

  lemma AcquireJustified(w: World, before: seq<Action>, a: Action, pid: nat) returns (ev: Evidence)
    requires LastMoves(w, before, a, pid) && Run(w, before).readers[pid].Acquire?
    ensures Justified(w, before + [a], pid, Step(Run(w, before), a).readers[pid], ev)
  {
    LastAt(w, before, a, pid);
    ev := Evidence(|before|, 0, |before|, []);
  }

  lemma OwnerJustified(w: World, before: seq<Action>, a: Action, pid: nat, ev: Evidence) returns (ev': Evidence)
    requires LastMoves(w, before, a, pid)
    requires var r := Run(w, before).readers[pid]; r.Recheck? || r.Load? || r.Write? || r.Release?
    requires Justified(w, before, pid, Run(w, before).readers[pid], ev)
    ensures Justified(w, before + [a], pid, Step(Run(w, before), a).readers[pid], ev')
  {
    var s, r := Run(w, before).shield, Run(w, before).readers[pid];
    LastAt(w, before, a, pid);
    Extends(w, before, a, pid, r, ev);
    ev' := ev;
    if r.Recheck? || r.Load? {
      ev' := ev.(source := |before|);
      if r.Recheck? && CacheLive(s) {
        LastTakes(w, before, a, pid);
      }
    }
  }

  lemma PollExtends(w: World, before: seq<Action>, a: Action, pid: nat, ev: Evidence, k: nat, readyAt: nat)
    requires LastMoves(w, before, a, pid) && Run(w, before).readers[pid] == Wait(k, readyAt)
    requires Justified(w, before, pid, Wait(k, readyAt), ev)
    requires readyAt <= Run(w, before).shield.clock && !CacheLive(Run(w, before).shield)
    ensures Waited(w, before + [a], pid, ev.begin, ev.polls + [|before|])
  {
    LastAt(w, before, a, pid);
    WaitedExtends(w, before, a, pid, ev.begin, ev.polls);
    SameBefore(w, before, a, Latest(ev.begin, ev.polls));
    var polls := ev.polls + [|before|];
    assert polls[..|polls| - 1] == ev.polls;
  }

  lemma WaiterJustified(w: World, before: seq<Action>, a: Action, pid: nat, ev: Evidence) returns (ev': Evidence)
    requires LastMoves(w, before, a, pid) && Run(w, before).readers[pid].Wait?
    requires Justified(w, before, pid, Run(w, before).readers[pid], ev)
    ensures Justified(w, before + [a], pid, Step(Run(w, before), a).readers[pid], ev')
  {
    var s, r := Run(w, before).shield, Run(w, before).readers[pid];
    Extends(w, before, a, pid, r, ev);
    if s.clock < r.readyAt {
      assert Step(Run(w, before), a).readers[pid] == r;
      ev' := ev;
    } else if CacheLive(s) {
      LastTakes(w, before, a, pid);
      ev' := ev.(source := |before|);
    } else {
      PollJustified(w, before, a, pid, ev, r.attempt, r.readyAt);
      ev' := ev.(polls := ev.polls + [|before|]);
    }
  }

  lemma PollJustified(w: World, before: seq<Action>, a: Action, pid: nat, ev: Evidence, k: nat, readyAt: nat)
    requires LastMoves(w, before, a, pid) && Run(w, before).readers[pid] == Wait(k, readyAt)
    requires Justified(w, before, pid, Wait(k, readyAt), ev)
    requires readyAt <= Run(w, before).shield.clock && !CacheLive(Run(w, before).shield)
    ensures Justified(w, before + [a], pid, Step(Run(w, before), a).readers[pid], ev.(polls := ev.polls + [|before|]))
  {
    LastAt(w, before, a, pid);
    PollExtends(w, before, a, pid, ev, k, readyAt);
  }

  lemma CheckJustified(w: World, before: seq<Action>, a: Action, pid: nat) returns (ev: Evidence)
    requires LastMoves(w, before, a, pid) && Run(w, before).readers[pid].CheckCache?
    requires forall n :: !Moves(w, before, n, pid)
    ensures Justified(w, before + [a], pid, Step(Run(w, before), a).readers[pid], ev)
  {
    LastAt(w, before, a, pid);
    ev := Evidence(0, |before|, 0, []);
    if CacheLive(Run(w, before).shield) {
      LastTakes(w, before, a, pid);
      forall m: nat | m < |before| ensures !Moves(w, before + [a], m, pid) {
        SameBefore(w, before, a, m);
        assert !Moves(w, before, m, pid);
      }
      assert MovesFirst(w, before + [a], |before|, pid);
    }
  }

  /** A reader that has not begun stays so while others move. */
  lemma StillUnmoved(w: World, before: seq<Action>, a: Action, pid: nat)
    requires (forall n :: !Moves(w, before, n, pid)) && !LastMoves(w, before, a, pid)
    ensures forall n :: !Moves(w, before + [a], n, pid)
  {
    forall n: nat ensures !Moves(w, before + [a], n, pid) {
      if n < |before| {
        SameBefore(w, before, a, n);
        assert !Moves(w, before, n, pid);
      } else if n == |before| {
        assert (before + [a])[..n] == before;
      }
    }
  }

  /** In every run every reader's state is borne by its own steps. */
  lemma {:induction false} ReaderJustified(w: World, actions: seq<Action>, pid: nat) returns (ev: Evidence)
    requires w.readers == [] && pid < |Run(w, actions).readers|
    ensures Justified(w, actions, pid, Run(w, actions).readers[pid], ev)
    decreases |actions|
  {
    var before, a := actions[..|actions| - 1], actions[|actions| - 1];
    assert actions == before + [a];
    RunThen(w, before, a);
    var w1 := Run(w, before);
    if |w1.readers| <= pid {
      ev := Evidence(0, 0, 0, []);
      NotYetThere(w, actions, pid);
    } else {
      var was := ReaderJustified(w, before, pid);
      ev := NextJustified(w, before, a, pid, was);
    }
  }

  lemma {:induction false} ReadersOnlyGrow(w: World, actions: seq<Action>)
    ensures |w.readers| <= |Run(w, actions).readers|
    decreases |actions|
  {
    if actions != [] {
      ReadersOnlyGrow(Step(w, actions[0]), actions[1..]);
    }
  }

  lemma {:induction false} RunSplits(w: World, xs: seq<Action>, ys: seq<Action>)
    ensures Run(w, xs + ys) == Run(Run(w, xs), ys)
    decreases |xs|
  {
    if xs == [] {
      assert xs + ys == ys;
    } else {
      assert (xs + ys)[1..] == xs[1..] + ys;
      RunSplits(Step(w, xs[0]), xs[1..], ys);
    }
  }

  /** A reader that comes with the last action has made no move. */
  lemma NotYetThere(w: World, actions: seq<Action>, pid: nat)
    requires actions != [] && |Run(w, actions[..|actions| - 1]).readers| <= pid
    ensures forall n :: !Moves(w, actions, n, pid)
  {
    var before := actions[..|actions| - 1];
    forall n: nat | n < |actions| ensures |At(w, actions, n).readers| <= pid {
      assert before == actions[..n] + before[n..];
      RunSplits(w, actions[..n], before[n..]);
      ReadersOnlyGrow(At(w, actions, n), before[n..]);
    }
  }

  lemma NextJustified(w: World, before: seq<Action>, a: Action, pid: nat, was: Evidence) returns (ev: Evidence)
    requires pid < |Run(w, before).readers| && Justified(w, before, pid, Run(w, before).readers[pid], was)
    ensures pid < |Step(Run(w, before), a).readers|
    ensures Justified(w, before + [a], pid, Step(Run(w, before), a).readers[pid], ev)
  {
    var r := Run(w, before).readers[pid];
    if LastMoves(w, before, a, pid) && !r.Done? && !r.Crashed? {
      match r
      case CheckCache => ev := CheckJustified(w, before, a, pid);
      case Acquire => ev := AcquireJustified(w, before, a, pid);
      case Wait(_, _) => ev := WaiterJustified(w, before, a, pid, was);
      case _ => ev := OwnerJustified(w, before, a, pid, was);
    } else {
      ev := was;
      Unmoved(Run(w, before), a, pid);
      if r.CheckCache? {
        StillUnmoved(w, before, a, pid);
      } else {
        Extends(w, before, a, pid, r, was);
      }
    }
  }

  lemma Unmoved(w: World, a: Action, pid: nat)
    requires pid < |w.readers|
    requires a.Advance? && a.pid == pid && a.uuid !in w.shield.tokens ==> w.readers[pid].Done? || w.readers[pid].Crashed?
    ensures pid < |Step(w, a).readers|
    ensures Step(w, a).readers[pid] == w.readers[pid] || Step(w, a).readers[pid].Crashed?
  {
  }

  // ---- The answers ----

  /** An event is answered as missing only if the reader asked the database itself and there was no row. */
  lemma MissingWasMissing(w: World, actions: seq<Action>, pid: nat) returns (n: nat)
    requires w.readers == [] && pid < |Run(w, actions).readers| && Run(w, actions).readers[pid] == Done(EventMissing)
    ensures ReadNothing(w, actions, n, pid)
  {
    var ev := ReaderJustified(w, actions, pid);
    n := ev.source;
  }

  /** A reader times out only after eight polls of a cold cache, 25 ms apart and so at least 200 ms after it
      found the mutex taken. */
  lemma TimedOutWaited(w: World, actions: seq<Action>, pid: nat) returns (begin: nat, polls: seq<nat>)
    requires w.readers == [] && pid < |Run(w, actions).readers| && Run(w, actions).readers[pid] == Done(TimedOut)
    ensures |polls| == 8 && Waited(w, actions, pid, begin, polls)
    ensures begin < |actions| && polls[7] < |actions|
    ensures At(w, actions, polls[7]).shield.clock >= At(w, actions, begin).shield.clock + 200
  {
    var ev := ReaderJustified(w, actions, pid);
    begin, polls := ev.begin, ev.polls;
    WaitAddsUp(w, actions, pid, begin, polls);
  }

  lemma {:induction false} WaitAddsUp(w: World, actions: seq<Action>, pid: nat, begin: nat, polls: seq<nat>)
    requires Waited(w, actions, pid, begin, polls)
    ensures begin < |actions| && Latest(begin, polls) < |actions|
    ensures At(w, actions, Latest(begin, polls)).shield.clock >= At(w, actions, begin).shield.clock + 25 * |polls|
    decreases |polls|
  {
    if polls != [] {
      WaitAddsUp(w, actions, pid, begin, polls[..|polls| - 1]);
    }
  }

  /** Every one of the polls found the cache cold. */
  lemma {:induction false} PollsFoundCold(w: World, actions: seq<Action>, pid: nat, begin: nat, polls: seq<nat>, i: nat)
    requires Waited(w, actions, pid, begin, polls) && i < |polls|
    ensures PolledCold(w, actions, polls[i], pid)
    decreases |polls|
  {
    if i < |polls| - 1 {
      PollsFoundCold(w, actions, pid, begin, polls[..|polls| - 1], i);
    }
  }

  /** A served map was taken by the reader itself at one of its steps, and the flags say how: from a live
      cache, before or after taking the mutex or after waiting, or from the database with the mutex. */
  lemma ServedAsFlagged(w: World, actions: seq<Action>, pid: nat) returns (ev: Evidence)
    requires w.readers == [] && pid < |Run(w, actions).readers|
    requires Run(w, actions).readers[pid].Done? && Run(w, actions).readers[pid].outcome.Served?
    ensures var o := Run(w, actions).readers[pid].outcome;
      && (o.meta.cacheHit <==> !o.meta.databaseLoaded)
      && (o.meta.cacheHit ==> TookCached(w, actions, ev.source, pid, o.snap))
      && (o.meta.databaseLoaded ==> ReadRow(w, actions, ev.source, pid, o.snap) && o.meta.lockAcquired)
      && (o.meta.lockAcquired ==> TookMutex(w, actions, ev.mutex, pid) && !o.meta.waitedForLock)
      && (o.meta.waitedForLock ==> FoundTaken(w, actions, ev.begin, pid))
      && (!o.meta.lockAcquired && !o.meta.waitedForLock ==> MovesFirst(w, actions, ev.source, pid))
  {
    ev := ReaderJustified(w, actions, pid);
    if Waited(w, actions, pid, ev.begin, ev.polls) {
      WaitBegan(w, actions, pid, ev.begin, ev.polls);
    }
  }

  lemma {:induction false} WaitBegan(w: World, actions: seq<Action>, pid: nat, begin: nat, polls: seq<nat>)
    requires Waited(w, actions, pid, begin, polls)
    ensures FoundTaken(w, actions, begin, pid)
    decreases |polls|
  {
    if polls != [] {
      WaitBegan(w, actions, pid, begin, polls[..|polls| - 1]);
    }
  }
}
