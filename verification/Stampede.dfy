/** The stampede shield for one event's seating map: concurrent readers over a cache key and a leased
    mutex key in Redis, with the database as the source of maps. Each reader takes one step per await. */
module Stampede {
  import opened Domain

  const CACHE_TTL_MS: nat := 60_000
  const LOCK_TTL_MS: nat := 5_000
  const WAIT_ATTEMPTS: nat := 8
  const WAIT_DELAY_MS: nat := 25

  /** What a database read returned: the content, which version of the row it was, and when. */
  datatype Snapshot = Snapshot(content: Id, version: nat, takenAt: nat)

  datatype Cached = Cached(snap: Snapshot, expiresAt: nat)

  datatype Lock = Lock(token: Id, expiresAt: nat)

  /** One state of the event in the database, and since when; None while the event does not exist. */
  datatype Version = Version(content: Option<Id>, since: nat)

  datatype Serve = Serve(snap: Snapshot, at: nat)

  /** `tokens`, `loads` and `serves` are history: the tokens ever generated, the times of the database
      loads that hydrate the cache, and the maps read from the cache. */
  datatype Shield = Shield(
    clock: nat,
    cache: Option<Cached>,
    lock: Option<Lock>,
    history: seq<Version>,
    tokens: set<Id>,
    loads: seq<nat>,
    serves: seq<Serve>)

  datatype Meta = Meta(cacheHit: bool, lockAcquired: bool, waitedForLock: bool, databaseLoaded: bool)

  datatype Outcome = Served(snap: Snapshot, meta: Meta) | EventMissing | TimedOut

  /** `leaseEnd` is when the mutex this reader took expires in Redis. */
  datatype Reader =
    | CheckCache
    | Acquire
    | Recheck(token: Id, leaseEnd: nat)
    | Load(token: Id, leaseEnd: nat)
    | Write(token: Id, leaseEnd: nat, snap: Snapshot)
    | Release(token: Id, leaseEnd: nat, outcome: Outcome)
    | Wait(attempt: nat, readyAt: nat)
    | Done(outcome: Outcome)
    | Crashed(at: Reader)

  predicate CacheLive(s: Shield) {
    s.cache.Some? && s.clock < s.cache.value.expiresAt
  }

  predicate LockLive(s: Shield) {
    s.lock.Some? && s.clock < s.lock.value.expiresAt
  }

  /** What a direct read returns now. */
  function Direct(s: Shield): Option<Id> {
    if s.history == [] then None else s.history[|s.history| - 1].content
  }

  function ServeCached(s: Shield): Shield
    requires s.cache.Some?
  {
    s.(serves := s.serves + [Serve(s.cache.value.snap, s.clock)])
  }

  /** SET NX PX with a new token. */
  function AcquireMutex(s: Shield, token: Id): (Shield, bool) {
    var s1 := s.(tokens := s.tokens + {token});
    if LockLive(s) then (s1, false)
    else (s1.(lock := Some(Lock(token, s.clock + LOCK_TTL_MS))), true)
  }

  /** The release script: deletes the mutex only if it still holds this token. */
  function ReleaseMutex(s: Shield, token: Id): Shield {
    if LockLive(s) && s.lock.value.token == token then s.(lock := None) else s
  }

  function Advanced(s: Shield, r: Reader, uuid: Id): (Shield, Reader) {
    match r
    case CheckCache =>
      if CacheLive(s) then (ServeCached(s), Done(Served(s.cache.value.snap, Meta(true, false, false, false))))
      else (s, Acquire)
    case Acquire =>
      var (s1, ok) := AcquireMutex(s, uuid);
      (s1, if ok then Recheck(uuid, s.clock + LOCK_TTL_MS) else Wait(0, s.clock + WAIT_DELAY_MS))
    case Recheck(token, leaseEnd) =>
      if CacheLive(s) then
        (ServeCached(s), Release(token, leaseEnd, Served(s.cache.value.snap, Meta(true, true, false, false))))
      else (s, Load(token, leaseEnd))
    case Load(token, leaseEnd) =>
      if Direct(s).None? then (s, Release(token, leaseEnd, EventMissing))
      else
        var snap := Snapshot(Direct(s).value, |s.history| - 1, s.clock);
        (s.(loads := s.loads + [s.clock]), Write(token, leaseEnd, snap))
    case Write(token, leaseEnd, snap) =>
      (s.(cache := Some(Cached(snap, s.clock + CACHE_TTL_MS))),
       Release(token, leaseEnd, Served(snap, Meta(false, true, false, true))))
    case Release(token, leaseEnd, outcome) => (ReleaseMutex(s, token), Done(outcome))
    case Wait(attempt, readyAt) =>
      if s.clock < readyAt then (s, r)
      else if CacheLive(s) then (ServeCached(s), Done(Served(s.cache.value.snap, Meta(true, false, true, false))))
      else (s, if attempt + 1 < WAIT_ATTEMPTS then Wait(attempt + 1, s.clock + WAIT_DELAY_MS) else Done(TimedOut))
    case Done(_) => (s, r)
    case Crashed(_) => (s, r)
  }

  datatype World = World(shield: Shield, readers: seq<Reader>)

  datatype Action =
    | Start
    | Advance(pid: nat, uuid: Id)
    | Crash(pid: nat)
    | Tick(ms: nat)
    | Update(content: Option<Id>)
    | ClearCache
    | EvictLock

  function Step(w: World, a: Action): World {
    var s := w.shield;
    match a
    case Start => World(s, w.readers + [CheckCache])
    case Advance(pid, uuid) =>
      if pid < |w.readers| && uuid !in s.tokens then
        var (s1, r) := Advanced(s, w.readers[pid], uuid);
        World(s1, w.readers[pid := r])
      else w
    case Crash(pid) =>
      if pid < |w.readers| && !w.readers[pid].Done? && !w.readers[pid].Crashed? then
        World(s, w.readers[pid := Crashed(w.readers[pid])])
      else w
    case Tick(ms) => World(s.(clock := s.clock + ms), w.readers)
    case Update(content) => World(s.(history := s.history + [Version(content, s.clock)]), w.readers)
    case ClearCache => World(s.(cache := None), w.readers)
    case EvictLock => World(s.(lock := None), w.readers)
  }

  function Run(w: World, actions: seq<Action>): World
    decreases |actions|
  {
    if actions == [] then w else Run(Step(w, actions[0]), actions[1..])
  }

  lemma RunThen(w: World, actions: seq<Action>, a: Action)
    ensures Run(w, actions + [a]) == Step(Run(w, actions), a)
    decreases |actions|
  {
    if actions == [] {
      assert actions + [a] == [a];
      assert Run(w, [a]) == Run(Step(w, a), [a][1..]);
    } else {
      assert (actions + [a])[1..] == actions[1..] + [a];
      RunThen(Step(w, actions[0]), actions[1..], a);
    }
  }

  ghost predicate Init(w: World) {
    && w.shield.cache == None && w.shield.lock == None && w.shield.loads == [] && w.shield.serves == []
    && |w.shield.history| == 1 && w.shield.history[0].since <= w.shield.clock
    && w.readers == []
  }

  function Core(r: Reader): Reader {
    if r.Crashed? then r.at else r
  }

  /** A reader that took the mutex and has not sent its release. */
  predicate Owner(r: Reader) {
    Core(r).Recheck? || Core(r).Load? || Core(r).Write? || Core(r).Release?
  }

  function TokenOf(r: Reader): Id
    requires Owner(r)
  {
    Core(r).token
  }

  function LeaseOf(r: Reader): nat
    requires Owner(r)
  {
    Core(r).leaseEnd
  }
}
