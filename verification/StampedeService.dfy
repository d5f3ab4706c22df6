/** The protected read of a seating map as it runs, over the shared Redis and database state. Before
    every await the other readers, writers and clocks may do anything; `others[k]` is what they do before
    the k-th await. Each method is proved to be, await by await, the reader of module Stampede. */
module StampedeService {
  import opened Domain
  import opened Stampede

  function Drive(s: Shield, r: Reader, uuid: Id, others: seq<Shield -> Shield>, k: nat): (Shield, Reader)
    requires k <= |others|
    decreases |others| - k
  {
    if k == |others| || r.Done? then (s, r)
    else
      var (s1, r1) := Advanced(others[k](s), r, uuid);
      Drive(s1, r1, uuid, others, k + 1)
  }

  lemma Await(s: Shield, r: Reader, uuid: Id, others: seq<Shield -> Shield>, k: nat, found: Shield)
    requires k < |others| && !r.Done? && found == others[k](s)
    ensures var (s1, r1) := Advanced(found, r, uuid);
      Drive(s, r, uuid, others, k) == Drive(s1, r1, uuid, others, k + 1)
  {
  }

  class Backend {
    var clock: nat
    var cache: Option<Cached>
    var lock: Option<Lock>
    var history: seq<Version>
    var tokens: set<Id>
    var loads: seq<nat>
    var serves: seq<Serve>

    function View(): Shield
      reads this
    {
      Shield(clock, cache, lock, history, tokens, loads, serves)
    }

    constructor (content: Option<Id>)
      ensures Init(World(View(), [])) && Direct(View()) == content
    {
      clock, cache, lock := 0, None, None;
      history := [Version(content, 0)];
      tokens, loads, serves := {}, [], [];
    }

    method Yield(other: Shield -> Shield)
      modifies this
      ensures View() == other(old(View()))
    {
      var s := other(View());
      clock, cache, lock, history := s.clock, s.cache, s.lock, s.history;
      tokens, loads, serves := s.tokens, s.loads, s.serves;
    }

    method ReadCachedMap() returns (map_: Option<Snapshot>)
      modifies this`serves
      ensures map_.Some? <==> CacheLive(old(View()))
      ensures map_.Some? ==> View() == ServeCached(old(View())) && map_.value == cache.value.snap
      ensures map_.None? ==> View() == old(View())
    {
      if cache.None? || cache.value.expiresAt <= clock {
        return None;
      }
      serves := serves + [Serve(cache.value.snap, clock)];
      return Some(cache.value.snap);
    }

    method AcquireMutex(uuid: Id) returns (token: Option<Id>)
      modifies this
      ensures (View(), token.Some?) == Stampede.AcquireMutex(old(View()), uuid)
      ensures token.Some? ==> token.value == uuid
    {
      tokens := tokens + {uuid};
      if lock.Some? && clock < lock.value.expiresAt {
        return None;
      }
      lock := Some(Lock(uuid, clock + LOCK_TTL_MS));
      return Some(uuid);
    }

    method ReleaseMutex(token: Id)
      modifies this`lock
      ensures View() == Stampede.ReleaseMutex(old(View()), token)
    {
      if lock.Some? && clock < lock.value.expiresAt && lock.value.token == token {
        lock := None;
      }
    }

    method LoadFromDatabase() returns (snap: Option<Snapshot>)
      modifies this`loads
      ensures snap.Some? <==> Direct(View()).Some?
      ensures snap.Some? ==>
        snap.value == Snapshot(Direct(View()).value, |history| - 1, clock) && loads == old(loads) + [clock]
      ensures snap.None? ==> loads == old(loads)
    {
      if history == [] || history[|history| - 1].content.None? {
        return None;
      }
      loads := loads + [clock];
      return Some(Snapshot(history[|history| - 1].content.value, |history| - 1, clock));
    }
  }

  /** The owner's load from the database and its write to the cache. */
  method LoadAndWrite(b: Backend, token: Id, leaseEnd: nat, uuid: Id, others: seq<Shield -> Shield>)
    returns (outcome: Outcome, k: nat)
    requires |others| >= 6
    modifies b
    ensures k <= 5
    ensures Drive(old(b.View()), Load(token, leaseEnd), uuid, others, 3) ==
            Drive(b.View(), Release(token, leaseEnd, outcome), uuid, others, k)
  {
    ghost var s := b.View();
    b.Yield(others[3]);
    ghost var found := b.View();
    var loaded := b.LoadFromDatabase();
    Await(s, Load(token, leaseEnd), uuid, others, 3, found);
    if loaded.None? {
      return EventMissing, 4;
    }
    WriteCache(b, token, leaseEnd, loaded.value, uuid, others);
    return Served(loaded.value, Meta(false, true, false, true)), 5;
  }

  method WriteCache(b: Backend, token: Id, leaseEnd: nat, snap: Snapshot, uuid: Id, others: seq<Shield -> Shield>)
    requires |others| >= 6
    modifies b
    ensures Drive(old(b.View()), Write(token, leaseEnd, snap), uuid, others, 4) ==
            Drive(b.View(), Release(token, leaseEnd, Served(snap, Meta(false, true, false, true))), uuid, others, 5)
  {
    ghost var s := b.View();
    b.Yield(others[4]);
    ghost var found := b.View();
    b.cache := Some(Cached(snap, b.clock + CACHE_TTL_MS));
    Await(s, Write(token, leaseEnd, snap), uuid, others, 4, found);
  }

  /** The owner's part between mutex and release: recheck, then load and write. */
  method Hydrate(b: Backend, token: Id, leaseEnd: nat, uuid: Id, others: seq<Shield -> Shield>)
    returns (outcome: Outcome, k: nat)
    requires |others| >= 6
    modifies b
    ensures k <= 5
    ensures Drive(old(b.View()), Recheck(token, leaseEnd), uuid, others, 2) ==
            Drive(b.View(), Release(token, leaseEnd, outcome), uuid, others, k)
  {
    ghost var s := b.View();
    b.Yield(others[2]);
    ghost var found := b.View();
    var refreshed := b.ReadCachedMap();
    Await(s, Recheck(token, leaseEnd), uuid, others, 2, found);
    if refreshed.Some? {
      return Served(refreshed.value, Meta(true, true, false, false)), 3;
    }
    outcome, k := LoadAndWrite(b, token, leaseEnd, uuid, others);
  }

  /** One turn of a waiting reader: a poll once its time has come, otherwise nothing. */
  method PollCache(b: Backend, attempt: nat, readyAt: nat, uuid: Id, others: seq<Shield -> Shield>, k: nat)
    returns (outcome: Option<Outcome>, polls: nat, next: nat)
    requires k < |others| && attempt < WAIT_ATTEMPTS
    modifies b
    ensures attempt <= polls <= attempt + 1 && (outcome.None? ==> polls < WAIT_ATTEMPTS)
    ensures outcome == Some(TimedOut) ==> polls == WAIT_ATTEMPTS
    ensures Drive(old(b.View()), Wait(attempt, readyAt), uuid, others, k) ==
            if outcome.Some? then (b.View(), Done(outcome.value)) else Drive(b.View(), Wait(polls, next), uuid, others, k + 1)
  {
    ghost var s := b.View();
    b.Yield(others[k]);
    ghost var found := b.View();
    Await(s, Wait(attempt, readyAt), uuid, others, k, found);
    if b.clock < readyAt {
      return None, attempt, readyAt;
    }
    var hydrated := b.ReadCachedMap();
    if hydrated.Some? {
      return Some(Served(hydrated.value, Meta(true, false, true, false))), attempt + 1, readyAt;
    }
    return if attempt + 1 == WAIT_ATTEMPTS then Some(TimedOut) else None, attempt + 1, b.clock + WAIT_DELAY_MS;
  }

  /** A reader without the mutex: up to eight polls, 25 ms apart. It returns nothing when the schedule
      ends while it is still waiting. */
  method AwaitHydration(b: Backend, readyAt0: nat, uuid: Id, others: seq<Shield -> Shield>)
    returns (r: Option<Outcome>, ghost last: Reader, ghost polls: nat)
    requires |others| >= 2
    modifies b
    ensures r.Some? ==> last == Done(r.value)
    ensures polls <= WAIT_ATTEMPTS
    ensures r == Some(TimedOut) ==> polls == WAIT_ATTEMPTS
    ensures r.None? ==> last.Wait? && last.attempt == polls < WAIT_ATTEMPTS
    ensures (b.View(), last) == Drive(old(b.View()), Wait(0, readyAt0), uuid, others, 2)
  {
    var attempt: nat, readyAt: nat := 0, readyAt0;
    for k := 2 to |others|
      invariant attempt < WAIT_ATTEMPTS
      invariant Drive(b.View(), Wait(attempt, readyAt), uuid, others, k) ==
                Drive(old(b.View()), Wait(0, readyAt0), uuid, others, 2)
    {
      r, attempt, readyAt := PollCache(b, attempt, readyAt, uuid, others, k);
      if r.Some? {
        return r, Done(r.value), attempt;
      }
    }
    return None, Wait(attempt, readyAt), attempt;
  }

  method GetSeatingMapWithMetrics(b: Backend, uuid: Id, others: seq<Shield -> Shield>)
    returns (r: Option<Outcome>, ghost last: Reader)
    requires |others| >= 6
    modifies b
    ensures r.Some? ==> last == Done(r.value)
    ensures (b.View(), last) == Drive(old(b.View()), CheckCache, uuid, others, 0)
  {
    ghost var s := b.View();
    b.Yield(others[0]);
    ghost var found := b.View();
    var cached := b.ReadCachedMap();
    Await(s, CheckCache, uuid, others, 0, found);
    if cached.Some? {
      r := Some(Served(cached.value, Meta(true, false, false, false)));
      return r, Done(r.value);
    }
    r, last := AcquireOrWait(b, uuid, others);
  }

  /** After a cache miss: the reader that gets the mutex hydrates, the others wait. */
  method AcquireOrWait(b: Backend, uuid: Id, others: seq<Shield -> Shield>)
    returns (r: Option<Outcome>, ghost last: Reader)
    requires |others| >= 6
    modifies b
    ensures r.Some? ==> last == Done(r.value)
    ensures (b.View(), last) == Drive(old(b.View()), Acquire, uuid, others, 1)
  {
    var token, at := TryMutex(b, uuid, others);
    if token.Some? {
      r, last := HydrateAndRelease(b, token.value, at + LOCK_TTL_MS, uuid, others);
    } else {
      ghost var polls: nat;
      r, last, polls := AwaitHydration(b, at + WAIT_DELAY_MS, uuid, others);
    }
  }

  method TryMutex(b: Backend, uuid: Id, others: seq<Shield -> Shield>) returns (token: Option<Id>, at: nat)
    requires |others| >= 6
    modifies b
    ensures Drive(old(b.View()), Acquire, uuid, others, 1) ==
            if token.Some? then Drive(b.View(), Recheck(token.value, at + LOCK_TTL_MS), uuid, others, 2)
            else Drive(b.View(), Wait(0, at + WAIT_DELAY_MS), uuid, others, 2)
  {
    ghost var s := b.View();
    b.Yield(others[1]);
    ghost var found := b.View();
    token := b.AcquireMutex(uuid);
    at := b.clock;
    Await(s, Acquire, uuid, others, 1, found);
  }

  /** The try block and its finally: whatever the hydration gives, the mutex is released afterwards. */
  method HydrateAndRelease(b: Backend, token: Id, leaseEnd: nat, uuid: Id, others: seq<Shield -> Shield>)
    returns (r: Option<Outcome>, ghost last: Reader)
    requires |others| >= 6
    modifies b
    ensures r.Some? && last == Done(r.value)
    ensures (b.View(), last) == Drive(old(b.View()), Recheck(token, leaseEnd), uuid, others, 2)
  {
    var outcome, k := Hydrate(b, token, leaseEnd, uuid, others);
    ghost var s := b.View();
    b.Yield(others[k]);
    ghost var found := b.View();
    b.ReleaseMutex(token);
    Await(s, Release(token, leaseEnd, outcome), uuid, others, k, found);
    return Some(outcome), Done(outcome);
  }
}
