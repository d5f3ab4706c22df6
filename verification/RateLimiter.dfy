/** The sliding-window rate limiter: the sorted set that the script keeps for one client, the log of the
    calls that client made, and what the limiter guarantees about every such log. */
module SlidingWindow {
  import opened Domain
  import Sets

  /** One call that reaches the script: the Redis clock, the calling node's clock, its unique member. */
  datatype Call = Call(redisNow: nat, now: nat, member: Id)

  datatype Config = Config(windowMs: nat, limit: nat) {
    predicate Valid() { windowMs > 0 && limit > 0 }

    function TtlSeconds(): nat { CeilSeconds(windowMs) }
  }

  /** A client's sorted set, and when its key expires. */
  datatype Window = Window(scores: map<Id, nat>, expiresAt: nat)

  const EMPTY := Window(map[], 0)

  function CeilSeconds(ms: int): int { (ms + 999) / 1000 }

  lemma CeilSecondsBounds(ms: int)
    ensures ms <= CeilSeconds(ms) * 1000 < ms + 1000
  {
  }

  function LiveScores(w: Window, redisNow: nat): map<Id, nat> {
    if redisNow < w.expiresAt then w.scores else map[]
  }

  /** ZREMRANGEBYSCORE from 0 to `upto`, both ends included. */
  function Trim(scores: map<Id, nat>, upto: int): map<Id, nat> {
    map m | m in scores && !(0 <= scores[m] <= upto) :: scores[m]
  }

  /** The sorted set after one call: trim, insert, new expiry. */
  function Record(w: Window, c: Call, cfg: Config): Window {
    Window(Trim(LiveScores(w, c.redisNow), c.now - cfg.windowMs)[c.member := c.now],
           c.redisNow + cfg.TtlSeconds() * 1000)
  }

  function Replay(log: seq<Call>, cfg: Config): Window
    decreases |log|
  {
    if log == [] then EMPTY
    else Record(Replay(log[..|log| - 1], cfg), log[|log| - 1], cfg)
  }

  /** The j-th call of the log was let through. */
  predicate Allowed(log: seq<Call>, cfg: Config, j: nat)
    requires j < |log|
  {
    |Replay(log[..j + 1], cfg).scores| <= cfg.limit
  }

  ghost predicate UniqueMembers(log: seq<Call>) {
    forall i, j :: 0 <= i < j < |log| ==> log[i].member != log[j].member
  }

  ghost predicate RedisMonotone(log: seq<Call>) {
    forall i, j :: 0 <= i <= j < |log| ==> log[i].redisNow <= log[j].redisNow
  }

  ghost predicate Skew(log: seq<Call>, e: nat) {
    forall i :: 0 <= i < |log| ==> log[i].redisNow - e <= log[i].now <= log[i].redisNow + e
  }

  ghost predicate WellTimed(log: seq<Call>, e: nat) {
    UniqueMembers(log) && RedisMonotone(log) && Skew(log, e)
  }

  // ---- What the sorted set remembers ----

  /** No call between the i-th and the j-th trims the i-th, and the key never lapses between them. */
  ghost predicate Close(log: seq<Call>, cfg: Config, i: nat, j: nat)
    requires i <= j < |log|
  {
    forall k :: i < k <= j ==>
      log[k].now < log[i].now + cfg.windowMs && log[k].redisNow < log[k - 1].redisNow + cfg.windowMs
  }

  lemma ReplayStep(log: seq<Call>, cfg: Config, j: nat)
    requires j < |log|
    ensures Replay(log[..j + 1], cfg) == Record(Replay(log[..j], cfg), log[j], cfg)
  {
    assert log[..j + 1][..j] == log[..j];
  }

  lemma ReplayExpiry(log: seq<Call>, cfg: Config, j: nat)
    requires j < |log|
    ensures Replay(log[..j + 1], cfg).expiresAt >= log[j].redisNow + cfg.windowMs
  {
    ReplayStep(log, cfg, j);
    CeilSecondsBounds(cfg.windowMs);
  }

  /** A call is still remembered as long as no later call is a window away from it. */
  lemma {:induction false} Remembered(log: seq<Call>, cfg: Config, i: nat, j: nat)
    requires UniqueMembers(log) && i <= j < |log| && Close(log, cfg, i, j)
    ensures var scores := Replay(log[..j + 1], cfg).scores;
      log[i].member in scores && scores[log[i].member] == log[i].now
    decreases j
  {
    ReplayStep(log, cfg, j);
    if i < j {
      Remembered(log, cfg, i, j - 1);
      ReplayExpiry(log, cfg, j - 1);
    }
  }

  /** Allowed calls that are pairwise close number at most the limit. */
  lemma CloseCallsWithinLimit(log: seq<Call>, cfg: Config, calls: set<nat>)
    requires UniqueMembers(log)
    requires forall j :: j in calls ==> j < |log| && Allowed(log, cfg, j)
    requires forall i, j :: i in calls && j in calls && i <= j ==> Close(log, cfg, i, j)
    ensures |calls| <= cfg.limit
  {
    if calls != {} {
      var last := Latest(calls);
      var memberOf := map i | i in calls :: log[i].member;
      assert Sets.InjectiveOn(memberOf);
      Sets.ImageSize(memberOf);
      assert memberOf.Keys == calls;
      var scores := Replay(log[..last + 1], cfg).scores;
      forall m | m in Sets.Image(memberOf) ensures m in scores.Keys {
        var i :| i in memberOf && memberOf[i] == m;
        Remembered(log, cfg, i, last);
      }
      Sets.SubsetSize(Sets.Image(memberOf), scores.Keys);
    }
  }

  lemma {:induction false} Latest(calls: set<nat>) returns (last: nat)
    requires calls != {}
    ensures last in calls && forall i :: i in calls ==> i <= last
    decreases calls
  {
    last :| last in calls;
    assert forall i :: i in calls ==> i == last || i in calls - {last};
    if calls - {last} != {} {
      var rest := Latest(calls - {last});
      if rest > last {
        last := rest;
      }
    }
  }

  // ---- The window bound ----

  ghost function AllowedInNodeTime(log: seq<Call>, cfg: Config, from: int, upto: int): set<nat> {
    set j | 0 <= j < |log| && from <= log[j].now < upto && Allowed(log, cfg, j)
  }

  ghost function AllowedInRedisTime(log: seq<Call>, cfg: Config, from: int, upto: int): set<nat> {
    set j | 0 <= j < |log| && from <= log[j].redisNow < upto && Allowed(log, cfg, j)
  }

  /** However the nodes' clocks disagree within e of a Redis clock that never goes back, at most `limit`
      calls are let through in any half-open interval of windowMs - 2e on the nodes' clocks. */
  lemma NodeTimeBound(log: seq<Call>, cfg: Config, e: nat, from: int)
    requires WellTimed(log, e)
    ensures |AllowedInNodeTime(log, cfg, from, from + cfg.windowMs - 2 * e)| <= cfg.limit
  {
    var calls := AllowedInNodeTime(log, cfg, from, from + cfg.windowMs - 2 * e);
    CloseCallsWithinLimit(log, cfg, calls);
  }

  /** The same bound on Redis time; with e = 0 both are the exact sliding window. */
  lemma RedisTimeBound(log: seq<Call>, cfg: Config, e: nat, from: int)
    requires WellTimed(log, e)
    ensures |AllowedInRedisTime(log, cfg, from, from + cfg.windowMs - 2 * e)| <= cfg.limit
  {
    var calls := AllowedInRedisTime(log, cfg, from, from + cfg.windowMs - 2 * e);
    CloseCallsWithinLimit(log, cfg, calls);
  }

  // ---- The sorted set refines the full log ----

  /** The calls of the whole history, let through or not, that the window ending at the last call holds. */
  ghost function Recent(log: seq<Call>, cfg: Config): set<nat>
    requires log != []
  {
    set i | 0 <= i < |log| && log[|log| - 1].now - cfg.windowMs < log[i].now <= log[|log| - 1].now
  }

  /** Nothing is remembered that was not called, and nothing that a window has passed. */
  lemma {:induction false} OnlyRecentRemembered(log: seq<Call>, cfg: Config, m: Id)
    requires WellTimed(log, 0) && cfg.Valid() && log != [] && m in Replay(log, cfg).scores
    ensures exists i :: i in Recent(log, cfg) && log[i].member == m && Replay(log, cfg).scores[m] == log[i].now
    decreases |log|
  {
    var last := |log| - 1;
    if m == log[last].member {
      assert last in Recent(log, cfg);
    } else {
      var before := log[..last];
      OnlyRecentRemembered(before, cfg, m);
      var i :| i in Recent(before, cfg) && before[i].member == m && Replay(before, cfg).scores[m] == before[i].now;
      assert log[i].now <= log[last].now;
      assert i in Recent(log, cfg) && log[i].member == m;
    }
  }

  lemma RecentClose(log: seq<Call>, cfg: Config, i: nat)
    requires WellTimed(log, 0) && log != [] && i in Recent(log, cfg)
    ensures Close(log, cfg, i, |log| - 1)
  {
    forall k | i < k < |log|
      ensures log[k].now < log[i].now + cfg.windowMs && log[k].redisNow < log[k - 1].redisNow + cfg.windowMs
    {
      assert log[i].redisNow <= log[k - 1].redisNow;
      assert log[k].redisNow <= log[|log| - 1].redisNow;
    }
  }

  lemma RememberedAtEnd(log: seq<Call>, cfg: Config, i: nat)
    requires UniqueMembers(log) && i < |log| && Close(log, cfg, i, |log| - 1)
    ensures log[i].member in Replay(log, cfg).scores
  {
    Remembered(log, cfg, i, |log| - 1);
    assert log[..|log|] == log;
  }

  lemma RecentRemembered(log: seq<Call>, cfg: Config, i: nat)
    requires WellTimed(log, 0) && log != [] && i in Recent(log, cfg)
    ensures log[i].member in Replay(log, cfg).scores
  {
    RecentClose(log, cfg, i);
    RememberedAtEnd(log, cfg, i);
  }

  /** With clocks in step the script's count is the number of all calls, rejected ones included, in the
      window that ends now; trimming and key expiry lose nothing and keep nothing too long. */
  lemma {:induction false} CountIsWindowCount(log: seq<Call>, cfg: Config)
    requires WellTimed(log, 0) && cfg.Valid() && log != []
    ensures |Replay(log, cfg).scores| == |Recent(log, cfg)|
    ensures Allowed(log, cfg, |log| - 1) <==> |Recent(log, cfg)| <= cfg.limit
  {
    assert log[..|log|] == log;
    var memberOf := map i | i in Recent(log, cfg) :: log[i].member;
    assert Sets.InjectiveOn(memberOf);
    Sets.ImageSize(memberOf);
    assert memberOf.Keys == Recent(log, cfg);
    var scores := Replay(log, cfg).scores;
    forall m ensures m in Sets.Image(memberOf) <==> m in scores.Keys {
      if m in scores {
        OnlyRecentRemembered(log, cfg, m);
        var i :| i in Recent(log, cfg) && log[i].member == m;
        assert memberOf[i] == m;
      }
      if m in Sets.Image(memberOf) {
        var i :| i in memberOf && memberOf[i] == m;
        RecentRemembered(log, cfg, i);
      }
    }
    assert Sets.Image(memberOf) == scores.Keys;
  }

  // ---- Retry-After ----

  function RetryAfter(cfg: Config): nat {
    if CeilSeconds(cfg.windowMs) > 1 then CeilSeconds(cfg.windowMs) else 1
  }

  /** The advertised wait is the least whole number of seconds, at least one, that covers the window. */
  lemma RetryAfterIsLeast(cfg: Config)
    ensures 1 <= RetryAfter(cfg) && cfg.windowMs <= RetryAfter(cfg) * 1000
    ensures forall n: nat :: 1 <= n && cfg.windowMs <= n * 1000 ==> RetryAfter(cfg) <= n
  {
    CeilSecondsBounds(cfg.windowMs);
  }

  /** The key outlives the last call by whole seconds, by the window rounded up. */
  lemma {:induction false} KeyLifetime(log: seq<Call>, cfg: Config)
    requires log != []
    ensures var life := Replay(log, cfg).expiresAt - log[|log| - 1].redisNow;
      life % 1000 == 0 && cfg.windowMs <= life < cfg.windowMs + 1000
  {
    CeilSecondsBounds(cfg.windowMs);
    assert Replay(log, cfg).expiresAt - log[|log| - 1].redisNow == 1000 * cfg.TtlSeconds();
  }

  /** A further call while nothing leaves the window adds one to the window's count. */
  lemma NextCallCounts(log: seq<Call>, cfg: Config, next: Call)
    requires WellTimed(log + [next], 0) && cfg.Valid() && log != []
    requires forall i :: i in Recent(log, cfg) ==> next.now - cfg.windowMs < log[i].now
    ensures |Recent(log + [next], cfg)| == |Recent(log, cfg)| + 1
  {
    var all := log + [next];
    assert all[|log|] == next && all[|log| - 1] == log[|log| - 1];
    assert log[|log| - 1].now <= next.now by {
      assert all[|log| - 1].redisNow <= all[|log|].redisNow;
    }
    forall i ensures i in Recent(all, cfg) <==> i in Recent(log, cfg) + {|log|} {
      if 0 <= i < |log| {
        assert all[i] == log[i];
        assert all[i].redisNow <= all[|log| - 1].redisNow;
      }
    }
    assert Recent(all, cfg) == Recent(log, cfg) + {|log|};
  }

  /** Whatever the set remembers was logged with that score. */
  lemma {:induction false} RememberedWasLogged(log: seq<Call>, cfg: Config, m: Id)
    requires m in Replay(log, cfg).scores
    ensures exists i :: 0 <= i < |log| && log[i].member == m && log[i].now == Replay(log, cfg).scores[m]
    decreases |log|
  {
    var last := |log| - 1;
    if m == log[last].member {
      assert log[last].now == Replay(log, cfg).scores[m];
    } else {
      RememberedWasLogged(log[..last], cfg, m);
      var i :| 0 <= i < last && log[..last][i].member == m && log[..last][i].now == Replay(log[..last], cfg).scores[m];
      assert log[i].member == m;
    }
  }

  /** The client stayed away for the advertised seconds plus twice the clock skew, by the nodes' clocks or
      by the Redis clock. */
  predicate Waited(last: Call, next: Call, cfg: Config, e: nat) {
    || next.now >= last.now + RetryAfter(cfg) * 1000 + 2 * e
    || next.redisNow >= last.redisNow + RetryAfter(cfg) * 1000 + 2 * e
  }

  /** A client that waits so long before its last call is let through, whatever it did before. */
  lemma {:induction false} RetryAfterSuffices(log: seq<Call>, cfg: Config, e: nat)
    requires cfg.Valid() && WellTimed(log, e) && |log| > 1 && Waited(log[|log| - 2], log[|log| - 1], cfg, e)
    ensures Allowed(log, cfg, |log| - 1)
  {
    var last := |log| - 1;
    var next := log[last];
    OldCallsTrimmed(log, cfg, e);
    ReplayStep(log, cfg, last);
    var before, scores := Replay(log[..last], cfg).scores, Replay(log[..last + 1], cfg).scores;
    forall m | m in before ensures before[m] <= next.now - cfg.windowMs {
      RememberedWasLogged(log[..last], cfg, m);
    }
    assert scores.Keys == {next.member};
  }

  /** After that time every earlier call is a window old by every clock. */
  lemma OldCallsTrimmed(log: seq<Call>, cfg: Config, e: nat)
    requires WellTimed(log, e) && |log| > 1 && Waited(log[|log| - 2], log[|log| - 1], cfg, e)
    ensures forall i :: 0 <= i < |log| - 1 ==> log[i].now <= log[|log| - 1].now - cfg.windowMs
  {
    CeilSecondsBounds(cfg.windowMs);
    forall i | 0 <= i < |log| - 1 ensures log[i].now <= log[|log| - 1].now - cfg.windowMs {
      assert log[i].redisNow <= log[|log| - 2].redisNow;
    }
  }
}

/** The middleware: one sorted set per client, the decision and the response headers. */
module RateLimiter {
  import opened Domain
  import opened SlidingWindow

  datatype Reply = Reply(limit: nat, remaining: nat, resetSeconds: nat, retryAfter: Option<nat>)

  class Limiter {
    const cfg: Config
    var windows: map<Id, Window>

    constructor (cfg: Config)
      ensures this.cfg == cfg && windows == map[]
    {
      this.cfg := cfg;
      windows := map[];
    }

    function WindowOf(client: Id): Window
      reads this
    {
      if client in windows then windows[client] else EMPTY
    }

    /** The script, run with the client's key. */
    method SlidingWindowScript(client: Id, call: Call, windowMs: nat, limit: nat, ttlSeconds: nat)
      returns (allowed: int, remaining: nat, resetAt: nat, count: nat)
      requires windowMs == cfg.windowMs && limit == cfg.limit && ttlSeconds == cfg.TtlSeconds()
      modifies this
      ensures windows == old(windows)[client := Record(old(WindowOf(client)), call, cfg)]
      ensures count == |WindowOf(client).scores| && resetAt == call.now + windowMs
      ensures allowed == 1 <==> count <= limit
      ensures allowed == 1 || allowed == 0
      ensures count + remaining == limit || (count > limit && remaining == 0)
    {
      var next := TrimAndInsert(WindowOf(client), call, windowMs, ttlSeconds);
      windows := windows[client := next];
      count := |next.scores|;
      allowed := if count <= limit then 1 else 0;
      remaining := if limit > count then limit - count else 0;
      resetAt := call.now + windowMs;
    }

    /** What the script does to its key. */
    method TrimAndInsert(window: Window, call: Call, windowMs: nat, ttlSeconds: nat) returns (next: Window)
      requires windowMs == cfg.windowMs && ttlSeconds == cfg.TtlSeconds()
      ensures next == Record(window, call, cfg)
    {
      var scores := map[];
      if call.redisNow < window.expiresAt {
        scores := window.scores;
      }
      scores := Trim(scores, call.now - windowMs);
      scores := scores[call.member := call.now];
      return Window(scores, call.redisNow + ttlSeconds * 1000);
    }

    /** One request of a client: passed on when `retryAfter` is None, answered with 429 otherwise. */
    method Handle(client: Id, call: Call) returns (r: Reply)
      requires cfg.Valid()
      modifies this
      ensures windows == old(windows)[client := Record(old(WindowOf(client)), call, cfg)]
      ensures r.retryAfter.None? <==> |WindowOf(client).scores| <= cfg.limit
      ensures r.retryAfter.Some? ==> r.retryAfter.value == RetryAfter(cfg) && r.remaining == 0
      ensures r.resetSeconds == RetryAfter(cfg) && r.limit == cfg.limit
      ensures r.remaining ==
        if |WindowOf(client).scores| <= cfg.limit then cfg.limit - |WindowOf(client).scores| else 0
      ensures r.remaining <= cfg.limit - 1
    {
      var ttlSeconds := (cfg.windowMs + 999) / 1000;
      var allowed, remaining, resetAt, count := SlidingWindowScript(client, call, cfg.windowMs, cfg.limit, ttlSeconds);
      var resetAfterSeconds := (resetAt - call.now + 999) / 1000;
      if resetAfterSeconds < 1 {
        resetAfterSeconds := 1;
      }
      assert call.member in WindowOf(client).scores;
      assert count >= 1;
      r := Reply(cfg.limit, remaining, resetAfterSeconds, if allowed == 0 then Some(resetAfterSeconds) else None);
    }
  }

  /** A client's window is the replay of that client's own calls, and the j-th of them is let through
      exactly when the log allows it. */
  ghost predicate Follows(l: Limiter, client: Id, log: seq<Call>)
    reads l
  {
    l.WindowOf(client) == Replay(log, l.cfg)
  }

  method HandleLogged(l: Limiter, client: Id, call: Call, other: Id, ghost log: seq<Call>, ghost otherLog: seq<Call>)
    returns (r: Reply)
    requires l.cfg.Valid() && client != other
    requires Follows(l, client, log) && Follows(l, other, otherLog)
    modifies l
    ensures Follows(l, client, log + [call]) && Follows(l, other, otherLog)
    ensures r.retryAfter.None? <==> Allowed(log + [call], l.cfg, |log|)
    ensures WellTimed(log + [call], 0) ==>
      var count := |Recent(log + [call], l.cfg)|;
      && (r.retryAfter.None? <==> count <= l.cfg.limit)
      && (r.retryAfter.None? ==> r.remaining + count == l.cfg.limit) && (r.retryAfter.Some? ==> r.remaining == 0)
  {
    r := l.Handle(client, call);
    if WellTimed(log + [call], 0) {
      CountIsWindowCount(log + [call], l.cfg);
    }
    assert (log + [call])[..|log|] == log;
    assert (log + [call])[..|log| + 1] == log + [call];
  }
}
