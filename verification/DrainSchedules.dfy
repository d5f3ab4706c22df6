/** The drain can always be carried out: whatever workers were doing or have left behind, there is a
    continuation that settles every entry, with one poll for every ten entries of the longer queue. */
module DrainSchedules {
  import opened Domain
  import opened Protocol
  import Delivery
  import Booking
  import ReleaseFree
  import Claims
  import Sets
  import opened Drain
  import opened DrainRuns

  // ---- Turns for everybody ----

  lemma {:induction false} Fresh(used: set<Id>) returns (id: Id)
    ensures forall u :: u in used ==> u < id
    decreases used
  {
    if used == {} {
      id := 0;
    } else {
      var u :| u in used;
      var rest := Fresh(used - {u});
      id := if u < rest then rest else u + 1;
      assert forall v :: v in used ==> v == u || v in used - {u};
    }
  }

  function Count(pids: seq<nat>, pid: nat): nat {
    if pids == [] then 0 else Booking.Unit(pids[0] == pid) + Count(pids[1..], pid)
  }

  /** Four turns for each of the first n processes. */
  function FourEach(n: nat): seq<nat> {
    if n == 0 then [] else [n - 1, n - 1, n - 1, n - 1] + FourEach(n - 1)
  }

  lemma CountCons(pid: nat, pids: seq<nat>, x: nat)
    ensures Count([pid] + pids, x) == Booking.Unit(pid == x) + Count(pids, x)
  {
  }

  lemma {:induction false} FourEachCounts(n: nat, pid: nat)
    requires pid < n
    ensures Count(FourEach(n), pid) >= 4
  {
    var p, rest := n - 1, FourEach(n - 1);
    CountCons(p, rest, pid);
    CountCons(p, [p] + rest, pid);
    CountCons(p, [p] + ([p] + rest), pid);
    CountCons(p, [p] + ([p] + ([p] + rest)), pid);
    assert FourEach(n) == [p] + ([p] + ([p] + ([p] + rest)));
    if pid < p {
      FourEachCounts(n - 1, pid);
    }
  }

  predicate OnlyAwaits(actions: seq<Action>) {
    forall i :: 0 <= i < |actions| ==> actions[i].Advance?
  }

  /** Every wanted sequence of turns can be scheduled, with a new id for each. */
  lemma {:induction false} TurnsExist(w: World, pids: seq<nat>) returns (schedule: seq<Action>)
    ensures OnlyAwaits(schedule) && forall pid: nat :: Turns(w, schedule, pid) == Count(pids, pid)
    decreases |pids|
  {
    schedule := [];
    if pids != [] {
      var uuid := Fresh(w.store.used);
      var a := Advance(pids[0], uuid);
      var rest := TurnsExist(Step(w, a), pids[1..]);
      schedule := [a] + rest;
      forall pid: nat ensures Turns(w, schedule, pid) == Count(pids, pid) {
        assert schedule[0] == a && schedule[1..] == rest;
      }
    }
  }

  /** Awaits start no task, claim nothing and read nothing. */
  lemma {:induction false} AwaitsOnly(w: World, schedule: seq<Action>)
    requires OnlyAwaits(schedule)
    ensures AllCalm(schedule) && Reads(schedule) == 0 && ClaimedIn(w, schedule) == {}
    ensures |Run(w, schedule).procs| == |w.procs|
    ensures forall i :: 0 <= i < |w.procs| && !Delivery.IsTask(w.procs[i]) ==> !Delivery.IsTask(Run(w, schedule).procs[i])
    decreases |schedule|
  {
    if schedule != [] {
      var a := schedule[0];
      if a.pid < |w.procs| && a.uuid !in w.store.used {
        Delivery.AdvancedTask(w.store, w.procs[a.pid], a.uuid);
      }
      AwaitsOnly(Step(w, a), schedule[1..]);
    }
  }

  /** From every state the tasks under way can all be brought to their end. */
  lemma TasksCanEnd(w: World) returns (schedule: seq<Action>)
    requires Base(w)
    ensures OnlyAwaits(schedule) && NoTasks(Run(w, schedule))
  {
    schedule := TurnsExist(w, FourEach(|w.procs|));
    AwaitsOnly(w, schedule);
    forall i | 0 <= i < |w.procs| && Delivery.IsTask(w.procs[i]) ensures Over(Run(w, schedule).procs[i]) {
      FourEachCounts(|w.procs|, i);
      TaskEnds(w, schedule, i);
    }
  }

  // ---- One poll ----

  /** No task is under way, and every pending entry has been idle long enough to be claimed. */
  ghost predicate Rested(w: World) {
    && Base(w) && NoTasks(w)
    && forall k :: k in w.store.group.pending ==> w.store.group.pending[k] + CLAIM_IDLE_MS <= w.store.clock
  }

  /** Entries that nobody sees to and nobody claims keep their delivery times. */
  lemma StepKeepsTimes(w: World, a: Action, k: nat)
    requires Base(w) && Calm(a) && k in Unattended(w) && k !in ClaimedBy(w, a)
    ensures var s' := Step(w, a).store;
      && s'.group.Group? && k in s'.group.pending && s'.group.pending[k] == w.store.group.pending[k]
      && w.store.clock <= s'.clock
  {
    StepUnattended(w, a);
    assert k in Unattended(Step(w, a));
    if a.Advance? {
      if a.pid < |w.procs| && a.uuid !in w.store.used {
        Delivery.AdvancedStream(w.store, w.procs[a.pid], a.uuid);
        AdvancedClock(w.store, w.procs[a.pid], a.uuid);
      }
    } else {
      QuietPending(w, a);
      QuietStep(w, a);
    }
  }

  lemma AdvancedClock(s: Store, p: Process, uuid: Id)
    ensures Advanced(s, p, uuid).0.clock == s.clock
  {
  }

  lemma {:induction false} RunKeepsTimes(w: World, actions: seq<Action>, k: nat)
    requires Base(w) && AllCalm(actions) && k in Unattended(w) && k !in ClaimedIn(w, actions)
    ensures var s' := Run(w, actions).store;
      && s'.group.Group? && k in s'.group.pending && s'.group.pending[k] == w.store.group.pending[k]
      && w.store.clock <= s'.clock
    decreases |actions|
  {
    if actions != [] {
      StepKeepsTimes(w, actions[0], k);
      StepUnattended(w, actions[0]);
      StepKeepsBase(w, actions[0]);
      RunKeepsTimes(Step(w, actions[0]), actions[1..], k);
    }
  }

  /** Rest is reached again whenever all tasks have ended. */
  lemma RestAgain(w: World, actions: seq<Action>)
    requires Rested(w) && AllCalm(actions) && NoTasks(Run(w, actions))
    ensures Rested(Run(w, actions))
  {
    var end := Run(w, actions);
    RunKeepsBase(w, actions);
    RunUnattended(w, actions);
    PendingAtRest(w);
    PendingAtRest(end);
    forall k | k in end.store.group.pending
      ensures end.store.group.pending[k] + CLAIM_IDLE_MS <= end.store.clock
    {
      assert k in Unattended(end);
      RunKeepsTimes(w, actions, k);
    }
  }

  /** What a continuation costs: its reads, its claims and the milliseconds it waits. */
  datatype Effort = Effort(readCount: nat, claimCount: nat, waitMs: nat)

  function EffortOf(actions: seq<Action>): Effort
    decreases |actions|
  {
    if actions == [] then Effort(0, 0, 0)
    else
      var a, rest := actions[0], EffortOf(actions[1..]);
      Effort(Booking.Unit(a.Read?) + rest.readCount, Booking.Unit(a.Reclaim?) + rest.claimCount,
             (if a.Tick? then a.ms else 0) + rest.waitMs)
  }

  lemma {:induction false} EffortAdds(xs: seq<Action>, ys: seq<Action>)
    ensures var x, y := EffortOf(xs), EffortOf(ys);
      EffortOf(xs + ys) == Effort(x.readCount + y.readCount, x.claimCount + y.claimCount, x.waitMs + y.waitMs)
    ensures Reads(xs) == EffortOf(xs).readCount
    decreases |xs|
  {
    if xs == [] {
      assert xs + ys == ys;
    } else {
      assert (xs + ys)[1..] == xs[1..] + ys;
      EffortAdds(xs[1..], ys);
    }
  }

  lemma {:induction false} FullClaimsAdd(w: World, xs: seq<Action>, ys: seq<Action>)
    ensures FullClaims(w, xs + ys) == FullClaims(w, xs) + FullClaims(Run(w, xs), ys)
    decreases |xs|
  {
    if xs == [] {
      assert xs + ys == ys;
    } else {
      assert (xs + ys)[1..] == xs[1..] + ys;
      FullClaimsAdd(Step(w, xs[0]), xs[1..], ys);
    }
  }

  lemma {:induction false} AwaitsCost(schedule: seq<Action>)
    requires OnlyAwaits(schedule)
    ensures EffortOf(schedule) == Effort(0, 0, 0)
    decreases |schedule|
  {
    if schedule != [] {
      AwaitsCost(schedule[1..]);
    }
  }

  /** Every claim of the run is one that the worker's scan of the pending list makes. */
  ghost predicate WorkerClaims(w: World, actions: seq<Action>)
    decreases |actions|
  {
    actions != [] ==>
      && (actions[0].Reclaim? && w.store.group.Group? ==>
            Claims.EarliestIdle(w.store.group.pending, w.store.clock, actions[0].picked))
      && WorkerClaims(Step(w, actions[0]), actions[1..])
  }

  lemma {:induction false} WorkerClaimsAdd(w: World, xs: seq<Action>, ys: seq<Action>)
    requires WorkerClaims(w, xs) && WorkerClaims(Run(w, xs), ys)
    ensures WorkerClaims(w, xs + ys)
    decreases |xs|
  {
    if xs == [] {
      assert xs + ys == ys;
    } else {
      assert (xs + ys)[1..] == xs[1..] + ys;
      WorkerClaimsAdd(Step(w, xs[0]), xs[1..], ys);
    }
  }

  lemma {:induction false} NoClaims(w: World, actions: seq<Action>)
    requires forall i :: 0 <= i < |actions| ==> !actions[i].Reclaim?
    ensures WorkerClaims(w, actions)
    decreases |actions|
  {
    if actions != [] {
      NoClaims(Step(w, actions[0]), actions[1..]);
    }
  }

  /** What the scan finds from entry k on. */
  lemma {:induction false} ScanFrom(pending: map<nat, nat>, cursor: nat, clock: nat, found: seq<nat>, k: nat)
    returns (picked: seq<nat>)
    requires Claims.ScannedTo(pending, clock, found, k) && |found| <= BATCH_SIZE && k <= cursor
    requires forall j :: j in pending ==> j < cursor
    ensures Claims.EarliestIdle(pending, clock, picked)
    decreases cursor - k
  {
    if |found| == BATCH_SIZE || !Claims.InScan(pending, k) || k == cursor {
      Claims.ScanEnds(pending, clock, found, k);
      picked := found;
    } else {
      Claims.ScanNext(pending, clock, found, k);
      picked := ScanFrom(pending, cursor, clock, if Claims.Idle(pending, clock, k) then found + [k] else found, k + 1);
    }
  }

  /** In every state the worker has a claim to make. */
  lemma ClaimExists(s: Store) returns (picked: seq<nat>)
    requires s.group.Group? && Delivery.GroupSound(s)
    ensures Claimable(s, picked) && Claims.EarliestIdle(s.group.pending, s.clock, picked)
  {
    picked := ScanFrom(s.group.pending, s.group.cursor, s.clock, [], 0);
    assert forall i :: 0 <= i < |picked| ==> Claims.Idle(s.group.pending, s.clock, picked[i]);
  }

  /** A claim that takes less than ten takes every idle entry there is. */
  lemma {:induction false} ShortClaimTakesAll(pending: map<nat, nat>, clock: nat, picked: seq<nat>, k: nat)
    requires Claims.EarliestIdle(pending, clock, picked) && |picked| < BATCH_SIZE
    requires forall j :: j in pending ==> pending[j] + CLAIM_IDLE_MS <= clock
    ensures forall j :: j in pending && j < k ==> j in picked
    decreases k
  {
    if k > 0 {
      ShortClaimTakesAll(pending, clock, picked, k - 1);
      InScanAfter(pending, picked, k - 1);
      if k - 1 in pending {
        ShortClaimTakes(pending, clock, picked, k - 1);
      }
      assert forall j :: j in pending && j < k ==> j < k - 1 || j == k - 1;
    }
  }

  lemma ShortClaimTakes(pending: map<nat, nat>, clock: nat, picked: seq<nat>, k: nat)
    requires Claims.EarliestIdle(pending, clock, picked) && |picked| < BATCH_SIZE
    requires Claims.Idle(pending, clock, k) && Claims.InScan(pending, k)
    ensures k in picked
  {
  }

  lemma InScanAfter(pending: map<nat, nat>, picked: seq<nat>, k: nat)
    requires |picked| < BATCH_SIZE && forall i, j :: 0 <= i < j < |picked| ==> picked[i] < picked[j]
    requires forall j :: j in pending && j < k ==> j in picked
    ensures Claims.InScan(pending, k)
  {
    PickedSize(picked);
    Sets.SubsetSize(Claims.PendingBefore(pending, k), Elements(picked));
  }

  /** At rest the worker's own claim is a full one, although it looks at a hundred entries only. */
  lemma ClaimAtRestIsFull(w: World, picked: seq<nat>)
    requires Rested(w) && Claimable(w.store, picked)
    requires Claims.EarliestIdle(w.store.group.pending, w.store.clock, picked)
    ensures FullClaim(w, Reclaim(picked))
  {
    PendingAtRest(w);
    assert Elements(picked) <= w.store.group.pending.Keys;
    if |picked| < BATCH_SIZE {
      assert Delivery.GroupSound(w.store);
      ShortClaimTakesAll(w.store.group.pending, w.store.clock, picked, w.store.group.cursor);
    }
  }

  lemma ClaimAndRead(w: World, picked: seq<nat>)
    ensures var begin := [Reclaim(picked), Read];
      Run(w, begin) == Step(Step(w, Reclaim(picked)), Read) && EffortOf(begin) == Effort(1, 1, 0)
  {
    var begin := [Reclaim(picked), Read];
    var last := [Read];
    assert begin[1..] == last && last[1..] == [];
    var w1 := Step(w, Reclaim(picked));
    assert Run(w1, last) == Run(Step(w1, Read), []);
    assert EffortOf(last) == Effort(1, 0, 0);
  }

  /** One poll from rest to rest: a full claim, a read, and its batch to the end. */
  lemma PollExists(w: World) returns (poll: seq<Action>)
    requires Rested(w)
    ensures AllCalm(poll) && Rested(Run(w, poll))
    ensures EffortOf(poll) == Effort(1, 1, 0) && FullClaims(w, poll) >= 1 && WorkerClaims(w, poll)
  {
    var picked := ClaimExists(w.store);
    ClaimAtRestIsFull(w, picked);
    var begin := [Reclaim(picked), Read];
    var d := Step(Step(w, Reclaim(picked)), Read);
    StepKeepsBase(w, Reclaim(picked));
    StepKeepsBase(Step(w, Reclaim(picked)), Read);
    var schedule := TasksCanEnd(d);
    poll := begin + schedule;
    ClaimAndRead(w, picked);
    RunConcat(w, begin, schedule);
    AwaitsOnly(d, schedule);
    AwaitsCost(schedule);
    EffortAdds(begin, schedule);
    FullClaimsAdd(w, begin, schedule);
    PollClaims(w, picked, schedule);
    RestAgain(w, poll);
  }

  lemma PollClaims(w: World, picked: seq<nat>, schedule: seq<Action>)
    requires w.store.group.Group? && Claims.EarliestIdle(w.store.group.pending, w.store.clock, picked)
    requires OnlyAwaits(schedule)
    ensures WorkerClaims(w, [Reclaim(picked), Read] + schedule)
  {
    var actions := [Reclaim(picked), Read] + schedule;
    assert actions[0] == Reclaim(picked) && actions[1..] == [Read] + schedule;
    NoClaims(Step(w, Reclaim(picked)), actions[1..]);
  }

  lemma {:induction false} PollsExist(w: World, n: nat) returns (polls: seq<Action>)
    requires Rested(w)
    ensures AllCalm(polls) && NoTasks(Run(w, polls))
    ensures EffortOf(polls) == Effort(n, n, 0) && FullClaims(w, polls) >= n && WorkerClaims(w, polls)
    decreases n
  {
    polls := [];
    if n > 0 {
      var poll := PollExists(w);
      var rest := PollsExist(Run(w, poll), n - 1);
      polls := poll + rest;
      RunConcat(w, poll, rest);
      EffortAdds(poll, rest);
      FullClaimsAdd(w, poll, rest);
      WorkerClaimsAdd(w, poll, rest);
    }
  }

  // ---- From any state ----

  /** No delivery time lies in the future. */
  ghost predicate TimesPast(s: Store) {
    s.group.Group? ==> forall k :: k in s.group.pending ==> s.group.pending[k] <= s.clock
  }

  lemma StepKeepsPast(w: World, a: Action)
    requires Delivery.Inv(w) && TimesPast(w.store)
    ensures TimesPast(Step(w, a).store)
  {
    if a.Advance? && a.pid < |w.procs| && a.uuid !in w.store.used {
      Delivery.AdvancedStream(w.store, w.procs[a.pid], a.uuid);
      AdvancedClock(w.store, w.procs[a.pid], a.uuid);
    }
  }

  lemma {:induction false} RunKeepsPast(w: World, actions: seq<Action>)
    requires Delivery.Inv(w) && TimesPast(w.store)
    ensures TimesPast(Run(w, actions).store)
    decreases |actions|
  {
    if actions != [] {
      StepKeepsPast(w, actions[0]);
      Delivery.StepKeeps(w, actions[0]);
      RunKeepsPast(Step(w, actions[0]), actions[1..]);
    }
  }

  lemma WaitingRests(w: World)
    requires Base(w) && NoTasks(w) && TimesPast(w.store)
    ensures Rested(Run(w, [Tick(CLAIM_IDLE_MS)]))
  {
    var wait := Tick(CLAIM_IDLE_MS);
    StepKeepsBase(w, wait);
    assert Run(w, [wait]) == Run(Step(w, wait), []);
  }

  /** From every state rest can be reached by waiting 30 s once the tasks have ended. */
  lemma RestCanBeReached(w: World) returns (actions: seq<Action>)
    requires Base(w) && TimesPast(w.store)
    ensures AllCalm(actions) && Rested(Run(w, actions)) && EffortOf(actions) == Effort(0, 0, CLAIM_IDLE_MS)
    ensures WorkerClaims(w, actions)
  {
    var schedule := TasksCanEnd(w);
    AwaitsOnly(w, schedule);
    AwaitsCost(schedule);
    RunKeepsBase(w, schedule);
    RunKeepsPast(w, schedule);
    WaitingRests(Run(w, schedule));
    actions := schedule + [Tick(CLAIM_IDLE_MS)];
    RunConcat(w, schedule, [Tick(CLAIM_IDLE_MS)]);
    EffortAdds(schedule, [Tick(CLAIM_IDLE_MS)]);
    NoClaims(w, actions);
  }

  /** How many polls of ten n entries need. */
  function PollsFor(n: int): nat {
    if n <= 0 then 0 else (n + BATCH_SIZE - 1) / BATCH_SIZE
  }

  /** How many polls the longer of the two queues needs: the entries never delivered, and the pending ones
      that no task is about to settle. */
  ghost function PollsNeeded(w: World): nat
    requires w.store.group.Group?
  {
    var undelivered, abandoned := PollsFor(|w.store.stream| - w.store.group.cursor), PollsFor(|Unattended(w)|);
    if undelivered < abandoned then abandoned else undelivered
  }

  ghost predicate AllSettled(s: Store, later: Store) {
    s.group.Group? ==> forall k :: s.group.start <= k < |s.stream| ==> Settled(s, k, later)
  }

  lemma DrainFrom(w: World) returns (actions: seq<Action>)
    requires Base(w) && TimesPast(w.store)
    ensures AllCalm(actions) && EffortOf(actions) == Effort(PollsNeeded(w), PollsNeeded(w), CLAIM_IDLE_MS)
    ensures AllSettled(w.store, Run(w, actions).store) && WorkerClaims(w, actions)
  {
    var before := RestCanBeReached(w);
    var polls := PollsExist(Run(w, before), PollsNeeded(w));
    actions := before + polls;
    RunConcat(w, before, polls);
    EffortAdds(before, polls);
    EffortAdds(actions, []);
    FullClaimsAdd(w, before, polls);
    WorkerClaimsAdd(w, before, polls);
    forall k | w.store.group.start <= k < |w.store.stream| ensures Settled(w.store, k, Run(w, actions).store) {
      DrainSettles(w, actions, k);
    }
  }

  /** After any release-free history with a group, whatever its workers are doing or have left behind when
      they crashed, the worker can settle every entry of the group: it waits 30 s once, makes its own claims,
      and needs one poll for every ten entries of the longer queue. */
  lemma WorkersCanDrain(w: World, history: seq<Action>) returns (actions: seq<Action>)
    requires Init(w) && ReleaseFree.NoRelease(history) && Run(w, history).store.group.Group?
    ensures var now := Run(w, history);
      && AllCalm(actions) && EffortOf(actions) == Effort(PollsNeeded(now), PollsNeeded(now), CLAIM_IDLE_MS)
      && AllSettled(now.store, Run(now, actions).store) && WorkerClaims(now, actions)
  {
    HistoryBase(w, history);
    Booking.InitInv(w);
    RunKeepsPast(w, history);
    actions := DrainFrom(Run(w, history));
  }
}
