/** What whole runs of the workers settle, with any number of workers and any overlap of their batches. */
module DrainRuns {
  import opened Domain
  import opened Protocol
  import Delivery
  import Booking
  import Settlement
  import ReleaseFree
  import Sets
  import opened Drain

  // ---- One task ----

  /** How many awaits a task has left at most. */
  function Rank(p: Process): nat {
    match p
    case SettleRead(_, _) => 4
    case SettleCommit(_, _) => 3
    case SettlePublish(_, _) => 2
    case SettleAck(_, _) => 1
    case _ => 0
  }

  predicate Turn(w: World, a: Action, pid: nat) {
    a.Advance? && a.pid == pid && a.uuid !in w.store.used
  }

  /** How often the schedule lets the process take an await. */
  function Turns(w: World, schedule: seq<Action>, pid: nat): nat
    decreases |schedule|
  {
    if schedule == [] then 0
    else Booking.Unit(Turn(w, schedule[0], pid)) + Turns(Step(w, schedule[0]), schedule[1..], pid)
  }

  /** The task has ended: it acknowledged its entry, or a rival booked the order first. */
  predicate Over(p: Process) {
    p == Finished(Acknowledged) || p == Finished(SeatNotHeld)
  }

  /** At its own turn a task comes nearer to its end, and it ends only with its order BOOKED. */
  lemma TaskTurn(s: Store, p: Process, uuid: Id)
    requires Delivery.IsTask(p) && TaskSound(s, p)
    ensures var (s', p') := Advanced(s, p, uuid);
      || (Delivery.IsTask(p') && p'.entry == p.entry && Rank(p') < Rank(p))
      || (Over(p') && Settlement.IsBooked(s', p.entry.holdId))
  {
  }

  lemma {:induction false} FinishedStays(w: World, schedule: seq<Action>, pid: nat)
    requires pid < |w.procs| && w.procs[pid].Finished?
    ensures pid < |Run(w, schedule).procs| && Run(w, schedule).procs[pid] == w.procs[pid]
    decreases |schedule|
  {
    if schedule != [] {
      FinishedStays(Step(w, schedule[0]), schedule[1..], pid);
    }
  }

  lemma OthersTurn(w: World, a: Action, pid: nat)
    requires pid < |w.procs| && Calm(a) && !Turn(w, a, pid)
    ensures pid < |Step(w, a).procs| && Step(w, a).procs[pid] == w.procs[pid]
  {
  }

  /** However the awaits of all batches interleave with each other and with other requests, a task that
      gets its turns comes to its end, and then its order is BOOKED. */
  lemma {:induction false} TaskEnds(w: World, schedule: seq<Action>, pid: nat)
    requires Base(w) && AllCalm(schedule)
    requires pid < |w.procs| && Delivery.IsTask(w.procs[pid]) && Turns(w, schedule, pid) >= Rank(w.procs[pid])
    ensures var end := Run(w, schedule);
      && pid < |end.procs| && Over(end.procs[pid])
      && Settlement.IsBooked(end.store, w.procs[pid].entry.holdId)
    decreases |schedule|
  {
    if schedule != [] {
      var a := schedule[0];
      StepKeepsBase(w, a);
      if Turn(w, a, pid) {
        TaskIsSound(w, pid);
        TaskTurn(w.store, w.procs[pid], a.uuid);
        TaskEndsAfterTurn(w, schedule, pid);
      } else {
        OthersTurn(w, a, pid);
        TaskEnds(Step(w, a), schedule[1..], pid);
      }
    }
  }

  lemma {:induction false} TaskEndsAfterTurn(w: World, schedule: seq<Action>, pid: nat)
    requires schedule != [] && AllCalm(schedule) && Base(Step(w, schedule[0]))
    requires pid < |w.procs| && Delivery.IsTask(w.procs[pid]) && Turn(w, schedule[0], pid)
    requires Turns(w, schedule, pid) >= Rank(w.procs[pid])
    requires var (s', p') := Advanced(w.store, w.procs[pid], schedule[0].uuid);
      || (Delivery.IsTask(p') && p'.entry == w.procs[pid].entry && Rank(p') < Rank(w.procs[pid]))
      || (Over(p') && Settlement.IsBooked(s', w.procs[pid].entry.holdId))
    ensures var end := Run(w, schedule);
      && pid < |end.procs| && Over(end.procs[pid])
      && Settlement.IsBooked(end.store, w.procs[pid].entry.holdId)
    decreases |schedule|, 0
  {
    var w1 := Step(w, schedule[0]);
    if Over(w1.procs[pid]) {
      FinishedStays(w1, schedule[1..], pid);
      Settlement.OrderSettledOnce(w1, schedule[1..], w.procs[pid].entry.holdId);
    } else {
      TaskEnds(w1, schedule[1..], pid);
    }
  }

  // ---- All entries ----

  /** The entries that a run claims. */
  function ClaimedIn(w: World, actions: seq<Action>): set<nat>
    decreases |actions|
  {
    if actions == [] then {} else ClaimedBy(w, actions[0]) + ClaimedIn(Step(w, actions[0]), actions[1..])
  }

  lemma {:induction false} RunUnattended(w: World, actions: seq<Action>)
    requires Base(w) && AllCalm(actions)
    ensures Unattended(Run(w, actions)) == Unattended(w) - ClaimedIn(w, actions)
    decreases |actions|
  {
    if actions != [] {
      StepUnattended(w, actions[0]);
      StepKeepsBase(w, actions[0]);
      RunUnattended(Step(w, actions[0]), actions[1..]);
    }
  }

  /** A step moves the cursor only by a read, and never takes an entry off the stream. */
  lemma StepCursor(w: World, a: Action)
    requires Base(w) && Calm(a)
    ensures var s' := Step(w, a).store;
      && s'.group.Group? && s'.group.start == w.store.group.start && w.store.stream <= s'.stream
      && s'.group.cursor == w.store.group.cursor + if a.Read? then NewCount(w.store) else 0
  {
    Delivery.StepKeeps(w, a);
    if a.Advance? && a.pid < |w.procs| && a.uuid !in w.store.used {
      Delivery.AdvancedStream(w.store, w.procs[a.pid], a.uuid);
    }
  }

  /** Every entry that a run reads is attended from then on. */
  lemma {:induction false} ReadEntriesAttended(w: World, actions: seq<Action>, k: nat)
    requires Base(w) && AllCalm(actions)
    requires Run(w, actions).store.group.Group? && w.store.group.cursor <= k < Run(w, actions).store.group.cursor
    ensures Attended(Run(w, actions), k)
    decreases |actions|
  {
    if actions != [] {
      var w1 := Step(w, actions[0]);
      StepCursor(w, actions[0]);
      StepKeepsBase(w, actions[0]);
      if k < w1.store.group.cursor {
        ReadAttends(w, k);
        RunKeepsAttended(w1, actions[1..], k);
      } else {
        ReadEntriesAttended(w1, actions[1..], k);
      }
    }
  }

  function Reads(actions: seq<Action>): nat
    decreases |actions|
  {
    if actions == [] then 0 else Booking.Unit(actions[0].Read?) + Reads(actions[1..])
  }

  /** n reads deliver 10n entries, or all that were there. */
  lemma {:induction false} ReadsDeliver(w: World, actions: seq<Action>, upto: nat)
    requires Base(w) && AllCalm(actions)
    requires upto <= |w.store.stream| && upto <= w.store.group.cursor + BATCH_SIZE * Reads(actions)
    ensures Run(w, actions).store.group.Group? && upto <= Run(w, actions).store.group.cursor
    ensures Run(w, actions).store.group.start == w.store.group.start && w.store.stream <= Run(w, actions).store.stream
    decreases |actions|
  {
    if actions != [] {
      StepCursor(w, actions[0]);
      StepKeepsBase(w, actions[0]);
      ReadsDeliver(Step(w, actions[0]), actions[1..], upto);
    }
  }

  /** When no task is under way, exactly the entries that nobody sees to are pending. */
  lemma PendingAtRest(w: World)
    requires Base(w) && NoTasks(w)
    ensures w.store.group.pending.Keys == Unattended(w)
  {
    forall k | k in w.store.group.pending ensures k in Unattended(w) {
      assert Delivery.GroupSound(w.store);
    }
  }

  /** Once every task has ended, an entry is acknowledged if and only if it was read and, in case nobody
      saw to it at first, was claimed; what is pending is what nobody saw to and nobody claimed. */
  lemma AcknowledgedExactly(w: World, actions: seq<Action>, k: nat)
    requires Base(w) && AllCalm(actions) && NoTasks(Run(w, actions))
    requires w.store.group.start <= k
    ensures var g := Run(w, actions).store.group;
      && g.Group? && g.pending.Keys == Unattended(w) - ClaimedIn(w, actions)
      && (k in g.acked <==> k < g.cursor && (k in Unattended(w) ==> k in ClaimedIn(w, actions)))
  {
    var end := Run(w, actions);
    RunKeepsBase(w, actions);
    RunUnattended(w, actions);
    PendingAtRest(end);
    ReadsDeliver(w, actions, 0);
    assert Delivery.GroupSound(end.store);
  }

  // ---- Enough reads and claims ----

  /** A claim is full when it takes only entries that nobody sees to, and leaves one of those only if it
      takes ten. */
  ghost predicate FullClaim(w: World, a: Action) {
    && a.Reclaim? && Claimable(w.store, a.picked) && Elements(a.picked) <= Unattended(w)
    && (|a.picked| == BATCH_SIZE || Elements(a.picked) == Unattended(w))
  }

  ghost function FullClaims(w: World, actions: seq<Action>): nat
    decreases |actions|
  {
    if actions == [] then 0
    else Booking.Unit(FullClaim(w, actions[0])) + FullClaims(Step(w, actions[0]), actions[1..])
  }

  lemma {:induction false} PickedSize(picked: seq<nat>)
    requires forall i, j :: 0 <= i < j < |picked| ==> picked[i] != picked[j]
    ensures |Elements(picked)| == |picked|
    decreases |picked|
  {
    if picked != [] {
      var last := |picked| - 1;
      PickedSize(picked[..last]);
      assert picked == picked[..last] + [picked[last]];
      assert Elements(picked) == Elements(picked[..last]) + {picked[last]};
      assert picked[last] !in picked[..last];
    }
  }

  /** Each full claim takes ten entries off the list of those that nobody sees to, or empties it. */
  lemma StepShortens(w: World, a: Action)
    requires Base(w) && Calm(a)
    ensures |Unattended(Step(w, a))| <= |Unattended(w)|
    ensures FullClaim(w, a) ==>
      Unattended(Step(w, a)) == {} || |Unattended(Step(w, a))| == |Unattended(w)| - BATCH_SIZE
  {
    StepUnattended(w, a);
    Sets.SubsetSize(Unattended(w) - ClaimedBy(w, a), Unattended(w));
    if FullClaim(w, a) {
      PickedSize(a.picked);
    }
  }

  lemma {:induction false} FullClaimsEmpty(w: World, actions: seq<Action>)
    requires Base(w) && AllCalm(actions) && |Unattended(w)| <= BATCH_SIZE * FullClaims(w, actions)
    ensures Unattended(Run(w, actions)) == {}
    decreases |actions|
  {
    if actions != [] {
      StepShortens(w, actions[0]);
      StepKeepsBase(w, actions[0]);
      FullClaimsEmpty(Step(w, actions[0]), actions[1..]);
    }
  }

  lemma FullClaimsClaim(w: World, actions: seq<Action>, k: nat)
    requires Base(w) && AllCalm(actions) && |Unattended(w)| <= BATCH_SIZE * FullClaims(w, actions)
    requires k in Unattended(w)
    ensures k in ClaimedIn(w, actions)
  {
    FullClaimsEmpty(w, actions);
    RunUnattended(w, actions);
    var left := Unattended(w) - ClaimedIn(w, actions);
    assert left == {};
    assert k !in left;
  }

  /** Entry k of `s` is acknowledged, its order BOOKED and its seat SOLD in `later`. */
  predicate Settled(s: Store, k: nat, later: Store)
    requires k < |s.stream|
  {
    && later.group.Group? && k in later.group.acked
    && Settlement.IsBooked(later, s.stream[k].holdId) && HasStatus(later, s.stream[k].seat, SOLD)
  }

  lemma AcknowledgedIsSettled(s: Store, k: nat, end: World)
    requires Booking.Inv(end) && Settlement.Paid(end) && s.stream <= end.store.stream && k < |s.stream|
    requires end.store.group.Group? && k in end.store.group.acked
    ensures Settled(s, k, end.store)
  {
    assert end.store.stream[k] == s.stream[k];
    assert Settlement.IsBooked(end.store, s.stream[k].holdId);
    Settlement.BookedSold(end.store, s.stream[k].holdId);
    assert Matches(s.stream[k], end.store.orders[s.stream[k].holdId]);
  }

  /** The drain. From any state without a stranded seat, whoever polls, however batches overlap and
      whatever else runs: once every task has ended, an undelivered entry is settled if there were reads
      enough to reach it, and a pending one if a task was on it or there were full claims enough. */
  lemma DrainSettles(w: World, actions: seq<Action>, k: nat)
    requires Base(w) && AllCalm(actions) && NoTasks(Run(w, actions))
    requires w.store.group.start <= k < |w.store.stream|
    requires k < w.store.group.cursor + BATCH_SIZE * Reads(actions)
    requires k in Unattended(w) ==> |Unattended(w)| <= BATCH_SIZE * FullClaims(w, actions)
    ensures Settled(w.store, k, Run(w, actions).store)
  {
    RunKeepsBase(w, actions);
    ReadsDeliver(w, actions, k + 1);
    EntryAcknowledged(w, actions, k);
    AcknowledgedIsSettled(w.store, k, Run(w, actions));
  }

  lemma EntryAcknowledged(w: World, actions: seq<Action>, k: nat)
    requires Base(w) && AllCalm(actions) && NoTasks(Run(w, actions))
    requires w.store.group.start <= k
    requires Run(w, actions).store.group.Group? && k < Run(w, actions).store.group.cursor
    requires k in Unattended(w) ==> |Unattended(w)| <= BATCH_SIZE * FullClaims(w, actions)
    ensures k in Run(w, actions).store.group.acked
  {
    AcknowledgedExactly(w, actions, k);
    if k in Unattended(w) {
      FullClaimsClaim(w, actions, k);
    }
  }

  /** The same after any release-free history, crashed and busy workers included. */
  lemma {:induction false} WorkersDrain(w: World, history: seq<Action>, actions: seq<Action>, k: nat)
    requires Init(w) && ReleaseFree.NoRelease(history) && AllCalm(actions)
    requires var now := Run(w, history);
      && now.store.group.Group? && NoTasks(Run(now, actions))
      && now.store.group.start <= k < |now.store.stream|
      && k < now.store.group.cursor + BATCH_SIZE * Reads(actions)
      && (k in Unattended(now) ==> |Unattended(now)| <= BATCH_SIZE * FullClaims(now, actions))
    ensures Settled(Run(w, history).store, k, Run(Run(w, history), actions).store)
  {
    HistoryBase(w, history);
    DrainSettles(Run(w, history), actions, k);
  }
}
