/** The workers drain the stream: while nobody releases and nothing crashes, every entry that a worker
    claims or reads is settled and acknowledged, however many workers poll at once and however their
    batches overlap. */
module Drain {
  import opened Domain
  import opened Protocol
  import Identity
  import Delivery
  import Booking
  import Settlement
  import ReleaseFree

  /** Anything may happen except releases and crashes. */
  predicate Calm(a: Action) {
    !a.Crash? && (a.Start? ==> !ReleaseFree.IsRelease(a.request))
  }

  predicate AllCalm(actions: seq<Action>) {
    forall i :: 0 <= i < |actions| ==> Calm(actions[i])
  }

  ghost predicate Base(w: World) {
    Booking.Inv(w) && Settlement.Paid(w) && ReleaseFree.Unreleased(w) && w.store.group.Group?
  }

  ghost predicate NoTasks(w: World) {
    forall i :: 0 <= i < |w.procs| ==> !Delivery.IsTask(w.procs[i])
  }

  /** The process handles entry k, and its settlement will not be refused: an order it is about to book
      is still PROCESSING. */
  predicate Handles(s: Store, p: Process, k: nat) {
    Delivery.IsTask(p) && p.position == k && (p.SettleCommit? ==> !Settlement.IsBooked(s, p.entry.holdId))
  }

  /** Entry k is acknowledged, or some process will see to it. */
  ghost predicate Attended(w: World, k: nat) {
    || (w.store.group.Group? && k in w.store.group.acked)
    || exists i :: 0 <= i < |w.procs| && Handles(w.store, w.procs[i], k)
  }

  /** The pending entries that nobody will see to until they are claimed. */
  ghost function Unattended(w: World): set<nat> {
    if w.store.group.Group? then set k | k in w.store.group.pending && !Attended(w, k) else {}
  }

  lemma StepKeepsBase(w: World, a: Action)
    requires Base(w) && Calm(a)
    ensures Base(Step(w, a))
  {
    Booking.StepKeeps(w, a);
    Settlement.StepKeepsPaid(w, a);
    ReleaseFree.StepKeepsUnreleased(w, a);
    Delivery.StepKeeps(w, a);
  }

  lemma {:induction false} RunKeepsBase(w: World, actions: seq<Action>)
    requires Base(w) && AllCalm(actions)
    ensures Base(Run(w, actions))
    decreases |actions|
  {
    if actions != [] {
      StepKeepsBase(w, actions[0]);
      RunKeepsBase(Step(w, actions[0]), actions[1..]);
    }
  }

  /** After any release-free history the base holds once the group exists. */
  lemma HistoryBase(w: World, history: seq<Action>)
    requires Init(w) && ReleaseFree.NoRelease(history) && Run(w, history).store.group.Group?
    ensures Base(Run(w, history))
  {
    Booking.InitInv(w);
    Settlement.RunKeepsPaid(w, history);
    ReleaseFree.RunKeepsUnreleased(w, history);
  }

  // ---- One await of one task ----

  /** What the invariants say about a task: its order exists, and it is PROCESSING exactly while the seat
      is HELD. */
  ghost predicate TaskSound(s: Store, p: Process)
    requires Delivery.IsTask(p)
  {
    && p.entry.holdId in s.orders && s.orders[p.entry.holdId].seat == p.entry.seat
    && (!Settlement.IsBooked(s, p.entry.holdId) <==> HasStatus(s, p.entry.seat, HELD))
    && s.group.Group? && (p.position in s.group.pending || p.position in s.group.acked)
    && (p.SettlePublish? || p.SettleAck? ==> Settlement.IsBooked(s, p.entry.holdId))
  }

  lemma TaskIsSound(w: World, pid: nat)
    requires Base(w) && pid < |w.procs| && Delivery.IsTask(w.procs[pid])
    ensures TaskSound(w.store, w.procs[pid])
  {
    var p := w.procs[pid];
    assert Identity.Core(p) == p;
    Booking.TaskOrder(w, pid);
    ReleaseFree.UnbookedIsHeld(w.store, p.entry.holdId);
    assert Delivery.GroupSound(w.store);
    assert Settlement.PaidProcess(w.store, p);
  }

  /** A task that handles its entry goes on handling it, or acknowledges it. */
  lemma HandlerGoesOn(s: Store, p: Process, uuid: Id)
    requires Delivery.IsTask(p) && TaskSound(s, p) && Handles(s, p, p.position)
    ensures var (s', p') := Advanced(s, p, uuid);
      Handles(s', p', p.position) || (s'.group.Group? && p.position in s'.group.acked)
  {
  }

  /** A task that does not handle its entry can only fail. */
  lemma OtherTaskFails(s: Store, p: Process, uuid: Id)
    requires Delivery.IsTask(p) && TaskSound(s, p) && !Handles(s, p, p.position)
    ensures Advanced(s, p, uuid) == (s, Finished(SeatNotHeld))
  {
  }

  /** An await that books an order leaves its process handling the order's entry. */
  lemma BookerHandles(s: Store, p: Process, uuid: Id)
    requires Settlement.Settles(s, p)
    ensures var (s', p') := Advanced(s, p, uuid); Handles(s', p', p.position)
  {
  }

  // ---- One step of the system ----

  /** Two tasks about the same order handle the same entry. */
  lemma SameOrderSameEntry(w: World, i: nat, j: nat)
    requires Base(w) && i < |w.procs| && j < |w.procs|
    requires Delivery.IsTask(w.procs[i]) && Delivery.IsTask(w.procs[j])
    requires w.procs[i].entry.holdId == w.procs[j].entry.holdId
    ensures w.procs[i].position == w.procs[j].position
  {
    assert Delivery.TasksSound(w);
    var p, q := Identity.Core(w.procs[i]), Identity.Core(w.procs[j]);
    assert w.store.stream[p.position] == p.entry && w.store.stream[q.position] == q.entry;
  }

  /** A step of another process keeps an entry attended: if it books the order, it is itself a task for
      the entry. */
  lemma RivalKeepsAttended(w: World, pid: nat, uuid: Id, i: nat, k: nat)
    requires Base(w) && pid < |w.procs| && uuid !in w.store.used
    requires i < |w.procs| && i != pid && Handles(w.store, w.procs[i], k)
    ensures Attended(Step(w, Advance(pid, uuid)), k)
  {
    var w' := Step(w, Advance(pid, uuid));
    var p := w.procs[i];
    assert w'.procs[i] == p;
    if p.SettleCommit? && Settlement.IsBooked(w'.store, p.entry.holdId) {
      Settlement.StepBooks(w, Advance(pid, uuid), p.entry.holdId);
      assert Settlement.Settles(w.store, w.procs[pid]);
      SameOrderSameEntry(w, i, pid);
      BookerHandles(w.store, w.procs[pid], uuid);
      assert Handles(w'.store, w'.procs[pid], k);
    } else {
      assert Handles(w'.store, w'.procs[i], k);
    }
  }

  lemma AdvanceKeepsAttended(w: World, pid: nat, uuid: Id, k: nat)
    requires Base(w) && pid < |w.procs| && uuid !in w.store.used && Attended(w, k)
    ensures Attended(Step(w, Advance(pid, uuid)), k)
  {
    var w' := Step(w, Advance(pid, uuid));
    Delivery.AdvancedStream(w.store, w.procs[pid], uuid);
    if k !in w.store.group.acked {
      var i :| 0 <= i < |w.procs| && Handles(w.store, w.procs[i], k);
      if i == pid {
        TaskIsSound(w, pid);
        HandlerGoesOn(w.store, w.procs[pid], uuid);
        assert w'.procs[pid] == Advanced(w.store, w.procs[pid], uuid).1;
      } else {
        RivalKeepsAttended(w, pid, uuid, i, k);
      }
    }
  }

  /** Steps that move no process: they may add some, and leave orders and acknowledgements alone. */
  lemma QuietStep(w: World, a: Action)
    requires w.store.group.Group? && Calm(a) && !a.Advance?
    ensures var w' := Step(w, a);
      && w'.store.orders == w.store.orders && w'.store.group.Group? && w'.store.group.acked == w.store.group.acked
      && w.procs <= w'.procs && w.store.clock <= w'.store.clock
  {
  }

  lemma StepKeepsAttended(w: World, a: Action, k: nat)
    requires Base(w) && Calm(a) && Attended(w, k)
    ensures Attended(Step(w, a), k)
  {
    if a.Advance? {
      if a.pid < |w.procs| && a.uuid !in w.store.used {
        AdvanceKeepsAttended(w, a.pid, a.uuid, k);
      }
    } else {
      QuietStep(w, a);
      if k !in w.store.group.acked {
        var i :| 0 <= i < |w.procs| && Handles(w.store, w.procs[i], k);
        assert Handles(Step(w, a).store, Step(w, a).procs[i], k);
      }
    }
  }

  lemma {:induction false} RunKeepsAttended(w: World, actions: seq<Action>, k: nat)
    requires Base(w) && AllCalm(actions) && Attended(w, k)
    ensures Attended(Run(w, actions), k)
    decreases |actions|
  {
    if actions != [] {
      StepKeepsAttended(w, actions[0], k);
      StepKeepsBase(w, actions[0]);
      RunKeepsAttended(Step(w, actions[0]), actions[1..], k);
    }
  }

  // ---- Claims and reads ----

  function Elements(picked: seq<nat>): set<nat> {
    set k | k in picked
  }

  function ClaimedBy(w: World, a: Action): set<nat> {
    if a.Reclaim? && Claimable(w.store, a.picked) then Elements(a.picked) else {}
  }

  /** A claim attends to what it claims, a read to what it reads. */
  lemma ClaimAttends(w: World, picked: seq<nat>, k: nat)
    requires Claimable(w.store, picked) && k in picked
    ensures Attended(Step(w, Reclaim(picked)), k)
  {
    var j :| 0 <= j < |picked| && picked[j] == k;
    var w' := Step(w, Reclaim(picked));
    assert w'.procs[|w.procs| + j] == ClaimTasks(w.store, picked)[j];
    assert Handles(w'.store, w'.procs[|w.procs| + j], k);
  }

  lemma ReadAttends(w: World, k: nat)
    requires NextBatch(w.store, k)
    ensures Attended(Step(w, Read), k)
  {
    var w' := Step(w, Read);
    var i := k - w.store.group.cursor;
    assert w'.procs[|w.procs| + i] == NewTasks(w.store)[i];
    assert Handles(w'.store, w'.procs[|w.procs| + i], k);
  }

  /** The new tasks of a step are about entries that it claims or reads. */
  lemma NewTaskOf(w: World, a: Action, i: nat)
    requires w.store.group.Group? && !a.Advance? && |w.procs| <= i < |Step(w, a).procs|
    requires Delivery.IsTask(Step(w, a).procs[i])
    ensures var k := Step(w, a).procs[i].position; k in ClaimedBy(w, a) || (a.Read? && w.store.group.cursor <= k)
  {
    if a.Reclaim? {
      assert Step(w, a).procs[i] == ClaimTasks(w.store, a.picked)[i - |w.procs|];
    } else if a.Read? {
      assert Step(w, a).procs[i] == NewTasks(w.store)[i - |w.procs|];
    }
  }

  /** An entry that nobody sees to stays so until it is claimed. */
  lemma QuietKeepsUnattended(w: World, a: Action, k: nat)
    requires Base(w) && Calm(a) && !a.Advance? && k in Unattended(w) && k !in ClaimedBy(w, a)
    ensures !Attended(Step(w, a), k)
  {
    var w' := Step(w, a);
    QuietStep(w, a);
    assert k < w.store.group.cursor by {
      assert Delivery.GroupSound(w.store);
    }
    forall i | 0 <= i < |w'.procs| ensures !Handles(w'.store, w'.procs[i], k) {
      if i < |w.procs| {
        assert w'.procs[i] == w.procs[i] && !Handles(w.store, w.procs[i], k);
      } else if Delivery.IsTask(w'.procs[i]) {
        NewTaskOf(w, a, i);
      }
    }
    assert Delivery.GroupSound(w.store);
  }

  lemma AdvanceKeepsUnattended(w: World, pid: nat, uuid: Id, k: nat)
    requires Base(w) && pid < |w.procs| && uuid !in w.store.used && k in Unattended(w)
    ensures var w' := Step(w, Advance(pid, uuid)); w'.store.group.Group? && k in w'.store.group.pending && !Attended(w', k)
  {
    var w' := Step(w, Advance(pid, uuid));
    var p := w.procs[pid];
    assert !Handles(w.store, p, k);
    Delivery.AdvancedStream(w.store, p, uuid);
    Delivery.AdvancedTask(w.store, p, uuid);
    Settlement.StepKeepsBooked(w, Advance(pid, uuid));
    if Delivery.IsTask(p) && p.position == k {
      TaskIsSound(w, pid);
      OtherTaskFails(w.store, p, uuid);
    }
    forall i | 0 <= i < |w'.procs| ensures !Handles(w'.store, w'.procs[i], k) {
      if i != pid {
        assert w'.procs[i] == w.procs[i] && !Handles(w.store, w.procs[i], k);
      }
    }
    assert Delivery.GroupSound(w.store);
  }

  /** What is pending after a step was pending before or has just been read. */
  lemma QuietPending(w: World, a: Action)
    requires Base(w) && Calm(a) && !a.Advance?
    ensures var w' := Step(w, a);
      && w'.store.group.Group?
      && (forall k :: k in w'.store.group.pending <==> k in w.store.group.pending || (a.Read? && NextBatch(w.store, k)))
      && (forall k :: k in w.store.group.pending && k !in ClaimedBy(w, a) ==>
            w'.store.group.pending[k] == w.store.group.pending[k])
  {
    if a.Read? {
      ReadStore(w.store);
    } else if a.Reclaim? && Claimable(w.store, a.picked) {
      ClaimedStore(w.store, a.picked);
    }
  }

  /** A claim changes nothing but the delivery times of what it claims. */
  lemma ClaimedStore(s: Store, picked: seq<nat>)
    requires Claimable(s, picked)
    ensures var c := Claim(s, picked);
      && c == s.(group := c.group) && c.group == s.group.(pending := c.group.pending)
      && (forall k :: k in c.group.pending <==> k in s.group.pending)
      && (forall k :: k in s.group.pending && k !in picked ==> c.group.pending[k] == s.group.pending[k])
  {
  }

  /** A read adds its entries to the pending ones. */
  lemma ReadStore(s: Store)
    requires Delivery.GroupSound(s) && s.group.Group?
    ensures var r := ReadNew(s);
      && r == s.(group := r.group) && r.group.Group? && r.group.cursor == s.group.cursor + NewCount(s)
      && (forall k :: k in r.group.pending <==> k in s.group.pending || NextBatch(s, k))
      && (forall k :: k in s.group.pending ==> r.group.pending[k] == s.group.pending[k])
  {
    var r := ReadNew(s);
    forall k: nat ensures k in r.group.pending <==> k in s.group.pending || NextBatch(s, k) {
      assert k in r.group.pending <==> k in s.group.pending || (0 <= k < |s.stream| && NextBatch(s, k));
    }
  }

  /** Exactly the claims shorten the list of entries that nobody sees to. */
  lemma StepUnattended(w: World, a: Action)
    requires Base(w) && Calm(a)
    ensures Unattended(Step(w, a)) == Unattended(w) - ClaimedBy(w, a)
  {
    forall k ensures k in Unattended(Step(w, a)) <==> k in Unattended(w) - ClaimedBy(w, a) {
      StepUnattendedEntry(w, a, k);
    }
  }

  lemma StepUnattendedEntry(w: World, a: Action, k: nat)
    requires Base(w) && Calm(a)
    ensures k in Unattended(Step(w, a)) <==> k in Unattended(w) && k !in ClaimedBy(w, a)
  {
    var w' := Step(w, a);
    StepKeepsBase(w, a);
    if Attended(w, k) {
      StepKeepsAttended(w, a, k);
    }
    if w' == w {
      assert k in ClaimedBy(w, a) ==> Attended(w', k) by {
        if k in ClaimedBy(w, a) { ClaimAttends(w, a.picked, k); }
      }
    } else if a.Advance? {
      Delivery.AdvancedStream(w.store, w.procs[a.pid], a.uuid);
      if k in Unattended(w) {
        AdvanceKeepsUnattended(w, a.pid, a.uuid, k);
      }
    } else {
      QuietPending(w, a);
      if k in ClaimedBy(w, a) {
        ClaimAttends(w, a.picked, k);
      } else if a.Read? && NextBatch(w.store, k) {
        ReadAttends(w, k);
        assert Delivery.GroupSound(w.store);
      } else if k in Unattended(w) {
        QuietKeepsUnattended(w, a, k);
      }
    }
  }
}
