/** The consumer group's books: where every stream entry is, and what delivered entries look like. */
module Delivery {
  import opened Domain
  import opened Protocol
  import Identity

  predicate IsTask(p: Process) {
    p.SettleRead? || p.SettleCommit? || p.SettlePublish? || p.SettleAck?
  }

  /** Entries are skipped, acknowledged, pending or undelivered, and each is exactly one of these. */
  ghost predicate GroupSound(s: Store) {
    s.group.Group? ==>
      && s.group.start <= s.group.cursor <= |s.stream|
      && s.group.pending.Keys !! s.group.acked
      && (forall k :: k in s.group.pending || k in s.group.acked <==> s.group.start <= k < s.group.cursor)
  }

  /** Whoever handles an entry handles the entry at its stream position, after its delivery. */
  ghost predicate TasksSound(w: World) {
    forall i :: 0 <= i < |w.procs| && IsTask(Identity.Core(w.procs[i])) ==>
      var p := Identity.Core(w.procs[i]);
      && w.store.group.Group?
      && w.store.group.start <= p.position < w.store.group.cursor <= |w.store.stream|
      && w.store.stream[p.position] == p.entry
  }

  ghost predicate Inv(w: World) {
    GroupSound(w.store) && TasksSound(w)
  }

  lemma AcknowledgeKeeps(s: Store, position: nat)
    requires GroupSound(s)
    ensures GroupSound(Acknowledge(s, position))
  {
  }

  lemma ReadKeeps(s: Store)
    requires GroupSound(s)
    ensures GroupSound(ReadNew(s))
  {
    var s' := ReadNew(s);
    if s.group.Group? {
      forall k ensures k in s'.group.pending || k in s'.group.acked <==> s'.group.start <= k < s'.group.cursor {
        assert k in s'.group.pending <==> k in s.group.pending || (0 <= k < |s.stream| && NextBatch(s, k));
      }
    }
  }

  /** No step takes an entry away from the stream or moves the group back. */
  ghost predicate Grows(s: Store, s': Store) {
    && s.stream <= s'.stream
    && (s.group.Group? ==> s'.group.Group? && s'.group.start == s.group.start && s.group.cursor <= s'.group.cursor <= |s'.stream|)
  }

  /** One await of a task goes on with the same entry, or ends the task. */
  lemma AdvancedTask(s: Store, p: Process, uuid: Id)
    ensures IsTask(Advanced(s, p, uuid).1) ==>
      (IsTask(p) && Advanced(s, p, uuid).1.position == p.position && Advanced(s, p, uuid).1.entry == p.entry)
    ensures Advanced(s, p, uuid).1.Crashed? ==> Advanced(s, p, uuid).1 == p
  {
  }

  /** One await changes the group only by an acknowledgement, and the stream only by an append. */
  lemma AdvancedStream(s: Store, p: Process, uuid: Id)
    ensures var s' := Advanced(s, p, uuid).0;
      && s'.group == (if p.SettleAck? then Acknowledge(s, p.position).group else s.group)
      && s'.stream == (if p.OrderAppend? then s.stream + [p.entry] else s.stream)
  {
  }

  lemma AdvancedGroup(s: Store, p: Process, uuid: Id)
    requires GroupSound(s)
    ensures GroupSound(Advanced(s, p, uuid).0) && Grows(s, Advanced(s, p, uuid).0)
  {
    AdvancedStream(s, p, uuid);
    if p.SettleAck? {
      AcknowledgeKeeps(s, p.position);
    }
  }

  lemma TasksCarried(w: World, w': World)
    requires Inv(w) && Grows(w.store, w'.store)
    requires |w.procs| <= |w'.procs|
    requires forall i :: 0 <= i < |w.procs| && IsTask(Identity.Core(w'.procs[i])) ==>
      IsTask(Identity.Core(w.procs[i]))
      && Identity.Core(w'.procs[i]).position == Identity.Core(w.procs[i]).position
      && Identity.Core(w'.procs[i]).entry == Identity.Core(w.procs[i]).entry
    requires forall i :: |w.procs| <= i < |w'.procs| && IsTask(Identity.Core(w'.procs[i])) ==>
      var p := Identity.Core(w'.procs[i]);
      w'.store.group.Group? && w'.store.group.start <= p.position < w'.store.group.cursor <= |w'.store.stream|
      && w'.store.stream[p.position] == p.entry
    ensures TasksSound(w')
  {
  }

  lemma StepKeeps(w: World, a: Action)
    requires Inv(w)
    ensures Inv(Step(w, a)) && Grows(w.store, Step(w, a).store)
  {
    var w' := Step(w, a);
    match a {
      case Advance(pid, uuid) =>
        if pid < |w.procs| && uuid !in w.store.used {
          AdvancedGroup(w.store, w.procs[pid], uuid);
          AdvancedTask(w.store, w.procs[pid], uuid);
        }
      case Read =>
        ReadKeeps(w.store);
      case _ =>
    }
    TasksCarried(w, w');
  }

  lemma {:induction false} RunKeeps(w: World, actions: seq<Action>)
    requires Inv(w)
    ensures Inv(Run(w, actions)) && Grows(w.store, Run(w, actions).store)
    decreases |actions|
  {
    if actions != [] {
      StepKeeps(w, actions[0]);
      RunKeeps(Step(w, actions[0]), actions[1..]);
    }
  }
}
