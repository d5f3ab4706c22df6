/** The service methods and the step system describe the same requests: a process of an interleaved run
    is the run of one service method whose other clients leave at each await what the run left there. */
module Refinement {
  import opened Domain
  import opened Protocol
  import Service

  /** What everybody else does before one await of the process, and the id that await draws. */
  datatype Turn = Turn(before: seq<Action>, uuid: Id)

  predicate Leaves(pid: nat, actions: seq<Action>) {
    forall i :: 0 <= i < |actions| && (actions[i].Advance? || actions[i].Crash?) ==> actions[i].pid != pid
  }

  function Interleaved(w: World, pid: nat, turns: seq<Turn>): World
    decreases |turns|
  {
    if turns == [] then w
    else Interleaved(Step(Run(w, turns[0].before), Advance(pid, turns[0].uuid)), pid, turns[1..])
  }

  /** The stores that the first await finds. */
  function Found(w: World, t: Turn): Store {
    Run(w, t.before).store
  }

  /** Others as the run played them: at the k-th await the stores are what that await found. */
  function Others(w: World, pid: nat, turns: seq<Turn>): (r: seq<Store -> Store>)
    ensures |r| == |turns|
    decreases |turns|
  {
    if turns == [] then []
    else
      var found := Found(w, turns[0]);
      [(s: Store) => found] + Others(Step(Run(w, turns[0].before), Advance(pid, turns[0].uuid)), pid, turns[1..])
  }

  /** The process has something left to do at each turn, nobody else moves it, every id drawn is new, and
      the one id it keeps is `uuid`. */
  ghost predicate Proper(w: World, pid: nat, turns: seq<Turn>, uuid: Id)
    requires pid < |w.procs|
    decreases |turns|
  {
    turns != [] ==>
      var t := turns[0];
      var p := w.procs[pid];
      && !p.Finished? && Leaves(pid, t.before) && t.uuid !in Found(w, t).used
      && (p.HoldAcquire? || p.OrderAcquire? ==> t.uuid == uuid)
      && var w1 := Step(Run(w, t.before), Advance(pid, t.uuid));
      pid < |w1.procs| && Proper(w1, pid, turns[1..], uuid)
  }

  lemma {:induction false} RunLeaves(w: World, actions: seq<Action>, pid: nat)
    requires pid < |w.procs| && Leaves(pid, actions)
    ensures pid < |Run(w, actions).procs| && Run(w, actions).procs[pid] == w.procs[pid]
    decreases |actions|
  {
    if actions != [] {
      RunLeaves(Step(w, actions[0]), actions[1..], pid);
    }
  }

  /** Only the hold scripts use the id an await draws. */
  lemma IdUnused(s: Store, p: Process, a: Id, b: Id)
    requires !p.HoldAcquire? && !p.OrderAcquire?
    ensures Advanced(s, p, a) == Advanced(s, p, b)
  {
  }

  lemma {:induction false} DriveShift(s: Store, p: Process, uuid: Id, first: Store -> Store, rest: seq<Store -> Store>, k: nat)
    requires k <= |rest|
    ensures Service.Drive(s, p, uuid, [first] + rest, k + 1) == Service.Drive(s, p, uuid, rest, k)
    decreases |rest| - k
  {
    if k < |rest| && !p.Finished? {
      assert ([first] + rest)[k + 1] == rest[k];
      var (s1, p1) := Advanced(rest[k](s), p, uuid);
      DriveShift(s1, p1, uuid, first, rest, k + 1);
    }
  }

  lemma FirstAwait(w: World, pid: nat, turns: seq<Turn>, uuid: Id)
    requires pid < |w.procs| && turns != [] && Proper(w, pid, turns, uuid)
    ensures var w1 := Step(Run(w, turns[0].before), Advance(pid, turns[0].uuid));
      && pid < |w1.procs|
      && (w1.store, w1.procs[pid]) == Advanced(Found(w, turns[0]), w.procs[pid], uuid)
  {
    RunLeaves(w, turns[0].before, pid);
    if !(w.procs[pid].HoldAcquire? || w.procs[pid].OrderAcquire?) {
      IdUnused(Found(w, turns[0]), w.procs[pid], uuid, turns[0].uuid);
    }
  }

  /** Every process of every interleaved run, up to any of its awaits, is a driven service request. */
  lemma {:induction false} ProcessIsRequest(w: World, pid: nat, turns: seq<Turn>, uuid: Id)
    requires pid < |w.procs| && Proper(w, pid, turns, uuid)
    ensures var end := Interleaved(w, pid, turns);
      pid < |end.procs| && (turns != [] ==>
        (end.store, end.procs[pid]) == Service.Drive(w.store, w.procs[pid], uuid, Others(w, pid, turns), 0))
    decreases |turns|
  {
    if turns != [] {
      var w1 := Step(Run(w, turns[0].before), Advance(pid, turns[0].uuid));
      FirstAwait(w, pid, turns, uuid);
      ProcessIsRequest(w1, pid, turns[1..], uuid);
      var others := Others(w, pid, turns);
      var rest := Others(w1, pid, turns[1..]);
      Service.Await(w.store, w.procs[pid], uuid, others, 0, Found(w, turns[0]));
      assert others == [others[0]] + rest;
      DriveShift(w1.store, w1.procs[pid], uuid, others[0], rest, 0);
    }
  }

  // ---- A batch ----

  /** What everybody else does before one turn of a batch, whose turn it is, and an unused id. */
  datatype BatchTurn = BatchTurn(before: seq<Action>, task: nat, uuid: Id)

  function Played(w: World, n: nat, t: BatchTurn): World {
    Step(Run(w, t.before), Advance(n + t.task, t.uuid))
  }

  /** The interleaved run that the turns describe; the batch is what stands from process n on. */
  function PlayedAll(w: World, n: nat, turns: seq<BatchTurn>): World
    decreases |turns|
  {
    if turns == [] then w else PlayedAll(Played(w, n, turns[0]), n, turns[1..])
  }

  /** The same turns as the event loop of the batch sees them. */
  function EventLoop(w: World, n: nat, turns: seq<BatchTurn>): seq<Service.Turn>
    decreases |turns|
  {
    if turns == [] then []
    else
      var found := Run(w, turns[0].before).store;
      [Service.Turn((s: Store) => found, turns[0].task)] + EventLoop(Played(w, n, turns[0]), n, turns[1..])
  }

  ghost predicate BatchAt(w: World, n: nat, tasks: seq<Process>) {
    && n + |tasks| <= |w.procs| && w.procs[n..n + |tasks|] == tasks
    && forall i :: 0 <= i < |tasks| ==> Service.InBatch(tasks[i])
  }

  predicate LeavesBatch(n: nat, m: nat, actions: seq<Action>) {
    forall i :: 0 <= i < |actions| && (actions[i].Advance? || actions[i].Crash?) ==> !(n <= actions[i].pid < n + m)
  }

  /** Nobody else moves the batch, and every id drawn is new. */
  ghost predicate ProperBatch(w: World, n: nat, m: nat, turns: seq<BatchTurn>)
    decreases |turns|
  {
    turns != [] ==>
      var t := turns[0];
      && t.task < m && LeavesBatch(n, m, t.before) && t.uuid !in Run(w, t.before).store.used
      && ProperBatch(Played(w, n, t), n, m, turns[1..])
  }

  lemma BatchLeft(w: World, n: nat, tasks: seq<Process>, actions: seq<Action>)
    requires BatchAt(w, n, tasks) && LeavesBatch(n, |tasks|, actions)
    ensures BatchAt(Run(w, actions), n, tasks)
  {
    var end := Run(w, actions);
    RunLonger(w, actions);
    forall i | 0 <= i < |tasks| ensures end.procs[n + i] == tasks[i] {
      assert Leaves(n + i, actions);
      RunLeaves(w, actions, n + i);
      assert w.procs[n + i] == w.procs[n..n + |tasks|][i];
    }
    assert end.procs[n..n + |tasks|] == tasks;
  }

  lemma {:induction false} RunLonger(w: World, actions: seq<Action>)
    ensures |w.procs| <= |Run(w, actions).procs|
    decreases |actions|
  {
    if actions != [] {
      RunLonger(Step(w, actions[0]), actions[1..]);
    }
  }

  lemma TaskStaysInBatch(s: Store, p: Process, uuid: Id)
    requires Service.InBatch(p)
    ensures Service.InBatch(Advanced(s, p, uuid).1) && Advanced(s, p, uuid) == Advanced(s, p, 0)
  {
  }

  lemma BatchTurnPlayed(w: World, n: nat, tasks: seq<Process>, t: BatchTurn)
    requires BatchAt(w, n, tasks)
    requires t.task < |tasks| && LeavesBatch(n, |tasks|, t.before) && t.uuid !in Run(w, t.before).store.used
    ensures var (s, p) := Advanced(Run(w, t.before).store, tasks[t.task], 0);
      Played(w, n, t).store == s && BatchAt(Played(w, n, t), n, tasks[t.task := p])
  {
    var found := Run(w, t.before);
    BatchLeft(w, n, tasks, t.before);
    assert found.procs[n + t.task] == found.procs[n..n + |tasks|][t.task];
    TaskStaysInBatch(found.store, tasks[t.task], t.uuid);
    var (s, p) := Advanced(found.store, tasks[t.task], t.uuid);
    var next := World(s, found.procs[n + t.task := p]);
    assert Played(w, n, t) == next;
    assert next.procs[n..n + |tasks|] == tasks[t.task := p];
  }

  /** A batch that runs inside any interleaved run is a run of the event loop that handles all messages
      together. */
  lemma {:induction false} BatchIsTogether(w: World, n: nat, tasks: seq<Process>, turns: seq<BatchTurn>)
    requires BatchAt(w, n, tasks) && ProperBatch(w, n, |tasks|, turns)
    ensures var end := PlayedAll(w, n, turns);
      var (s, ends) := Service.Together(w.store, tasks, EventLoop(w, n, turns));
      |ends| == |tasks| && BatchAt(end, n, ends) && (turns != [] ==> end.store == s)
    decreases |turns|
  {
    if turns != [] {
      var t := turns[0];
      BatchTurnPlayed(w, n, tasks, t);
      var (s1, p1) := Advanced(Run(w, t.before).store, tasks[t.task], 0);
      var loop := EventLoop(w, n, turns);
      assert loop[0].task == t.task && loop[1..] == EventLoop(Played(w, n, t), n, turns[1..]);
      assert loop[0].before(w.store) == Run(w, t.before).store;
      BatchIsTogether(Played(w, n, t), n, tasks[t.task := p1], turns[1..]);
    }
  }
}
