/** Who carries which hold id: the invariant that ties ids, order rows, stream entries and processes. */
module Identity {
  import opened Domain
  import opened Protocol

  /** Where a process is, or was when it stopped. */
  function Core(p: Process): Process {
    if p.Crashed? then p.at else p
  }

  /** A createOrder request that took the hold and has not run its transaction. */
  predicate AwaitsOrder(p: Process) {
    Core(p).OrderCommit?
  }

  /** A createOrder request between its transaction and its XADD, or stopped there. */
  predicate AwaitsStream(p: Process) {
    Core(p).OrderPublish? || Core(p).OrderAppend?
  }

  predicate Carries(p: Process) {
    AwaitsOrder(p) || AwaitsStream(p) || Core(p).HoldPublish?
  }

  function HoldOf(p: Process): Id
    requires Carries(p)
  {
    if AwaitsStream(p) then Core(p).entry.holdId else Core(p).holdId
  }

  predicate Streamed(s: Store, holdId: Id) {
    exists k :: 0 <= k < |s.stream| && s.stream[k].holdId == holdId
  }

  ghost predicate IdsUsed(w: World) {
    && w.store.orders.Keys <= w.store.used
    && w.store.disclosed <= w.store.used
    && (forall seat :: seat in w.store.holds ==> w.store.holds[seat].holdId in w.store.used)
    && (forall i :: 0 <= i < |w.procs| && Carries(w.procs[i]) ==> HoldOf(w.procs[i]) in w.store.used)
  }

  /** A hold id belongs to at most one process, and stays undisclosed until its order exists. */
  ghost predicate IdsOwned(w: World) {
    && (forall i, j :: 0 <= i < j < |w.procs| && Carries(w.procs[i]) && Carries(w.procs[j]) ==>
          HoldOf(w.procs[i]) != HoldOf(w.procs[j]))
    && (forall i :: 0 <= i < |w.procs| && Carries(w.procs[i]) && !AwaitsStream(w.procs[i]) ==>
          HoldOf(w.procs[i]) !in w.store.orders)
    && (forall i :: 0 <= i < |w.procs| && AwaitsOrder(w.procs[i]) ==> HoldOf(w.procs[i]) !in w.store.disclosed)
  }

  /** Every stream entry copies its order and no two entries share a hold id. */
  ghost predicate EntriesSound(w: World) {
    && (forall k :: 0 <= k < |w.store.stream| ==>
          w.store.stream[k].holdId in w.store.orders
          && Matches(w.store.stream[k], w.store.orders[w.store.stream[k].holdId]))
    && (forall k, l :: 0 <= k < l < |w.store.stream| ==> w.store.stream[k].holdId != w.store.stream[l].holdId)
  }

  /** Every order has an entry, or a request that still has to append it. */
  ghost predicate OrdersStreamed(w: World) {
    && (forall i :: 0 <= i < |w.procs| && AwaitsStream(w.procs[i]) ==>
          HoldOf(w.procs[i]) in w.store.orders
          && Matches(Core(w.procs[i]).entry, w.store.orders[HoldOf(w.procs[i])])
          && !Streamed(w.store, HoldOf(w.procs[i])))
    && (forall h :: h in w.store.orders ==>
          Streamed(w.store, h) || exists i :: 0 <= i < |w.procs| && AwaitsStream(w.procs[i]) && HoldOf(w.procs[i]) == h)
  }

  ghost predicate Inv(w: World) {
    IdsUsed(w) && IdsOwned(w) && EntriesSound(w) && OrdersStreamed(w)
  }

  lemma InitInv(w: World)
    requires Init(w)
    ensures Inv(w)
  {
  }

  // ---- One process moves; what it has to respect for every other process to stay sound ----

  /** Order rows are never removed and never change their key fields. */
  ghost predicate OrdersKept(s: Store, s': Store) {
    forall h :: h in s.orders ==> h in s'.orders && s'.orders[h] == s.orders[h].(status := s'.orders[h].status)
  }

  /** The ids a store uses were generated, and new orders, disclosures and entries belong to `p`. */
  ghost predicate StoreMove(s: Store, p: Process, s': Store) {
    && s.used <= s'.used && s'.orders.Keys <= s'.used && s'.disclosed <= s'.used
    && (forall seat :: seat in s'.holds ==> s'.holds[seat].holdId in s'.used)
    && OrdersKept(s, s')
    && (forall h :: h in s'.orders && h !in s.orders ==> AwaitsOrder(p) && h == HoldOf(p))
    && (forall h :: h in s'.disclosed && h !in s.disclosed ==> Carries(p) && h == HoldOf(p))
    && (s'.stream == s.stream || (AwaitsStream(p) && s'.stream == s.stream + [Core(p).entry]))
  }

  /** What the process carries afterwards. */
  ghost predicate ProcessMove(s: Store, p: Process, s': Store, p': Process) {
    && (Carries(p') ==> HoldOf(p') in s'.used && ((Carries(p) && HoldOf(p') == HoldOf(p)) || HoldOf(p') !in s.used))
    && (Carries(p') && !AwaitsStream(p') ==> HoldOf(p') !in s'.orders)
    && (AwaitsOrder(p') ==> HoldOf(p') !in s'.disclosed)
    && (AwaitsStream(p') ==>
          s'.stream == s.stream && HoldOf(p') in s'.orders && Matches(Core(p').entry, s'.orders[HoldOf(p')])
          && !Streamed(s', HoldOf(p')))
    && (AwaitsStream(p) && s'.stream == s.stream ==> AwaitsStream(p') && HoldOf(p') == HoldOf(p))
    && (forall h :: h in s'.orders && h !in s.orders ==> AwaitsStream(p') && HoldOf(p') == h)
  }

  ghost predicate Move(w: World, pid: nat, w': World) {
    && pid < |w.procs|
    && |w'.procs| == |w.procs|
    && (forall i :: 0 <= i < |w.procs| && i != pid ==> w'.procs[i] == w.procs[i])
    && StoreMove(w.store, w.procs[pid], w'.store)
    && ProcessMove(w.store, w.procs[pid], w'.store, w'.procs[pid])
  }

  lemma StreamedAfter(s: Store, p: Process, s': Store, h: Id)
    requires StoreMove(s, p, s')
    ensures Streamed(s', h) <==> Streamed(s, h) || (s'.stream != s.stream && h == Core(p).entry.holdId)
  {
    if s'.stream != s.stream {
      assert s'.stream[|s.stream|] == Core(p).entry;
      if Streamed(s, h) {
        var k :| 0 <= k < |s.stream| && s.stream[k].holdId == h;
        assert s'.stream[k].holdId == h;
      }
    }
  }

  lemma MoveKeepsIds(w: World, pid: nat, w': World)
    requires Inv(w) && Move(w, pid, w')
    ensures IdsUsed(w') && IdsOwned(w')
  {
  }

  lemma MoveKeepsEntries(w: World, pid: nat, w': World)
    requires Inv(w) && Move(w, pid, w')
    ensures EntriesSound(w')
  {
    var s, s' := w.store, w'.store;
    if s'.stream != s.stream {
      var e := Core(w.procs[pid]).entry;
      forall k | 0 <= k < |s.stream| ensures s.stream[k].holdId != e.holdId {
        assert !Streamed(s, e.holdId);
      }
    }
  }

  lemma MoveKeepsOwed(w: World, pid: nat, w': World)
    requires Inv(w) && Move(w, pid, w')
    ensures OrdersStreamed(w')
  {
    var s, p, s' := w.store, w.procs[pid], w'.store;
    forall i | 0 <= i < |w'.procs| && i != pid && AwaitsStream(w'.procs[i])
      ensures !Streamed(s', HoldOf(w'.procs[i]))
    {
      StreamedAfter(s, p, s', HoldOf(w'.procs[i]));
    }
    forall h | h in s'.orders && !Streamed(s', h)
      ensures exists i :: 0 <= i < |w'.procs| && AwaitsStream(w'.procs[i]) && HoldOf(w'.procs[i]) == h
    {
      StreamedAfter(s, p, s', h);
      if h in s.orders {
        var i :| 0 <= i < |w.procs| && AwaitsStream(w.procs[i]) && HoldOf(w.procs[i]) == h;
        assert AwaitsStream(w'.procs[i]) && HoldOf(w'.procs[i]) == h;
      } else {
        assert AwaitsStream(w'.procs[pid]);
      }
    }
  }

  lemma MoveKeeps(w: World, pid: nat, w': World)
    requires Inv(w) && Move(w, pid, w')
    ensures Inv(w')
  {
    MoveKeepsIds(w, pid, w');
    MoveKeepsEntries(w, pid, w');
    MoveKeepsOwed(w, pid, w');
  }

  /** What the invariant says about one process alone. */
  ghost predicate OwnIds(s: Store, p: Process) {
    && s.orders.Keys <= s.used && s.disclosed <= s.used
    && (forall seat :: seat in s.holds ==> s.holds[seat].holdId in s.used)
    && (Carries(p) ==> HoldOf(p) in s.used)
    && (Carries(p) && !AwaitsStream(p) ==> HoldOf(p) !in s.orders)
    && (AwaitsOrder(p) ==> HoldOf(p) !in s.disclosed)
    && (AwaitsStream(p) ==> HoldOf(p) in s.orders && Matches(Core(p).entry, s.orders[HoldOf(p)]) && !Streamed(s, HoldOf(p)))
    && (AwaitsOrder(p) ==> !Streamed(s, HoldOf(p)))
  }

  ghost predicate Moves(s: Store, p: Process, uuid: Id) {
    var (s', p') := Advanced(s, p, uuid);
    StoreMove(s, p, s') && ProcessMove(s, p, s', p')
  }

  lemma HoldAcquireMoves(s: Store, p: Process, uuid: Id)
    requires OwnIds(s, p) && uuid !in s.used && p.HoldAcquire?
    ensures Moves(s, p, uuid)
  {
  }

  lemma OrderAcquireMoves(s: Store, p: Process, uuid: Id)
    requires OwnIds(s, p) && uuid !in s.used && p.OrderAcquire?
    ensures Moves(s, p, uuid)
  {
  }

  lemma CommitMoves(s: Store, p: Process, uuid: Id)
    requires OwnIds(s, p) && p.OrderCommit?
    ensures Moves(s, p, uuid)
  {
    assert Carries(p) && HoldOf(p) == p.holdId;
    var (s', p') := Advanced(s, p, uuid);
    assert !Streamed(s', p.holdId);
  }

  lemma PublishMoves(s: Store, p: Process, uuid: Id)
    requires OwnIds(s, p)
    requires p.OrderPublish? || p.HoldPublish?
    ensures Moves(s, p, uuid)
  {
    var (s', p') := Advanced(s, p, uuid);
    assert forall h :: Streamed(s', h) == Streamed(s, h);
  }

  lemma AppendMoves(s: Store, p: Process, uuid: Id)
    requires OwnIds(s, p) && p.OrderAppend?
    ensures Moves(s, p, uuid)
  {
    var (s', p') := Advanced(s, p, uuid);
    assert s'.stream == s.stream + [p.entry];
    assert |s'.stream| != |s.stream|;
  }

  lemma SettleCommitMoves(s: Store, p: Process, uuid: Id)
    requires OwnIds(s, p) && p.SettleCommit?
    ensures Moves(s, p, uuid)
  {
  }

  lemma SettleMoves(s: Store, p: Process, uuid: Id)
    requires OwnIds(s, p)
    requires p.SettleRead? || p.SettlePublish? || p.SettleAck?
    ensures Moves(s, p, uuid)
  {
  }

  lemma ReadMoves(s: Store, p: Process, uuid: Id)
    requires OwnIds(s, p)
    requires p.HoldRead? || p.OrderRead?
    ensures Moves(s, p, uuid)
  {
  }

  lemma ReleaseMoves(s: Store, p: Process, uuid: Id)
    requires OwnIds(s, p)
    requires p.ReleaseCheck? || p.ReleaseDelete? || p.ReleaseFlip? || p.ReleasePublish?
    ensures Moves(s, p, uuid)
  {
  }

  lemma AdvancedMoves(s: Store, p: Process, uuid: Id)
    requires OwnIds(s, p) && uuid !in s.used
    ensures Moves(s, p, uuid)
  {
    match p
    case HoldAcquire(_, _) => HoldAcquireMoves(s, p, uuid);
    case OrderAcquire(_, _) => OrderAcquireMoves(s, p, uuid);
    case OrderCommit(_, _, _, _) => CommitMoves(s, p, uuid);
    case OrderPublish(_) => PublishMoves(s, p, uuid);
    case HoldPublish(_, _, _, _) => PublishMoves(s, p, uuid);
    case OrderAppend(_) => AppendMoves(s, p, uuid);
    case SettleRead(_, _) => SettleMoves(s, p, uuid);
    case SettleCommit(_, _) => SettleCommitMoves(s, p, uuid);
    case SettlePublish(_, _) => SettleMoves(s, p, uuid);
    case SettleAck(_, _) => SettleMoves(s, p, uuid);
    case Finished(_) =>
    case Crashed(_) =>
    case HoldRead(_, _) => ReadMoves(s, p, uuid);
    case OrderRead(_, _) => ReadMoves(s, p, uuid);
    case _ => ReleaseMoves(s, p, uuid);
  }

  lemma AdvanceKeeps(w: World, pid: nat, uuid: Id)
    requires Inv(w) && pid < |w.procs| && uuid !in w.store.used
    ensures Inv(Step(w, Advance(pid, uuid)))
  {
    var p := w.procs[pid];
    assert OwnIds(w.store, p);
    AdvancedMoves(w.store, p, uuid);
    MoveKeeps(w, pid, Step(w, Advance(pid, uuid)));
  }

  /** Steps that add processes carrying nothing, or stop one, and leave ids, orders and entries alone. */
  lemma QuietKeeps(w: World, w': World)
    requires Inv(w)
    requires w'.store.orders == w.store.orders && w'.store.stream == w.store.stream
    requires w'.store.used == w.store.used && w'.store.disclosed == w.store.disclosed
    requires w'.store.holds.Items <= w.store.holds.Items
    requires |w.procs| <= |w'.procs|
    requires forall i :: 0 <= i < |w.procs| ==> Core(w'.procs[i]) == Core(w.procs[i])
    requires forall i :: |w.procs| <= i < |w'.procs| ==> !Carries(w'.procs[i])
    ensures Inv(w')
  {
    assert IdsUsed(w') by {
      forall seat | seat in w'.store.holds ensures w'.store.holds[seat].holdId in w'.store.used {
        assert (seat, w'.store.holds[seat]) in w.store.holds.Items;
      }
    }
    forall h ensures Streamed(w'.store, h) == Streamed(w.store, h) {
    }
    forall h | h in w'.store.orders && !Streamed(w'.store, h)
      ensures exists i :: 0 <= i < |w'.procs| && AwaitsStream(w'.procs[i]) && HoldOf(w'.procs[i]) == h
    {
      var i :| 0 <= i < |w.procs| && AwaitsStream(w.procs[i]) && HoldOf(w.procs[i]) == h;
      assert AwaitsStream(w'.procs[i]) && HoldOf(w'.procs[i]) == h;
    }
  }

  lemma StepKeeps(w: World, a: Action)
    requires Inv(w)
    ensures Inv(Step(w, a))
  {
    var w' := Step(w, a);
    if w' == w {
    } else if a.Advance? {
      AdvanceKeeps(w, a.pid, a.uuid);
    } else {
      QuietKeeps(w, w');
    }
  }

  /** In every run every order row has one equal stream entry or one request that still owes it. */
  lemma {:induction false} RunKeeps(w: World, actions: seq<Action>)
    requires Inv(w)
    ensures Inv(Run(w, actions))
    decreases |actions|
  {
    if actions != [] {
      StepKeeps(w, actions[0]);
      RunKeeps(Step(w, actions[0]), actions[1..]);
    }
  }

  /** In every reachable state no two requests carry one hold id, an id is undisclosed until its order
      exists, and every order has its entry or a request that owes it. */
  lemma IdsInEveryRun(w: World, actions: seq<Action>)
    requires Init(w)
    ensures IdsOwned(Run(w, actions)) && EntriesSound(Run(w, actions)) && OrdersStreamed(Run(w, actions))
  {
    InitInv(w);
    RunKeeps(w, actions);
  }
}
