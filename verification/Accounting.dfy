/** Nothing is lost and nothing is counted twice on the way from an order row to an acknowledgement. */
module Accounting {
  import opened Domain
  import opened Protocol
  import Identity
  import Delivery
  import Booking
  import Settlement

  /** Once the group exists, every entry of every reachable stream is in exactly one place, and the
      group's books hold nothing but stream entries. */
  lemma EntryInOnePlace(w: World, actions: seq<Action>, k: nat)
    requires Init(w) && Run(w, actions).store.group.Group?
    ensures var s := Run(w, actions).store;
      var skipped, undelivered := k < s.group.start, s.group.cursor <= k < |s.stream|;
      Booking.Unit(skipped) + Booking.Unit(undelivered) + Booking.Unit(k in s.group.pending)
      + Booking.Unit(k in s.group.acked) == Booking.Unit(k < |s.stream|)
  {
    Booking.InitInv(w);
    Booking.RunKeeps(w, actions);
  }

  ghost predicate Owed(w: World, holdId: Id) {
    exists i :: 0 <= i < |w.procs| && Identity.AwaitsStream(w.procs[i]) && Identity.HoldOf(w.procs[i]) == holdId
  }

  /** Every order row of every reachable state has exactly one stream entry, equal to it in hold, order,
      seat and user, or else exactly one request that is between its commit and its XADD, running or
      stopped there. */
  lemma OrderStreamedOnce(w: World, actions: seq<Action>, holdId: Id)
    requires Init(w) && holdId in Run(w, actions).store.orders
    ensures var end := Run(w, actions);
      && (Identity.Streamed(end.store, holdId) <==> !Owed(end, holdId))
      && (forall k :: 0 <= k < |end.store.stream| && end.store.stream[k].holdId == holdId ==>
            Matches(end.store.stream[k], end.store.orders[holdId]))
      && (forall k, l :: 0 <= k < l < |end.store.stream| ==>
            !(end.store.stream[k].holdId == holdId && end.store.stream[l].holdId == holdId))
      && (forall i, j :: 0 <= i < j < |end.procs| && Identity.AwaitsStream(end.procs[i]) && Identity.AwaitsStream(end.procs[j]) ==>
            !(Identity.HoldOf(end.procs[i]) == holdId && Identity.HoldOf(end.procs[j]) == holdId))
  {
    Identity.InitInv(w);
    Identity.RunKeeps(w, actions);
  }

  /** No entry is ever dropped from the stream, rewritten or moved. */
  lemma StreamOnlyGrows(w: World, before: seq<Action>, after: seq<Action>)
    requires Init(w)
    ensures Run(w, before).store.stream <= Run(Run(w, before), after).store.stream
  {
    Booking.InitInv(w);
    Booking.RunKeeps(w, before);
    Delivery.RunKeeps(Run(w, before), after);
  }

  // ---- Entries older than the consumer group ----

  /** No order is BOOKED before the group exists, and none whose entry the group skipped ever is. */
  ghost predicate SkippedUnsettled(s: Store) {
    && (s.group.NoGroup? ==> forall h :: !Settlement.IsBooked(s, h))
    && (s.group.Group? ==> forall k :: 0 <= k < s.group.start && k < |s.stream| ==> !Settlement.IsBooked(s, s.stream[k].holdId))
  }

  lemma StepKeepsSkipped(w: World, a: Action)
    requires Booking.Inv(w) && SkippedUnsettled(w.store)
    ensures SkippedUnsettled(Step(w, a).store)
  {
    var w' := Step(w, a);
    Delivery.StepKeeps(w, a);
    var now := Settlement.SettledBy(w, a);
    if w'.store.group.NoGroup? {
      forall h ensures !Settlement.IsBooked(w'.store, h) {
        Settlement.StepBooks(w, a, h);
      }
    } else {
      forall k | 0 <= k < w'.store.group.start && k < |w'.store.stream|
        ensures !Settlement.IsBooked(w'.store, w'.store.stream[k].holdId)
      {
        StepKeepsSkippedEntry(w, a, k);
      }
    }
  }

  lemma StepKeepsSkippedEntry(w: World, a: Action, k: nat)
    requires Booking.Inv(w) && SkippedUnsettled(w.store) && Delivery.Grows(w.store, Step(w, a).store)
    requires Step(w, a).store.group.Group? && k < Step(w, a).store.group.start && k < |Step(w, a).store.stream|
    ensures !Settlement.IsBooked(Step(w, a).store, Step(w, a).store.stream[k].holdId)
  {
    var w' := Step(w, a);
    var h := w'.store.stream[k].holdId;
    Settlement.StepBooks(w, a, h);
    if Settlement.SettledBy(w, a).Some? {
      var p := w.procs[a.pid];
      assert w.store.stream[p.position] == p.entry && k < p.position;
    }
  }

  lemma {:induction false} RunKeepsSkipped(w: World, actions: seq<Action>)
    requires Booking.Inv(w) && SkippedUnsettled(w.store)
    ensures SkippedUnsettled(Run(w, actions).store)
    decreases |actions|
  {
    if actions != [] {
      StepKeepsSkipped(w, actions[0]);
      Booking.StepKeeps(w, actions[0]);
      RunKeepsSkipped(Step(w, actions[0]), actions[1..]);
    }
  }

  /** The group starts at the end of the stream as it then is: an order whose entry was appended before
      the group was created stays PROCESSING in every reachable state. */
  lemma SkippedOrderNeverSettled(w: World, actions: seq<Action>, k: nat)
    requires Init(w)
    requires var s := Run(w, actions).store; s.group.Group? && k < s.group.start
    ensures var s := Run(w, actions).store;
      k < |s.stream| && s.stream[k].holdId in s.orders && s.orders[s.stream[k].holdId].status == PROCESSING
  {
    Booking.InitInv(w);
    Booking.RunKeeps(w, actions);
    RunKeepsSkipped(w, actions);
  }

  /** A group that appears later starts behind every entry that is there now. */
  ghost predicate StartsBehind(s: Store, n: nat) {
    if s.group.NoGroup? then n <= |s.stream| else n <= s.group.start
  }

  lemma {:induction false} RunStartsBehind(w: World, actions: seq<Action>, n: nat)
    requires Delivery.Inv(w) && StartsBehind(w.store, n)
    ensures StartsBehind(Run(w, actions).store, n)
    decreases |actions|
  {
    if actions != [] {
      Delivery.StepKeeps(w, actions[0]);
      RunStartsBehind(Step(w, actions[0]), actions[1..], n);
    }
  }

  /** An entry that the group starts behind, or will, is never settled. */
  lemma NeverSettles(w: World, history: seq<Action>, rest: seq<Action>, k: nat)
    requires Init(w) && k < |Run(w, history).store.stream|
    requires var s := Run(w, history).store; s.group.NoGroup? || k < s.group.start
    ensures var now := Run(w, history); !Settlement.IsBooked(Run(now, rest).store, now.store.stream[k].holdId)
  {
    Booking.InitInv(w);
    Booking.RunKeeps(w, history);
    RunKeepsSkipped(w, history);
    var now := Run(w, history);
    RunKeepsSkipped(now, rest);
    RunStartsBehind(now, rest, k + 1);
    Delivery.RunKeeps(now, rest);
  }
}
