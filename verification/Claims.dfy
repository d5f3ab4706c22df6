/** Which pending entries a claim of idle ones returns. */
module Claims {
  import opened Domain
  import Sets

  predicate Idle(pending: map<nat, nat>, clock: nat, k: nat) {
    k in pending && pending[k] + CLAIM_IDLE_MS <= clock
  }

  function PendingBefore(pending: map<nat, nat>, k: nat): set<nat> {
    set j | j in pending && j < k
  }

  /** The entry is among the first hundred pending ones. */
  predicate InScan(pending: map<nat, nat>, k: nat) {
    |PendingBefore(pending, k)| < CLAIM_SCAN
  }

  /** A claim takes idle entries out of the first hundred pending ones, in order, and passes over an idle
      one of these only when it has ten earlier ones. */
  ghost predicate EarliestIdle(pending: map<nat, nat>, clock: nat, picked: seq<nat>) {
    && |picked| <= BATCH_SIZE
    && (forall i, j :: 0 <= i < j < |picked| ==> picked[i] < picked[j])
    && (forall k :: k in picked ==> Idle(pending, clock, k) && InScan(pending, k))
    && forall k: nat :: Idle(pending, clock, k) && InScan(pending, k) && k !in picked ==>
         |picked| == BATCH_SIZE && forall j :: j in picked ==> j < k
  }

  /** The scan has reached entry k. */
  ghost predicate ScannedTo(pending: map<nat, nat>, clock: nat, picked: seq<nat>, k: nat) {
    && (forall i, j :: 0 <= i < j < |picked| ==> picked[i] < picked[j])
    && (forall j :: j in picked ==> j < k && Idle(pending, clock, j) && InScan(pending, j))
    && (forall j: nat :: j < k && Idle(pending, clock, j) ==> j in picked)
  }

  lemma PendingBeforeNext(pending: map<nat, nat>, k: nat)
    ensures |PendingBefore(pending, k + 1)| == |PendingBefore(pending, k)| + if k in pending then 1 else 0
  {
    assert PendingBefore(pending, k + 1) == PendingBefore(pending, k) + if k in pending then {k} else {};
  }

  lemma PendingBeforeGrows(pending: map<nat, nat>, j: nat, k: nat)
    requires j <= k
    ensures |PendingBefore(pending, j)| <= |PendingBefore(pending, k)|
  {
    Sets.SubsetSize(PendingBefore(pending, j), PendingBefore(pending, k));
  }

  lemma ScanNext(pending: map<nat, nat>, clock: nat, picked: seq<nat>, k: nat)
    requires ScannedTo(pending, clock, picked, k) && InScan(pending, k)
    ensures ScannedTo(pending, clock, if Idle(pending, clock, k) then picked + [k] else picked, k + 1)
  {
    if Idle(pending, clock, k) {
      var more := picked + [k];
      assert forall j :: j in more <==> j in picked || j == k;
      assert forall i :: 0 <= i < |picked| ==> picked[i] in picked;
    }
  }

  /** The scan stops with ten entries, after a hundred, or at the end of the list. */
  lemma ScanEnds(pending: map<nat, nat>, clock: nat, picked: seq<nat>, k: nat)
    requires ScannedTo(pending, clock, picked, k) && |picked| <= BATCH_SIZE
    requires |picked| == BATCH_SIZE || !InScan(pending, k) || forall j :: j in pending ==> j < k
    ensures EarliestIdle(pending, clock, picked)
  {
    forall j: nat | Idle(pending, clock, j) && InScan(pending, j) && j !in picked
      ensures |picked| == BATCH_SIZE && k <= j
    {
      PendingBeforeGrows(pending, k, if k <= j then j else k);
    }
  }

  /** The entries a claim returns. */
  method IdleEntries(pending: map<nat, nat>, cursor: nat, clock: nat) returns (picked: seq<nat>)
    requires forall k :: k in pending ==> k < cursor
    ensures EarliestIdle(pending, clock, picked)
    ensures |picked| <= 10
    ensures forall k :: k in picked ==> k in pending && pending[k] + 30_000 <= clock && |PendingBefore(pending, k)| < 100
    ensures forall k: nat :: k in pending && pending[k] + 30_000 <= clock && |PendingBefore(pending, k)| < 100 && k !in picked ==>
      |picked| == 10 && forall j :: j in picked ==> j < k
  {
    picked := [];
    var k: nat, scanned: nat := 0, 0;
    assert PendingBefore(pending, 0) == {};
    while |picked| < BATCH_SIZE && scanned < CLAIM_SCAN && k < cursor
      invariant k <= cursor && |picked| <= BATCH_SIZE
      invariant scanned == |PendingBefore(pending, k)|
      invariant ScannedTo(pending, clock, picked, k)
    {
      PendingBeforeNext(pending, k);
      ScanNext(pending, clock, picked, k);
      if k in pending {
        if pending[k] + CLAIM_IDLE_MS <= clock {
          picked := picked + [k];
        }
        scanned := scanned + 1;
      }
      k := k + 1;
    }
    ScanEnds(pending, clock, picked, k);
  }
}
