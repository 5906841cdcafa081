/**
 * What repeated promotion sweeps add up to.
 *
 * Each sweep takes at most `batchSize` due ids, yet however the work is cut
 * into batches the outcome is one promotion of all due ids in Redis order.
 */
module Promotion {
  import opened Prelude
  import opened Redis
  import opened Queue

  /** n sweeps at one clock reading. */
  function Sweeps(q: Queues, nowMs: int, batchSize: nat, n: nat): Queues
    decreases n
  {
    if n == 0 then q else Sweeps(PromoteDue(q, nowMs, batchSize), nowMs, batchSize, n - 1)
  }

  lemma PromoteTwice(q: Queues, a: seq<Id>, b: seq<Id>)
    ensures Promote(Promote(q, a), b) == Promote(q, a + b)
  {
    ReverseConcat(a, b);
    MembersOfTwo(a, b);
  }

  /** A sweep, and then a sweep with the rest of a larger batch, are one sweep. */
  lemma SweepThen(q: Queues, nowMs: int, b: nat, m: nat)
    requires b <= m
    ensures PromoteDue(PromoteDue(q, nowMs, b), nowMs, m - b) == PromoteDue(q, nowMs, m)
  {
    RangeSplits(q.delayed, nowMs, b, m);
    PromoteTwice(q, Range(q.delayed, nowMs, b), Range(PromoteDue(q, nowMs, b).delayed, nowMs, m - b));
  }

  lemma SweepOfNone(q: Queues, nowMs: int)
    ensures PromoteDue(q, nowMs, 0) == q
  {
    assert Range(q.delayed, nowMs, 0) == [];
  }

  /** n sweeps are one sweep of m = n * batchSize: the first m due ids are promoted, in order, and nothing else. */
  lemma {:induction false} SweepsPromoteInOrder(q: Queues, nowMs: int, batchSize: nat, n: nat, m: nat)
    requires m == n * batchSize
    ensures Sweeps(q, nowMs, batchSize, n) == PromoteDue(q, nowMs, m)
    decreases n, 1
  {
    if n == 0 {
      SweepOfNone(q, nowMs);
    } else {
      SweepsPromoteOneMore(q, nowMs, batchSize, n, m);
    }
  }

  lemma {:induction false} SweepsPromoteOneMore(q: Queues, nowMs: int, batchSize: nat, n: nat, m: nat)
    requires n > 0 && m == n * batchSize
    ensures Sweeps(q, nowMs, batchSize, n) == PromoteDue(q, nowMs, m)
    decreases n, 0
  {
    TimesPred(n, batchSize);
    var swept := PromoteDue(q, nowMs, batchSize);
    SweepsPromoteInOrder(swept, nowMs, batchSize, n - 1, m - batchSize);
    SweepThen(q, nowMs, batchSize, m);
    assert Sweeps(q, nowMs, batchSize, n) == Sweeps(swept, nowMs, batchSize, n - 1);
  }

  /**
   * Sweeping until nothing is due: `ready` receives every due id in (score, id)
   * order, `delayed` keeps exactly the ids not yet due, and the batch size does
   * not show.
   */
  lemma SweepsRefineOnePromotion(q: Queues, nowMs: int, batchSize: nat, n: nat)
    requires n * batchSize >= |DueOrder(q.delayed, nowMs)|
    ensures Sweeps(q, nowMs, batchSize, n) == Promote(q, DueOrder(q.delayed, nowMs))
    ensures forall id :: id in Sweeps(q, nowMs, batchSize, n).delayed
                     <==> id in q.delayed && q.delayed[id] > nowMs
  {
    var all := DueOrder(q.delayed, nowMs);
    SweepsPromoteInOrder(q, nowMs, batchSize, n, n * batchSize);
    assert all[..|all|] == all;
    forall id
      ensures id in Promote(q, all).delayed <==> id in q.delayed && q.delayed[id] > nowMs
    {
      DueOrderLists(q.delayed, nowMs, id);
    }
  }

  /** A sweep finds nothing exactly when the sweeps before it had room for every due id. */
  lemma SweepFindsNothingIff(q: Queues, nowMs: int, batchSize: nat, n: nat)
    ensures DueOrder(Sweeps(q, nowMs, batchSize, n).delayed, nowMs) == []
       <==> n * batchSize >= |DueOrder(q.delayed, nowMs)|
  {
    var k := Min(n * batchSize, |DueOrder(q.delayed, nowMs)|);
    SweepsPromoteInOrder(q, nowMs, batchSize, n, n * batchSize);
    DueAfter(q.delayed, nowMs, k);
  }

  /** An id with k due ids at or before it leaves `delayed` in exactly ceil(k / batchSize) sweeps. */
  lemma LeavesDelayedByRank(q: Queues, nowMs: int, batchSize: nat, n: nat, id: Id)
    requires id in Due(q.delayed, nowMs)
    ensures id !in Sweeps(q, nowMs, batchSize, n).delayed
       <==> |UpTo(Due(q.delayed, nowMs), id)| <= n * batchSize
  {
    SweepsPromoteInOrder(q, nowMs, batchSize, n, n * batchSize);
    InRangeIff(q.delayed, nowMs, n * batchSize, id);
  }

  lemma LeftAndTaken(z: ZSet, taken: seq<Id>)
    requires forall x <- taken :: x in z
    requires forall x :: multiset(taken)[x] <= 1
    ensures multiset((z - Members(taken)).Keys) + multiset(taken) == multiset(z.Keys)
  {
    forall x
      ensures multiset((z - Members(taken)).Keys)[x] + multiset(taken)[x] == multiset(z.Keys)[x]
    {
      assert x in taken <==> x in multiset(taken);
    }
  }

  /** A promotion, of any batch by any leader, moves ids and neither makes nor drops one. */
  lemma PromotionConserves(q: Queues, nowMs: int, batchSize: nat)
    ensures multiset(PromoteDue(q, nowMs, batchSize).ready) + multiset(PromoteDue(q, nowMs, batchSize).delayed.Keys)
         == multiset(q.ready) + multiset(q.delayed.Keys)
  {
    var due := Range(q.delayed, nowMs, batchSize);
    RangeMembers(q.delayed, nowMs, batchSize);
    ReverseCounts(due);
    LeftAndTaken(q.delayed, due);
    assert multiset(PromoteDue(q, nowMs, batchSize).ready) == multiset(due) + multiset(q.ready);
  }
}
