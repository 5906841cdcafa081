/**
 * What repeated reaper sweeps add up to, and when a sweep conserves ids.
 *
 * As with promotion, the batch size does not show: expired leases are freed in
 * Redis order, and how long an id waits is decided by its place in it.
 */
module Reaping {
  import opened Prelude
  import opened Redis
  import opened Queue

  /** n reaps at one clock reading. */
  function Reaps(q: Queues, nowMs: int, batchSize: nat, n: nat): Queues
    decreases n
  {
    if n == 0 then q else Reaps(ReapExpired(q, nowMs, batchSize), nowMs, batchSize, n - 1)
  }

  lemma {:induction false} LRemEachTwice(s: seq<Id>, a: seq<Id>, b: seq<Id>)
    ensures LRemEach(LRemEach(s, a), b) == LRemEach(s, a + b)
    decreases |a|
  {
    if a == [] {
      assert a + b == b;
    } else {
      LRemEachTwice(LRem(s, a[0]), a[1..], b);
      assert (a + b)[1..] == a[1..] + b;
    }
  }

  lemma ReapTwice(q: Queues, a: seq<Id>, b: seq<Id>)
    ensures Reap(Reap(q, a), b) == Reap(q, a + b)
  {
    ReverseConcat(a, b);
    MembersOfTwo(a, b);
    LRemEachTwice(q.inflight, a, b);
  }

  /** A reap, and then a reap with the rest of a larger batch, are one reap. */
  lemma ReapThen(q: Queues, nowMs: int, b: nat, m: nat)
    requires b <= m
    ensures ReapExpired(ReapExpired(q, nowMs, b), nowMs, m - b) == ReapExpired(q, nowMs, m)
  {
    RangeSplits(q.leases, nowMs, b, m);
    ReapTwice(q, Range(q.leases, nowMs, b), Range(ReapExpired(q, nowMs, b).leases, nowMs, m - b));
  }

  lemma ReapOfNone(q: Queues, nowMs: int)
    ensures ReapExpired(q, nowMs, 0) == q
  {
    assert Range(q.leases, nowMs, 0) == [];
  }

  /** n reaps are one reap of m = n * batchSize: the first m expired leases are freed, in order, and nothing else. */
  lemma {:induction false} ReapsFreeInOrder(q: Queues, nowMs: int, batchSize: nat, n: nat, m: nat)
    requires m == n * batchSize
    ensures Reaps(q, nowMs, batchSize, n) == ReapExpired(q, nowMs, m)
    decreases n, 1
  {
    if n == 0 {
      ReapOfNone(q, nowMs);
    } else {
      ReapsFreeOneMore(q, nowMs, batchSize, n, m);
    }
  }

  lemma {:induction false} ReapsFreeOneMore(q: Queues, nowMs: int, batchSize: nat, n: nat, m: nat)
    requires n > 0 && m == n * batchSize
    ensures Reaps(q, nowMs, batchSize, n) == ReapExpired(q, nowMs, m)
    decreases n, 0
  {
    TimesPred(n, batchSize);
    ReapsFreeInOrder(ReapExpired(q, nowMs, batchSize), nowMs, batchSize, n - 1, m - batchSize);
    ReapThen(q, nowMs, batchSize, m);
  }

  /** An id with k expired leases at or before its own loses it in exactly ceil(k / batchSize) reaps. */
  lemma LosesLeaseByRank(q: Queues, nowMs: int, batchSize: nat, n: nat, id: Id)
    requires id in Due(q.leases, nowMs)
    ensures id !in Reaps(q, nowMs, batchSize, n).leases
       <==> |UpTo(Due(q.leases, nowMs), id)| <= n * batchSize
  {
    ReapsFreeInOrder(q, nowMs, batchSize, n, n * batchSize);
    InRangeIff(q.leases, nowMs, n * batchSize, id);
  }

  lemma ReapCounts(q: Queues, ids: seq<Id>)
    ensures multiset(Reap(q, ids).ready) == multiset(ids) + multiset(q.ready)
    ensures multiset(Reap(q, ids).inflight) == multiset(q.inflight) - multiset(ids)
  {
    ReverseCounts(ids);
    LRemEachCounts(q.inflight, ids);
  }

  lemma SumAfterReap(inflight: multiset<Id>, ready: multiset<Id>, ids: multiset<Id>)
    requires forall x :: ids[x] <= 1
    ensures (ids + ready) + (inflight - ids) == ready + inflight
       <==> forall x :: x in ids ==> x in inflight
  {
    var total := (ids + ready) + (inflight - ids);
    if forall x :: x in ids ==> x in inflight {
      assert forall x :: total[x] == (ready + inflight)[x];
    } else {
      var x :| x in ids && x !in inflight;
      assert total[x] == (ready + inflight)[x] + 1;
    }
  }

  /**
   * A reap adds to `ready` what it takes from `inflight` exactly when every
   * expired lease belongs to an id that is in flight. A lease outliving its
   * inflight entry makes the reaper create an id.
   */
  lemma ReapConservesIff(q: Queues, nowMs: int, batchSize: nat)
    ensures multiset(ReapExpired(q, nowMs, batchSize).ready) + multiset(ReapExpired(q, nowMs, batchSize).inflight)
         == multiset(q.ready) + multiset(q.inflight)
       <==> forall id <- Range(q.leases, nowMs, batchSize) :: id in q.inflight
  {
    var expired := Range(q.leases, nowMs, batchSize);
    RangeMembers(q.leases, nowMs, batchSize);
    ReapCounts(q, expired);
    SumAfterReap(multiset(q.inflight), multiset(q.ready), multiset(expired));
    assert forall x :: x in expired <==> x in multiset(expired);
    assert forall x :: x in q.inflight <==> x in multiset(q.inflight);
  }

  /** The reaper goes by leases alone: an inflight id without one is left where it is. */
  lemma ReaperSkipsLeaseless(q: Queues, nowMs: int, batchSize: nat, id: Id)
    requires id !in q.leases
    ensures multiset(ReapExpired(q, nowMs, batchSize).inflight)[id] == multiset(q.inflight)[id]
    ensures multiset(ReapExpired(q, nowMs, batchSize).ready)[id] == multiset(q.ready)[id]
  {
    var expired := Range(q.leases, nowMs, batchSize);
    RangeMembers(q.leases, nowMs, batchSize);
    ReverseCounts(expired);
    LRemEachCounts(q.inflight, expired);
    assert id !in expired;
    assert id !in multiset(expired);
  }
}
