/**
 * The reliable queue: five Redis structures, and every script or command that
 * changes them. Each is one atomic step.
 */
module Queue {
  import opened Prelude
  import opened Redis

  const VISIBILITY_TIMEOUT_MS := 60_000

  datatype Queues = Queues(
    ready: seq<Id>,      // head at 0; consumed from the tail
    inflight: seq<Id>,
    leases: ZSet,        // id -> lease expiry
    delayed: ZSet,       // id -> when it becomes due
    dlq: seq<Id>)

  const EMPTY := Queues([], [], map[], map[], [])

  // ------------------------------------------------------ specification

  function Push(q: Queues, id: Id): Queues
  {
    q.(ready := [id] + q.ready)
  }

  function PushDelayed(q: Queues, id: Id, runAt: int): Queues
  {
    q.(delayed := q.delayed[id := runAt])
  }

  /** The id BRPOPLPUSH would move. */
  function Next(q: Queues): Id
    requires q.ready != []
  {
    q.ready[|q.ready| - 1]
  }

  /** BRPOPLPUSH ready inflight. */
  function Claim(q: Queues): Queues
    requires q.ready != []
  {
    q.(ready := q.ready[..|q.ready| - 1], inflight := [Next(q)] + q.inflight)
  }

  function Lease(q: Queues, id: Id, until: int): Queues
  {
    q.(leases := q.leases[id := until])
  }

  function Ack(q: Queues, id: Id): Queues
  {
    q.(inflight := LRem(q.inflight, id), leases := q.leases - {id})
  }

  function RetryLater(q: Queues, id: Id, runAt: int): Queues
  {
    PushDelayed(Ack(q, id), id, runAt)
  }

  function DeadLetter(q: Queues, id: Id): Queues
  {
    var q := Ack(q, id);
    q.(dlq := [id] + q.dlq)
  }

  function PopDlq(q: Queues): Queues
    requires q.dlq != []
  {
    q.(dlq := q.dlq[..|q.dlq| - 1])
  }

  function Oldest(q: Queues): Id
    requires q.dlq != []
  {
    q.dlq[|q.dlq| - 1]
  }

  /** Move exactly these ids from `delayed` to `ready`, the last one ending at the head. */
  function Promote(q: Queues, due: seq<Id>): Queues
  {
    q.(delayed := q.delayed - Members(due), ready := Reverse(due) + q.ready)
  }

  function PromoteDue(q: Queues, nowMs: int, batchSize: nat): Queues
  {
    Promote(q, Range(q.delayed, nowMs, batchSize))
  }

  /** One LREM for each id in turn. */
  function LRemEach(s: seq<Id>, ids: seq<Id>): seq<Id>
    decreases |ids|
  {
    if ids == [] then s else LRemEach(LRem(s, ids[0]), ids[1..])
  }

  function Reap(q: Queues, expired: seq<Id>): Queues
  {
    q.(leases := q.leases - Members(expired),
       inflight := LRemEach(q.inflight, expired),
       ready := Reverse(expired) + q.ready)
  }

  function ReapExpired(q: Queues, nowMs: int, batchSize: nat): Queues
  {
    Reap(q, Range(q.leases, nowMs, batchSize))
  }

  /** One more turn of the promotion loop. */
  lemma PromoteOneMore(q: Queues, ids: seq<Id>, x: Id)
    ensures Promote(q, ids + [x]) ==
            var p := Promote(q, ids); p.(delayed := p.delayed - {x}, ready := [x] + p.ready)
  {
    ReverseConcat(ids, [x]);
    assert Members(ids + [x]) == Members(ids) + {x};
    assert Reverse([x]) == [x];
    assert Reverse(ids + [x]) + q.ready == [x] + (Reverse(ids) + q.ready);
  }

  /** One more turn of the reaper's loop. */
  lemma ReapOneMore(q: Queues, ids: seq<Id>, x: Id)
    ensures Reap(q, ids + [x]) ==
            var p := Reap(q, ids);
            p.(leases := p.leases - {x}, inflight := LRem(p.inflight, x), ready := [x] + p.ready)
  {
    ReverseConcat(ids, [x]);
    LRemEachConcat(q.inflight, ids, x);
    assert Members(ids + [x]) == Members(ids) + {x};
    assert Reverse([x]) == [x];
    assert Reverse(ids + [x]) + q.ready == [x] + (Reverse(ids) + q.ready);
  }

  // ----------------------------------------------------- implementation

  /** The scripts as they change Redis in place. */
  class RedisQueue {
    var ready: seq<Id>
    var inflight: seq<Id>
    var leases: ZSet
    var delayed: ZSet
    var dlq: seq<Id>

    constructor ()
      ensures Contents() == EMPTY
    {
      ready, inflight, leases, delayed, dlq := [], [], map[], map[], [];
    }

    function Contents(): Queues
      reads this
    {
      Queues(ready, inflight, leases, delayed, dlq)
    }

    method PushReady(id: Id) returns (length: nat)
      modifies this
      ensures Contents() == Push(old(Contents()), id)
      ensures length == |ready|
    {
      ready := [id] + ready;
      length := |ready|;
    }

    method Schedule(id: Id, runAtMs: int)
      modifies this
      ensures Contents() == PushDelayed(old(Contents()), id, runAtMs)
    {
      delayed := delayed[id := runAtMs];
    }

    /** The blocking pop-and-push; None stands for the timeout. */
    method PopToInflight() returns (jobId: Option<Id>)
      modifies this
      ensures jobId == if old(ready) == [] then None else Some(Next(old(Contents())))
      ensures Contents() == if jobId.None? then old(Contents()) else Claim(old(Contents()))
    {
      if ready == [] {
        return None;
      }
      var id := ready[|ready| - 1];
      ready := ready[..|ready| - 1];
      inflight := [id] + inflight;
      return Some(id);
    }

    /**
     * Claim a job: the pop, then the lease, in two separate commands. None
     * stands for the timeout, and for a throw when the second command fails.
     */
    method Reserve(nowMs: int, leaseFails: bool) returns (jobId: Option<Id>)
      modifies this
      ensures jobId == if old(ready) == [] || leaseFails then None else Some(Next(old(Contents())))
      ensures Contents() == if old(ready) == [] then old(Contents())
                            else if leaseFails then Claim(old(Contents()))
                            else Lease(Claim(old(Contents())), jobId.value, nowMs + VISIBILITY_TIMEOUT_MS)
    {
      jobId := PopToInflight();
      if jobId.None? || leaseFails {
        return None;
      }
      leases := leases[jobId.value := nowMs + VISIBILITY_TIMEOUT_MS];
    }

    method Acknowledge(id: Id)
      modifies this
      ensures Contents() == Ack(old(Contents()), id)
    {
      inflight := LRem(inflight, id);
      leases := leases - {id};
    }

    method Retry(id: Id, runAtMs: int)
      modifies this
      ensures Contents() == RetryLater(old(Contents()), id, runAtMs)
    {
      inflight := LRem(inflight, id);
      leases := leases - {id};
      delayed := delayed[id := runAtMs];
    }

    method Bury(id: Id)
      modifies this
      ensures Contents() == DeadLetter(old(Contents()), id)
    {
      inflight := LRem(inflight, id);
      leases := leases - {id};
      dlq := [id] + dlq;
    }

    method PromoteBatch(nowMs: int, batchSize: nat) returns (count: nat)
      modifies this
      ensures Contents() == PromoteDue(old(Contents()), nowMs, batchSize)
      ensures count == Min(batchSize, |Due(old(delayed), nowMs)|)
    {
      var due := Range(delayed, nowMs, batchSize);
      for i := 0 to |due|
        invariant Contents() == Promote(old(Contents()), due[..i])
      {
        delayed := delayed - {due[i]};
        ready := [due[i]] + ready;
        PromoteOneMore(old(Contents()), due[..i], due[i]);
        assert due[..i + 1] == due[..i] + [due[i]];
      }
      assert due[..|due|] == due;
      return |due|;
    }

    method ReapBatch(nowMs: int, batchSize: nat) returns (expired: seq<Id>)
      modifies this
      ensures expired == Range(old(leases), nowMs, batchSize)
      ensures Contents() == ReapExpired(old(Contents()), nowMs, batchSize)
    {
      expired := Range(leases, nowMs, batchSize);
      ghost var q := Contents();
      for i := 0 to |expired|
        invariant Contents() == Reap(q, expired[..i])
      {
        leases := leases - {expired[i]};
        inflight := LRem(inflight, expired[i]);
        ready := [expired[i]] + ready;
        assert expired[..i + 1] == expired[..i] + [expired[i]];
        ReapOneMore(q, expired[..i], expired[i]);
      }
      assert expired[..|expired|] == expired;
    }

    /** Remove the oldest dead letter, and push it nowhere. */
    method PopDeadLetter() returns (jobId: Option<Id>)
      modifies this
      ensures jobId == if old(dlq) == [] then None else Some(Oldest(old(Contents())))
      ensures Contents() == if jobId.None? then old(Contents()) else PopDlq(old(Contents()))
    {
      if dlq == [] {
        return None;
      }
      jobId := Some(dlq[|dlq| - 1]);
      dlq := dlq[..|dlq| - 1];
    }
  }

  lemma {:induction false} LRemEachConcat(s: seq<Id>, ids: seq<Id>, x: Id)
    ensures LRemEach(s, ids + [x]) == LRem(LRemEach(s, ids), x)
    decreases |ids|
  {
    if ids == [] {
      assert ids + [x] == [x];
    } else {
      LRemEachConcat(LRem(s, ids[0]), ids[1..], x);
      assert (ids + [x])[1..] == ids[1..] + [x];
    }
  }

  lemma {:induction false} LRemEachCounts(s: seq<Id>, ids: seq<Id>)
    ensures multiset(LRemEach(s, ids)) == multiset(s) - multiset(ids)
    decreases |ids|
  {
    if ids != [] {
      var x, rest := ids[0], ids[1..];
      LRemCounts(s, x);
      LRemEachCounts(LRem(s, x), rest);
      assert ids == [x] + rest;
      assert multiset(ids) == multiset{x} + multiset(rest);
    }
  }
}
