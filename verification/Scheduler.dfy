/** The scheduler's tick: keep or seek leadership, and sweep only as leader. */
module Scheduler {
  import opened Prelude
  import opened Redis
  import opened Lock
  import Queue

  const LOCK_KEY := "lock:scheduler"
  const LOCK_TTL_MS := 5_000
  const BATCH_SIZE := 100

  /** Promotion, then the reaper, each at its own clock reading. */
  function Swept(q: Queue.Queues, promoteAt: int, reapAt: int): Queue.Queues
  {
    Queue.ReapExpired(Queue.PromoteDue(q, promoteAt, BATCH_SIZE), reapAt, BATCH_SIZE)
  }

  /** The due ids enter `ready` first and the abandoned ones after them, a hundred of each at most. */
  lemma SweptIs(q: Queue.Queues, promoteAt: int, reapAt: int)
    ensures var due, expired := Range(q.delayed, promoteAt, 100), Range(q.leases, reapAt, 100);
            var after := Swept(q, promoteAt, reapAt);
            && after.ready == Reverse(expired) + (Reverse(due) + q.ready)
            && after.delayed == q.delayed - Members(due) && after.leases == q.leases - Members(expired)
            && multiset(after.inflight) == multiset(q.inflight) - multiset(expired) && after.dlq == q.dlq
  {
    Queue.LRemEachCounts(q.inflight, Range(q.leases, reapAt, 100));
  }

  class SchedulerProcess {
    const locks: LockStore
    const queue: Queue.RedisQueue
    var lock: Option<Token>

    constructor (locks: LockStore, queue: Queue.RedisQueue)
      ensures this.locks == locks && this.queue == queue && lock == None
    {
      this.locks, this.queue, lock := locks, queue, None;
    }

    /**
     * `token` is the UUID an acquire would draw; the clock readings are the
     * lock command's and the two sweeps'.
     */
    method Tick(token: Token, now: int, promoteAt: int, reapAt: int)
      modifies this, locks, queue
      ensures lock ==
        var held := Holder(Lookup(old(locks.keys), LOCK_KEY), now);
        if old(lock).Some? then (if held == old(lock) then old(lock) else None)
        else if held.None? then Some(token) else None
      ensures locks.keys ==
        var e := Lookup(old(locks.keys), LOCK_KEY);
        Put(old(locks.keys), LOCK_KEY,
            if old(lock).Some? then Renewed(e, old(lock).value, LOCK_TTL_MS, now)
            else Acquired(e, token, LOCK_TTL_MS, now))
      ensures lock.Some? ==> Holder(Lookup(locks.keys, LOCK_KEY), now) == lock
      ensures queue.Contents() ==
        if lock.Some? then Swept(old(queue.Contents()), promoteAt, reapAt) else old(queue.Contents())
    {
      if lock.Some? {
        var stillLeader := locks.Renew(LOCK_KEY, lock.value, LOCK_TTL_MS, now);
        if !stillLeader {
          lock := None;
        }
      } else {
        var ok := locks.Acquire(LOCK_KEY, token, LOCK_TTL_MS, now);
        if ok {
          lock := Some(token);
        }
      }
      if lock.None? {
        return;
      }
      var promoted := queue.PromoteBatch(promoteAt, BATCH_SIZE);
      var reaped := queue.ReapBatch(reapAt, BATCH_SIZE);
    }
  }
}
