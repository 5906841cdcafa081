/** Replaying dead letters, one after the other. */
module Replay {
  import opened Prelude
  import opened Redis
  import opened Jobs
  import Queue

  /** The n oldest dead letters, oldest first. */
  function OldestFirst(dlq: seq<Id>, n: nat): seq<Id>
    requires n <= |dlq|
  {
    Reverse(dlq[|dlq| - n..])
  }

  /** Those with a row, in the same order. */
  function WithRows(ids: seq<Id>, jobs: Table): seq<Id>
  {
    if ids == [] then []
    else
      var n := |ids| - 1;
      WithRows(ids[..n], jobs) + (if ids[n] in jobs then [ids[n]] else [])
  }

  /** The queues after one id is popped and, if it has a row, pushed. */
  function AfterOne(q: Queue.Queues, jobs: Table): Queue.Queues
    requires q.dlq != []
  {
    var popped := Queue.PopDlq(q);
    if Queue.Oldest(q) in jobs then Queue.Push(popped, Queue.Oldest(q)) else popped
  }

  /** The queues after the i oldest dead letters have been replayed. */
  function AfterMany(q: Queue.Queues, i: nat, replayed: seq<Id>): Queue.Queues
    requires i <= |q.dlq|
  {
    q.(dlq := q.dlq[..|q.dlq| - i], ready := Reverse(replayed) + q.ready)
  }

  /** The rows after the dead letter's row, if any, is reset. */
  function RowsAfterOne(jobs: Table, id: Id, now: int): Table
  {
    if id in jobs then jobs[id := ResetRow(jobs[id], now)] else jobs
  }

  /** The i-th dead letter to be replayed. */
  function Nth(dlq: seq<Id>, i: nat): Id
    requires i < |dlq|
  {
    dlq[|dlq| - i - 1]
  }

  /** What the first i turns return. */
  function Returned(q: Queue.Queues, jobs: Table, i: nat): seq<Id>
    requires i <= |q.dlq|
  {
    WithRows(OldestFirst(q.dlq, i), jobs)
  }

  lemma ReturnedOneMore(q: Queue.Queues, jobs: Table, i: nat)
    requires i < |q.dlq|
    ensures Returned(q, jobs, i + 1) == Returned(q, jobs, i) + (if Nth(q.dlq, i) in jobs then [Nth(q.dlq, i)] else [])
  {
  }

  /** The rows after the i oldest dead letters have been replayed, each at its own time. */
  function ResetRows(jobs: Table, dlq: seq<Id>, i: nat, clock: nat -> int): Table
    requires i <= |dlq|
  {
    if i == 0 then jobs else RowsAfterOne(ResetRows(jobs, dlq, i - 1, clock), Nth(dlq, i - 1), clock(i - 1))
  }

  lemma QueuesOneMore(q: Queue.Queues, jobs: Table, i: nat)
    requires i < |q.dlq|
    ensures var q' := AfterMany(q, i, Returned(q, jobs, i));
            q'.dlq != [] && Queue.Oldest(q') == Nth(q.dlq, i) &&
            AfterOne(q', jobs) == AfterMany(q, i + 1, Returned(q, jobs, i + 1))
  {
    var id, done := Nth(q.dlq, i), Returned(q, jobs, i);
    ReturnedOneMore(q, jobs, i);
    var q' := AfterMany(q, i, done);
    assert q'.dlq[..|q'.dlq| - 1] == q.dlq[..|q.dlq| - (i + 1)];
    if id in jobs {
      ReverseConcat(done, [id]);
      assert Reverse([id]) == [id];
      assert Reverse(done + [id]) + q.ready == [id] + (Reverse(done) + q.ready);
    } else {
      assert Returned(q, jobs, i + 1) == done;
    }
  }

  lemma NothingReplayed(q: Queue.Queues, jobs: Table)
    ensures Returned(q, jobs, 0) == []
    ensures AfterMany(q, 0, []) == q
  {
  }

  /** Replaying neither makes nor drops a row. */
  lemma {:induction false} SameRows(jobs: Table, dlq: seq<Id>, i: nat, clock: nat -> int)
    requires i <= |dlq|
    ensures ResetRows(jobs, dlq, i, clock).Keys == jobs.Keys
  {
    if i > 0 {
      SameRows(jobs, dlq, i - 1, clock);
    }
  }

  class ReplayService {
    const queue: Queue.RedisQueue
    const jobs: JobRepository

    constructor (queue: Queue.RedisQueue, jobs: JobRepository)
      ensures this.queue == queue && this.jobs == jobs
    {
      this.queue, this.jobs := queue, jobs;
    }

    /** One turn of the loop: pop, reset the row, push. An id without a row is dropped. */
    method ReplayOne(now: int) returns (jobId: Option<Id>, revived: bool)
      modifies queue, jobs
      ensures jobId == if old(queue.dlq) == [] then None else Some(Queue.Oldest(old(queue.Contents())))
      ensures revived <==> jobId.Some? && jobId.value in old(jobs.rows)
      ensures queue.Contents() == if jobId.None? then old(queue.Contents())
                                  else AfterOne(old(queue.Contents()), old(jobs.rows))
      ensures jobs.rows == if jobId.None? then old(jobs.rows) else RowsAfterOne(old(jobs.rows), jobId.value, now)
    {
      revived := false;
      jobId := queue.PopDeadLetter();
      if jobId.Some? {
        var job := jobs.ResetForReplay(jobId.value, now);
        if job.Some? {
          var length := queue.PushReady(jobId.value);
          revived := true;
        }
      }
    }

    /**
     * Consumes the oldest min(limit, |dlq|) ids, returns in order those with a
     * row, resets exactly their rows, and appends them to `ready` in that order.
     */
    method Replay(limit: nat, clock: nat -> int) returns (replayed: seq<Id>)
      modifies queue, jobs
      ensures var n := Min(limit, |old(queue.dlq)|);
              && replayed == Returned(old(queue.Contents()), old(jobs.rows), n)
              && queue.Contents() == AfterMany(old(queue.Contents()), n, replayed)
              && jobs.rows == ResetRows(old(jobs.rows), old(queue.dlq), n, clock)
    {
      replayed := [];
      ghost var q, rows := queue.Contents(), jobs.rows;
      var i := 0;
      while i < limit
        invariant i <= Min(limit, |q.dlq|)
        invariant replayed == Returned(q, rows, i)
        invariant queue.Contents() == AfterMany(q, i, replayed)
        invariant jobs.rows == ResetRows(rows, q.dlq, i, clock)
        decreases limit - i
      {
        ghost var more := i < |q.dlq|;
        if more {
          ReturnedOneMore(q, rows, i);
          SameRows(rows, q.dlq, i, clock);
          QueuesOneMore(q, rows, i);
        }
        var jobId, revived := ReplayOne(clock(i));
        if jobId.None? {
          break;
        }
        if revived {
          replayed := replayed + [jobId.value];
        }
        i := i + 1;
      }
    }
  }

  /** Exactly the rows of the ids consumed are reset, each to the time of its turn. */
  lemma {:induction false} ReplayedRows(jobs: Table, dlq: seq<Id>, n: nat, clock: nat -> int, id: Id)
    requires n <= |dlq| && id in jobs
    ensures var after := ResetRows(jobs, dlq, n, clock);
            && id in after
            && ((forall i :: 0 <= i < n ==> Nth(dlq, i) != id) ==> after[id] == jobs[id])
            && ((exists i :: 0 <= i < n && Nth(dlq, i) == id) ==>
                  exists i :: 0 <= i < n && Nth(dlq, i) == id && after[id] == ResetRow(jobs[id], clock(i)))
  {
    if n > 0 {
      ReplayedRows(jobs, dlq, n - 1, clock, id);
    }
  }
}
