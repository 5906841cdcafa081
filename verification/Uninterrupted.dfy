/**
 * The other services' calls, run without interruption, are runs of the
 * protocol too, so everything proved of its runs is about them.
 */
module Uninterrupted {
  import opened Prelude
  import opened Redis
  import opened Jobs
  import opened Deliveries
  import opened Actors
  import opened Protocol
  import opened Runs
  import Enqueue
  import Queue
  import Replay
  import Scheduler

  /** Only the queues and the table changed. */
  predicate Became(s: State, t: State, q: Queue.Queues, jobs: Table)
  {
    t.q == q && t.jobs == jobs && t.audit == s.audit && t.claims == s.claims && t.now == s.now
  }

  /** Writing a new row and pushing its id. */
  lemma CreateIsARun(s: State, h: nat, id: Id, webhookId: string, runAt: int, pushAt: int)
    returns (steps: seq<Step>, t: State)
    requires h !in s.hands && id !in s.past && id !in s.jobs
    ensures Leads(s, steps, t)
    ensures var row := NewRow(webhookId, Enqueue.DEFAULT_MAX_ATTEMPTS, runAt);
            Became(s, t, Enqueue.Placed(s.q, id, runAt, pushAt), s.jobs[id := row])
  {
    LeadsNowhere(s);
    steps, t := AndThen(s, [], s, Insert(h, id, webhookId, Enqueue.DEFAULT_MAX_ATTEMPTS, runAt));
    steps, t := AndThen(s, steps, t, Place(h, pushAt));
  }

  /** A tick that finds itself leader. */
  lemma SweepIsARun(s: State, promoteAt: int, reapAt: int) returns (steps: seq<Step>, t: State)
    ensures Leads(s, steps, t)
    ensures Became(s, t, Scheduler.Swept(s.q, promoteAt, reapAt), s.jobs)
  {
    LeadsNowhere(s);
    steps, t := AndThen(s, [], s, Step.Promote(promoteAt, Scheduler.BATCH_SIZE));
    steps, t := AndThen(s, steps, t, Step.Reap(reapAt, Scheduler.BATCH_SIZE));
  }

  /** One dead letter: popped, its row reset, pushed; or popped and dropped. */
  lemma ReplayOneIsARun(s: State, now: int) returns (steps: seq<Step>, t: State)
    requires s.q.dlq != []
    ensures Leads(s, steps, t)
    ensures Became(s, t, Replay.AfterOne(s.q, s.jobs), Replay.RowsAfterOne(s.jobs, Queue.Oldest(s.q), now))
  {
    var h := FreshKey(s.hands);
    LeadsNowhere(s);
    steps, t := AndThen(s, [], s, PopDead(h));
    steps, t := AndThen(s, steps, t, Revive(h, now));
    if Queue.Oldest(s.q) in s.jobs {
      steps, t := AndThen(s, steps, t, PushBack(h));
    }
  }

  /** What replaying n dead letters comes to, turn i at clock(i). */
  predicate Replayed(s: State, n: nat, clock: nat -> int, t: State)
    requires n <= |s.q.dlq|
  {
    Became(s, t, Replay.AfterMany(s.q, n, Replay.Returned(s.q, s.jobs, n)),
           Replay.ResetRows(s.jobs, s.q.dlq, n, clock))
  }

  lemma OldestAfter(s: State, n: nat, clock: nat -> int, t: State)
    requires n < |s.q.dlq| && Replayed(s, n, clock, t)
    ensures t.q.dlq != [] && Queue.Oldest(t.q) == Replay.Nth(s.q.dlq, n)
  {
  }

  lemma ReplayedOneMore(s: State, n: nat, clock: nat -> int, t: State, u: State)
    requires n < |s.q.dlq| && Replayed(s, n, clock, t) && t.q.dlq != []
    requires Became(t, u, Replay.AfterOne(t.q, t.jobs), Replay.RowsAfterOne(t.jobs, Queue.Oldest(t.q), clock(n)))
    ensures Replayed(s, n + 1, clock, u)
  {
    Replay.QueuesOneMore(s.q, s.jobs, n);
    Replay.SameRows(s.jobs, s.q.dlq, n, clock);
  }

  /** The whole loop: n dead letters, oldest first. */
  lemma {:induction false} ReplayIsARun(s: State, n: nat, clock: nat -> int) returns (steps: seq<Step>, t: State)
    requires n <= |s.q.dlq|
    ensures Leads(s, steps, t) && Replayed(s, n, clock, t)
  {
    if n == 0 {
      steps, t := [], s;
      LeadsNowhere(s);
      Replay.NothingReplayed(s.q, s.jobs);
    } else {
      var before, s1 := ReplayIsARun(s, n - 1, clock);
      OldestAfter(s, n - 1, clock, s1);
      var last;
      last, t := ReplayOneIsARun(s1, clock(n - 1));
      LeadsOn(s, before, s1, last, t);
      steps := before + last;
      ReplayedOneMore(s, n - 1, clock, s1, t);
    }
  }

  lemma {:induction false} ReturnedHas(q: Queue.Queues, jobs: Table, n: nat, i: nat)
    requires i < n <= |q.dlq| && Replay.Nth(q.dlq, i) in jobs
    ensures Replay.Nth(q.dlq, i) in Replay.Returned(q, jobs, n)
    decreases n
  {
    Replay.ReturnedOneMore(q, jobs, n - 1);
    if i < n - 1 {
      ReturnedHas(q, jobs, n - 1, i);
    }
  }

  /** A replayed job is waiting in `ready` for a life with its whole budget, its audit trail as it was. */
  lemma ReplayedJobsLive(s: State, n: nat, clock: nat -> int, t: State, i: nat)
    requires i < n <= |s.q.dlq| && Replayed(s, n, clock, t) && Replay.Nth(s.q.dlq, i) in s.jobs
    ensures var id := Replay.Nth(s.q.dlq, i);
            && id in t.q.ready && id in t.jobs && Numbers(t.audit, id) == Numbers(s.audit, id)
            && t.jobs[id].state == Queued && t.jobs[id].attempts == 0 && t.jobs[id].lastError == None
            && t.jobs[id].maxAttempts == s.jobs[id].maxAttempts
  {
    var id, replayed := Replay.Nth(s.q.dlq, i), Replay.Returned(s.q, s.jobs, n);
    Replay.ReplayedRows(s.jobs, s.q.dlq, n, clock, id);
    ReturnedHas(s.q, s.jobs, n, i);
    ReverseCounts(replayed);
    assert id in multiset(replayed);
    assert id in multiset(Reverse(replayed));
  }

  /** Replays, too, keep to what holds of every reachable state. */
  lemma ReplayStaysReachable(s: State, n: nat, clock: nat -> int) returns (t: State)
    requires Reachable(s) && n <= |s.q.dlq|
    ensures Reachable(t) && Replayed(s, n, clock, t)
  {
    var steps;
    steps, t := ReplayIsARun(s, n, clock);
    ReachableOn(s, t);
  }
}
