/**
 * Timely runs in which the engine does less than its comments say. No worker
 * here ever acts past its lease; some only stop.
 */
module Shortfalls {
  import opened Prelude
  import opened Redis
  import opened Jobs
  import opened Backoff
  import opened Actors
  import opened Protocol
  import opened JobView
  import opened Projection
  import opened Scenarios
  import opened Theorems
  import opened TimelyTheorems
  import Queue

  // -------------------------------------------------- a dead row outside the DLQ

  /** The id comes back through the reaper; the next worker is about to ack it. */
  lemma AboutToVanish() returns (s: State)
    ensures Reached(s, true) && s.now == 60_000 && OnlyLeased(s.q, 120_000)
    ensures JOB in s.jobs && s.jobs[JOB].state == Dead && Holds(s, 1, Discarding, 120_000)
    ensures s.hands == map[0 := Handling(JOB, Empty)]
  {
    s := Stalled(true);
    s := Claimed(s, 1, true);
    s := Discarded(s, 1, true);
  }

  /**
   * A worker marks the row dead and dies before the dead-letter script. The
   * reaper returns the id, the next worker finds the row terminal and acks, and
   * the dead letter is in no Redis structure, where no replay can find it.
   */
  lemma DeadRowOutsideDlq() returns (states: seq<State>, steps: seq<Step>)
    ensures TimelyRun(states, steps)
    ensures var s := states[|steps|];
            && JOB in s.jobs && s.jobs[JOB].state == Dead && s.q == Queue.EMPTY
            && (forall h <- s.hands :: s.hands[h].hand.Empty?)
  {
    var s := AboutToVanish();
    assert LRem([JOB], JOB) == [];
    s := Onward(s, Release(1), true);
    states, steps := RunOf(s, true);
  }

  // ------------------------------------------------------ a job beyond the reaper

  /**
   * A worker dies between BRPOPLPUSH and ZADD. However late the reaper comes, it
   * leaves the id in flight; by OnlyTheClaimerEndsTheWindow it always will.
   */
  lemma ReaperNeverComes(later: nat) returns (states: seq<State>, steps: seq<Step>)
    ensures TimelyRun(states, steps)
    ensures |steps| > 0 && steps[|steps| - 1] == Step.Reap(later, 100)
    ensures var s := states[|steps|]; s.now == later && Stranded(s, 0, JOB) && s.q.inflight == [JOB]
  {
    var s := Enqueued(true);
    s := Onward(s, Take(0), true);
    assert s.q == Queue.Queues([], [JOB], map[], map[], []);
    s := Onward(s, Tick(later), true);
    NothingExpired(later);
    states, steps := RunThrough(s, Step.Reap(later, 100), true);
    steps := steps + [Step.Reap(later, 100)];
  }

  lemma NothingExpired(max: int)
    ensures Range(map[], max, 100) == []
  {
    assert Due(map[], max) == map[];
  }

  // ------------------------------------------------------- an error forgotten

  /** After any timely run, a gate that puts a job off leaves its row without an error. */
  lemma DeferralErases(states: seq<State>, steps: seq<Step>, k: nat)
    requires TimelyRun(states, steps) && k < |steps| && steps[k].Defer?
    requires states[k].claims[steps[k].claim].id in states[k].jobs
    ensures var id := states[k].claims[steps[k].claim].id;
            id in states[k + 1].jobs && states[k + 1].jobs[id].lastError == None
            && states[k + 1].jobs[id].attempts == states[k].jobs[id].attempts
  {
    var s, step := states[k], steps[k];
    var id := s.claims[step.claim].id;
    TimelyReach(states, steps, k, id);
    ProjectStep(s, step, id);
    DeferredView(Project(s, id), step);
  }

  lemma DeferredView(v: View, step: Step)
    requires ViewEnabled(v, step) && step.Defer? && v.row.Some? && v.row.value.attempts <= v.row.value.maxAttempts
    ensures ViewDo(v, step).row.Some? && ViewDo(v, step).row.value.lastError == None
    ensures ViewDo(v, step).row.value.attempts == v.row.value.attempts
  {
  }

  const FAILED_ONCE := NEW_ROW.(state := Queued, attempts := 1, lastError := Some(HttpStatus(500)))

  lemma FirstAttemptFails() returns (s: State)
    ensures Reached(s, true) && s.now == 0 && OnlyLeased(s.q, 60_000)
    ensures s.jobs == map[JOB := NEW_ROW.(state := InFlight)] && s.claims.Keys == {0}
    ensures Holds(s, 0, Audited(NEW_ROW, Some(500)), 60_000)
  {
    s := Enqueued(true);
    s := Claimed(s, 0, true);
    s := Marked(s, 0, true);
    s := Delivered(s, 0, NEW_ROW, Some(500), true);
  }

  lemma RetryRecorded() returns (s: State)
    ensures Reached(s, true) && s.now == 0 && OnlyLeased(s.q, 60_000)
    ensures s.jobs == map[JOB := FAILED_ONCE] && s.claims.Keys == {0}
    ensures Holds(s, 0, Requeueing(0), 60_000)
  {
    s := FirstAttemptFails();
    assert BackoffMs(1, 0.0) == 0;
    s := Onward(s, Settle(0, 0, 0.0), true);
  }

  lemma RetryOfOne(q: Queue.Queues)
    requires OnlyLeased(q, 60_000)
    ensures OnlyDelayed(Queue.RetryLater(q, JOB, 0), 0)
  {
    assert LRem([JOB], JOB) == [];
  }

  /** A 500 schedules a retry, here at once, and says so in the row. */
  lemma FailedOnce() returns (s: State)
    ensures Reached(s, true) && s.now == 0 && OnlyDelayed(s.q, 0)
    ensures s.jobs == map[JOB := FAILED_ONCE] && s.claims.Keys == {0}
  {
    s := RetryRecorded();
    RetryOfOne(s.q);
    s := Onward(s, Release(0), true);
  }

  /** The retry is promoted and reserved. */
  lemma RetryRead() returns (s: State)
    ensures Reached(s, true) && s.now == 0 && s.jobs == map[JOB := FAILED_ONCE]
    ensures Holds(s, 1, Loaded(FAILED_ONCE), 60_000)
  {
    s := FailedOnce();
    s := Promoted(s, true);
    s := Claimed(s, 1, true);
    s := Read(s, 1, true);
  }

  /** The error of the first attempt does not survive the second one's being put off. */
  lemma DeferralForgetsError() returns (states: seq<State>, steps: seq<Step>, k: nat)
    ensures TimelyRun(states, steps) && k < |steps| && steps[k].Defer?
    ensures JOB in states[k].jobs && states[k].jobs[JOB].lastError == Some(HttpStatus(500))
    ensures JOB in states[k + 1].jobs && states[k + 1].jobs[JOB].lastError == None
    ensures states[k + 1].jobs[JOB].attempts == 1
  {
    var s := RetryRead();
    var step := Step.Defer(1, 0, 100);
    states, steps := RunThrough(s, step, true);
    k := |steps|;
    steps := steps + [step];
  }
}
