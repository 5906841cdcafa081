/**
 * What a worker that stalled past its lease can still do: why "succeeded is
 * final", "one owner" and "a replayed job is delivered" need the timing
 * assumption.
 */
module LateWorker {
  import opened Prelude
  import opened Redis
  import opened Jobs
  import opened Actors
  import opened Protocol
  import opened Projection
  import opened TimelyRuns
  import opened Scenarios
  import opened Theorems
  import opened TimelyTheorems
  import Queue

  // ------------------------------------------------------------ a success undone

  /** Worker 0 gets a 500 and stalls until its lease is gone. */
  lemma WorkerZeroStalls() returns (s: State)
    ensures Reached(s, false) && s.now == 60_000 && OnlyReady(s.q)
    ensures s.jobs == map[JOB := NEW_ROW.(state := InFlight)]
    ensures Holds(s, 0, Audited(NEW_ROW, Some(500)), 60_000) && 1 !in s.claims
  {
    s := Enqueued(false);
    s := Claimed(s, 0, false);
    s := Marked(s, 0, false);
    s := Delivered(s, 0, NEW_ROW, Some(500), false);
    s := Reaped(s, false);
  }

  lemma WorkerOneSucceeds() returns (s: State)
    ensures Reached(s, false) && s.now == 60_000 && Holds(s, 0, Audited(NEW_ROW, Some(500)), 60_000)
    ensures JOB in s.jobs && s.jobs[JOB] == NEW_ROW.(state := Succeeded, attempts := 1)
  {
    s := WorkerZeroStalls();
    s := Claimed(s, 1, false);
    s := Marked(s, 1, false);
    s := Delivered(s, 1, NEW_ROW.(state := InFlight), Some(200), false);
    s := Onward(s, Settle(1, 60_000, 0.0), false);
  }

  lemma OverdueSettle(s: State, step: Step)
    requires step == Settle(0, 60_000, 0.0) && s.now == 60_000
    requires JOB in s.jobs && s.jobs[JOB] == NEW_ROW.(state := Succeeded, attempts := 1)
    requires Holds(s, 0, Audited(NEW_ROW, Some(500)), 60_000)
    ensures Enabled(s, step) && UnderLease(step) && !OnTime(s, step)
    ensures JOB in Do(s, step).jobs && Do(s, step).jobs[JOB].state == Queued
  {
  }

  /**
   * Worker 0 gets a 500 and stalls; its lease expires; worker 1 delivers the
   * job. Then worker 0 wakes after its lease and the succeeded row is queued
   * again.
   */
  lemma LateWorkerUndoesSuccess() returns (states: seq<State>, steps: seq<Step>, k: nat)
    ensures FreeRun(states, steps) && k < |steps| && UnderLease(steps[k]) && !OnTime(states[k], steps[k])
    ensures JOB in states[k].jobs && states[k].jobs[JOB].state == Succeeded
    ensures JOB in states[k + 1].jobs && states[k + 1].jobs[JOB].state == Queued
  {
    var s := WorkerOneSucceeds();
    var step := Settle(0, 60_000, 0.0);
    OverdueSettle(s, step);
    states, steps := RunThrough(s, step, false);
    k := |steps|;
    steps := steps + [step];
  }

  /** This step is an UPDATE of the job's row to another state, which the CHECK accepts. */
  predicate Overwrites(s: State, step: Step, id: Id)
    requires Enabled(s, step) && id in s.jobs
  {
    if step.Revive? then s.hands[step.hand].id == id
    else
      && (step.Defer? || step.Dispatch? || step.Settle?)
      && s.claims[step.claim].id == id
      && s.jobs[id].attempts + (if step.Settle? then 1 else 0) <= s.jobs[id].maxAttempts
      && (step.Settle? ==>
            var Audited(job, status) := s.claims[step.claim].claim.pc;
            !Judge(job, status, step.draw).Success?)
  }

  /** No UPDATE looks at the state it replaces. */
  lemma SuccessOverwritten(s: State, step: Step, id: Id)
    requires Enabled(s, step) && id in s.jobs && s.jobs[id].state == Succeeded && id in Do(s, step).jobs
    ensures Do(s, step).jobs[id].state != Succeeded <==> Overwrites(s, step, id)
  {
  }

  /** Whoever may act on time knows of a row that has not succeeded. */
  lemma OverwriterIsLate(s: State, step: Step, id: Id)
    requires Enabled(s, step) && id in s.jobs && Overwrites(s, step, id)
    requires StoresAgree(Project(s, id)) && ClaimsAgree(Project(s, id))
    ensures s.jobs[id].state == Succeeded ==> UnderLease(step) && s.now >= s.claims[step.claim].claim.lease
  {
    if step.Revive? {
      HandsSeen(s, step.hand, id);
      assert Holding(Project(s, id), step.hand);
    } else {
      ClaimsSeen(s, step.claim, id);
    }
  }

  /**
   * Where a success stops being final. After any run that was on time so far, a
   * step takes a succeeded row to another state if and only if it is one of
   * these UPDATEs; and each of them comes from a worker whose lease is over, so
   * neither a replay nor a worker under its lease can do it.
   */
  lemma SuccessUndoneOnlyLate(states: seq<State>, steps: seq<Step>, step: Step, id: Id)
    requires TimelyRun(states, steps) && Enabled(states[|steps|], step)
    requires id in states[|steps|].jobs && states[|steps|].jobs[id].state == Succeeded
    requires id in Do(states[|steps|], step).jobs
    ensures var s := states[|steps|];
            && (Do(s, step).jobs[id].state != Succeeded <==> Overwrites(s, step, id))
            && (Overwrites(s, step, id) ==> UnderLease(step) && s.now >= s.claims[step.claim].claim.lease)
  {
    var s := states[|steps|];
    TimelyReach(states, steps, |steps|, id);
    SuccessOverwritten(s, step, id);
    if Overwrites(s, step, id) {
      OverwriterIsLate(s, step, id);
    }
  }

  // ---------------------------------------------------------------- two owners

  /** Worker 0's call hangs past its lease. */
  lemma WorkerZeroHangs() returns (s: State)
    ensures Reached(s, false) && s.now == 60_000 && OnlyReady(s.q) && s.audit == []
    ensures s.jobs == map[JOB := NEW_ROW.(state := InFlight)]
    ensures Holds(s, 0, Calling(NEW_ROW, 1), 60_000) && 1 !in s.claims
  {
    s := Enqueued(false);
    s := Claimed(s, 0, false);
    s := Marked(s, 0, false);
    s := Called(s, 0, NEW_ROW, false);
    s := Reaped(s, false);
  }

  /** Two workers have the same job's request on its way, under the same attempt number. */
  lemma TwoWorkersOneJob() returns (states: seq<State>, steps: seq<Step>)
    ensures FreeRun(states, steps)
    ensures var s := states[|steps|];
            && Holds(s, 0, Calling(NEW_ROW, 1), 60_000)
            && Holds(s, 1, Calling(NEW_ROW.(state := InFlight), 1), 120_000)
  {
    var s := WorkerZeroHangs();
    s := Claimed(s, 1, false);
    s := Marked(s, 1, false);
    s := Called(s, 1, NEW_ROW.(state := InFlight), false);
    states, steps := RunOf(s, false);
  }

  predicate Unfinished(s: State, c: nat, id: Id)
  {
    c in s.claims && s.claims[c].id == id && !s.claims[c].claim.pc.Over?
  }

  ghost predicate TwoUnfinished(s: State, id: Id)
  {
    exists b, c :: b != c && Unfinished(s, b, id) && Unfinished(s, c, id)
  }

  /** Takes the id while another claim on it is not over. */
  ghost predicate TakesFrom(s: State, step: Step, id: Id)
    requires Enabled(s, step)
  {
    step.Take? && Queue.Next(s.q) == id && exists b :: Unfinished(s, b, id)
  }

  lemma UnfinishedAfter(s: State, step: Step, c: nat, id: Id)
    requires Enabled(s, step)
    ensures Unfinished(Do(s, step), c, id) ==>
              Unfinished(s, c, id) || (step.Take? && step.claim == c && Queue.Next(s.q) == id)
    ensures step.Take? && Unfinished(s, c, id) ==> Unfinished(Do(s, step), c, id) && c != step.claim
    ensures step.Take? && Queue.Next(s.q) == id ==> Unfinished(Do(s, step), step.claim, id)
  {
  }

  lemma SecondUnfinishedIff(s: State, step: Step, id: Id)
    requires Enabled(s, step) && !TwoUnfinished(s, id)
    ensures TwoUnfinished(Do(s, step), id) <==> TakesFrom(s, step, id)
  {
    if TwoUnfinished(Do(s, step), id) {
      var b, c :| b != c && Unfinished(Do(s, step), b, id) && Unfinished(Do(s, step), c, id);
      UnfinishedAfter(s, step, b, id);
      UnfinishedAfter(s, step, c, id);
    }
    if TakesFrom(s, step, id) {
      var b :| Unfinished(s, b, id);
      UnfinishedAfter(s, step, b, id);
    }
  }

  /** A claim on an id that is back in `ready` has outlived its lease. */
  lemma TakenFromTheLate(states: seq<State>, steps: seq<Step>, id: Id, b: nat)
    requires TimelyRun(states, steps) && id in states[|steps|].q.ready && Unfinished(states[|steps|], b, id)
    ensures !MayAct(states[|steps|], b)
  {
    var s := states[|steps|];
    OneLocation(states, steps, |steps|, id);
    CountIs(s.q.ready, id);
    CountIs(s.q.inflight, id);
    if MayAct(s, b) {
      OneOwner(states, steps, |steps|, b, b);
    }
  }

  /**
   * Where a job stops having one owner. After any run that was on time so far,
   * a step leaves two workers with unfinished claims on a job if and only if it
   * takes the job while another claim on it is unfinished; and every claim it
   * takes the job from has recorded a lease, and outlived it.
   */
  lemma SecondOwnerIff(states: seq<State>, steps: seq<Step>, step: Step, id: Id)
    requires TimelyRun(states, steps) && Enabled(states[|steps|], step) && !TwoUnfinished(states[|steps|], id)
    ensures TwoUnfinished(Do(states[|steps|], step), id) <==> TakesFrom(states[|steps|], step, id)
    ensures TakesFrom(states[|steps|], step, id) ==>
              var s := states[|steps|];
              forall b :: Unfinished(s, b, id) ==>
                !s.claims[b].claim.pc.Reserved? && s.now >= s.claims[b].claim.lease
  {
    var s := states[|steps|];
    SecondUnfinishedIff(s, step, id);
    if TakesFrom(s, step, id) {
      forall b | Unfinished(s, b, id)
        ensures !s.claims[b].claim.pc.Reserved? && s.now >= s.claims[b].claim.lease
      {
        TakenFromTheLate(states, steps, id, b);
      }
    }
  }

  // ------------------------------------------------------------- a replay undone

  /** Worker 2 reads the dead row and stalls just before its ack; worker 0 wakes and buries the id. */
  lemma BothStale() returns (s: State)
    ensures Reached(s, false) && s.now == 60_000 && s.q == Queue.Queues([], [], map[], map[], [JOB])
    ensures JOB in s.jobs && s.jobs[JOB].state == Dead && s.jobs.Keys == {JOB}
    ensures Holds(s, 2, Discarding, 120_000) && 3 !in s.claims && s.hands == map[0 := Handling(JOB, Empty)]
  {
    s := Stalled(false);
    s := Claimed(s, 2, false);
    s := Discarded(s, 2, false);
    s := Onward(s, Release(0), false);
    assert LRem([JOB], JOB) == [];
  }

  /** The dead letter is replayed. */
  lemma ReplayedOnce() returns (s: State)
    ensures Reached(s, false) && s.now == 60_000 && OnlyReady(s.q)
    ensures JOB in s.jobs && s.jobs[JOB].state == Queued && s.jobs[JOB].attempts == 0
    ensures Holds(s, 2, Discarding, 120_000) && 3 !in s.claims
    ensures s.hands == map[0 := Handling(JOB, Empty), 1 := Handling(JOB, Empty)]
  {
    s := BothStale();
    s := Onward(s, PopDead(1), false);
    s := Onward(s, Revive(1, 60_000), false);
    s := Onward(s, PushBack(1), false);
  }

  /**
   * Worker 3 reserves the replayed job, worker 2 wakes and acks it, worker 3
   * dies. The row is queued, and its id is in no Redis structure and in nobody's
   * hands.
   */
  lemma LateAckLosesReplay() returns (states: seq<State>, steps: seq<Step>)
    ensures FreeRun(states, steps)
    ensures var s := states[|steps|];
            && s.q == Queue.EMPTY && JOB in s.jobs && s.jobs[JOB].state == Queued
            && (forall h <- s.hands :: s.hands[h].hand.Empty?)
  {
    var s := ReplayedOnce();
    s := Claimed(s, 3, false);
    assert LRem([JOB], JOB) == [];
    s := Onward(s, Release(2), false);
    states, steps := RunOf(s, false);
  }
}
