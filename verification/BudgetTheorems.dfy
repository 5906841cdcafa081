/** Retry budgets, the dead-letter queue and due times, over every timely run. */
module BudgetTheorems {
  import opened Prelude
  import opened Redis
  import opened Jobs
  import opened Backoff
  import opened Actors
  import opened Protocol
  import opened JobView
  import opened Projection
  import opened FreeRuns
  import opened TimelyRuns
  import opened Budgets
  import opened Theorems
  import opened TimelyTheorems

  // ------------------------------------------------------- calls and attempts

  predicate CallsAt(states: seq<State>, steps: seq<Step>, j: nat, id: Id)
    requires |states| == |steps| + 1 && j < |steps|
  {
    steps[j].Call? && steps[j].claim in states[j].claims && states[j].claims[steps[j].claim].id == id
  }

  /** A replay resets the row. */
  predicate BeginsLife(states: seq<State>, steps: seq<Step>, j: nat, id: Id)
    requires |states| == |steps| + 1 && j < |steps|
  {
    Revives(states[j], steps[j], id) && id in states[j].jobs
  }

  predicate Revives(s: State, step: Step, id: Id)
  {
    step.Revive? && step.hand in s.hands && s.hands[step.hand].id == id
  }

  lemma LifeStep(s: State, step: Step, id: Id)
    requires Enabled(s, step) && NothingBeforeInsert(Project(s, id))
    ensures PastOf(Do(s, step), id).life != PastOf(s, id).life <==> Revives(s, step, id) && id in s.jobs
  {
    ProjectStep(s, step, id);
    LifeViewStep(Project(s, id), StepFor(s, step, id));
  }

  lemma LifeViewStep(v: View, step: Step)
    requires ViewEnabled(v, step) && NothingBeforeInsert(v)
    ensures ViewDo(v, step).past.life != v.past.life <==> step.Revive? && v.row.Some?
  {
  }

  /** HTTP calls for a job since its row was inserted or last replayed. */
  function CallsInLife(states: seq<State>, steps: seq<Step>, k: nat, id: Id): nat
    requires |states| == |steps| + 1 && k < |states|
  {
    if k == 0 || BeginsLife(states, steps, k - 1, id) then 0
    else CallsInLife(states, steps, k - 1, id) + (if CallsAt(states, steps, k - 1, id) then 1 else 0)
  }

  /** The claims whose outcome reached the row in its current life. */
  function CountedOn(s: State, id: Id): set<nat>
  {
    Counted(Project(s, id))
  }

  /** The claims that made a call in the current life. */
  function CalledOn(s: State, id: Id): set<nat>
  {
    Called(Project(s, id))
  }

  /** How a step changes the set of callers: a new life starts empty, a call adds the caller. */
  ghost predicate CalledGrows(v: View, step: Step)
    requires ViewEnabled(v, step)
  {
    && (ViewDo(v, step).past.life != v.past.life ==> |Called(ViewDo(v, step))| == 0)
    && (ViewDo(v, step).past.life == v.past.life ==>
          |Called(ViewDo(v, step))| == |Called(v)| + (if step.Call? then 1 else 0))
  }

  lemma CalledByCaller(v: View, step: Step)
    requires FlagsFit(v) && ViewEnabled(v, step) && step.Call?
    ensures CalledGrows(v, step)
  {
    assert step.claim !in Called(v);
    assert Called(ViewDo(v, step)) == Called(v) + {step.claim};
  }

  lemma CalledByRowStep(v: View, step: Step)
    requires ViewEnabled(v, step) && RowStep(step) && !step.Call?
    ensures CalledGrows(v, step)
  {
    var claim := Stepped(Cell(v.row, v.claims[step.claim], v.past), step).claim;
    assert claim.called == v.claims[step.claim].called && claim.life == v.claims[step.claim].life;
    assert Called(ViewDo(v, step)) == Called(v);
  }

  lemma CalledByWorker(v: View, step: Step)
    requires ViewEnabled(v, step) && OfWorker(step) && !RowStep(step)
    ensures CalledGrows(v, step)
  {
    assert Called(ViewDo(v, step)) == Called(v);
  }

  lemma CalledByOther(v: View, step: Step)
    requires FlagsFit(v) && NothingBeforeInsert(v) && ViewEnabled(v, step) && !OfWorker(step)
    ensures CalledGrows(v, step)
  {
  }

  lemma CalledStep(s: State, step: Step, id: Id)
    requires Enabled(s, step) && Sound(Project(s, id))
    ensures PastOf(Do(s, step), id).life != PastOf(s, id).life ==> |CalledOn(Do(s, step), id)| == 0
    ensures PastOf(Do(s, step), id).life == PastOf(s, id).life ==>
              |CalledOn(Do(s, step), id)| == |CalledOn(s, id)| +
                (if step.Call? && s.claims[step.claim].id == id then 1 else 0)
  {
    var v, mine := Project(s, id), StepFor(s, step, id);
    ProjectStep(s, step, id);
    if mine.Call? {
      CalledByCaller(v, mine);
    } else if RowStep(mine) {
      CalledByRowStep(v, mine);
    } else if OfWorker(mine) {
      CalledByWorker(v, mine);
    } else {
      CalledByOther(v, mine);
    }
  }

  lemma {:induction false} CallsAreClaims(states: seq<State>, steps: seq<Step>, k: nat, id: Id)
    requires TimelyRun(states, steps) && k < |states|
    ensures |CalledOn(states[k], id)| == CallsInLife(states, steps, k, id)
  {
    if k > 0 {
      CallsAreClaims(states, steps, k - 1, id);
      TimelyReach(states, steps, k - 1, id);
      CalledStep(states[k - 1], steps[k - 1], id);
      LifeStep(states[k - 1], steps[k - 1], id);
    } else {
      BlankView(states[0].now, id);
      assert Called(Blank(states[0].now)) == {};
    }
  }

  /**
   * The retry budget. A row's attempts are the distinct claims of its current
   * life whose delivery outcome was counted; the other HTTP calls of that life
   * belong to claims that stand, for now or for good, between the call and the
   * UPDATE. A live row has budget left.
   */
  lemma AttemptsCountOutcomes(states: seq<State>, steps: seq<Step>, k: nat, id: Id)
    requires TimelyRun(states, steps) && k < |states| && id in states[k].jobs
    ensures var s, row := states[k], states[k].jobs[id];
            var uncounted := CalledOn(s, id) - CountedOn(s, id);
            && row.attempts == |CountedOn(s, id)|
            && CallsInLife(states, steps, k, id) == row.attempts + |uncounted|
            && (forall c <- uncounted :: s.claims[c].id == id &&
                  (s.claims[c].claim.pc.Calling? || s.claims[c].claim.pc.Audited?))
            && row.attempts <= row.maxAttempts
            && (!Terminal(row) ==> row.attempts < row.maxAttempts)
  {
    var s, v := states[k], Project(states[k], id);
    TimelyReach(states, steps, k, id);
    CallsAreClaims(states, steps, k, id);
    assert Called(v) == Counted(v) + (Called(v) - Counted(v));
  }

  // ------------------------------------------------------- nothing ever throws

  /** A claim's step that ends it other than by a release. */
  predicate Throws(s: State, step: Step)
    requires Enabled(s, step)
  {
    UnderLease(step) && !step.Release? && Do(s, step).claims[step.claim].claim.pc.Over?
  }

  lemma NoThrowRowStep(v: View, step: Step)
    requires Budgeted(v) && ViewEnabled(v, step) && RowStep(step) && Active(v, step.claim)
    ensures !ViewDo(v, step).claims[step.claim].pc.Over?
  {
  }

  lemma NoThrowAuditStep(v: View, step: Step)
    requires Agreed(v) && ViewEnabled(v, step) && UnderLease(step) && !RowStep(step) && !step.Release?
    requires Active(v, step.claim) && v.row.Some?
    ensures !ViewDo(v, step).claims[step.claim].pc.Over?
  {
  }

  /** While the row exists, neither the CHECK nor UNIQUE (jobId, attemptNumber) ever refuses a worker. */
  lemma ConstraintsNeverFire(states: seq<State>, steps: seq<Step>, k: nat)
    requires TimelyRun(states, steps) && k < |steps| && UnderLease(steps[k])
    requires states[k].claims[steps[k].claim].id in states[k].jobs
    ensures !Throws(states[k], steps[k])
  {
    var s, step := states[k], steps[k];
    var id := s.claims[step.claim].id;
    TimelyReach(states, steps, k, id);
    ProjectStep(s, step, id);
    ProjectTiming(s, step, id);
    if RowStep(step) {
      NoThrowRowStep(Project(s, id), step);
    } else if !step.Release? {
      NoThrowAuditStep(Project(s, id), step);
    }
    assert step.claim in Project(Do(s, step), id).claims;
  }

  lemma AttemptsSettle(v: View, step: Step)
    requires WithinBudget(v) && ViewEnabled(v, step) && step.Settle? && v.row.Some?
    requires ClaimAgrees(v, v.claims[step.claim])
    ensures ViewDo(v, step).row.Some? && ViewDo(v, step).row.value.attempts == v.row.value.attempts + 1
  {
  }

  lemma AttemptsOtherwise(v: View, step: Step)
    requires ViewEnabled(v, step) && !step.Settle? && !step.Revive?
    requires v.row.Some? && ViewDo(v, step).row.Some?
    ensures ViewDo(v, step).row.value.attempts == v.row.value.attempts
  {
  }

  /** Only a counted outcome spends an attempt: deferrals, sweeps and everyone else's steps spend none. */
  lemma OnlyOutcomesSpendAttempts(states: seq<State>, steps: seq<Step>, k: nat, id: Id)
    requires TimelyRun(states, steps) && k < |steps|
    requires id in states[k].jobs && id in states[k + 1].jobs && !BeginsLife(states, steps, k, id)
    ensures states[k + 1].jobs[id].attempts == states[k].jobs[id].attempts +
              (if steps[k].Settle? && states[k].claims[steps[k].claim].id == id then 1 else 0)
  {
    var s, step := states[k], steps[k];
    TimelyReach(states, steps, k, id);
    ProjectStep(s, step, id);
    ProjectTiming(s, step, id);
    var v, mine := Project(s, id), StepFor(s, step, id);
    if mine.Settle? {
      assert Active(v, mine.claim);
      AttemptsSettle(v, mine);
    } else {
      AttemptsOtherwise(v, mine);
    }
  }

  /** What the worker decided from the row it had read is what the row as it stands calls for. */
  ghost predicate Decides(row: Row, status: Option<int>, clock: int, row': Row)
  {
    && row'.attempts == row.attempts + 1
    && (row'.state == Succeeded <==> IsSuccess(status))
    && (row'.state == Dead <==> !IsSuccess(status) && (!IsRetryable(status) || row'.attempts == row.maxAttempts))
    && (row'.state == Queued <==> IsRetryable(status) && row'.attempts < row.maxAttempts)
    && (row'.state == Queued ==> clock <= row'.runAt < clock + Cap(row'.attempts))
  }

  lemma SettleDecides(v: View, step: Step)
    requires WithinBudget(v) && ViewEnabled(v, step) && step.Settle? && v.row.Some?
    requires ClaimAgrees(v, v.claims[step.claim])
    ensures ViewDo(v, step).row.Some?
    ensures Decides(v.row.value, v.claims[step.claim].pc.status, step.clock, ViewDo(v, step).row.value)
  {
  }

  /**
   * An outcome alone decides what becomes of a job: a 2xx completes it, a
   * permanent failure or the last attempt buries it, and anything else
   * schedules it within the backoff cap for the attempts it has now used.
   */
  lemma OutcomeDecides(states: seq<State>, steps: seq<Step>, k: nat)
    requires TimelyRun(states, steps) && k < |steps| && steps[k].Settle?
    requires states[k].claims[steps[k].claim].id in states[k].jobs
    ensures var Held(id, claim) := states[k].claims[steps[k].claim];
            id in states[k + 1].jobs &&
            Decides(states[k].jobs[id], claim.pc.status, steps[k].clock, states[k + 1].jobs[id])
  {
    var s, step := states[k], steps[k];
    var id := s.claims[step.claim].id;
    TimelyReach(states, steps, k, id);
    ProjectStep(s, step, id);
    ProjectTiming(s, step, id);
    assert Active(Project(s, id), step.claim);
    SettleDecides(Project(s, id), step);
  }

  // ------------------------------------------------------------------ backoff

  /** An outcome puts the job back in the queue for another attempt. */
  predicate Reschedules(s: State, step: Step, t: State, id: Id)
  {
    step.Settle? && step.claim in s.claims && s.claims[step.claim].id == id &&
    id in t.jobs && t.jobs[id].state == Queued
  }

  function Scheduled(s: State, step: Step, t: State, id: Id): seq<int>
  {
    if Reschedules(s, step, t, id) then [t.jobs[id].runAt - step.clock] else []
  }

  /** How long each retry of the current life was put off when it was scheduled. */
  function DelaysInLife(states: seq<State>, steps: seq<Step>, k: nat, id: Id): seq<int>
    requires |states| == |steps| + 1 && k < |states|
  {
    if k == 0 || BeginsLife(states, steps, k - 1, id) then []
    else
      DelaysInLife(states, steps, k - 1, id) + Scheduled(states[k - 1], steps[k - 1], states[k], id)
  }

  lemma DelaysSettle(v: View, step: Step)
    requires WithinBudget(v) && ViewEnabled(v, step) && step.Settle? && ClaimAgrees(v, v.claims[step.claim])
    ensures var v' := ViewDo(v, step);
            v'.past.delays == v.past.delays +
              (if v'.row.Some? && v'.row.value.state == Queued then [v'.row.value.runAt - step.clock] else [])
  {
  }

  lemma DelaysOtherwise(v: View, step: Step)
    requires ViewEnabled(v, step) && NothingBeforeInsert(v) && !step.Settle?
    ensures ViewDo(v, step).past.delays == if step.Revive? && v.row.Some? then [] else v.past.delays
  {
  }

  lemma SettleSeen(s: State, step: Step, id: Id) returns (v: View, v': View)
    requires Enabled(s, step) && step.Settle? && s.claims[step.claim].id == id
    ensures v == Project(s, id) && ViewEnabled(v, step) && v' == ViewDo(v, step)
    ensures v.past == PastOf(s, id) && v'.past == PastOf(Do(s, step), id) && v'.row == Lookup(Do(s, step).jobs, id)
  {
    ProjectStep(s, step, id);
    v, v' := Project(s, id), ViewDo(Project(s, id), step);
  }

  lemma DelaysAtSettle(s: State, step: Step, id: Id)
    requires Enabled(s, step) && step.Settle? && s.claims[step.claim].id == id
    requires WithinBudget(Project(s, id)) && ClaimAgrees(Project(s, id), s.claims[step.claim].claim)
    ensures PastOf(Do(s, step), id).delays == PastOf(s, id).delays + Scheduled(s, step, Do(s, step), id)
  {
    var v, v' := SettleSeen(s, step, id);
    DelaysSettle(v, step);
  }

  lemma DelaysElsewhere(s: State, step: Step, id: Id)
    requires Enabled(s, step) && NothingBeforeInsert(Project(s, id))
    requires !(step.Settle? && s.claims[step.claim].id == id)
    ensures PastOf(Do(s, step), id).delays == if Revives(s, step, id) && id in s.jobs then [] else PastOf(s, id).delays
  {
    ProjectStep(s, step, id);
    DelaysOtherwise(Project(s, id), StepFor(s, step, id));
  }

  lemma DelaysStep(s: State, step: Step, id: Id)
    requires Enabled(s, step) && OnTime(s, step) && Sound(Project(s, id))
    ensures PastOf(Do(s, step), id).delays ==
              if Revives(s, step, id) && id in s.jobs then []
              else PastOf(s, id).delays + Scheduled(s, step, Do(s, step), id)
  {
    if step.Settle? && s.claims[step.claim].id == id {
      assert Active(Project(s, id), step.claim);
      DelaysAtSettle(s, step, id);
    } else {
      DelaysElsewhere(s, step, id);
    }
  }

  /** The delays the row's history remembers are those the run scheduled. */
  lemma {:induction false} DelaysAreScheduled(states: seq<State>, steps: seq<Step>, k: nat, id: Id)
    requires TimelyRun(states, steps) && k < |states|
    ensures PastOf(states[k], id).delays == DelaysInLife(states, steps, k, id)
  {
    if k > 0 {
      DelaysAreScheduled(states, steps, k - 1, id);
      TimelyReach(states, steps, k - 1, id);
      DelaysStep(states[k - 1], steps[k - 1], id);
    }
  }

  /** At most m - 1 delays, and in total no more than the capped and the uncapped geometric sums. */
  predicate WithinBackoff(delays: seq<int>, m: nat)
  {
    m >= 1 && |delays| <= m - 1 && 0 <= Sum(delays) <= Min(1_000 * (Pow2(m - 1) - 1), 60_000 * (m - 1))
  }

  lemma DelaysBounded(v: View)
    requires WithinBudget(v) && v.row.Some?
    ensures WithinBackoff(v.past.delays, v.row.value.maxAttempts)
  {
    TotalBackoff(v.past.delays);
    Pow2Monotone(|v.past.delays|, v.row.value.maxAttempts - 1);
  }

  lemma PastDelaysBounded(states: seq<State>, steps: seq<Step>, k: nat, id: Id)
    requires TimelyRun(states, steps) && k < |states| && id in states[k].jobs
    ensures WithinBackoff(PastOf(states[k], id).delays, states[k].jobs[id].maxAttempts)
  {
    TimelyReach(states, steps, k, id);
    DelaysBounded(Project(states[k], id));
  }

  /** All the retry delay one life of a job can schedule is bounded by the row's maxAttempts. */
  lemma BackoffPerLife(states: seq<State>, steps: seq<Step>, k: nat, id: Id)
    requires TimelyRun(states, steps) && k < |states| && id in states[k].jobs
    ensures WithinBackoff(DelaysInLife(states, steps, k, id), states[k].jobs[id].maxAttempts)
  {
    DelaysAreScheduled(states, steps, k, id);
    PastDelaysBounded(states, steps, k, id);
  }

  // ----------------------------------------------------- the dead-letter queue

  /** A worker that marked the row dead and, so far, went no further. */
  predicate StoppedBurying(s: State, c: nat, id: Id)
  {
    c in s.claims && s.claims[c].id == id && s.claims[c].claim.pc.Burying? &&
    s.claims[c].claim.life == PastOf(s, id).life
  }

  /**
   * A dead row's id is in the DLQ, or popped from it by a replay under way,
   * exactly when no worker is stopped between the UPDATE and the dead-letter
   * script.
   */
  lemma DeadIsInDlqIff(states: seq<State>, steps: seq<Step>, k: nat, id: Id)
    requires TimelyRun(states, steps) && k < |states|
    requires id in states[k].jobs && states[k].jobs[id].state == Dead
    ensures var s := states[k];
            (id in s.q.dlq || exists h :: InHand(s, h, id) && s.hands[h].hand.Popped?)
            <==> !exists c :: StoppedBurying(s, c, id)
  {
    var s, v := states[k], Project(states[k], id);
    TimelyReach(states, steps, k, id);
    CountIs(s.q.dlq, id);
    BuryingSeen(s, id);
    PoppedSeen(s, id);
  }

  lemma BuryingSeen(s: State, id: Id)
    ensures (exists c :: StoppedBurying(s, c, id)) <==> (exists c :: BuryingNow(Project(s, id), c))
  {
    forall c
      ensures StoppedBurying(s, c, id) <==> BuryingNow(Project(s, id), c)
    {
    }
  }

  lemma PoppedSeen(s: State, id: Id)
    ensures (exists h :: InHand(s, h, id) && s.hands[h].hand.Popped?) <==> ReplayPending(Project(s, id))
  {
    forall h
      ensures InHand(s, h, id) && s.hands[h].hand.Popped?
         <==> Holding(Project(s, id), h) && Project(s, id).hands[h].Popped?
    {
      HandsSeen(s, h, id);
    }
  }

  // ---------------------------------------------------------------- due times

  /** The step that last put the id in `ready`. */
  function LastArrival(states: seq<State>, steps: seq<Step>, k: nat, id: Id): Option<Step>
    requires |states| == |steps| + 1 && k < |states|
  {
    if k == 0 then None
    else if Count(states[k].q.ready, id) > Count(states[k - 1].q.ready, id) then Some(steps[k - 1])
    else LastArrival(states, steps, k - 1, id)
  }

  predicate ByTheReaper(arrival: Option<Step>)
  {
    arrival.Some? && arrival.value.Reap?
  }

  lemma ArrivalRowStep(v: View, step: Step)
    requires ViewEnabled(v, step) && RowStep(step)
    ensures ViewDo(v, step).ready == v.ready && ViewDo(v, step).past.arrival == v.past.arrival
  {
  }

  lemma ArrivalStep(v: View, step: Step)
    requires ViewEnabled(v, step) && NothingBeforeInsert(v)
    ensures var v' := ViewDo(v, step);
            v'.past.arrival.ByReaper? <==> if v'.ready > v.ready then step.Reap? else v.past.arrival.ByReaper?
  {
    if RowStep(step) {
      ArrivalRowStep(v, step);
    }
  }

  lemma Arrives(s: State, step: Step, id: Id)
    requires Enabled(s, step) && NothingBeforeInsert(Project(s, id))
    ensures PastOf(Do(s, step), id).arrival.ByReaper? <==>
              if Count(Do(s, step).q.ready, id) > Count(s.q.ready, id) then step.Reap?
              else PastOf(s, id).arrival.ByReaper?
  {
    ProjectStep(s, step, id);
    ArrivalStep(Project(s, id), StepFor(s, step, id));
  }

  lemma {:induction false} ArrivalsAreSeen(states: seq<State>, steps: seq<Step>, k: nat, id: Id)
    requires FreeRun(states, steps) && k < |states|
    ensures PastOf(states[k], id).arrival.ByReaper? <==> ByTheReaper(LastArrival(states, steps, k, id))
  {
    if k > 0 {
      ArrivalsAreSeen(states, steps, k - 1, id);
      FreeReach(states, steps, k - 1, id);
      Arrives(states[k - 1], steps[k - 1], id);
    }
  }

  /** No HTTP call starts before the job is due, unless it was the reaper that last put the id in `ready`. */
  lemma NoEarlyCall(states: seq<State>, steps: seq<Step>, k: nat)
    requires TimelyRun(states, steps) && k < |steps| && steps[k].Call?
    ensures var id := states[k].claims[steps[k].claim].id;
            id in states[k].jobs && !ByTheReaper(LastArrival(states, steps, k, id)) ==>
              states[k].now >= states[k].jobs[id].runAt
  {
    var s, step := states[k], steps[k];
    var id := s.claims[step.claim].id;
    TimelyReach(states, steps, k, id);
    ArrivalsAreSeen(states, steps, k, id);
    ProjectStep(s, step, id);
    ProjectTiming(s, step, id);
    assert Active(Project(s, id), step.claim);
  }
}
