/** What becomes of a replayed job, over every timely run. */
module ReplayTheorems {
  import opened Redis
  import opened Jobs
  import opened Deliveries
  import opened Actors
  import opened Protocol
  import opened JobView
  import opened Projection
  import opened FreeRuns
  import opened TimelyRuns
  import opened Theorems

  /** Before the first attempt of a life, its attempt count at zero and its audit trail as it was. */
  ghost predicate Unstarted(v: View, numbers: seq<nat>)
  {
    && v.row.Some? && !Terminal(v.row.value) && v.row.value.attempts == 0 && v.numbers == numbers && v.dlq == 0
    && (forall h :: Holding(v, h) ==> v.hands[h].Revived?)
    && (forall c :: Active(v, c) ==>
          v.claims[c].pc.Reserved? || v.claims[c].pc.Leased? || v.claims[c].pc.Loaded? || v.claims[c].pc.Sending? ||
          v.claims[c].pc.Deferring?)
  }

  lemma RevivedUnstarted(v: View, step: Step)
    requires Located(v) && ViewEnabled(v, step) && step.Revive? && v.row.Some?
    ensures Unstarted(ViewDo(v, step), v.numbers)
  {
    assert Holding(v, step.hand);
    OtherHands(v, step);
    OtherClaims(v, step);
  }

  lemma UnstartedHand(v: View, step: Step, numbers: seq<nat>)
    requires Unstarted(v, numbers) && ViewEnabled(v, step) && OfHand(step)
    ensures Unstarted(ViewDo(v, step), numbers)
  {
    assert step.hand in v.hands ==> v.hands[step.hand].Empty? || Holding(v, step.hand);
    OtherHands(v, step);
    OtherClaims(v, step);
  }

  lemma UnstartedWorker(v: View, step: Step, numbers: seq<nat>)
    requires Unstarted(v, numbers) && ViewEnabled(v, step) && OfWorker(step) && !step.Number?
    requires UnderLease(step) ==> Active(v, step.claim)
    ensures Unstarted(ViewDo(v, step), numbers)
  {
    OtherHands(v, step);
    OtherClaims(v, step);
  }

  lemma UnstartedOther(v: View, step: Step, numbers: seq<nat>)
    requires Unstarted(v, numbers) && ViewEnabled(v, step) && !OfHand(step) && !OfWorker(step) && !step.DeleteRow?
    ensures Unstarted(ViewDo(v, step), numbers)
  {
    OtherHands(v, step);
    OtherClaims(v, step);
  }

  lemma UnstartedStep(v: View, step: Step, numbers: seq<nat>)
    requires Unstarted(v, numbers) && ViewEnabled(v, step) && ViewOnTime(v, step)
    requires !step.Number? && !step.DeleteRow?
    ensures Unstarted(ViewDo(v, step), numbers)
  {
    if OfHand(step) {
      UnstartedHand(v, step, numbers);
    } else if OfWorker(step) {
      assert UnderLease(step) ==> Active(v, step.claim);
      UnstartedWorker(v, step, numbers);
    } else {
      UnstartedOther(v, step, numbers);
    }
  }

  /** A replay resets the job's row at this step. */
  predicate RevivedAt(s: State, step: Step, id: Id)
  {
    step.Revive? && step.hand in s.hands && s.hands[step.hand].id == id && id in s.jobs
  }

  /** This step takes the number for an attempt, or deletes the job. */
  predicate StartsOrEnds(s: State, step: Step, id: Id)
  {
    (step.Number? && step.claim in s.claims && s.claims[step.claim].id == id) || step == DeleteRow(id)
  }

  lemma UntouchedAtReset(s: State, step: Step, id: Id)
    requires Enabled(s, step) && Located(Project(s, id)) && RevivedAt(s, step, id)
    ensures Unstarted(Project(Do(s, step), id), Numbers(s.audit, id))
  {
    ProjectStep(s, step, id);
    RevivedUnstarted(Project(s, id), step);
  }

  lemma UntouchedOnce(s: State, step: Step, id: Id, numbers: seq<nat>)
    requires Enabled(s, step) && OnTime(s, step)
    requires Unstarted(Project(s, id), numbers) && !StartsOrEnds(s, step, id)
    ensures Unstarted(Project(Do(s, step), id), numbers)
  {
    ProjectStep(s, step, id);
    ProjectTiming(s, step, id);
    UnstartedStep(Project(s, id), StepFor(s, step, id), numbers);
  }

  /** From the reset to the first attempt, nothing about the job's budget or its audit trail changes. */
  lemma {:induction false} UntouchedUntilStarted(states: seq<State>, steps: seq<Step>, j: nat, k: nat, id: Id)
    requires TimelyRun(states, steps) && j < k < |states| && RevivedAt(states[j], steps[j], id)
    requires forall i :: j < i < k ==> !StartsOrEnds(states[i], steps[i], id)
    ensures Unstarted(Project(states[k], id), Numbers(states[j].audit, id))
    decreases k
  {
    if k == j + 1 {
      TimelyReach(states, steps, j, id);
      UntouchedAtReset(states[j], steps[j], id);
    } else {
      UntouchedUntilStarted(states, steps, j, k - 1, id);
      UntouchedOnce(states[k - 1], steps[k - 1], id, Numbers(states[j].audit, id));
    }
  }

  /** Whoever reads a replayed job before its first attempt finds it alive. */
  lemma ReplayedJobsPassTheGuard(states: seq<State>, steps: seq<Step>, j: nat, k: nat, id: Id)
    requires TimelyRun(states, steps) && j < k < |steps| && RevivedAt(states[j], steps[j], id)
    requires forall i :: j < i < k ==> !StartsOrEnds(states[i], steps[i], id)
    requires steps[k].Load? && states[k].claims[steps[k].claim].id == id
    ensures id in states[k].jobs && states[k].jobs[id].attempts == 0
    ensures states[k + 1].claims[steps[k].claim].claim.pc == Loaded(states[k].jobs[id])
  {
    UntouchedUntilStarted(states, steps, j, k, id);
    LoadedIfLive(states[k], steps[k]);
  }

  lemma LoadedIfLive(s: State, step: Step)
    requires Enabled(s, step) && step.Load?
    ensures step.claim in Do(s, step).claims
    ensures var id := s.claims[step.claim].id;
            id in s.jobs && !Terminal(s.jobs[id]) ==> Do(s, step).claims[step.claim].claim.pc == Loaded(s.jobs[id])
  {
  }

  /**
   * And the first attempt after a replay, whenever it comes, goes on with the
   * numbers of the life before: n recorded attempts make it number n + 1, with
   * the whole retry budget ahead.
   */
  lemma ReplayedJobsNextAttempt(states: seq<State>, steps: seq<Step>, j: nat, k: nat, id: Id)
    requires TimelyRun(states, steps) && j < k < |steps| && RevivedAt(states[j], steps[j], id)
    requires forall i :: j < i < k ==> !StartsOrEnds(states[i], steps[i], id)
    requires steps[k].Number? && states[k].claims[steps[k].claim].id == id
    ensures var pc := states[k + 1].claims[steps[k].claim].claim.pc;
            && pc.Numbered? && pc.number == |Numbers(states[j].audit, id)| + 1
            && pc.number !in Numbers(states[j].audit, id) && pc.job.attempts == 0
  {
    UntouchedUntilStarted(states, steps, j, k, id);
    TimelyReach(states, steps, k, id);
    NumberedNext(states[k], steps[k], id);
    NextAfterSequential(Numbers(states[k].audit, id));
  }

  lemma NumberedNext(s: State, step: Step, id: Id)
    requires Enabled(s, step) && OnTime(s, step) && step.Number? && s.claims[step.claim].id == id
    requires ClaimsAgree(Project(s, id)) && Project(s, id).row.Some?
    ensures step.claim in Do(s, step).claims
    ensures var pc := Do(s, step).claims[step.claim].claim.pc;
            && pc.Numbered? && pc.number == NextNumber(Numbers(s.audit, id))
            && pc.job.attempts == Project(s, id).row.value.attempts
  {
    assert Active(Project(s, id), step.claim);
  }
}
