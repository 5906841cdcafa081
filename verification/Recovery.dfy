/**
 * When a live job can be lost.
 *
 * Replay gives a settled job a new life, and with it comes a hazard: a worker
 * that stalled with the old life's ack in hand. Here is exactly what it can do.
 */
module Recovery {
  import opened Prelude
  import opened Redis
  import opened Jobs
  import opened Actors
  import opened Protocol
  import opened Projection
  import opened FreeRuns
  import opened Runs
  import opened Theorems
  import Scheduler

  // ------------------------------------------------------------- nothing live is lost

  /** No claim on the id stands just before an ack or a dead-letter script. */
  ghost predicate NobodyEnds(s: State, id: Id)
  {
    forall c <- s.claims :: s.claims[c].id == id ==> !EndsClaim(s.claims[c].claim.pc)
  }

  lemma SeenLive(s: State, id: Id)
    ensures LiveRow(Project(s, id)) <==> Live(s.jobs, id)
    ensures NobodyEnds(s, id) <==> NoneEnds(Project(s, id))
    ensures Waits(s, id) <==> Kept(Project(s, id))
  {
    var v := Project(s, id);
    CountIs(s.q.ready, id);
    assert forall c :: c in v.claims <==> c in s.claims && s.claims[c].id == id;
    if InReserveWindow(v) {
      var c :| c in v.claims && v.claims[c].pc.Reserved?;
      assert c in s.claims && s.claims[c].id == id;
    }
    if InWindow(s, id) {
      var c :| c in s.claims && s.claims[c].id == id && s.claims[c].claim.pc.Reserved?;
      assert c in v.claims && v.claims[c].pc.Reserved?;
    }
  }

  lemma StaysOneStep(s: State, step: Step, id: Id)
    requires Enabled(s, step) && Live(s.jobs, id) && NobodyEnds(s, id) && Waits(s, id) && Live(Do(s, step).jobs, id)
    ensures NobodyEnds(Do(s, step), id) && Waits(Do(s, step), id)
  {
    SeenLive(s, id);
    SeenLive(Do(s, step), id);
    ProjectStep(s, step, id);
    LiveJobStays(Project(s, id), StepFor(s, step, id));
  }

  /** An enqueue or a replay puts the id in Redis at this step. */
  predicate PutsBack(s: State, step: Step, id: Id)
  {
    (step.Place? || step.PushBack?) && step.hand in s.hands && s.hands[step.hand].id == id
  }

  lemma PutBackWaits(s: State, step: Step, id: Id)
    requires Enabled(s, step) && PutsBack(s, step, id)
    ensures Waits(Do(s, step), id)
  {
    SeenLive(Do(s, step), id);
    ProjectStep(s, step, id);
  }

  /**
   * Under no timing assumption at all, first life or replayed: from the moment
   * it is pushed, and for as long as its row is live, a job is waiting,
   * scheduled, leased or about to be leased, provided that nobody held an ack
   * or a dead-letter script for it when it was pushed.
   */
  lemma {:induction false} NoPushLost(states: seq<State>, steps: seq<Step>, j: nat, k: nat, id: Id)
    requires FreeRun(states, steps) && j < k < |states|
    requires PutsBack(states[j], steps[j], id) && NobodyEnds(states[j + 1], id)
    requires forall i :: j < i <= k ==> Live(states[i].jobs, id)
    ensures Waits(states[k], id) && NobodyEnds(states[k], id)
    decreases k
  {
    if k == j + 1 {
      PutBackWaits(states[j], steps[j], id);
    } else {
      NoPushLost(states, steps, j, k - 1, id);
      assert Live(states[k - 1].jobs, id) && Live(states[k].jobs, id);
      StaysOneStep(states[k - 1], steps[k - 1], id);
    }
  }

  // -------------------------------------------------------------- exactly when not

  /** These steps lead from s to t, and the row is live all the way. */
  ghost predicate LeadsLive(s: State, states: seq<State>, steps: seq<Step>, t: State, id: Id)
  {
    PathBetween(s, states, steps, t) && forall i :: 0 <= i < |states| ==> Live(states[i].jobs, id)
  }

  lemma {:induction false} LiveStays(s: State, states: seq<State>, steps: seq<Step>, t: State, id: Id, i: nat)
    requires LeadsLive(s, states, steps, t, id) && NobodyEnds(s, id) && Waits(s, id) && i < |states|
    ensures Waits(states[i], id) && NobodyEnds(states[i], id)
    decreases i
  {
    if i > 0 {
      LiveStays(s, states, steps, t, id, i - 1);
      assert Live(states[i - 1].jobs, id) && Live(states[i].jobs, id);
      StaysOneStep(states[i - 1], steps[i - 1], id);
    }
  }

  /** Clocks are read as they stand, and a sweep takes the batch the scheduler asks for. */
  predicate AsDeployed(s: State, step: Step)
  {
    (ReadsClock(step) ==> step.clock == s.now) &&
    (step.Promote? || step.Reap? ==> step.batch == Scheduler.BATCH_SIZE)
  }

  /** The job can be brought from s to t with its row live all the way; `strict` rules out steps not as deployed. */
  ghost predicate ReachesLive(s: State, t: State, id: Id, strict: bool)
  {
    exists states, steps :: LeadsLive(s, states, steps, t, id) && (strict ==> AllAsDeployed(states, steps))
  }

  ghost predicate AllAsDeployed(states: seq<State>, steps: seq<Step>)
    requires |states| == |steps| + 1
  {
    forall i :: 0 <= i < |steps| ==> AsDeployed(states[i], steps[i])
  }

  lemma LiveNowhere(s: State, id: Id)
    requires Live(s.jobs, id)
    ensures ReachesLive(s, s, id, true)
  {
    assert LeadsLive(s, [s], [], s, id);
  }

  lemma LiveThen(s: State, t: State, step: Step, id: Id)
    requires ReachesLive(s, t, id, true) && Enabled(t, step) && AsDeployed(t, step) && Live(Do(t, step).jobs, id)
    ensures ReachesLive(s, Do(t, step), id, true)
  {
    var states, steps :| LeadsLive(s, states, steps, t, id) && AllAsDeployed(states, steps);
    PathOneMore(s, states, steps, t, step);
    assert LeadsLive(s, states + [Do(t, step)], steps + [step], Do(t, step), id);
    assert AllAsDeployed(states + [Do(t, step)], steps + [step]);
  }

  /** The rows are the same, and so are the claims that are about to end. */
  predicate Undisturbed(s: State, t: State)
  {
    t.jobs == s.jobs &&
    forall c <- s.claims :: EndsClaim(s.claims[c].claim.pc) ==> c in t.claims && t.claims[c] == s.claims[c]
  }

  /** Batch by batch the scheduler promotes a due id. */
  lemma {:induction false} PromotedAway(s0: State, s: State, id: Id) returns (t: State)
    requires ReachesLive(s0, s, id, true) && Live(s.jobs, id) && id in s.q.delayed && s.q.delayed[id] <= s.now
    ensures ReachesLive(s0, t, id, true) && Undisturbed(s, t) && id !in t.q.delayed
    decreases Rank(s.q.delayed, id)
  {
    var step := Step.Promote(s.now, Scheduler.BATCH_SIZE);
    RankAfterBatch(s.q.delayed, s.now, Scheduler.BATCH_SIZE, id);
    LiveThen(s0, s, step, id);
    t := PromoteStep(s, s.now, Scheduler.BATCH_SIZE);
    if id in t.q.delayed {
      t := PromotedAway(s0, t, id);
    }
  }

  /** When its time has come, that is. */
  lemma Undelayed(s0: State, s: State, id: Id) returns (t: State)
    requires ReachesLive(s0, s, id, true) && Live(s.jobs, id)
    ensures ReachesLive(s0, t, id, true) && Undisturbed(s, t) && id !in t.q.delayed
  {
    t := s;
    if id in s.q.delayed {
      var step := Tick(Max(s.now, s.q.delayed[id]));
      LiveThen(s0, s, step, id);
      t := PromotedAway(s0, Do(s, step), id);
    }
  }

  /** Workers take whatever is in `ready`. */
  lemma {:induction false} Drained(s0: State, s: State, id: Id) returns (t: State)
    requires ReachesLive(s0, s, id, true) && Live(s.jobs, id) && id !in s.q.delayed
    ensures ReachesLive(s0, t, id, true) && Undisturbed(s, t) && id !in t.q.delayed && t.q.ready == []
    decreases |s.q.ready|
  {
    if s.q.ready == [] {
      t := s;
    } else {
      var c := FreshKey(s.claims);
      LiveThen(s0, s, Take(c), id);
      t := Drained(s0, Do(s, Take(c)), id);
    }
  }

  function AtWindow(s: State): set<nat>
  {
    set c | c in s.claims && s.claims[c].claim.pc.Reserved?
  }

  /** Every worker in the reserve window records its lease. */
  lemma {:induction false} AllLeased(s0: State, s: State, id: Id) returns (t: State)
    requires ReachesLive(s0, s, id, true) && Live(s.jobs, id) && id !in s.q.delayed && s.q.ready == []
    ensures ReachesLive(s0, t, id, true) && Undisturbed(s, t)
    ensures id !in t.q.delayed && t.q.ready == [] && AtWindow(t) == {}
    decreases |AtWindow(s)|
  {
    if AtWindow(s) == {} {
      t := s;
    } else {
      var c :| c in AtWindow(s);
      var s1 := Do(s, TakeLease(c, s.now));
      assert AtWindow(s1) == AtWindow(s) - {c};
      LiveThen(s0, s, TakeLease(c, s.now), id);
      t := AllLeased(s0, s1, id);
    }
  }

  /** A claim about to end can wait until it is the last hold on the id, and then let go. */
  lemma CanBeLost(s: State, id: Id, c: nat) returns (t: State)
    requires Live(s.jobs, id) && c in s.claims && s.claims[c].id == id && EndsClaim(s.claims[c].claim.pc)
    ensures ReachesLive(s, t, id, true) && !Waits(t, id)
  {
    LiveNowhere(s, id);
    var s1 := Undelayed(s, s, id);
    var s2 := Drained(s, s1, id);
    var s3 := AllLeased(s, s2, id);
    assert s3.claims[c] == s.claims[c];
    t := LetGo(s3, id, c);
    LiveThen(s, s3, Release(c), id);
  }

  lemma LetGo(s: State, id: Id, c: nat) returns (t: State)
    requires Live(s.jobs, id) && id !in s.q.delayed && s.q.ready == [] && AtWindow(s) == {}
    requires c in s.claims && s.claims[c].id == id && EndsClaim(s.claims[c].claim.pc)
    ensures Enabled(s, Release(c)) && t == Do(s, Release(c)) && Live(t.jobs, id) && !Waits(t, id)
  {
    forall b | b in s.claims
      ensures !s.claims[b].claim.pc.Reserved?
    {
      assert b !in AtWindow(s);
    }
    t := Do(s, Release(c));
  }

  /** Nobody can lose the job while its row is live. */
  ghost predicate Safe(s: State, id: Id, strict: bool)
  {
    forall t :: ReachesLive(s, t, id, strict) ==> Waits(t, id)
  }

  /**
   * The exact condition. A live job that is waiting can never be lost, whatever
   * anyone does while its row is live, if and only if no claim on it stands
   * just before an ack or a dead-letter script. Nobody has to misread a clock
   * or sweep out of the ordinary to lose it.
   */
  lemma NeverLostIff(s: State, id: Id, strict: bool)
    requires Live(s.jobs, id) && Waits(s, id)
    ensures Safe(s, id, strict) <==> NobodyEnds(s, id)
  {
    if NobodyEnds(s, id) {
      forall t | ReachesLive(s, t, id, strict)
        ensures Waits(t, id)
      {
        var states, steps :| LeadsLive(s, states, steps, t, id);
        LiveStays(s, states, steps, t, id, |steps|);
      }
    } else {
      var c :| c in s.claims && s.claims[c].id == id && EndsClaim(s.claims[c].claim.pc);
      var t := CanBeLost(s, id, c);
      assert ReachesLive(s, t, id, strict);
    }
  }
}
