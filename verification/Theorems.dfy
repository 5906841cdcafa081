/**
 * The guarantees of the delivery engine, over every run of the whole system:
 * any number of jobs, workers, enqueuers, replayers and schedulers, any
 * interleaving, any of them stopping for good between any two steps.
 */
module Theorems {
  import opened Prelude
  import opened Redis
  import opened Jobs
  import opened Deliveries
  import opened Actors
  import opened Protocol
  import opened JobView
  import opened Projection
  import opened Runs
  import opened FreeRuns
  import opened Budgets

  // ------------------------------------------------------ lifting invariants

  ghost predicate Sound(v: View)
  {
    Budgeted(v) && Interred(v) && Punctual(v) && NoneAstray(v)
  }

  lemma BlankView(now: int, id: Id)
    ensures Project(Init(now), id) == Blank(now)
  {
  }

  lemma BlankIsFine(now: int)
    ensures NeverLost(Blank(now)) && Numbering(Blank(now))
    ensures Sound(Blank(now))
  {
  }

  lemma {:induction false} FreeReach(states: seq<State>, steps: seq<Step>, k: nat, id: Id)
    requires FreeRun(states, steps) && k < |states|
    ensures NeverLost(Project(states[k], id)) && Numbering(Project(states[k], id))
  {
    if k == 0 {
      BlankView(states[0].now, id);
      BlankIsFine(states[0].now);
    } else {
      FreeReach(states, steps, k - 1, id);
      ProjectStep(states[k - 1], steps[k - 1], id);
      NeverLostStep(Project(states[k - 1], id), StepFor(states[k - 1], steps[k - 1], id));
      NumberingStep(Project(states[k - 1], id), StepFor(states[k - 1], steps[k - 1], id));
    }
  }

  lemma SoundStep(v: View, step: Step)
    requires Sound(v) && ViewEnabled(v, step) && ViewOnTime(v, step)
    ensures Sound(ViewDo(v, step))
  {
    BudgetedStep(v, step);
    InterredStep(v, step);
    PunctualStep(v, step);
    NoneAstrayTimely(v, step);
  }

  lemma {:induction false} TimelyReach(states: seq<State>, steps: seq<Step>, k: nat, id: Id)
    requires TimelyRun(states, steps) && k < |states|
    ensures Sound(Project(states[k], id))
  {
    if k == 0 {
      BlankView(states[0].now, id);
      BlankIsFine(states[0].now);
    } else {
      TimelyReach(states, steps, k - 1, id);
      ProjectStep(states[k - 1], steps[k - 1], id);
      ProjectTiming(states[k - 1], steps[k - 1], id);
      SoundStep(Project(states[k - 1], id), StepFor(states[k - 1], steps[k - 1], id));
    }
  }

  // ------------------------------------------------- reading histories off runs

  /** Some enqueue call pushed the id to Redis before state k. */
  ghost predicate PushedBy(states: seq<State>, steps: seq<Step>, k: nat, id: Id)
    requires FreeRun(states, steps) && k < |states|
  {
    exists j :: 0 <= j < k && PushesAt(states, steps, j, id)
  }

  predicate PushesAt(states: seq<State>, steps: seq<Step>, j: nat, id: Id)
    requires |states| == |steps| + 1 && j < |steps|
  {
    steps[j].Place? && steps[j].hand in states[j].hands && states[j].hands[steps[j].hand].id == id
  }

  predicate TerminalAt(s: State, id: Id)
  {
    id in s.jobs && Terminal(s.jobs[id])
  }

  /** The row was succeeded or dead at some state up to k. */
  ghost predicate EverTerminal(states: seq<State>, k: nat, id: Id)
    requires k < |states|
  {
    exists j :: 0 <= j <= k && TerminalAt(states[j], id)
  }

  lemma HistoryStep(v: View, step: Step)
    requires ViewEnabled(v, step) && NothingBeforeInsert(v)
    requires v.past.pushed ==> v.past.issued
    ensures var p := ViewDo(v, step).past;
            (v.past.pushed || step.Place? ==> p.pushed) && (p.pushed ==> p.issued)
  {
  }

  lemma SettledStep(v: View, step: Step)
    requires ViewEnabled(v, step)
    ensures ViewDo(v, step).past.settled ==>
              v.past.settled || (ViewDo(v, step).row.Some? && Terminal(ViewDo(v, step).row.value))
  {
  }

  lemma {:induction false} SettledMeansTerminal(states: seq<State>, steps: seq<Step>, k: nat, id: Id)
    requires FreeRun(states, steps) && k < |states|
    ensures PastOf(states[k], id).settled ==> EverTerminal(states, k, id)
  {
    if k > 0 {
      SettledMeansTerminal(states, steps, k - 1, id);
      ProjectStep(states[k - 1], steps[k - 1], id);
      SettledStep(Project(states[k - 1], id), StepFor(states[k - 1], steps[k - 1], id));
      assert TerminalAt(states[k], id) ==> EverTerminal(states, k, id);
      if EverTerminal(states, k - 1, id) {
        var j :| 0 <= j <= k - 1 && TerminalAt(states[j], id);
        assert EverTerminal(states, k, id);
      }
    }
  }

  lemma PushedStep(s: State, step: Step, id: Id)
    requires Enabled(s, step) && NeverLost(Project(s, id))
    requires PastOf(s, id).pushed ==> PastOf(s, id).issued
    ensures PastOf(s, id).pushed || (step.Place? && s.hands[step.hand].id == id) ==> PastOf(Do(s, step), id).pushed
    ensures PastOf(Do(s, step), id).pushed ==> PastOf(Do(s, step), id).issued
  {
    ProjectStep(s, step, id);
    HistoryStep(Project(s, id), StepFor(s, step, id));
  }

  lemma {:induction false} PushedIsRemembered(states: seq<State>, steps: seq<Step>, k: nat, id: Id)
    requires FreeRun(states, steps) && k < |states|
    ensures PushedBy(states, steps, k, id) ==> PastOf(states[k], id).pushed
    ensures PastOf(states[k], id).pushed ==> PastOf(states[k], id).issued
  {
    if k > 0 {
      PushedIsRemembered(states, steps, k - 1, id);
      FreeReach(states, steps, k - 1, id);
      PushedStep(states[k - 1], steps[k - 1], id);
      if PushedBy(states, steps, k, id) {
        var j :| 0 <= j < k && PushesAt(states, steps, j, id);
        assert j < k - 1 ==> PushedBy(states, steps, k - 1, id);
      }
    }
  }

  // -------------------------------------------------- free runs: nothing is lost

  ghost predicate InWindow(s: State, id: Id)
  {
    exists c :: c in s.claims && s.claims[c].id == id && s.claims[c].claim.pc.Reserved?
  }

  /** Something will bring the id back: a worker, a promotion, the reaper, or a worker about to record its lease. */
  ghost predicate Waits(s: State, id: Id)
  {
    id in s.q.ready || id in s.q.delayed || id in s.q.leases || InWindow(s, id)
  }

  /**
   * Under no timing assumption at all, a job pushed to Redis whose row has not
   * been settled is waiting, or scheduled, or under a lease that can expire. The
   * one exception is a worker stopped between BRPOPLPUSH and ZADD.
   */
  lemma NoJobLost(states: seq<State>, steps: seq<Step>, k: nat, id: Id)
    requires FreeRun(states, steps) && k < |states|
    requires id in states[k].jobs && PushedBy(states, steps, k, id) && !EverTerminal(states, k, id)
    ensures Waits(states[k], id)
  {
    var s, v := states[k], Project(states[k], id);
    FreeReach(states, steps, k, id);
    PushedIsRemembered(states, steps, k, id);
    SettledMeansTerminal(states, steps, k, id);
    CountIs(s.q.ready, id);
    if InReserveWindow(v) {
      var c :| c in v.claims && v.claims[c].pc.Reserved?;
      assert c in s.claims && s.claims[c].id == id;
    }
  }

  /**
   * Whoever interleaves, stale workers and replays included, the attempts
   * recorded for a job are numbered 1, 2, ..., n in the order they were made.
   */
  lemma AttemptNumbersAreSequential(states: seq<State>, steps: seq<Step>, k: nat, id: Id)
    requires FreeRun(states, steps) && k < |states|
    ensures Sequential(Numbers(states[k].audit, id))
  {
    FreeReach(states, steps, k, id);
  }

  /** Wherever some run comes to. */
  lemma ReachableNumbersAreSequential(s: State, id: Id)
    requires Reachable(s)
    ensures Sequential(Numbers(s.audit, id))
  {
    var states, steps :| FreeRun(states, steps) && states[|steps|] == s;
    AttemptNumbersAreSequential(states, steps, |steps|, id);
  }

  /** An audit INSERT is refused exactly when the row is gone or someone recorded that number first. */
  lemma RecordRefusedIff(states: seq<State>, steps: seq<Step>, k: nat)
    requires FreeRun(states, steps) && k < |steps| && steps[k].Record?
    ensures var Held(id, claim) := states[k].claims[steps[k].claim];
            var n := |Numbers(states[k].audit, id)|;
            (states[k + 1].audit == states[k].audit <==> id !in states[k].jobs || claim.pc.number <= n) &&
            (states[k + 1].audit != states[k].audit ==> claim.pc.number == n + 1)
  {
    var s := states[k];
    var Held(id, claim) := s.claims[steps[k].claim];
    FreeReach(states, steps, k, id);
    assert steps[k].claim in Project(s, id).claims;
    NextAfterSequential(Numbers(s.audit, id));
  }

  // ------------------------------------------------------------- the same job throughout

  /** A row's webhook and budget do not change. */
  predicate SameJob(a: Option<Row>, b: Option<Row>)
  {
    a.Some? && b.Some? ==> b.value.webhookId == a.value.webhookId && b.value.maxAttempts == a.value.maxAttempts
  }

  lemma SameJobStep(v: View, step: Step)
    requires ViewEnabled(v, step) && v.past.issued
    ensures SameJob(v.row, ViewDo(v, step).row)
    ensures ViewDo(v, step).past.issued && (v.row.None? ==> ViewDo(v, step).row.None?)
  {
  }

  lemma SameJobOnce(s: State, step: Step, id: Id)
    requires Enabled(s, step) && PastOf(s, id).issued
    ensures SameJob(Lookup(s.jobs, id), Lookup(Do(s, step).jobs, id))
    ensures PastOf(Do(s, step), id).issued && (id in Do(s, step).jobs ==> id in s.jobs)
  {
    ProjectStep(s, step, id);
    SameJobStep(Project(s, id), StepFor(s, step, id));
  }

  lemma InsertedRow(s: State, step: Step)
    requires Enabled(s, step) && step.Insert?
    ensures PastOf(Do(s, step), step.id).issued
    ensures Do(s, step).jobs == s.jobs[step.id := NewRow(step.webhookId, step.maxAttempts, step.runAt)]
  {
  }

  /** In every run a job keeps the webhook and the retry budget it was enqueued with, replays included. */
  lemma {:induction false} JobsKeepTheirWebhook(states: seq<State>, steps: seq<Step>, j: nat, k: nat, id: Id)
    requires FreeRun(states, steps) && j < k < |states| && steps[j].Insert? && steps[j].id == id
    ensures PastOf(states[k], id).issued
    ensures id in states[k].jobs ==>
              states[k].jobs[id].webhookId == steps[j].webhookId &&
              states[k].jobs[id].maxAttempts == steps[j].maxAttempts
    decreases k
  {
    if k > j + 1 {
      JobsKeepTheirWebhook(states, steps, j, k - 1, id);
      SameJobOnce(states[k - 1], steps[k - 1], id);
    } else {
      InsertedRow(states[j], steps[j]);
    }
  }
}
