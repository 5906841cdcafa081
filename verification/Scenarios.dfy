/**
 * Concrete runs, put together from what a worker, the reaper and a replay do to
 * one job. `timely` says whether every step so far was on time.
 */
module Scenarios {
  import opened Prelude
  import opened Redis
  import opened Jobs
  import opened Deliveries
  import opened Actors
  import opened Protocol
  import opened Runs
  import Queue

  const JOB: Id := 7
  const NEW_ROW := NewRow("w", 5, 0)

  ghost predicate AllOnTime(states: seq<State>, steps: seq<Step>)
    requires Path(states, steps)
  {
    forall k :: 0 <= k < |steps| ==> OnTime(states[k], steps[k])
  }

  /** A run from an empty system to s. */
  ghost predicate RunsTo(states: seq<State>, steps: seq<Step>, s: State, timely: bool)
  {
    PathBetween(Init(0), states, steps, s) && (timely ==> AllOnTime(states, steps))
  }

  ghost predicate Reached(s: State, timely: bool)
  {
    exists states, steps :: RunsTo(states, steps, s, timely)
  }

  lemma Onward(s: State, step: Step, timely: bool) returns (t: State)
    requires Reached(s, timely) && Enabled(s, step) && (timely ==> OnTime(s, step))
    ensures t == Do(s, step) && Reached(t, timely)
  {
    var states, steps :| RunsTo(states, steps, s, timely);
    PathOneMore(Init(0), states, steps, s, step);
    t := Do(s, step);
    assert RunsTo(states + [t], steps + [step], t, timely);
  }

  lemma Begun(timely: bool)
    ensures Reached(Init(0), timely)
  {
    assert RunsTo([Init(0)], [], Init(0), timely);
  }

  lemma RunOf(s: State, timely: bool) returns (states: seq<State>, steps: seq<Step>)
    requires Reached(s, timely)
    ensures FreeRun(states, steps) && states[|steps|] == s && (timely ==> TimelyRun(states, steps))
  {
    states, steps :| RunsTo(states, steps, s, timely);
  }

  /** The run to s, and one more step of it. */
  lemma RunThrough(s: State, step: Step, timely: bool) returns (states: seq<State>, steps: seq<Step>)
    requires Reached(s, timely) && Enabled(s, step)
    ensures FreeRun(states, steps + [step]) && states[|steps|] == s && states[|steps| + 1] == Do(s, step)
    ensures timely && OnTime(s, step) ==> TimelyRun(states, steps + [step])
  {
    var before;
    before, steps :| RunsTo(before, steps, s, timely);
    PathOneMore(Init(0), before, steps, s, step);
    states := before + [Do(s, step)];
  }

  // -------------------------------------------------------------- what happens to the job

  predicate OnlyReady(q: Queue.Queues)
  {
    q == Queue.Queues([JOB], [], map[], map[], [])
  }

  /** In flight under this lease, and nowhere else. */
  predicate OnlyLeased(q: Queue.Queues, lease: int)
  {
    q == Queue.Queues([], [JOB], map[JOB := lease], map[], [])
  }

  /** Everything but claim c is as it was. */
  predicate OnlyMoved(s: State, t: State, c: nat)
  {
    t.now == s.now && t.hands == s.hands && c in t.claims && t.claims == s.claims[c := t.claims[c]]
  }

  predicate Holds(s: State, c: nat, pc: Pc, lease: int)
  {
    c in s.claims && s.claims[c].id == JOB && s.claims[c].claim.pc == pc && s.claims[c].claim.lease == lease
  }

  lemma Enqueued(timely: bool) returns (s: State)
    ensures Reached(s, timely) && OnlyReady(s.q) && s.jobs == map[JOB := NEW_ROW]
    ensures s.now == 0 && s.claims == map[] && s.audit == [] && s.hands == map[0 := Handling(JOB, Empty)]
  {
    Begun(timely);
    s := Onward(Init(0), Insert(0, JOB, "w", 5, 0), timely);
    s := Onward(s, Place(0, 0), timely);
  }

  /** A worker reserves it. */
  lemma Claimed(s: State, c: nat, timely: bool) returns (t: State)
    requires Reached(s, timely) && OnlyReady(s.q) && c !in s.claims
    ensures Reached(t, timely) && OnlyMoved(s, t, c) && t.audit == s.audit && t.jobs == s.jobs
    ensures OnlyLeased(t.q, s.now + 60_000) && Holds(t, c, Leased, s.now + 60_000)
    ensures t.claims[c].claim.life == 0
  {
    t := Onward(s, Take(c), timely);
    assert t.q == Queue.Queues([], [JOB], map[], map[], []);
    t := Onward(t, TakeLease(c, s.now), timely);
  }

  /** It reads a live row. */
  lemma Read(s: State, c: nat, timely: bool) returns (t: State)
    requires Reached(s, timely) && c in s.claims && Holds(s, c, Leased, s.claims[c].claim.lease)
    requires timely ==> s.now < s.claims[c].claim.lease
    requires JOB in s.jobs && !Terminal(s.jobs[JOB])
    ensures Reached(t, timely) && OnlyMoved(s, t, c) && t.audit == s.audit && t.jobs == s.jobs && t.q == s.q
    ensures Holds(t, c, Loaded(s.jobs[JOB]), s.claims[c].claim.lease)
  {
    t := Onward(s, Load(c), timely);
  }

  /** And marks it in flight. */
  lemma Marked(s: State, c: nat, timely: bool) returns (t: State)
    requires Reached(s, timely) && c in s.claims && Holds(s, c, Leased, s.claims[c].claim.lease)
    requires timely ==> s.now < s.claims[c].claim.lease
    requires JOB in s.jobs && !Terminal(s.jobs[JOB]) && s.jobs[JOB].attempts <= s.jobs[JOB].maxAttempts
    ensures Reached(t, timely) && OnlyMoved(s, t, c) && t.audit == s.audit && t.q == s.q
    ensures t.jobs == s.jobs[JOB := s.jobs[JOB].(state := InFlight, lastError := None)]
    ensures Holds(t, c, Sending(s.jobs[JOB]), s.claims[c].claim.lease)
  {
    t := Read(s, c, timely);
    t := Onward(t, Dispatch(c), timely);
  }

  /** It makes its call. */
  lemma Called(s: State, c: nat, job: Row, timely: bool) returns (t: State)
    requires Reached(s, timely) && c in s.claims && Holds(s, c, Sending(job), s.claims[c].claim.lease)
    requires timely ==> s.now < s.claims[c].claim.lease
    ensures Reached(t, timely) && OnlyMoved(s, t, c) && t.q == s.q && t.jobs == s.jobs && t.audit == s.audit
    ensures Holds(t, c, Calling(job, NextNumber(Numbers(s.audit, JOB))), s.claims[c].claim.lease)
  {
    t := Onward(s, Number(c), timely);
    t := Onward(t, Call(c), timely);
  }

  /** And records the response. */
  lemma Delivered(s: State, c: nat, job: Row, status: Option<int>, timely: bool) returns (t: State)
    requires Reached(s, timely) && c in s.claims && Holds(s, c, Sending(job), s.claims[c].claim.lease)
    requires timely ==> s.now < s.claims[c].claim.lease
    requires JOB in s.jobs
    ensures Reached(t, timely) && OnlyMoved(s, t, c) && t.q == s.q && t.jobs == s.jobs
    ensures Holds(t, c, Audited(job, status), s.claims[c].claim.lease)
  {
    NextIsNew(Numbers(s.audit, JOB));
    t := Called(s, c, job, timely);
    t := Onward(t, Record(c, status), timely);
  }

  /** A permanent failure makes the row dead. */
  lemma Condemned(s: State, c: nat, timely: bool) returns (t: State)
    requires Reached(s, timely) && c in s.claims && Holds(s, c, Audited(NEW_ROW, Some(400)), s.claims[c].claim.lease)
    requires timely ==> s.now < s.claims[c].claim.lease
    requires s.jobs == map[JOB := NEW_ROW.(state := InFlight)]
    ensures Reached(t, timely) && OnlyMoved(s, t, c) && t.q == s.q
    ensures t.jobs == map[JOB := NEW_ROW.(state := Dead, attempts := 1, lastError := Some(HttpStatus(400)))]
    ensures Holds(t, c, Burying, s.claims[c].claim.lease)
  {
    t := Onward(s, Settle(c, s.now, 0.0), timely);
  }

  /** A dead row's id is discarded by whoever reads it. */
  lemma Discarded(s: State, c: nat, timely: bool) returns (t: State)
    requires Reached(s, timely) && c in s.claims && Holds(s, c, Leased, s.claims[c].claim.lease)
    requires timely ==> s.now < s.claims[c].claim.lease
    requires JOB in s.jobs && s.jobs[JOB].state == Dead
    ensures Reached(t, timely) && OnlyMoved(s, t, c) && t.q == s.q && t.jobs == s.jobs
    ensures Holds(t, c, Discarding, s.claims[c].claim.lease)
  {
    t := Onward(s, Load(c), timely);
  }

  /** The lease of the only claim runs out and the reaper acts. */
  lemma Reaped(s: State, timely: bool) returns (t: State)
    requires Reached(s, timely) && OnlyLeased(s.q, 60_000) && s.now <= 60_000
    ensures Reached(t, timely) && t.now == 60_000 && OnlyReady(t.q)
    ensures t.jobs == s.jobs && t.claims == s.claims && t.audit == s.audit && t.hands == s.hands
  {
    t := Onward(s, Tick(60_000), timely);
    ReapOfOne(t.q);
    t := Onward(t, Step.Reap(60_000, 100), timely);
  }

  lemma ReapOfOne(q: Queue.Queues)
    requires OnlyLeased(q, 60_000)
    ensures OnlyReady(Queue.ReapExpired(q, 60_000, 100))
  {
    RangeOfOne(60_000);
    assert Reverse([JOB]) == [JOB];
    assert LRem([JOB], JOB) == [];
    assert Queue.LRemEach([], []) == [];
  }

  predicate OnlyDelayed(q: Queue.Queues, runAt: int)
  {
    q == Queue.Queues([], [], map[], map[JOB := runAt], [])
  }

  lemma PromoteOfOne(q: Queue.Queues, runAt: int)
    requires OnlyDelayed(q, runAt)
    ensures OnlyReady(Queue.PromoteDue(q, runAt, 100))
  {
    RangeOfOne(runAt);
    assert Reverse([JOB]) == [JOB];
  }

  /** It comes due and the scheduler acts. */
  lemma Promoted(s: State, timely: bool) returns (t: State)
    requires Reached(s, timely) && OnlyDelayed(s.q, s.now)
    ensures Reached(t, timely) && t.now == s.now && OnlyReady(t.q)
    ensures t.jobs == s.jobs && t.claims == s.claims && t.audit == s.audit && t.hands == s.hands
  {
    PromoteOfOne(s.q, s.now);
    t := Onward(s, Step.Promote(s.now, 100), timely);
  }

  lemma RangeOfOne(score: int)
    ensures Range(map[JOB := score], score, 100) == [JOB]
  {
    var z := map[JOB := score];
    assert Due(z, score) == z;
    assert JOB in z && First(z) == JOB;
    assert z - {JOB} == map[];
    assert InOrder(z) == [JOB];
  }

  lemma Rejected(timely: bool) returns (s: State)
    ensures Reached(s, timely) && s.now == 0 && OnlyLeased(s.q, 60_000)
    ensures s.jobs == map[JOB := NEW_ROW.(state := InFlight)]
    ensures Holds(s, 0, Audited(NEW_ROW, Some(400)), 60_000)
    ensures s.claims.Keys == {0} && s.hands == map[0 := Handling(JOB, Empty)]
  {
    s := Enqueued(timely);
    s := Claimed(s, 0, timely);
    s := Marked(s, 0, timely);
    s := Delivered(s, 0, NEW_ROW, Some(400), timely);
  }

  /** Worker 0 stalls just before the dead-letter script, until its lease is gone. */
  lemma Stalled(timely: bool) returns (s: State)
    ensures Reached(s, timely) && s.now == 60_000 && OnlyReady(s.q)
    ensures s.jobs == map[JOB := NEW_ROW.(state := Dead, attempts := 1, lastError := Some(HttpStatus(400)))]
    ensures Holds(s, 0, Burying, 60_000) && s.claims.Keys == {0} && s.hands == map[0 := Handling(JOB, Empty)]
  {
    s := Rejected(timely);
    s := Condemned(s, 0, timely);
    s := Reaped(s, timely);
  }
}
