/**
 * The guarantees that rest on the visibility timeout: in every run in which
 * workers act only under their own running lease, with crashes anywhere.
 */
module TimelyTheorems {
  import opened Redis
  import opened Jobs
  import opened Actors
  import opened Protocol
  import opened JobView
  import opened Projection
  import opened FreeRuns
  import opened TimelyRuns
  import opened Theorems
  import Queue
  import Promotion
  import Reaping

  // ------------------------------------------------------------ one location

  function Places(q: Queue.Queues, id: Id): nat
  {
    Count(q.ready, id) + Count(q.inflight, id) + Count(q.dlq, id) + (if id in q.delayed then 1 else 0)
  }

  /** An enqueuer or replayer, alive or not, has the id and Redis does not. */
  predicate InHand(s: State, h: nat, id: Id)
  {
    h in s.hands && s.hands[h].id == id && !s.hands[h].hand.Empty?
  }

  /** A worker that may still act on its claim. */
  predicate MayAct(s: State, c: nat)
  {
    c in s.claims && (s.claims[c].claim.pc.Reserved? ||
                      (!s.claims[c].claim.pc.Over? && s.now < s.claims[c].claim.lease))
  }

  lemma HandsSeen(s: State, h: nat, id: Id)
    ensures InHand(s, h, id) <==> Holding(Project(s, id), h)
  {
  }

  lemma ClaimsSeen(s: State, c: nat, id: Id)
    ensures Active(Project(s, id), c) <==> MayAct(s, c) && s.claims[c].id == id
  {
  }

  /**
   * Each id is in at most one place, once; a lease belongs to an id in flight;
   * and an id in flight without a lease is one whose claimer is, or died, in
   * the reserve window.
   */
  lemma OneLocation(states: seq<State>, steps: seq<Step>, k: nat, id: Id)
    requires TimelyRun(states, steps) && k < |states|
    ensures var s := states[k];
            && Places(s.q, id) <= 1
            && (forall h :: InHand(s, h, id) ==> Places(s.q, id) == 0)
            && (forall g, h :: InHand(s, g, id) && InHand(s, h, id) ==> g == h)
            && (id in s.q.leases ==> id in s.q.inflight)
            && (id in s.q.inflight && id !in s.q.leases <==> InWindow(s, id))
  {
    var s, v := states[k], Project(states[k], id);
    TimelyReach(states, steps, k, id);
    CountIs(s.q.inflight, id);
    forall h
      ensures InHand(s, h, id) <==> Holding(v, h)
    {
      HandsSeen(s, h, id);
    }
    if InReserveWindow(v) {
      var c :| c in v.claims && v.claims[c].pc.Reserved?;
      assert s.claims[c].id == id;
    }
    if InWindow(s, id) {
      var c :| c in s.claims && s.claims[c].id == id && s.claims[c].claim.pc.Reserved?;
      assert Active(v, c);
    }
  }

  /** No two workers may act on one job, so a job in flight has one owner. */
  lemma OneOwner(states: seq<State>, steps: seq<Step>, k: nat, b: nat, c: nat)
    requires TimelyRun(states, steps) && k < |states|
    requires MayAct(states[k], b) && MayAct(states[k], c) && states[k].claims[b].id == states[k].claims[c].id
    ensures b == c
    ensures states[k].claims[c].id in states[k].q.inflight
  {
    var s, id := states[k], states[k].claims[c].id;
    TimelyReach(states, steps, k, id);
    ClaimsSeen(s, b, id);
    ClaimsSeen(s, c, id);
    CountIs(s.q.inflight, id);
  }

  /** Claimed by c, which has not recorded its lease. */
  predicate Stranded(s: State, c: nat, id: Id)
  {
    c in s.claims && s.claims[c].id == id && s.claims[c].claim.pc.Reserved?
  }

  lemma StrandedMeansOutOfReach(states: seq<State>, steps: seq<Step>, k: nat, c: nat, id: Id)
    requires TimelyRun(states, steps) && k < |states| && Stranded(states[k], c, id)
    ensures id in states[k].q.inflight && id !in states[k].q.leases && id !in states[k].q.ready
  {
    assert InWindow(states[k], id);
    OneLocation(states, steps, k, id);
    CountIs(states[k].q.ready, id);
    CountIs(states[k].q.inflight, id);
  }

  /**
   * The reaper goes by leases, so it never frees an id whose claimer died in the
   * reserve window: as long as that claimer takes no further step, the id stays
   * in flight, without a lease and out of `ready`.
   */
  lemma {:induction false} OnlyTheClaimerEndsTheWindow(states: seq<State>, steps: seq<Step>, j: nat, k: nat,
                                                           c: nat, id: Id)
    requires TimelyRun(states, steps) && j <= k < |states| && Stranded(states[j], c, id)
    requires forall i :: j <= i < k ==> !(steps[i].TakeLease? && steps[i].claim == c)
    ensures Stranded(states[k], c, id)
    ensures id in states[k].q.inflight && id !in states[k].q.leases && id !in states[k].q.ready
    decreases k
  {
    if j < k {
      OnlyTheClaimerEndsTheWindow(states, steps, j, k - 1, c, id);
      StrandedStep(states[k - 1], steps[k - 1], c, id);
    }
    StrandedMeansOutOfReach(states, steps, k, c, id);
  }

  lemma StrandedStep(s: State, step: Step, c: nat, id: Id)
    requires Enabled(s, step) && Stranded(s, c, id) && !(step.TakeLease? && step.claim == c)
    ensures Stranded(Do(s, step), c, id)
  {
  }

  /** All the ids in Redis, with their multiplicities; leases aside. */
  function Ids(q: Queue.Queues): multiset<Id>
  {
    multiset(q.ready) + multiset(q.inflight) + multiset(q.delayed.Keys) + multiset(q.dlq)
  }

  /** Trading between two of four bags leaves the sum of all four. */
  lemma SwapFirstTwo(a: multiset<Id>, b: multiset<Id>, c: multiset<Id>, d: multiset<Id>,
                     a': multiset<Id>, b': multiset<Id>)
    requires a' + b' == a + b
    ensures a' + b' + c + d == a + b + c + d
  {
  }

  lemma SwapOuterTwo(a: multiset<Id>, b: multiset<Id>, c: multiset<Id>, d: multiset<Id>,
                     a': multiset<Id>, c': multiset<Id>)
    requires a' + c' == a + c
    ensures a' + b + c' + d == a + b + c + d
  {
    assert a' + b + c' + d == (a' + c') + b + d;
    assert a + b + c + d == (a + c) + b + d;
  }

  lemma ReapConserves(q: Queue.Queues, clock: int, batch: nat)
    requires forall id <- q.leases :: id in q.inflight
    ensures Ids(Queue.ReapExpired(q, clock, batch)) == Ids(q)
  {
    var q' := Queue.ReapExpired(q, clock, batch);
    RangeMembers(q.leases, clock, batch);
    Reaping.ReapConservesIff(q, clock, batch);
    SwapFirstTwo(multiset(q.ready), multiset(q.inflight), multiset(q.delayed.Keys), multiset(q.dlq),
                 multiset(q'.ready), multiset(q'.inflight));
  }

  lemma PromoteConserves(q: Queue.Queues, clock: int, batch: nat)
    ensures Ids(Queue.PromoteDue(q, clock, batch)) == Ids(q)
  {
    var q' := Queue.PromoteDue(q, clock, batch);
    Promotion.PromotionConserves(q, clock, batch);
    SwapOuterTwo(multiset(q.ready), multiset(q.inflight), multiset(q.delayed.Keys), multiset(q.dlq),
                 multiset(q'.ready), multiset(q'.delayed.Keys));
  }

  /** A sweep step is its script, applied to the queues. */
  lemma SweepIsScript(s: State, step: Step) returns (q: Queue.Queues)
    requires step.Promote? || step.Reap?
    ensures q == Do(s, step).q
    ensures step.Promote? ==> q == Queue.PromoteDue(s.q, step.clock, step.batch)
    ensures step.Reap? ==> q == Queue.ReapExpired(s.q, step.clock, step.batch)
  {
    q := Do(s, step).q;
  }

  /** Any sweep, by however many schedulers that believe they lead, moves ids and makes or drops none. */
  lemma SweepsConserve(states: seq<State>, steps: seq<Step>, k: nat)
    requires TimelyRun(states, steps) && k < |steps| && (steps[k].Promote? || steps[k].Reap?)
    ensures Ids(states[k + 1].q) == Ids(states[k].q)
  {
    forall id | id in states[k].q.leases
      ensures id in states[k].q.inflight
    {
      OneLocation(states, steps, k, id);
    }
    var q := SweepIsScript(states[k], steps[k]);
    if steps[k].Promote? {
      PromoteConserves(states[k].q, steps[k].clock, steps[k].batch);
    } else {
      ReapConserves(states[k].q, steps[k].clock, steps[k].batch);
    }
  }

  // ------------------------------------------------------- Redis and Postgres

  /**
   * The stores agree: a scheduled id has a queued row due at its score, a dead
   * letter has a dead row, and a live row's id is waiting in exactly one of
   * `ready`, `inflight` and `delayed`, or is in an enqueuer's or replayer's
   * hands.
   */
  lemma RedisAgreesWithPostgres(states: seq<State>, steps: seq<Step>, k: nat, id: Id)
    requires TimelyRun(states, steps) && k < |states| && id in states[k].jobs
    ensures var s, row := states[k], states[k].jobs[id];
            && (id in s.q.delayed ==> row.state == Queued && s.q.delayed[id] == row.runAt)
            && (id in s.q.dlq ==> row.state == Dead)
            && (!Terminal(row) ==>
                  Count(s.q.ready, id) + Count(s.q.inflight, id) + (if id in s.q.delayed then 1 else 0) == 1 ||
                  exists h :: InHand(s, h, id))
  {
    var s, v := states[k], Project(states[k], id);
    TimelyReach(states, steps, k, id);
    CountIs(s.q.dlq, id);
    if exists h :: Holding(v, h) {
      var h :| Holding(v, h);
      HandsSeen(s, h, id);
    }
  }

  lemma SucceededStep(v: View, step: Step)
    requires Agreed(v) && ViewEnabled(v, step) && ViewOnTime(v, step)
    requires v.row.Some? && v.row.value.state == Succeeded
    ensures ViewDo(v, step).row == v.row || step.DeleteRow?
    ensures !step.Call?
  {
  }

  /** An id is never inserted a second time. */
  lemma RowStaysGone(v: View, step: Step)
    requires ViewEnabled(v, step) && v.past.issued
    ensures v.row.None? ==> ViewDo(v, step).row.None?
    ensures ViewDo(v, step).past.issued
  {
  }

  /** The row is as it was when it succeeded, unless it has been deleted. */
  ghost predicate Frozen(s: State, id: Id, row: Row)
  {
    PastOf(s, id).issued && (id in s.jobs ==> s.jobs[id] == row)
  }

  lemma FrozenStep(s: State, step: Step, id: Id, row: Row)
    requires Enabled(s, step) && OnTime(s, step) && Agreed(Project(s, id))
    requires Frozen(s, id, row) && row.state == Succeeded
    ensures Frozen(Do(s, step), id, row)
    ensures step.Call? && s.claims[step.claim].id == id ==> id !in s.jobs
  {
    var v, mine := Project(s, id), StepFor(s, step, id);
    ProjectStep(s, step, id);
    ProjectTiming(s, step, id);
    RowStaysGone(v, mine);
    if id in s.jobs {
      SucceededStep(v, mine);
    }
  }

  lemma {:induction false} SucceededRowsFreeze(states: seq<State>, steps: seq<Step>, j: nat, k: nat, id: Id)
    requires TimelyRun(states, steps) && j <= k < |states|
    requires id in states[j].jobs && states[j].jobs[id].state == Succeeded
    ensures Frozen(states[k], id, states[j].jobs[id])
    decreases k
  {
    if j == k {
      TimelyReach(states, steps, k, id);
    } else {
      SucceededRowsFreeze(states, steps, j, k - 1, id);
      TimelyReach(states, steps, k - 1, id);
      FrozenStep(states[k - 1], steps[k - 1], id, states[j].jobs[id]);
    }
  }

  /** Once succeeded, a row never changes again and its job is never called again. */
  lemma SucceededIsFinal(states: seq<State>, steps: seq<Step>, j: nat, k: nat, id: Id)
    requires TimelyRun(states, steps) && j <= k < |states|
    requires id in states[j].jobs && states[j].jobs[id].state == Succeeded
    ensures id in states[k].jobs ==> states[k].jobs[id] == states[j].jobs[id]
    ensures k < |steps| && steps[k].Call? && states[k].claims[steps[k].claim].id == id ==> id !in states[k].jobs
  {
    SucceededRowsFreeze(states, steps, j, k, id);
    if k < |steps| {
      TimelyReach(states, steps, k, id);
      FrozenStep(states[k], steps[k], id, states[j].jobs[id]);
    }
  }
}
