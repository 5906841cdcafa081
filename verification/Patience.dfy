/**
 * How soon a scheduled or abandoned job is back: by its place in the order, and
 * by who pushes in ahead of it.
 */
module Patience {
  import opened Prelude
  import opened Redis
  import opened Actors
  import opened Protocol
  import opened Runs
  import opened TimelyRuns
  import Queue
  import Scheduler

  // ------------------------------------------------------ ticks, and nobody else

  /** One tick's two clock readings. */
  datatype Reading = Reading(promoteAt: int, reapAt: int)

  function Tick(q: Queue.Queues, r: Reading): Queue.Queues
  {
    Scheduler.Swept(q, r.promoteAt, r.reapAt)
  }

  /** A leader's ticks, each at its own readings: a batch of promotions, then a batch of reaps. */
  function Ticks(q: Queue.Queues, readings: seq<Reading>): Queue.Queues
    decreases |readings|
  {
    if readings == [] then q else Ticks(Tick(q, readings[0]), readings[1..])
  }

  lemma InReverse(s: seq<Id>, x: Id)
    ensures x in Reverse(s) <==> x in s
  {
    ReverseCounts(s);
    assert x in s <==> x in multiset(s);
    assert x in Reverse(s) <==> x in multiset(Reverse(s));
  }

  /** A tick moves ids from `delayed` and `leases` to `ready`, and takes none from there. */
  lemma TickMoves(q: Queue.Queues, r: Reading, id: Id)
    ensures var after := Tick(q, r);
            && after.delayed == q.delayed - Members(Range(q.delayed, r.promoteAt, Scheduler.BATCH_SIZE))
            && after.leases == q.leases - Members(Range(q.leases, r.reapAt, Scheduler.BATCH_SIZE))
            && (id in q.ready ==> id in after.ready)
            && (id in q.delayed && id !in after.delayed ==> id in after.ready)
            && (id in q.leases && id !in after.leases ==> id in after.ready)
  {
    InReverse(Range(q.delayed, r.promoteAt, Scheduler.BATCH_SIZE), id);
    InReverse(Range(q.leases, r.reapAt, Scheduler.BATCH_SIZE), id);
  }

  /** Once in `ready` it stays there, and what ticks took they do not give back. */
  lemma {:induction false} TicksKeep(q: Queue.Queues, readings: seq<Reading>, id: Id)
    ensures id in q.ready ==> id in Ticks(q, readings).ready
    ensures id !in q.delayed ==> id !in Ticks(q, readings).delayed
    ensures id !in q.leases ==> id !in Ticks(q, readings).leases
    decreases |readings|
  {
    if readings != [] {
      TickMoves(q, readings[0], id);
      TicksKeep(Tick(q, readings[0]), readings[1..], id);
    }
  }

  /** An id with k ids due at or before it is promoted by exactly ceil(k / 100) ticks, once it is due. */
  lemma {:induction false} TicksPromote(q: Queue.Queues, readings: seq<Reading>, id: Id)
    requires id in q.delayed && forall r <- readings :: q.delayed[id] <= r.promoteAt
    ensures var k, after := Rank(q.delayed, id), Ticks(q, readings);
            && (id !in after.delayed <==> k <= |readings| * Scheduler.BATCH_SIZE)
            && (id !in after.delayed ==> id in after.ready)
    decreases |readings|
  {
    if readings == [] {
      assert id in UpTo(q.delayed, id);
    } else {
      var q' := Tick(q, readings[0]);
      TickMoves(q, readings[0], id);
      RankAfterBatch(q.delayed, readings[0].promoteAt, Scheduler.BATCH_SIZE, id);
      if id in q'.delayed {
        TicksPromote(q', readings[1..], id);
      } else {
        TicksKeep(q', readings[1..], id);
      }
    }
  }

  /**
   * An abandoned id with k leases at or before its own is back by exactly
   * ceil(k / 100) ticks, once its lease is over.
   */
  lemma {:induction false} TicksBringBack(q: Queue.Queues, readings: seq<Reading>, id: Id)
    requires id in q.leases && forall r <- readings :: q.leases[id] <= r.reapAt
    ensures var k, after := Rank(q.leases, id), Ticks(q, readings);
            && (id !in after.leases <==> k <= |readings| * Scheduler.BATCH_SIZE)
            && (id !in after.leases ==> id in after.ready)
    decreases |readings|
  {
    if readings == [] {
      assert id in UpTo(q.leases, id);
    } else {
      var q' := Tick(q, readings[0]);
      TickMoves(q, readings[0], id);
      RankAfterBatch(q.leases, readings[0].reapAt, Scheduler.BATCH_SIZE, id);
      if id in q'.leases {
        TicksBringBack(q', readings[1..], id);
      } else {
        TicksKeep(q', readings[1..], id);
      }
    }
  }

  // --------------------------------------------------------- among everyone's steps

  /** What one step does to a sorted set. */
  datatype Change =
    | Nothing
    | Remove(id: Id)
    | Put(id: Id, score: int)
    | TakeBatch(max: int, batch: nat)

  function Changed(z: ZSet, c: Change): ZSet
  {
    match c
    case Nothing => z
    case Remove(id) => z - {id}
    case Put(id, score) => z[id := score]
    case TakeBatch(max, batch) => z - Members(Range(z, max, batch))
  }

  /** It may put a member before this one. */
  predicate PushesIn(c: Change, at: int, id: Id)
  {
    c.Put? && (c.score < at || (c.score == at && c.id < id))
  }

  /** It takes a scheduler's batch of members due by then. */
  predicate Serves(c: Change, at: int)
  {
    c.TakeBatch? && at <= c.max && c.batch == Scheduler.BATCH_SIZE
  }

  lemma FewerBefore(z: ZSet, z': ZSet, id: Id, more: set<Id>)
    requires id in z && id in z' && UpTo(z', id) <= UpTo(z, id) + more
    ensures Rank(z', id) <= Rank(z, id) + |more|
  {
    AtMost(UpTo(z', id), UpTo(z, id) + more);
  }

  lemma AtMost(a: set<Id>, b: set<Id>)
    requires a <= b
    ensures |a| <= |b|
  {
    assert b == a + (b - a);
  }

  /** A member that keeps its score moves up a batch when served, and back one place at most when someone pushes in. */
  lemma RankAfter(z: ZSet, c: Change, id: Id)
    requires id in z && id in Changed(z, c) && Changed(z, c)[id] == z[id]
    ensures Rank(Changed(z, c), id) + Scheduler.BATCH_SIZE * One(Serves(c, z[id]))
         <= Rank(z, id) + One(PushesIn(c, z[id], id))
  {
    match c
    case Nothing =>
    case Remove(x) => FewerBefore(z, Changed(z, c), id, {});
    case Put(x, score) => FewerBefore(z, Changed(z, c), id, if PushesIn(c, z[id], id) then {x} else {});
    case TakeBatch(max, batch) =>
      if Serves(c, z[id]) {
        RankAfterBatch(z, max, batch, id);
      } else {
        FewerBefore(z, Changed(z, c), id, {});
      }
  }

  function LeasesChange(s: State, step: Step): Change
    requires Enabled(s, step)
  {
    match step
    case TakeLease(c, clock) => Put(s.claims[c].id, clock + Queue.VISIBILITY_TIMEOUT_MS)
    case Release(c) => Remove(s.claims[c].id)
    case Reap(clock, batch) => TakeBatch(clock, batch)
    case _ => Nothing
  }

  function DelayedChange(s: State, step: Step): Change
    requires Enabled(s, step)
  {
    match step
    case Place(h, clock) =>
      if s.hands[h].hand.runAt > clock then Put(s.hands[h].id, s.hands[h].hand.runAt) else Nothing
    case Release(c) =>
      (match s.claims[c].claim.pc
       case Deferring(runAt) => Put(s.claims[c].id, runAt)
       case Requeueing(runAt) => Put(s.claims[c].id, runAt)
       case _ => Nothing)
    case Promote(clock, batch) => TakeBatch(clock, batch)
    case _ => Nothing
  }

  /** The two sorted sets after a step. */
  ghost predicate BothChange(s: State, step: Step)
    requires Enabled(s, step)
  {
    Do(s, step).q.leases == Changed(s.q.leases, LeasesChange(s, step)) &&
    Do(s, step).q.delayed == Changed(s.q.delayed, DelayedChange(s, step))
  }

  lemma RowStepChanges(s: State, step: Step)
    requires Enabled(s, step) && RowStep(step)
    ensures BothChange(s, step)
  {
  }

  lemma ReleaseChanges(s: State, step: Step)
    requires Enabled(s, step) && step.Release?
    ensures BothChange(s, step)
  {
  }

  lemma PromoteChanges(s: State, step: Step)
    requires Enabled(s, step) && step.Promote?
    ensures BothChange(s, step)
  {
    var t := PromoteStep(s, step.clock, step.batch);
  }

  lemma ReapChanges(s: State, step: Step)
    requires Enabled(s, step) && step.Reap?
    ensures BothChange(s, step)
  {
    var t := ReapStep(s, step.clock, step.batch);
  }

  lemma HandChanges(s: State, step: Step)
    requires Enabled(s, step) && OfHand(step)
    ensures BothChange(s, step)
  {
  }

  lemma OtherChanges(s: State, step: Step)
    requires Enabled(s, step) && !RowStep(step) && !OfHand(step)
    requires !step.Release? && !step.Promote? && !step.Reap?
    ensures BothChange(s, step)
  {
  }

  lemma StepChanges(s: State, step: Step)
    requires Enabled(s, step)
    ensures BothChange(s, step)
  {
    if RowStep(step) {
      RowStepChanges(s, step);
    } else if OfHand(step) {
      HandChanges(s, step);
    } else if step.Release? {
      ReleaseChanges(s, step);
    } else if step.Promote? {
      PromoteChanges(s, step);
    } else if step.Reap? {
      ReapChanges(s, step);
    } else {
      OtherChanges(s, step);
    }
  }

  /** Every step can be taken where it is listed. */
  predicate EachEnabled(states: seq<State>, steps: seq<Step>)
  {
    |states| == |steps| + 1 && forall k :: 0 <= k < |steps| ==> Enabled(states[k], steps[k])
  }

  /** What step k does to `leases`, or else to `delayed`. */
  function ChangeAt(states: seq<State>, steps: seq<Step>, k: nat, leases: bool): Change
    requires EachEnabled(states, steps) && k < |steps|
  {
    if leases then LeasesChange(states[k], steps[k]) else DelayedChange(states[k], steps[k])
  }

  function SetOf(s: State, leases: bool): ZSet
  {
    if leases then s.q.leases else s.q.delayed
  }

  predicate Stands(s: State, id: Id, at: int, leases: bool)
  {
    id in SetOf(s, leases) && SetOf(s, leases)[id] == at
  }

  lemma OneStep(s: State, step: Step, id: Id, at: int, leases: bool)
    requires Enabled(s, step) && Stands(s, id, at, leases) && Stands(Do(s, step), id, at, leases)
    ensures var c := if leases then LeasesChange(s, step) else DelayedChange(s, step);
            Rank(SetOf(Do(s, step), leases), id) + Scheduler.BATCH_SIZE * One(Serves(c, at))
              <= Rank(SetOf(s, leases), id) + One(PushesIn(c, at, id))
  {
    StepChanges(s, step);
    if leases {
      RankAfter(s.q.leases, LeasesChange(s, step), id);
    } else {
      RankAfter(s.q.delayed, DelayedChange(s, step), id);
    }
  }

  lemma OneStepAt(states: seq<State>, steps: seq<Step>, i: nat, id: Id, at: int, leases: bool)
    requires FreeRun(states, steps) && i < |steps|
    requires Stands(states[i], id, at, leases) && Stands(states[i + 1], id, at, leases)
    ensures var c := ChangeAt(states, steps, i, leases);
            Rank(SetOf(states[i + 1], leases), id) + Scheduler.BATCH_SIZE * One(Serves(c, at))
              <= Rank(SetOf(states[i], leases), id) + One(PushesIn(c, at, id))
  {
    OneStep(states[i], steps[i], id, at, leases);
  }

  /** Which steps are sweeps of a scheduler's batch that came late enough. */
  function Serving(states: seq<State>, steps: seq<Step>, at: int, leases: bool): nat -> bool
    requires EachEnabled(states, steps)
  {
    (i: nat) => i < |steps| && Serves(ChangeAt(states, steps, i, leases), at)
  }

  /** Which steps put someone else in front. */
  function Pushing(states: seq<State>, steps: seq<Step>, at: int, id: Id, leases: bool): nat -> bool
    requires EachEnabled(states, steps)
  {
    (i: nat) => i < |steps| && PushesIn(ChangeAt(states, steps, i, leases), at, id)
  }

  function Ranks(states: seq<State>, id: Id, leases: bool): nat -> int
  {
    (i: nat) => if i < |states| && id in SetOf(states[i], leases) then Rank(SetOf(states[i], leases), id) else 0
  }

  predicate Advances(rank: nat -> int, serves: nat -> bool, pushes: nat -> bool, i: nat)
  {
    rank(i + 1) + Scheduler.BATCH_SIZE * One(serves(i)) <= rank(i) + One(pushes(i))
  }

  lemma {:induction false} AddsUp(rank: nat -> int, serves: nat -> bool, pushes: nat -> bool, j: nat, k: nat)
    requires j <= k && forall i :: j <= i < k ==> Advances(rank, serves, pushes, i)
    ensures rank(k) + Scheduler.BATCH_SIZE * CountBetween(j, k, serves) <= rank(j) + CountBetween(j, k, pushes)
    decreases k
  {
    if j < k {
      AddsUp(rank, serves, pushes, j, k - 1);
      assert Advances(rank, serves, pushes, k - 1);
    }
  }

  lemma AdvancesAt(states: seq<State>, steps: seq<Step>, i: nat, id: Id, at: int, leases: bool)
    requires FreeRun(states, steps) && i < |steps|
    requires Stands(states[i], id, at, leases) && Stands(states[i + 1], id, at, leases)
    ensures Advances(Ranks(states, id, leases), Serving(states, steps, at, leases),
                     Pushing(states, steps, at, id, leases), i)
  {
    OneStepAt(states, steps, i, id, at, leases);
  }

  /** As long as an id stands, each sweep brings it a batch forward and each push-in one place back. */
  lemma PlaceInLine(states: seq<State>, steps: seq<Step>, j: nat, k: nat, id: Id, at: int, leases: bool)
    requires FreeRun(states, steps) && j <= k < |states|
    requires forall i :: j <= i <= k ==> Stands(states[i], id, at, leases)
    ensures var rank := Ranks(states, id, leases);
            rank(k) + Scheduler.BATCH_SIZE * CountBetween(j, k, Serving(states, steps, at, leases))
              <= rank(j) + CountBetween(j, k, Pushing(states, steps, at, id, leases))
  {
    forall i | j <= i < k
      ensures Advances(Ranks(states, id, leases), Serving(states, steps, at, leases),
                       Pushing(states, steps, at, id, leases), i)
    {
      assert Stands(states[i], id, at, leases) && Stands(states[i + 1], id, at, leases);
      AdvancesAt(states, steps, i, id, at, leases);
    }
    AddsUp(Ranks(states, id, leases), Serving(states, steps, at, leases), Pushing(states, steps, at, id, leases), j, k);
  }

  /** Who can end its stand: a sweep that put it in `ready`, or someone who held it. */
  predicate Leaves(s: State, step: Step, id: Id, leases: bool)
    requires Enabled(s, step)
  {
    if leases then
      (step.Reap? && id in Do(s, step).q.ready) ||
      ((step.Release? || step.TakeLease?) && s.claims[step.claim].id == id)
    else
      (step.Promote? && id in Do(s, step).q.ready) ||
      (step.Release? && s.claims[step.claim].id == id) ||
      (step.Place? && s.hands[step.hand].id == id)
  }

  lemma SweptIntoReady(s: State, step: Step, id: Id)
    requires Enabled(s, step)
    ensures step.Promote? && id in Range(s.q.delayed, step.clock, step.batch) ==> id in Do(s, step).q.ready
    ensures step.Reap? && id in Range(s.q.leases, step.clock, step.batch) ==> id in Do(s, step).q.ready
  {
    if step.Promote? {
      InReverse(Range(s.q.delayed, step.clock, step.batch), id);
    } else if step.Reap? {
      InReverse(Range(s.q.leases, step.clock, step.batch), id);
    }
  }

  lemma HowItLeaves(s: State, step: Step, id: Id, at: int, leases: bool)
    requires Enabled(s, step) && Stands(s, id, at, leases) && !Stands(Do(s, step), id, at, leases)
    ensures Leaves(s, step, id, leases)
  {
    StepChanges(s, step);
    SweptIntoReady(s, step, id);
  }

  /** It stands before step i and no longer after it, and here is whose doing that was. */
  predicate LeavesAt(states: seq<State>, steps: seq<Step>, i: nat, id: Id, at: int, leases: bool)
    requires EachEnabled(states, steps) && i < |steps|
  {
    Stands(states[i], id, at, leases) && !Stands(states[i + 1], id, at, leases) &&
    Leaves(states[i], steps[i], id, leases)
  }

  /** It stands all the way from j to k, or leaves on the way. */
  lemma {:induction false} StandsOrLeaves(states: seq<State>, steps: seq<Step>, j: nat, k: nat, id: Id, at: int,
                                          leases: bool)
    requires FreeRun(states, steps) && j <= k < |states| && Stands(states[j], id, at, leases)
    ensures (forall i :: j <= i <= k ==> Stands(states[i], id, at, leases)) ||
            (exists i :: j <= i < k && LeavesAt(states, steps, i, id, at, leases))
    decreases k
  {
    if j < k {
      StandsOrLeaves(states, steps, j, k - 1, id, at, leases);
      if forall i :: j <= i <= k - 1 ==> Stands(states[i], id, at, leases) {
        assert Stands(states[k - 1], id, at, leases);
        if !Stands(states[k], id, at, leases) {
          HowItLeaves(states[k - 1], steps[k - 1], id, at, leases);
          assert LeavesAt(states, steps, k - 1, id, at, leases);
        }
      }
    }
  }

  /**
   * In every free run, whatever others do meanwhile and whatever their clocks
   * say: once the sweeps that came late enough for an id, at 100 places each,
   * outnumber its place and all who pushed in before it, it has given up its
   * place: a sweep put it in `ready`, or someone who held it released it or
   * gave it another time.
   */
  lemma OutInTurn(states: seq<State>, steps: seq<Step>, j: nat, k: nat, id: Id, at: int, leases: bool)
    requires FreeRun(states, steps) && j <= k < |states| && Stands(states[j], id, at, leases)
    requires Rank(SetOf(states[j], leases), id) + CountBetween(j, k, Pushing(states, steps, at, id, leases))
          <= Scheduler.BATCH_SIZE * CountBetween(j, k, Serving(states, steps, at, leases))
    ensures exists i :: j <= i < k && LeavesAt(states, steps, i, id, at, leases)
  {
    StandsOrLeaves(states, steps, j, k, id, at, leases);
    if forall i :: j <= i <= k ==> Stands(states[i], id, at, leases) {
      PlaceInLine(states, steps, j, k, id, at, leases);
      assert id in UpTo(SetOf(states[k], leases), id);
    }
  }

  // ----------------------------------------------------------- ticks are runs

  function Fold<A, R>(f: (A, R) -> A, x: A, rs: seq<R>): A
    decreases |rs|
  {
    if rs == [] then x else Fold(f, f(x, rs[0]), rs[1..])
  }

  function Turn(): (Queue.Queues, Reading) -> Queue.Queues
  {
    (q: Queue.Queues, r: Reading) => Tick(q, r)
  }

  lemma {:induction false} TicksFold(q: Queue.Queues, readings: seq<Reading>)
    ensures Ticks(q, readings) == Fold(Turn(), q, readings)
    decreases |readings|
  {
    if readings != [] {
      TicksFold(Tick(q, readings[0]), readings[1..]);
    }
  }

  /** The leader's two steps. */
  function Led(): (State, Reading) -> State
  {
    (s: State, r: Reading) =>
      Do(Do(s, Step.Promote(r.promoteAt, Scheduler.BATCH_SIZE)), Step.Reap(r.reapAt, Scheduler.BATCH_SIZE))
  }

  /** Wherever it starts, `go` is a run that leaves the rows alone and does `turn` to the queues. */
  ghost predicate Drives<R(!new)>(go: (State, R) -> State, turn: (Queue.Queues, R) -> Queue.Queues)
  {
    forall s: State, r: R :: Reaches(s, go(s, r)) && go(s, r).q == turn(s.q, r) && go(s, r).jobs == s.jobs
  }

  lemma LedReaches(s: State, r: Reading)
    ensures Reaches(s, Led()(s, r))
  {
    LeadsNowhere(s);
    var steps, t := AndThen(s, [], s, Step.Promote(r.promoteAt, Scheduler.BATCH_SIZE));
    steps, t := AndThen(s, steps, t, Step.Reap(r.reapAt, Scheduler.BATCH_SIZE));
  }

  lemma LedSweeps(s: State, r: Reading)
    ensures Led()(s, r).q == Turn()(s.q, r) && Led()(s, r).jobs == s.jobs
  {
    var s1 := PromoteStep(s, r.promoteAt, Scheduler.BATCH_SIZE);
    var s2 := ReapStep(s1, r.reapAt, Scheduler.BATCH_SIZE);
  }

  lemma LedDrives()
    ensures Drives(Led(), Turn())
  {
    forall s: State, r: Reading
      ensures Reaches(s, Led()(s, r)) && Led()(s, r).q == Turn()(s.q, r) && Led()(s, r).jobs == s.jobs
    {
      LedReaches(s, r);
      LedSweeps(s, r);
    }
  }

  lemma {:induction false} DrivenOn<R(!new)>(go: (State, R) -> State, turn: (Queue.Queues, R) -> Queue.Queues, s: State,
                                             rs: seq<R>)
    requires Drives(go, turn)
    ensures var t := Fold(go, s, rs); Reaches(s, t) && t.q == Fold(turn, s.q, rs) && t.jobs == s.jobs
    decreases |rs|
  {
    if rs == [] {
      LeadsNowhere(s);
    } else {
      assert Reaches(s, go(s, rs[0]));
      DrivenOn(go, turn, go(s, rs[0]), rs[1..]);
      ReachesOn(s, go(s, rs[0]), Fold(go, s, rs));
    }
  }

  /** A leader's ticks are steps of the protocol. */
  lemma TicksAreARun(s: State, readings: seq<Reading>) returns (t: State)
    ensures Reaches(s, t) && t.q == Ticks(s.q, readings) && t.jobs == s.jobs
  {
    t := Fold(Led(), s, readings);
    LedDrives();
    DrivenOn(Led(), Turn(), s, readings);
    TicksFold(s.q, readings);
  }
}
