/**
 * Concurrent enqueue calls with one (tenant, key): who may create a job, and
 * how often. Every Redis command and SQL statement is one step; a call that
 * crashes takes no further step. Rows may be deleted and the slot may expire.
 */
module IdempotencyTheorems {
  import opened Prelude
  import opened Redis
  import opened Idempotency

  /** What an enqueue call has just done. */
  datatype Request =
    | Owner                  // SET NX won the slot
    | Loser                  // SET NX lost; GET comes next
    | Found(id: Id)          // the slot names a job; its row is read next
    | Stray                  // that row is gone: creates a job without the slot
    | Inserted(id: Id)       // row written
    | Pushed(id: Id)         // id in Redis
    | Aborting(late: bool, stray: bool) // an error; `late` if a row had been written
    | Accepted(id: Id)       // returned a job
    | Refused                // told to retry
    | Failed                 // slot freed, error rethrown

  /** A store call may succeed, fail without effect, or take effect and still report failure. */
  datatype Outcome = Ok | Error | ErrorAfterEffect

  /**
   * `created` has every row ever written for this key. The rest is history:
   * slots freed by a request that had written a row, by one that had won the
   * slot and had not, by a stray that had not; rows written by strays,
   * requests that won the slot, and what happened to the key from outside.
   */
  datatype State = State(
    slot: Option<Slot>,
    rows: set<Id>,
    created: set<Id>,
    requests: map<nat, Request>,
    lateAborts: nat,
    earlyAborts: nat,
    strayAborts: nat,
    strayRows: nat,
    wins: nat,
    deletions: nat,
    expiries: nat)

  const INIT := State(None, {}, {}, map[], 0, 0, 0, 0, 0, 0, 0)

  datatype Step =
    | Begin(r: nat)
    | Look(r: nat)
    | Find(r: nat)
    | Insert(r: nat, id: Id, outcome: Outcome)
    | Push(r: nat, outcome: Outcome)
    | Complete(r: nat, outcome: Outcome)
    | Abort(r: nat)
    | DeleteRow(id: Id)
    | Expire

  predicate OfRequest(step: Step)
  {
    !step.DeleteRow? && !step.Expire?
  }

  predicate Enabled(s: State, step: Step)
  {
    match step
    case Begin(r) => r !in s.requests
    case DeleteRow(id) => id in s.rows
    case Expire => s.slot.Some?
    case Look(r) => r in s.requests && s.requests[r].Loser?
    case Find(r) => r in s.requests && s.requests[r].Found?
    case Insert(r, id, _) => r in s.requests && (s.requests[r].Owner? || s.requests[r].Stray?) && id !in s.created
    case Push(r, _) => r in s.requests && s.requests[r].Inserted?
    case Complete(r, _) => r in s.requests && s.requests[r].Pushed?
    case Abort(r) => r in s.requests && s.requests[r].Aborting?
  }

  function Goto(s: State, r: nat, to: Request): State
  {
    s.(requests := s.requests[r := to])
  }

  function Do(s: State, step: Step): State
    requires Enabled(s, step)
  {
    match step
    case Begin(r) =>
      if s.slot.None? then Goto(s, r, Owner).(slot := Some(Pending), wins := s.wins + 1) else Goto(s, r, Loser)
    case Look(r) =>
      Goto(s, r, if Resolve(s.slot).Duplicate? then Found(Resolve(s.slot).jobId) else Refused)
    case Find(r) =>
      Goto(s, r, if s.requests[r].id in s.rows then Accepted(s.requests[r].id) else Stray)
    case Insert(r, id, outcome) =>
      var stray := s.requests[r].Stray?;
      var s' := if outcome.Error? then s
                else s.(rows := s.rows + {id}, created := s.created + {id},
                        strayRows := s.strayRows + (if stray then 1 else 0));
      Goto(s', r, if outcome.Ok? then Inserted(id) else Aborting(outcome.ErrorAfterEffect?, stray))
    case Push(r, outcome) =>
      Goto(s, r, if outcome.Ok? then Pushed(s.requests[r].id) else Aborting(true, false))
    case Complete(r, outcome) =>
      var s' := if outcome.Error? then s else s.(slot := Some(Created(s.requests[r].id)));
      Goto(s', r, if outcome.Ok? then Accepted(s.requests[r].id) else Aborting(true, false))
    case Abort(r) =>
      var Aborting(late, stray) := s.requests[r];
      Goto(s, r, Failed).(slot := None,
                          lateAborts := s.lateAborts + (if late then 1 else 0),
                          earlyAborts := s.earlyAborts + (if !late && !stray then 1 else 0),
                          strayAborts := s.strayAborts + (if !late && stray then 1 else 0))
    case DeleteRow(id) =>
      s.(rows := s.rows - {id}, deletions := s.deletions + 1)
    case Expire =>
      s.(slot := None, expiries := s.expiries + 1)
  }

  ghost predicate Run(states: seq<State>, steps: seq<Step>)
  {
    && |states| == |steps| + 1
    && states[0] == INIT
    && forall k :: 0 <= k < |steps| ==> Enabled(states[k], steps[k]) && states[k + 1] == Do(states[k], steps[k])
  }

  // ---------------------------------------- the count while nothing disturbs the key

  /** No row was deleted and the slot has not expired. */
  predicate Calm(s: State)
  {
    s.deletions == 0 && s.expiries == 0
  }

  /** Won the slot and has neither filled nor freed it. */
  predicate Owns(s: State, r: nat)
  {
    r in s.requests &&
    (s.requests[r].Owner? || s.requests[r].Inserted? || s.requests[r].Pushed? || s.requests[r].Aborting?)
  }

  /** An owner with a row to its name. */
  predicate HasRow(s: State, r: nat)
  {
    r in s.requests &&
    (s.requests[r].Inserted? || s.requests[r].Pushed? || (s.requests[r].Aborting? && s.requests[r].late))
  }

  /** The slot names a job, or an owner that wrote a row has neither filled nor freed it. */
  ghost predicate JobUnderWay(s: State)
  {
    (s.slot.Some? && s.slot.value.Created?) || exists r :: HasRow(s, r)
  }

  ghost predicate OneOwner(s: State)
  {
    && (forall a, b :: Owns(s, a) && Owns(s, b) ==> a == b)
    && (forall r :: Owns(s, r) ==> s.slot.Some?)
    && (forall r :: Owns(s, r) && !(s.requests[r].Aborting? && s.requests[r].late) ==> s.slot == Some(Pending))
    && (s.slot.Some? && s.slot.value.Created? ==> s.slot.value.jobId in s.rows)
    && (forall r <- s.requests :: s.requests[r].Inserted? || s.requests[r].Pushed? ==> s.requests[r].id in s.rows)
  }

  ghost predicate RowCount(s: State)
  {
    |s.created| == s.lateAborts + (if JobUnderWay(s) then 1 else 0)
  }

  /** Until a slot is freed after its row was written, everybody is told the same job. */
  ghost predicate SameJob(s: State)
  {
    s.lateAborts == 0 ==>
      forall r <- s.requests :: s.requests[r].Accepted? || s.requests[r].Found? ==>
        s.slot == Some(Created(s.requests[r].id)) && s.requests[r].id in s.rows
  }

  ghost predicate Inv(s: State)
  {
    Calm(s) ==>
      && OneOwner(s) && RowCount(s) && SameJob(s)
      && (forall r <- s.requests :: !s.requests[r].Stray?)
      && (forall r <- s.requests :: s.requests[r].Found? ==> s.requests[r].id in s.rows)
  }

  lemma OthersKeep(s: State, step: Step)
    requires Enabled(s, step) && OfRequest(step)
    ensures forall r :: r != step.r ==>
              (Owns(Do(s, step), r) <==> Owns(s, r)) && (HasRow(Do(s, step), r) <==> HasRow(s, r))
  {
  }

  lemma InvStep(s: State, step: Step)
    requires Inv(s) && Enabled(s, step)
    ensures Inv(Do(s, step))
  {
    if OfRequest(step) && Calm(s) {
      OneOwnerStep(s, step);
      RowCountStep(s, step);
      SameJobStep(s, step);
    }
  }

  lemma OneOwnerStep(s: State, step: Step)
    requires Inv(s) && Calm(s) && Enabled(s, step) && OfRequest(step)
    ensures OneOwner(Do(s, step))
  {
    OthersKeep(s, step);
    assert step.Insert? || step.Push? || step.Complete? || step.Abort? ==> Owns(s, step.r);
  }

  lemma RowCountStep(s: State, step: Step)
    requires Inv(s) && Calm(s) && Enabled(s, step) && OfRequest(step)
    ensures RowCount(Do(s, step))
  {
    var s' := Do(s, step);
    OthersKeep(s, step);
    if step.Insert? {
      assert Owns(s, step.r);
      assert !JobUnderWay(s);
      assert step.outcome.Error? || HasRow(s', step.r);
    } else if step.Push? || step.Complete? {
      assert HasRow(s, step.r);
      assert HasRow(s', step.r) || step.Complete?;
    } else if step.Abort? {
      assert Owns(s, step.r);
      assert s.requests[step.r].late ==> HasRow(s, step.r);
      assert !JobUnderWay(s');
    } else if r :| HasRow(s, r) {
      assert HasRow(s', r);
    }
  }

  lemma SameJobStep(s: State, step: Step)
    requires Inv(s) && Calm(s) && Enabled(s, step) && OfRequest(step)
    ensures SameJob(Do(s, step))
  {
  }

  lemma {:induction false} Reach(states: seq<State>, steps: seq<Step>, k: nat)
    requires Run(states, steps) && k < |states|
    ensures Inv(states[k])
  {
    if k > 0 {
      Reach(states, steps, k - 1);
      InvStep(states[k - 1], steps[k - 1]);
    }
  }

  // -------------------------------------------------------------- the guarantees

  /** Jobs created for one key: one for each slot freed after its row was written, and one if a job is under way. */
  lemma RowsPerKey(states: seq<State>, steps: seq<Step>, k: nat)
    requires Run(states, steps) && k < |states| && Calm(states[k])
    ensures |states[k].created| == states[k].lateAborts + (if JobUnderWay(states[k]) then 1 else 0)
  {
    Reach(states, steps, k);
  }

  /** How many steps before state k were of this kind. */
  function Tally(states: seq<State>, steps: seq<Step>, k: nat, kind: (State, Step) -> bool): nat
    requires |states| == |steps| + 1 && k < |states|
  {
    if k == 0 then 0
    else Tally(states, steps, k - 1, kind) + One(kind(states[k - 1], steps[k - 1]))
  }

  predicate Frees(s: State, step: Step)
  {
    step.Abort? && step.r in s.requests && s.requests[step.r].Aborting?
  }

  /** The step that breaks the promise: the slot freed by a request whose row was written. */
  predicate FreesLate(s: State, step: Step)
  {
    Frees(s, step) && s.requests[step.r].late
  }

  /** The slot freed by a request that won it and wrote no row. */
  predicate FreesEarly(s: State, step: Step)
  {
    Frees(s, step) && !s.requests[step.r].late && !s.requests[step.r].stray
  }

  /** The slot freed by a request that neither won it nor wrote a row. */
  predicate FreesAsStray(s: State, step: Step)
  {
    Frees(s, step) && !s.requests[step.r].late && s.requests[step.r].stray
  }

  predicate WinsSlot(s: State, step: Step)
  {
    step.Begin? && s.slot.None?
  }

  /** A row written by a request that found the slot taken and no row behind it. */
  predicate StrayWrites(s: State, step: Step)
  {
    step.Insert? && step.r in s.requests && s.requests[step.r].Stray? && !step.outcome.Error?
  }

  predicate Deletes(s: State, step: Step)
  {
    step.DeleteRow?
  }

  predicate Expires(s: State, step: Step)
  {
    step.Expire?
  }

  lemma StepTallied(s: State, step: Step)
    requires Enabled(s, step)
    ensures var s' := Do(s, step);
            && s'.lateAborts == s.lateAborts + One(FreesLate(s, step))
            && s'.earlyAborts == s.earlyAborts + One(FreesEarly(s, step))
            && s'.strayAborts == s.strayAborts + One(FreesAsStray(s, step))
            && s'.wins == s.wins + One(WinsSlot(s, step))
            && s'.strayRows == s.strayRows + One(StrayWrites(s, step))
            && s'.deletions == s.deletions + One(Deletes(s, step))
            && s'.expiries == s.expiries + One(Expires(s, step))
  {
  }

  lemma {:induction false} Tallied(states: seq<State>, steps: seq<Step>, k: nat)
    requires Run(states, steps) && k < |states|
    ensures states[k].lateAborts == Tally(states, steps, k, FreesLate)
    ensures states[k].earlyAborts == Tally(states, steps, k, FreesEarly)
    ensures states[k].strayAborts == Tally(states, steps, k, FreesAsStray)
    ensures states[k].wins == Tally(states, steps, k, WinsSlot)
    ensures states[k].strayRows == Tally(states, steps, k, StrayWrites)
    ensures states[k].deletions == Tally(states, steps, k, Deletes)
    ensures states[k].expiries == Tally(states, steps, k, Expires)
  {
    if k > 0 {
      Tallied(states, steps, k - 1);
      StepTallied(states[k - 1], steps[k - 1]);
    }
  }

  /**
   * At most one job per key, exactly as long as no such step was followed by
   * another, or by a request that has written its row since.
   */
  lemma SecondJobIff(states: seq<State>, steps: seq<Step>, k: nat)
    requires Run(states, steps) && k < |states| && Calm(states[k])
    ensures |states[k].created| > 1 <==>
              Tally(states, steps, k, FreesLate) >= 2 ||
              (Tally(states, steps, k, FreesLate) == 1 && JobUnderWay(states[k]))
  {
    RowsPerKey(states, steps, k);
    Tallied(states, steps, k);
  }

  /** Errors strike only at or before the INSERT; crashes may strike anywhere. */
  ghost predicate EarlyErrorsOnly(steps: seq<Step>)
  {
    forall k :: 0 <= k < |steps| ==>
      (steps[k].Insert? ==> !steps[k].outcome.ErrorAfterEffect?) &&
      (steps[k].Push? || steps[k].Complete? ==> steps[k].outcome.Ok?)
  }

  lemma {:induction false} NoLateAborts(states: seq<State>, steps: seq<Step>, k: nat)
    requires Run(states, steps) && k < |states| && EarlyErrorsOnly(steps)
    ensures states[k].lateAborts == 0
    ensures forall r <- states[k].requests :: states[k].requests[r].Aborting? ==> !states[k].requests[r].late
  {
    if k > 0 {
      NoLateAborts(states, steps, k - 1);
    }
  }

  /** Then the key stands for at most one job, and every accepted call returned it. */
  lemma OneJobPerKey(states: seq<State>, steps: seq<Step>, k: nat)
    requires Run(states, steps) && k < |states| && Calm(states[k]) && EarlyErrorsOnly(steps)
    ensures |states[k].created| <= 1
    ensures var all := states[k].requests;
            forall a, b | a in all && b in all && all[a].Accepted? && all[b].Accepted? :: all[a].id == all[b].id
  {
    Reach(states, steps, k);
    NoLateAborts(states, steps, k);
  }

  // --------------------------------------------- when rows vanish or the slot expires

  predicate GivesUp(request: Request)
  {
    request.Aborting? && !request.late && !request.stray
  }

  /** Won the slot and has not tried to write its row. */
  function Waiting(all: map<nat, Request>): set<nat>
  {
    set r | r in all && all[r].Owner?
  }

  /** Won the slot, wrote no row, and is about to free the slot. */
  function GivingUp(all: map<nat, Request>): set<nat>
  {
    set r | r in all && GivesUp(all[r])
  }

  /** Each win is still waiting, giving up, has given up, or became a row; each but one was made room for. */
  ghost predicate WinsSpent(s: State)
  {
    && |s.created| + |Waiting(s.requests)| + |GivingUp(s.requests)| + s.earlyAborts == s.wins + s.strayRows
    && s.wins <= s.earlyAborts + s.lateAborts + s.strayAborts + s.expiries + One(s.slot.Some?)
    && (s.slot.Some? ==> s.wins > 0)
    && (s.wins == 0 ==> s.requests == map[] && s.strayRows == 0)
  }

  /** A row is live until it is deleted. */
  ghost predicate RowsLive(s: State)
  {
    s.rows <= s.created && |s.rows| + s.deletions == |s.created|
  }

  lemma WaitingMoves(all: map<nat, Request>, r: nat, to: Request)
    ensures |Waiting(all[r := to])| == |Waiting(all)| - One(r in Waiting(all)) + One(to.Owner?)
  {
    var after := Waiting(all[r := to]);
    if to.Owner? {
      assert after == Waiting(all) + {r};
    } else {
      assert after == Waiting(all) - {r};
    }
  }

  lemma GivingUpMoves(all: map<nat, Request>, r: nat, to: Request)
    ensures |GivingUp(all[r := to])| == |GivingUp(all)| - One(r in GivingUp(all)) + One(GivesUp(to))
  {
    var after := GivingUp(all[r := to]);
    if GivesUp(to) {
      assert after == GivingUp(all) + {r};
    } else {
      assert after == GivingUp(all) - {r};
    }
  }

  lemma WinsSpentStep(s: State, step: Step)
    requires WinsSpent(s) && Enabled(s, step)
    ensures WinsSpent(Do(s, step))
  {
    if OfRequest(step) {
      WaitingMoves(s.requests, step.r, Do(s, step).requests[step.r]);
      GivingUpMoves(s.requests, step.r, Do(s, step).requests[step.r]);
    }
  }

  lemma RowsLiveStep(s: State, step: Step)
    requires RowsLive(s) && Enabled(s, step)
    ensures RowsLive(Do(s, step))
  {
    var s' := Do(s, step);
    if step.DeleteRow? {
      assert s'.rows == s.rows - {step.id} && s'.created == s.created;
    } else if step.Insert? && !step.outcome.Error? {
      assert s'.rows == s.rows + {step.id} && s'.created == s.created + {step.id};
    } else {
      assert s'.rows == s.rows && s'.created == s.created;
    }
  }

  lemma {:induction false} Accounted(states: seq<State>, steps: seq<Step>, k: nat)
    requires Run(states, steps) && k < |states|
    ensures WinsSpent(states[k]) && RowsLive(states[k])
  {
    if k == 0 {
      assert Waiting(map[]) == {} && GivingUp(map[]) == {};
    } else {
      Accounted(states, steps, k - 1);
      WinsSpentStep(states[k - 1], steps[k - 1]);
      RowsLiveStep(states[k - 1], steps[k - 1]);
    }
  }

  /** Requests that won the slot and have no row to show for it: waiting to write it, giving up, or gave up. */
  function Unspent(states: seq<State>, steps: seq<Step>, k: nat): nat
    requires |states| == |steps| + 1 && k < |states|
  {
    |Waiting(states[k].requests)| + |GivingUp(states[k].requests)| + Tally(states, steps, k, FreesEarly)
  }

  /**
   * The exact count, in every run: the rows ever written are the slots won
   * less those with nothing to show for it, plus the rows strays wrote; those
   * not deleted are live. And a slot is won once, and once more at most for
   * each time it was freed or expired.
   */
  lemma RowsExactly(states: seq<State>, steps: seq<Step>, k: nat)
    requires Run(states, steps) && k < |states|
    ensures |states[k].created| + Unspent(states, steps, k)
         == Tally(states, steps, k, WinsSlot) + Tally(states, steps, k, StrayWrites)
    ensures |states[k].rows| + Tally(states, steps, k, Deletes) == |states[k].created|
    ensures Tally(states, steps, k, WinsSlot)
         <= 1 + Tally(states, steps, k, FreesEarly) + Tally(states, steps, k, FreesLate)
              + Tally(states, steps, k, FreesAsStray) + Tally(states, steps, k, Expires)
  {
    Accounted(states, steps, k);
    Tallied(states, steps, k);
  }

  /** In other words, one job, and one more at most for each of these. */
  lemma RowsAtMost(states: seq<State>, steps: seq<Step>, k: nat)
    requires Run(states, steps) && k < |states|
    ensures |states[k].created|
         <= 1 + Tally(states, steps, k, FreesLate) + Tally(states, steps, k, FreesAsStray)
              + Tally(states, steps, k, StrayWrites) + Tally(states, steps, k, Expires)
  {
    RowsExactly(states, steps, k);
  }

  /** Nobody has freed the slot and it has not expired. */
  predicate NeverFreed(states: seq<State>, steps: seq<Step>, k: nat)
    requires |states| == |steps| + 1 && k < |states|
  {
    Tally(states, steps, k, FreesEarly) == 0 && Tally(states, steps, k, FreesLate) == 0 &&
    Tally(states, steps, k, FreesAsStray) == 0 && Tally(states, steps, k, Expires) == 0
  }

  /**
   * When a deleted row costs the key its promise. As long as the slot was never
   * freed, more than one job is live exactly when strays wrote more rows than
   * were deleted or are still owed by whoever won the slot.
   */
  lemma SecondLiveJobIff(states: seq<State>, steps: seq<Step>, k: nat)
    requires Run(states, steps) && k < |states| && NeverFreed(states, steps, k)
    ensures |states[k].rows| > 1 <==>
              Tally(states, steps, k, StrayWrites) > Tally(states, steps, k, Deletes) + Unspent(states, steps, k)
  {
    RowsExactly(states, steps, k);
    Accounted(states, steps, k);
    Tallied(states, steps, k);
  }

  // ---------------------------------------------------------------- two jobs for one key

  lemma And(states: seq<State>, steps: seq<Step>, step: Step) returns (states': seq<State>, steps': seq<Step>)
    requires Run(states, steps) && Enabled(states[|steps|], step)
    ensures states' == states + [Do(states[|steps|], step)] && steps' == steps + [step]
    ensures Run(states', steps')
  {
    states', steps' := states + [Do(states[|steps|], step)], steps + [step];
  }

  /** A push that fails after the INSERT lets the client's retry create a second job. */
  lemma LateAbortAllowsSecondJob() returns (states: seq<State>, steps: seq<Step>)
    ensures Run(states, steps) && Calm(states[|steps|]) && |states[|steps|].created| == 2
  {
    states, steps := And([INIT], [], Begin(0));
    states, steps := And(states, steps, Insert(0, 10, Ok));
    states, steps := And(states, steps, Push(0, Error));
    states, steps := And(states, steps, Abort(0));
    states, steps := And(states, steps, Begin(1));
    states, steps := And(states, steps, Insert(1, 11, Ok));
    assert states[|steps|].created == {10, 11};
  }

  /** A job is created and accepted, and its row is deleted. */
  lemma CreatedThenDeleted() returns (states: seq<State>, steps: seq<Step>)
    ensures Run(states, steps)
    ensures forall step <- steps :: step.Insert? || step.Push? || step.Complete? ==> step.outcome.Ok?
    ensures states[|steps|] == State(Some(Created(10)), {}, {10}, map[0 := Accepted(10)], 0, 0, 0, 0, 1, 1, 0)
  {
    states, steps := And([INIT], [], Begin(0));
    states, steps := And(states, steps, Insert(0, 10, Ok));
    states, steps := And(states, steps, Push(0, Ok));
    states, steps := And(states, steps, Complete(0, Ok));
    states, steps := And(states, steps, DeleteRow(10));
    assert states[|steps|].rows == {};
  }

  /** Two duplicates find the slot, and no row behind it. */
  lemma DuplicatesFindNothing() returns (states: seq<State>, steps: seq<Step>)
    ensures Run(states, steps)
    ensures forall step <- steps :: step.Insert? || step.Push? || step.Complete? ==> step.outcome.Ok?
    ensures states[|steps|] == State(Some(Created(10)), {}, {10}, map[0 := Accepted(10), 1 := Stray, 2 := Stray],
                                     0, 0, 0, 0, 1, 1, 0)
  {
    states, steps := CreatedThenDeleted();
    states, steps := And(states, steps, Begin(1));
    states, steps := And(states, steps, Begin(2));
    states, steps := And(states, steps, Look(1));
    states, steps := And(states, steps, Look(2));
    states, steps := And(states, steps, Find(1));
    states, steps := And(states, steps, Find(2));
  }

  /**
   * Two duplicates of a job whose row is gone both fall through without owning
   * the slot, and with no error anywhere the key has two live jobs.
   */
  lemma StraysCreateTwoJobs() returns (states: seq<State>, steps: seq<Step>)
    ensures Run(states, steps)
    ensures var s := states[|steps|]; s.lateAborts == 0 && s.expiries == 0 && s.deletions == 1 && s.rows == {11, 12}
    ensures forall step <- steps :: step.Insert? || step.Push? || step.Complete? ==> step.outcome.Ok?
  {
    states, steps := DuplicatesFindNothing();
    states, steps := And(states, steps, Insert(1, 11, Ok));
    states, steps := And(states, steps, Insert(2, 12, Ok));
  }
}
