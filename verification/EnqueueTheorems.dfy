/**
 * An undisturbed keyed enqueue call is a chain of the steps that concurrent
 * calls interleave, so what is proved of their runs is about it.
 */
module EnqueueTheorems {
  import opened Prelude
  import opened Redis
  import opened Jobs
  import opened Idempotency
  import opened Enqueue
  import I = IdempotencyTheorems

  /** A store call's outcome when the fault, if it is this call's, did or did not take effect. */
  function OutcomeOf(struck: bool, effect: bool): I.Outcome
  {
    if !struck then I.Ok else if effect then I.ErrorAfterEffect else I.Error
  }

  function InsertOutcome(fault: Fault): I.Outcome
  {
    OutcomeOf(fault.AtInsert?, fault.AtInsert? && fault.effect)
  }

  function PushOutcome(fault: Fault): I.Outcome
  {
    OutcomeOf(fault.AtPush?, fault.AtPush? && fault.effect)
  }

  function CompleteOutcome(fault: Fault): I.Outcome
  {
    OutcomeOf(fault.AtComplete?, fault.AtComplete? && fault.effect)
  }

  /** The slot a creation leaves behind. */
  function SlotAfter(slot: Option<Slot>, id: Id, fault: Fault, freed: bool): Option<Slot>
  {
    var broken := fault.AtInsert? || fault.AtPush? || fault.AtComplete?;
    if broken && freed then None
    else if broken && fault != AtComplete(true) then slot
    else Some(Created(id))
  }

  function RowAfter(ids: set<Id>, id: Id, fault: Fault): set<Id>
  {
    if fault == AtInsert(false) then ids else ids + {id}
  }

  /** A longer run, by steps of this request alone. */
  ghost predicate Extends(states: seq<I.State>, steps: seq<I.Step>, r: nat, states': seq<I.State>, steps': seq<I.Step>)
  {
    && I.Run(states', steps') && states <= states' && steps <= steps'
    && forall i :: |steps| <= i < |steps'| ==> I.OfRequest(steps'[i]) && steps'[i].r == r
  }

  lemma OneMore(states: seq<I.State>, steps: seq<I.Step>, r: nat, here: seq<I.State>, now: seq<I.Step>, step: I.Step)
    returns (states': seq<I.State>, steps': seq<I.Step>)
    requires I.Run(states, steps) && Extends(states, steps, r, here, now)
    requires I.Enabled(here[|now|], step) && I.OfRequest(step) && step.r == r
    ensures Extends(states, steps, r, states', steps')
    ensures var x, y := here[|now|], states'[|steps'|];
            y == I.Do(x, step) && r in y.requests && y.requests == x.requests[r := y.requests[r]]
  {
    states', steps' := I.And(here, now, step);
  }

  /** From winning the slot, or straying past it, to the end of the call. */
  lemma CreationIsARun(states: seq<I.State>, steps: seq<I.Step>, r: nat, id: Id, fault: Fault, freed: bool)
    returns (states': seq<I.State>, steps': seq<I.Step>)
    requires I.Run(states, steps) && r in states[|steps|].requests && id !in states[|steps|].created
    requires states[|steps|].requests[r].Owner? || states[|steps|].requests[r].Stray?
    ensures Extends(states, steps, r, states', steps')
    ensures var x, y := states[|steps|], states'[|steps'|];
            && y.slot == SlotAfter(x.slot, id, fault, freed)
            && y.rows == RowAfter(x.rows, id, fault) && y.created == RowAfter(x.created, id, fault)
            && r in y.requests && y.requests == x.requests[r := y.requests[r]]
            && (y.requests[r] == I.Accepted(id) <==> !fault.AtInsert? && !fault.AtPush? && !fault.AtComplete?)
            && (fault.AtInsert? || fault.AtPush? || fault.AtComplete? ==>
                  if freed then y.requests[r].Failed? else y.requests[r].Aborting?)
  {
    states', steps' := OneMore(states, steps, r, states, steps, I.Insert(r, id, InsertOutcome(fault)));
    if !fault.AtInsert? {
      states', steps' := OneMore(states, steps, r, states', steps', I.Push(r, PushOutcome(fault)));
      if !fault.AtPush? {
        states', steps' := OneMore(states, steps, r, states', steps', I.Complete(r, CompleteOutcome(fault)));
      }
    }
    if (fault.AtInsert? || fault.AtPush? || fault.AtComplete?) && freed {
      states', steps' := OneMore(states, steps, r, states', steps', I.Abort(r));
    }
  }

  /** What the slot says leads a call to its early answer, or past it. */
  lemma AdmissionIsARun(states: seq<I.State>, steps: seq<I.Step>, r: nat)
    returns (states': seq<I.State>, steps': seq<I.Step>)
    requires I.Run(states, steps) && r !in states[|steps|].requests
    ensures Extends(states, steps, r, states', steps')
    ensures var x, y := states[|steps|], states'[|steps'|];
            && y.rows == x.rows && y.created == x.created
            && r in y.requests && y.requests == x.requests[r := y.requests[r]]
            && y.slot == (if x.slot.None? then Some(Pending) else x.slot)
            && y.requests[r] == (match x.slot
                                 case None => I.Owner
                                 case Some(Pending) => I.Refused
                                 case Some(Created(i)) => if i in x.rows then I.Request.Accepted(i) else I.Stray)
  {
    var slot := states[|steps|].slot;
    states', steps' := OneMore(states, steps, r, states, steps, I.Begin(r));
    if slot.Some? {
      states', steps' := OneMore(states, steps, r, states', steps', I.Look(r));
      if slot.value.Created? {
        states', steps' := OneMore(states, steps, r, states', steps', I.Find(r));
      }
    }
  }

  /** The stores as the interleaved calls see them: the key's slot, and which of its jobs have a row. */
  predicate Seen(x: I.State, slot: Option<Slot>, jobs: Table)
  {
    x.slot == slot &&
    (slot.Some? && slot.value.Created? ==> (slot.value.jobId in x.rows <==> slot.value.jobId in jobs))
  }

  /** What the call was told, as the interleaved calls record it. */
  predicate Told(request: I.Request, result: Result)
  {
    match result
    case Accepted(id, _) => request == I.Request.Accepted(id)
    case Rejected(KeyInProgress) => request == I.Refused
    case Rejected(_) => !request.Accepted? && !request.Refused?
  }

  /** Turned away before the store was written: the webhook does not serve this tenant, or SET NX never got through. */
  predicate Untouched(webhook: Option<Webhook>, tenant: string, fault: Fault)
  {
    Refusal(webhook, tenant).Some? || fault == AtBegin(false)
  }

  /** The whole call as a chain of Begin, Look, Find, Insert, Push, Complete and Abort. */
  lemma SubmitSteps(states: seq<I.State>, steps: seq<I.Step>, r: nat, webhook: Option<Webhook>, tenant: string,
                    key: string, slot: Option<Slot>, jobs: Table, id: Id, row: Row, fault: Fault, freed: bool)
    returns (states': seq<I.State>, steps': seq<I.Step>)
    requires I.Run(states, steps) && r !in states[|steps|].requests && id !in states[|steps|].created
    requires key != "" && Seen(states[|steps|], slot, jobs)
    ensures Extends(states, steps, r, states', steps')
    ensures var x, y := states[|steps|], states'[|steps'|];
            var early := Admission(webhook, tenant, Some(key), slot, jobs, fault);
            var reserved := if slot.None? then Some(Pending) else slot;
            if Untouched(webhook, tenant, fault) then early.Some? && early.value.Rejected? && y == x
            else
              && r in y.requests
              && Told(y.requests[r],
                      if early.Some? then early.value
                      else if Breaks(Some(key), fault) then Rejected(StoreError) else Accepted(id, row))
              && y.slot == (if early.Some? then reserved else SlotAfter(reserved, id, fault, freed))
              && y.rows == (if early.Some? then x.rows else RowAfter(x.rows, id, fault))
              && y.created == (if early.Some? then x.created else RowAfter(x.created, id, fault))
              && y.requests == x.requests[r := y.requests[r]]
  {
    states', steps' := states, steps;
    if !Untouched(webhook, tenant, fault) {
      if fault.AtBegin? {
        states', steps' := I.And(states, steps, I.Begin(r));
      } else {
        states', steps' := AdmissionIsARun(states, steps, r);
        if EarlyAnswer(slot, jobs).None? {
          states', steps' := CreationIsARun(states', steps', r, id, fault, freed);
        }
      }
    }
  }

  /**
   * A client's retry after its first call, which found the key free, made job
   * `first` or failed. It is told of that job exactly when the slot got to
   * name it, is told to wait exactly when the slot stayed pending, and makes a
   * second job beside the first exactly when the first call failed after its
   * row was written and its abort took effect.
   */
  lemma RetryTold(states: seq<I.State>, steps: seq<I.Step>, r: nat, retry: nat, webhook: Option<Webhook>,
                  tenant: string, key: string, jobs: Table, first: Id, second: Id, row: Row, fault: Fault, freed: bool)
    returns (states': seq<I.State>, steps': seq<I.Step>)
    requires I.Run(states, steps) && r != retry && first != second && key != ""
    requires r !in states[|steps|].requests && retry !in states[|steps|].requests
    requires first !in states[|steps|].created && second !in states[|steps|].created
    requires states[|steps|].slot.None? && Refusal(webhook, tenant).None? && !fault.AtBegin?
    ensures I.Run(states', steps') && retry in states'[|steps'|].requests
    ensures var y, broken := states'[|steps'|], Breaks(Some(key), fault);
            && (y.requests[retry] == I.Accepted(first) <==> !broken || (fault == AtComplete(true) && !freed))
            && (y.requests[retry] == I.Refused <==> broken && !freed && fault != AtComplete(true))
            && (y.requests[retry] == I.Accepted(second) <==> broken && freed)
            && ({first, second} <= y.rows <==> broken && freed && fault != AtInsert(false))
  {
    var x, broken := states[|steps|], Breaks(Some(key), fault);
    I.Accounted(states, steps, |steps|);
    var here, now := SubmitSteps(states, steps, r, webhook, tenant, key, None, jobs, first, row, fault, freed);
    var slot := SlotAfter(Some(Pending), first, fault, freed);
    var table := JobsAfter(None, jobs, first, row, fault);
    var y := here[|now|];
    assert y.slot == slot && y.rows == RowAfter(x.rows, first, fault);
    assert Seen(y, slot, table);
    assert retry !in y.requests && second !in y.created && second !in y.rows && first !in x.rows;
    assert Admission(webhook, tenant, Some(key), slot, table, NoFault)
        == if slot.None? then None else if slot == Some(Pending) then Some(Rejected(KeyInProgress))
           else Some(Accepted(first, row));
    states', steps' := SubmitSteps(here, now, retry, webhook, tenant, key, slot, table, second, row, NoFault, false);
  }

  /** The key's slot, read from the stores `Submit` promises, while what it found or wrote has its time to live. */
  lemma SubmitSlots(keys: map<string, Entry>, webhook: Option<Webhook>, tenant: string, key: string, jobs: Table,
                    id: Id, beginAt: int, completeAt: int, fault: Fault, freed: bool)
    requires key != "" && beginAt <= completeAt <= beginAt + TTL_MS
    requires SlotFor(keys, tenant, Some(key), completeAt) == SlotFor(keys, tenant, Some(key), beginAt)
    ensures var slot := SlotFor(keys, tenant, Some(key), beginAt);
            var reserved := if slot.None? then Some(Pending) else slot;
            SlotFor(KeysAfter(keys, webhook, tenant, Some(key), jobs, id, beginAt, completeAt, fault, freed),
                    tenant, Some(key), completeAt)
              == if Untouched(webhook, tenant, fault) then slot
                 else if Admission(webhook, tenant, Some(key), slot, jobs, fault).Some? then reserved
                 else SlotAfter(reserved, id, fault, freed)
  {
  }

  /**
   * What `Submit` promises is what the interleaved calls' steps lead to: with
   * the stores seen alike before the call, a chain of its steps ends with the
   * stores seen alike after it and with the caller told the same.
   */
  lemma SubmitIsARun(states: seq<I.State>, steps: seq<I.Step>, r: nat, keys: map<string, Entry>,
                     webhook: Option<Webhook>, tenant: string, key: string, jobs: Table, id: Id, row: Row,
                     beginAt: int, completeAt: int, fault: Fault, freed: bool)
    returns (states': seq<I.State>, steps': seq<I.Step>)
    requires I.Run(states, steps) && r !in states[|steps|].requests
    requires id !in states[|steps|].created && id !in jobs
    requires key != "" && beginAt <= completeAt <= beginAt + TTL_MS
    requires SlotFor(keys, tenant, Some(key), completeAt) == SlotFor(keys, tenant, Some(key), beginAt)
    requires Seen(states[|steps|], SlotFor(keys, tenant, Some(key), beginAt), jobs)
    ensures Extends(states, steps, r, states', steps')
    ensures var x, y := states[|steps|], states'[|steps'|];
            var early := Admission(webhook, tenant, Some(key), SlotFor(keys, tenant, Some(key), beginAt), jobs, fault);
            var after := KeysAfter(keys, webhook, tenant, Some(key), jobs, id, beginAt, completeAt, fault, freed);
            && Seen(y, SlotFor(after, tenant, Some(key), completeAt), JobsAfter(early, jobs, id, row, fault))
            && y.rows == (if early.Some? then x.rows else RowAfter(x.rows, id, fault))
            && if Untouched(webhook, tenant, fault) then y == x
               else
                 && r in y.requests
                 && Told(y.requests[r],
                         if early.Some? then early.value
                         else if Breaks(Some(key), fault) then Rejected(StoreError) else Accepted(id, row))
  {
    var slot := SlotFor(keys, tenant, Some(key), beginAt);
    states', steps' := SubmitSteps(states, steps, r, webhook, tenant, key, slot, jobs, id, row, fault, freed);
    SubmitSlots(keys, webhook, tenant, key, jobs, id, beginAt, completeAt, fault, freed);
  }
}
