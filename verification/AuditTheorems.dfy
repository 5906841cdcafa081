/** The audit trail against the HTTP requests actually made, counted off the steps of every run. */
module AuditTheorems {
  import opened Prelude
  import opened Redis
  import opened Deliveries
  import opened Actors
  import opened Protocol
  import opened JobView
  import opened Projection
  import opened FreeRuns
  import opened Theorems
  import opened BudgetTheorems

  /** A claim whose request is on its way, or was cut off before the INSERT. */
  function Asking(v: View): set<nat>
  {
    set c | c in v.claims && v.claims[c].pc.Calling?
  }

  function AskingOn(s: State, id: Id): set<nat>
  {
    set c | c in s.claims && s.claims[c].id == id && s.claims[c].claim.pc.Calling?
  }

  /** Not deleted: there is a row, or there never was one. */
  predicate NotDeleted(v: View)
  {
    v.past.issued ==> v.row.Some?
  }

  /** The INSERT of an audit row that the foreign key or UNIQUE turns down. */
  predicate TurnedDown(v: View, step: Step)
    requires ViewEnabled(v, step)
  {
    step.Record? && (v.row.None? || v.claims[step.claim].pc.number in v.numbers)
  }

  // ------------------------------------------------------------ one step of the ledger

  /** A request opens an account, and an audit row or a refusal closes it. */
  ghost predicate Booked(v: View, step: Step)
    requires ViewEnabled(v, step)
  {
    var v' := ViewDo(v, step);
    NotDeleted(v') ==>
      && NotDeleted(v)
      && |v'.numbers| + |Asking(v')| + One(TurnedDown(v, step)) == |v.numbers| + |Asking(v)| + One(step.Call?)
  }

  lemma BookedCall(v: View, step: Step)
    requires ViewEnabled(v, step) && step.Call?
    ensures Booked(v, step)
  {
    assert Asking(ViewDo(v, step)) == Asking(v) + {step.claim};
  }

  lemma BookedRecord(v: View, step: Step)
    requires ViewEnabled(v, step) && step.Record?
    ensures Booked(v, step)
  {
    assert Asking(ViewDo(v, step)) == Asking(v) - {step.claim};
  }

  lemma BookedRowStep(v: View, step: Step)
    requires ViewEnabled(v, step) && RowStep(step) && !step.Call?
    ensures Booked(v, step)
  {
    assert Asking(ViewDo(v, step)) == Asking(v);
  }

  lemma BookedOther(v: View, step: Step)
    requires NothingBeforeInsert(v) && ViewEnabled(v, step) && !RowStep(step) && !step.Record?
    ensures Booked(v, step)
  {
    assert Asking(ViewDo(v, step)) == Asking(v);
  }

  lemma BookedStep(v: View, step: Step)
    requires NothingBeforeInsert(v) && ViewEnabled(v, step)
    ensures Booked(v, step)
  {
    if step.Call? {
      BookedCall(v, step);
    } else if step.Record? {
      BookedRecord(v, step);
    } else if RowStep(step) {
      BookedRowStep(v, step);
    } else {
      BookedOther(v, step);
    }
  }

  // ------------------------------------------------------------------- whole runs

  /** The audit INSERT of a claim on this job is turned down. */
  predicate Refuses(s: State, step: Step, id: Id)
  {
    step.Record? && step.claim in s.claims && s.claims[step.claim].id == id && s.claims[step.claim].claim.pc.Calling? &&
    (id !in s.jobs || s.claims[step.claim].claim.pc.number in Numbers(s.audit, id))
  }

  function Requesting(states: seq<State>, steps: seq<Step>, id: Id): nat -> bool
    requires |states| == |steps| + 1
  {
    (j: nat) => j < |steps| && CallsAt(states, steps, j, id)
  }

  function Refusing(states: seq<State>, steps: seq<Step>, id: Id): nat -> bool
    requires |states| == |steps| + 1
  {
    (j: nat) => j < |steps| && Refuses(states[j], steps[j], id)
  }

  /** HTTP requests ever made for a job. */
  function RequestsMade(states: seq<State>, steps: seq<Step>, k: nat, id: Id): nat
    requires |states| == |steps| + 1
  {
    CountBetween(0, k, Requesting(states, steps, id))
  }

  /** Audit rows turned down. */
  function RowsRefused(states: seq<State>, steps: seq<Step>, k: nat, id: Id): nat
    requires |states| == |steps| + 1
  {
    CountBetween(0, k, Refusing(states, steps, id))
  }

  lemma SeenAsking(s: State, id: Id)
    ensures AskingOn(s, id) == Asking(Project(s, id))
  {
    assert forall c :: c in Project(s, id).claims <==> c in s.claims && s.claims[c].id == id;
  }

  lemma LedgerStep(s: State, step: Step, id: Id)
    requires Enabled(s, step) && NothingBeforeInsert(Project(s, id)) && NotDeleted(Project(Do(s, step), id))
    ensures NotDeleted(Project(s, id))
    ensures |Numbers(Do(s, step).audit, id)| + |AskingOn(Do(s, step), id)| + One(Refuses(s, step, id))
         == |Numbers(s.audit, id)| + |AskingOn(s, id)| + One(step.Call? && s.claims[step.claim].id == id)
  {
    ProjectStep(s, step, id);
    BookedStep(Project(s, id), StepFor(s, step, id));
    SeenAsking(s, id);
    SeenAsking(Do(s, step), id);
  }

  lemma {:induction false} Ledger(states: seq<State>, steps: seq<Step>, k: nat, id: Id)
    requires FreeRun(states, steps) && k < |states| && NotDeleted(Project(states[k], id))
    ensures RequestsMade(states, steps, k, id)
         == |Numbers(states[k].audit, id)| + |AskingOn(states[k], id)| + RowsRefused(states, steps, k, id)
  {
    if k > 0 {
      FreeReach(states, steps, k - 1, id);
      LedgerStep(states[k - 1], steps[k - 1], id);
      Ledger(states, steps, k - 1, id);
    }
  }

  /**
   * One audit row for each HTTP request actually made, but for two kinds. As
   * long as the job exists, in every run, the requests made are the audit
   * rows, those still on their way or cut off before their INSERT, and those
   * whose INSERT was turned down because another worker had taken the number.
   */
  lemma RowsAndRequests(states: seq<State>, steps: seq<Step>, k: nat, id: Id)
    requires FreeRun(states, steps) && k < |states| && id in states[k].jobs
    ensures RequestsMade(states, steps, k, id)
         == |Numbers(states[k].audit, id)| + |AskingOn(states[k], id)| + RowsRefused(states, steps, k, id)
  {
    Ledger(states, steps, k, id);
  }

  lemma RefusedThrows(s: State, step: Step, id: Id)
    requires Enabled(s, step) && Refuses(s, step, id)
    ensures Throws(s, step)
  {
  }

  lemma {:induction false} NoneRefused(states: seq<State>, steps: seq<Step>, k: nat, id: Id)
    requires TimelyRun(states, steps) && k < |states| && NotDeleted(Project(states[k], id))
    ensures RowsRefused(states, steps, k, id) == 0
  {
    if k > 0 {
      FreeReach(states, steps, k - 1, id);
      LedgerStep(states[k - 1], steps[k - 1], id);
      NoneRefused(states, steps, k - 1, id);
      if Refuses(states[k - 1], steps[k - 1], id) {
        assert steps[k - 1].claim in Project(states[k - 1], id).claims;
        ConstraintsNeverFire(states, steps, k - 1);
        RefusedThrows(states[k - 1], steps[k - 1], id);
      }
    }
  }

  /** In timely runs a request lacks its audit row exactly while it is on its way, or when it was cut off there. */
  lemma RowPerRequest(states: seq<State>, steps: seq<Step>, k: nat, id: Id)
    requires TimelyRun(states, steps) && k < |states| && id in states[k].jobs
    ensures RequestsMade(states, steps, k, id) == |Numbers(states[k].audit, id)| + |AskingOn(states[k], id)|
  {
    Ledger(states, steps, k, id);
    NoneRefused(states, steps, k, id);
  }
}
