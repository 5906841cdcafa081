/**
 * `process`, run to its end without interruption: its effect on all the stores
 * is that of the protocol's steps, one after the other.
 */
module Processing {
  import opened Prelude
  import opened Redis
  import opened Jobs
  import opened Deliveries
  import opened Backoff
  import opened Actors
  import opened Protocol
  import opened Runs
  import Queue
  import Circuit
  import Ratelimit

  datatype Config = Config(rate: real, burst: real, threshold: int, cooldownMs: int)

  /** Everything a call reads from outside the stores: clock, database lookup, network, random draw. */
  datatype World = World(
    checkAt: int, takeAt: int, deferAt: int, recordAt: int, settleAt: int,
    webhookExists: bool, status: Option<int>, draw: real)

  /** What the preflight gates decide; Break is a throw. */
  datatype Gate = Go | PutOff(clock: int, wait: int) | Break

  function CircuitKey(row: Row): string
  {
    "circuit:webhook:" + row.webhookId
  }

  function LimitKey(row: Row): string
  {
    "ratelimit:webhook:" + row.webhookId
  }

  predicate Blocked(circuits: map<string, Circuit.Entry>, row: Row, cfg: Config, w: World)
  {
    Circuit.Checked(Circuit.Fields(Lookup(circuits, CircuitKey(row)), w.checkAt), w.checkAt, cfg.cooldownMs).1.Open?
  }

  function GateFor(circuits: map<string, Circuit.Entry>, buckets: map<string, Ratelimit.Entry>, row: Row,
                   cfg: Config, w: World): Gate
  {
    var tokens := Ratelimit.Tokens(buckets, LimitKey(row), cfg.rate, cfg.burst, w.takeAt);
    var answer := Ratelimit.Reply(tokens, cfg.rate, 1.0);
    if Blocked(circuits, row, cfg, w) then PutOff(w.deferAt, cfg.cooldownMs)
    else if answer.None? then Break
    else if !answer.value.allowed then PutOff(w.deferAt, Max(answer.value.retryAfterMs, 100))
    else Go
  }

  // ------------------------------------------- the protocol, one claim at a time

  /** Numbering, calling and recording. */
  function Recorded(s: State, c: nat, status: Option<int>): State
  {
    Then(Then(Then(s, Number(c)), Call(c)), Record(c, status))
  }

  /** Up to the audit row. */
  function Attempted(s: State, c: nat, w: World): State
  {
    var s := Then(s, Dispatch(c));
    if w.webhookExists then Recorded(s, c, w.status) else s
  }

  function Concluded(s: State, c: nat, w: World): State
  {
    Then(Then(s, Settle(c, w.settleAt, w.draw)), Release(c))
  }

  /** A whole uninterrupted run of `process` by claim c. */
  function Processed(s: State, c: nat, gate: Gate, w: World): State
  {
    var s := Then(s, Load(c));
    match gate
    case PutOff(clock, wait) => Then(Then(s, Defer(c, clock, wait)), Release(c))
    case Break => s
    case Go => Concluded(Attempted(s, c, w), c, w)
  }

  /** The delivery outcome a claim has recorded, if it got that far. */
  function OutcomeAt(s: State, c: nat): Option<bool>
  {
    if c in s.claims && s.claims[c].claim.pc.Audited? then Some(IsSuccess(s.claims[c].claim.pc.status)) else None
  }

  // ----------------------------------------------------------- what to expect

  /** The gates' decision; a discarded job meets none. */
  function PlannedGate(s: State, id: Id, circuits: map<string, Circuit.Entry>, buckets: map<string, Ratelimit.Entry>,
                       cfg: Config, w: World): Gate
  {
    if Live(s.jobs, id) then GateFor(circuits, buckets, s.jobs[id], cfg, w) else Go
  }

  /** Whether the call got as far as recording a delivery, and which. */
  function ExpectedOutcome(s: State, c: nat, id: Id, circuits: map<string, Circuit.Entry>,
                           buckets: map<string, Ratelimit.Entry>, cfg: Config, w: World): Option<bool>
  {
    if Live(s.jobs, id) && GateFor(circuits, buckets, s.jobs[id], cfg, w).Go?
    then OutcomeAt(Attempted(Then(s, Load(c)), c, w), c) else None
  }

  function BucketsAfter(jobs: Table, id: Id, circuits: map<string, Circuit.Entry>,
                        buckets: map<string, Ratelimit.Entry>, cfg: Config, w: World): map<string, Ratelimit.Entry>
  {
    if !Live(jobs, id) || Blocked(circuits, jobs[id], cfg, w) then buckets
    else Ratelimit.AfterTake(buckets, LimitKey(jobs[id]), cfg.rate, cfg.burst, w.takeAt, 1.0)
  }

  /** The breaker told of a delivery outcome, if there was one. */
  function Reported(circuits: map<string, Circuit.Entry>, job: Row, cfg: Config, w: World, delivered: Option<bool>)
    : map<string, Circuit.Entry>
  {
    match delivered
    case None => circuits
    case Some(true) => Circuit.AfterSuccess(circuits, CircuitKey(job), w.recordAt)
    case Some(false) => Circuit.AfterFailure(circuits, CircuitKey(job), cfg.threshold, w.recordAt)
  }

  function CircuitsAfter(jobs: Table, id: Id, circuits: map<string, Circuit.Entry>, cfg: Config, w: World,
                         delivered: Option<bool>): map<string, Circuit.Entry>
  {
    if !Live(jobs, id) then circuits
    else
      var checked := Circuit.AfterCheck(circuits, CircuitKey(jobs[id]), w.checkAt, cfg.cooldownMs);
      Reported(checked, jobs[id], cfg, w, delivered)
  }

  // ------------------------------------------------------ the steps' effects

  lemma SameRow(jobs: Table, id: Id)
    ensures SetRow(jobs, id, Lookup(jobs, id)) == jobs
  {
  }

  lemma RowStepEffect(s: State, step: Step) returns (s': State, x: Cell)
    requires RowStep(step) && step.claim in s.claims && AtStart(step, s.claims[step.claim].claim.pc)
    ensures s' == Then(s, step) && x == Stepped(CellOf(s, step.claim), step)
    ensures s'.q == s.q && s'.audit == s.audit
    ensures s'.jobs == SetRow(s.jobs, s.claims[step.claim].id, x.row)
    ensures step.claim in s'.claims && s'.claims[step.claim] == Held(s.claims[step.claim].id, x.claim)
  {
    s' := Do(s, step);
    x := Stepped(CellOf(s, step.claim), step);
  }

  lemma ReleaseEffect(s: State, c: nat) returns (s': State)
    requires c in s.claims
    ensures s' == Then(s, Release(c))
    ensures s'.jobs == s.jobs && s'.audit == s.audit
    ensures s'.q == var Held(id, claim) := s.claims[c];
                    if AtStart(Release(c), claim.pc) then Released(s.q, id, claim.pc) else s.q
  {
    s' := Then(s, Release(c));
  }

  lemma LoadEffect(s: State, c: nat) returns (s': State)
    requires c in s.claims && s.claims[c].claim.pc.Leased?
    ensures s' == Then(s, Load(c))
    ensures s'.q == s.q && s'.jobs == s.jobs && s'.audit == s.audit
    ensures c in s'.claims && s'.claims[c].id == s.claims[c].id
    ensures s'.claims[c].claim.pc == var row := Lookup(s.jobs, s.claims[c].id);
              if row.None? || Terminal(row.value) then Discarding else Loaded(row.value)
  {
    var x;
    s', x := RowStepEffect(s, Load(c));
    SameRow(s.jobs, s.claims[c].id);
  }

  lemma DeferRowEffect(s: State, c: nat, clock: int, wait: int) returns (s': State, x: Cell)
    requires c in s.claims && s.claims[c].claim.pc.Loaded?
    ensures x == Write(CellOf(s, c), Update(Queued, false, None, Some(clock + wait)), Deferring(clock + wait))
    ensures x.claim.pc == Over || x.claim.pc == Deferring(clock + wait)
    ensures s' == Then(s, Step.Defer(c, clock, wait)) && s'.q == s.q && s'.audit == s.audit
    ensures s'.jobs == SetRow(s.jobs, s.claims[c].id, x.row)
    ensures c in s'.claims && s'.claims[c] == Held(s.claims[c].id, x.claim)
  {
    s', x := RowStepEffect(s, Step.Defer(c, clock, wait));
  }

  lemma DeferEffect(s: State, c: nat, clock: int, wait: int) returns (s': State)
    requires c in s.claims && s.claims[c].claim.pc.Loaded?
    ensures s' == Then(Then(s, Step.Defer(c, clock, wait)), Release(c))
    ensures var id, u := s.claims[c].id, Update(Queued, false, None, Some(clock + wait));
            var x := Write(CellOf(s, c), u, Deferring(clock + wait));
            && s'.audit == s.audit && s'.jobs == SetRow(s.jobs, id, x.row)
            && s'.q == (if x.claim.pc.Over? then s.q else Queue.RetryLater(s.q, id, clock + wait))
  {
    var s1, x := DeferRowEffect(s, c, clock, wait);
    s' := ReleaseEffect(s1, c);
  }

  /** The UPDATE a verdict calls for, and the release that follows it. */
  function PlanFor(v: Verdict, status: Option<int>, clock: int): (Update, Pc)
  {
    match v
    case Success => (Update(Succeeded, true, None, None), Acking)
    case GiveUp => (Update(Dead, true, Some(Error(status)), None), Burying)
    case TryAgain(delay) => (Update(Queued, true, Some(Error(status)), Some(clock + delay)), Requeueing(clock + delay))
  }

  predicate Refused(row: Option<Row>, u: Update)
  {
    row.Some? && !Allowed(row.value, u)
  }

  lemma SettleIsPlan(x: Cell, clock: int, draw: real)
    requires x.claim.pc.Audited? && 0.0 <= draw < 1.0
    ensures var (u, next) := PlanFor(Judge(x.claim.pc.job, x.claim.pc.status, draw), x.claim.pc.status, clock);
            var y := SettleRow(x, clock, draw);
            y.row == Write(x, u, next).row && y.claim.pc == if Refused(x.row, u) then Over else next
  {
  }

  /** Settling, then releasing, in terms of the row alone. */
  lemma ConcludeEffect(s: State, c: nat, w: World, u: Update, next: Pc) returns (s': State)
    requires c in s.claims && s.claims[c].claim.pc.Audited? && 0.0 <= w.draw < 1.0
    requires var Audited(job, status) := s.claims[c].claim.pc;
             (u, next) == PlanFor(Judge(job, status, w.draw), status, w.settleAt)
    ensures s' == Concluded(s, c, w)
    ensures AtStart(Release(c), next)
    ensures var id, x := s.claims[c].id, CellOf(s, c);
            && s'.audit == s.audit && s'.jobs == SetRow(s.jobs, id, Write(x, u, next).row)
            && s'.q == (if Refused(x.row, u) then s.q else Released(s.q, id, next))
  {
    SettleIsPlan(CellOf(s, c), w.settleAt, w.draw);
    var s1, x := RowStepEffect(s, Settle(c, w.settleAt, w.draw));
    s' := ReleaseEffect(s1, c);
  }

  /** Marking the row in flight, up to the point where the webhook is looked up. */
  lemma DispatchEffect(s: State, c: nat) returns (s': State)
    requires c in s.claims && s.claims[c].claim.pc.Loaded?
    ensures s' == Then(s, Dispatch(c))
    ensures var Held(id, claim) := s.claims[c];
            var x := Write(CellOf(s, c), Update(InFlight, false, None, None), Sending(claim.pc.job));
            && s'.q == s.q && s'.audit == s.audit && s'.jobs == SetRow(s.jobs, id, x.row)
            && c in s'.claims && s'.claims[c] == Held(id, x.claim)
  {
    var x;
    s', x := RowStepEffect(s, Dispatch(c));
  }

  lemma NumberEffect(s: State, c: nat) returns (s': State)
    requires c in s.claims && s.claims[c].claim.pc.Sending?
    ensures s' == Then(Then(s, Number(c)), Call(c))
    ensures s'.q == s.q && s'.jobs == s.jobs && s'.audit == s.audit
    ensures c in s'.claims && s'.claims[c].id == s.claims[c].id
    ensures s'.claims[c].claim.pc
         == Calling(s.claims[c].claim.pc.job, NextNumber(Numbers(s.audit, s.claims[c].id)))
  {
    var s1 := Do(s, Number(c));
    var x;
    s', x := RowStepEffect(s1, Call(c));
    SameRow(s.jobs, s.claims[c].id);
  }

  lemma RecordEffect(s: State, c: nat, status: Option<int>) returns (s': State)
    requires c in s.claims && s.claims[c].claim.pc.Calling?
    ensures s' == Then(s, Record(c, status))
    ensures s'.q == s.q && s'.jobs == s.jobs
    ensures c in s'.claims && s'.claims[c].id == s.claims[c].id
    ensures var Held(id, claim) := s.claims[c];
            var ok := id in s.jobs && claim.pc.number !in Numbers(s.audit, id);
            && s'.audit == (if ok then s.audit + [AttemptRecord(id, claim.pc.number, status)] else s.audit)
            && s'.claims[c].claim == AfterRecord(claim, ok, status)
  {
    s' := Do(s, Record(c, status));
  }

  /** A claim that has ended, or never got so far, is moved by none of the later steps. */
  lemma NothingMore(s: State, c: nat, w: World)
    requires c in s.claims
    requires s.claims[c].claim.pc.Over? || s.claims[c].claim.pc.Sending?
    ensures Concluded(s, c, w) == s
    ensures s.claims[c].claim.pc.Over? ==> Recorded(s, c, w.status) == s
  {
    assert Then(s, Settle(c, w.settleAt, w.draw)) == s && Then(s, Release(c)) == s;
  }

  /** A claim about to discard goes straight to its ack. */
  lemma DiscardEffect(s: State, c: nat, w: World) returns (s': State)
    requires c in s.claims && s.claims[c].claim.pc.Discarding?
    ensures s' == Then(s, Release(c))
    ensures Concluded(Attempted(s, c, w), c, w) == s'
    ensures s'.jobs == s.jobs && s'.audit == s.audit && s'.q == Queue.Ack(s.q, s.claims[c].id)
  {
    s' := ReleaseEffect(s, c);
    assert Attempted(s, c, w) == s;
  }

  // --------------------------------------------- an uninterrupted call is a run

  ghost predicate StepsOf(c: nat, steps: seq<Step>)
  {
    forall step <- steps :: UnderLease(step) && step.claim == c
  }

  lemma ThenLeads(s: State, steps: seq<Step>, t: State, c: nat, step: Step) returns (more: seq<Step>)
    requires Leads(s, steps, t) && StepsOf(c, steps) && UnderLease(step) && step.claim == c
    ensures Leads(s, more, Then(t, step)) && StepsOf(c, more)
  {
    more := steps;
    if Enabled(t, step) {
      LeadsOneMore(s, steps, t, step);
      more := steps + [step];
    }
  }

  /** `process` run to its end is one of the protocol's runs, made of that claim's steps alone. */
  lemma ProcessIsARun(s: State, c: nat, gate: Gate, w: World) returns (steps: seq<Step>)
    ensures Leads(s, steps, Processed(s, c, gate, w)) && StepsOf(c, steps)
  {
    var t := Then(s, Load(c));
    LeadsNowhere(s);
    steps := ThenLeads(s, [], s, c, Load(c));
    match gate
    case PutOff(clock, wait) =>
      steps := ThenLeads(s, steps, t, c, Step.Defer(c, clock, wait));
      t := Then(t, Step.Defer(c, clock, wait));
      steps := ThenLeads(s, steps, t, c, Release(c));
    case Break =>
    case Go =>
      steps := ThenLeads(s, steps, t, c, Dispatch(c));
      t := Then(t, Dispatch(c));
      if w.webhookExists {
        steps := RecordedIsARun(s, steps, t, c, w.status);
        t := Recorded(t, c, w.status);
      }
      steps := ThenLeads(s, steps, t, c, Settle(c, w.settleAt, w.draw));
      t := Then(t, Settle(c, w.settleAt, w.draw));
      steps := ThenLeads(s, steps, t, c, Release(c));
  }

  lemma RecordedIsARun(s: State, before: seq<Step>, t: State, c: nat, status: Option<int>) returns (steps: seq<Step>)
    requires Leads(s, before, t) && StepsOf(c, before)
    ensures Leads(s, steps, Recorded(t, c, status)) && StepsOf(c, steps)
  {
    steps := ThenLeads(s, before, t, c, Number(c));
    var t1 := Then(t, Number(c));
    steps := ThenLeads(s, steps, t1, c, Call(c));
    var t2 := Then(t1, Call(c));
    steps := ThenLeads(s, steps, t2, c, Record(c, status));
  }
}
