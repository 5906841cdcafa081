/**
 * Who acts on a job, where each may stop, and what each step does to a row.
 *
 * A claim is one turn of a worker's consume loop, from BRPOPLPUSH to the script
 * that releases the id. A hand is one enqueue call, or one turn of the replay
 * loop. Between two steps anyone else may run. A crash, a throw that leaves the
 * job to the reaper, and a stall without end are all the same thing: the actor
 * takes no further step.
 */
module Actors {
  import opened Prelude
  import opened Redis
  import opened Jobs
  import opened Backoff

  /** What a claim has just done; `job` is the row as it was read. */
  datatype Pc =
    | Reserved                              // BRPOPLPUSH, no lease yet
    | Leased                                // ZADD of the lease
    | Discarding                            // found no row, or a terminal one
    | Loaded(job: Row)                      // found a live row
    | Deferring(runAt: int)                 // a gate said no; row put off
    | Sending(job: Row)                     // row marked in flight
    | Numbered(job: Row, number: nat)       // read MAX + 1
    | Calling(job: Row, number: nat)        // HTTP request on its way
    | Audited(job: Row, status: Option<int>) // response recorded
    | Acking                                // row succeeded
    | Burying                               // row dead
    | Requeueing(runAt: int)                // row queued again
    | Over                                  // released, or threw

  /**
   * `lease` is the expiry this claim wrote. The rest is history: `life` is the
   * job's life in which the claim made its HTTP call, `called` that it made
   * one, `counted` that the outcome reached the row.
   */
  datatype Claim = Claim(pc: Pc, lease: int, life: nat, called: bool, counted: bool)

  const FRESH := Claim(Reserved, 0, 0, false, false)

  datatype Hand =
    | Inserted(runAt: int)   // enqueue: row written, id not yet in Redis
    | Popped                 // replay: id popped from the DLQ
    | Revived                // replay: row reset, id not yet pushed
    | Empty

  datatype Arrival = ByEnqueue | ByPromotion | ByReaper | ByReplay

  /**
   * History of one id: whether its row was ever inserted, pushed to Redis, or
   * terminal; how many replays it has had; how it last reached `ready`; and the
   * retry delays scheduled in its current life.
   */
  datatype Past = Past(issued: bool, pushed: bool, settled: bool, life: nat, arrival: Arrival, delays: seq<int>)

  const UNBORN := Past(false, false, false, 0, ByEnqueue, [])

  datatype Step =
    // the clock, and steps of no consequence
    | Tick(time: int)
    | Idle
    // enqueue
    | Insert(hand: nat, id: Id, webhookId: string, maxAttempts: nat, runAt: int)
    | Place(hand: nat, clock: int)
    // replay
    | PopDead(hand: nat)
    | Revive(hand: nat, clock: int)
    | PushBack(hand: nat)
    // cascade from a deleted webhook
    | DeleteRow(id: Id)
    // reserve
    | Take(claim: nat)
    | TakeLease(claim: nat, clock: int)
    // process
    | Load(claim: nat)
    | Defer(claim: nat, clock: int, wait: int)
    | Dispatch(claim: nat)
    | Number(claim: nat)
    | Call(claim: nat)
    | Record(claim: nat, status: Option<int>)
    | Settle(claim: nat, clock: int, draw: real)
    | Release(claim: nat)
    // scheduler
    | Promote(clock: int, batch: nat)
    | Reap(clock: int, batch: nat)

  /** Steps of `process`: what a worker does under a lease. */
  predicate UnderLease(step: Step)
  {
    step.Load? || step.Defer? || step.Dispatch? || step.Number? || step.Call? ||
    step.Record? || step.Settle? || step.Release?
  }

  predicate ReadsClock(step: Step)
  {
    step.Place? || step.Revive? || step.TakeLease? || step.Defer? || step.Settle? ||
    step.Promote? || step.Reap?
  }

  /** Steps that change one row and the claim itself, no queue and no audit row. */
  predicate RowStep(step: Step)
  {
    step.Load? || step.Defer? || step.Dispatch? || step.Call? || step.Settle?
  }

  /** Whether a claim is where this step starts. */
  predicate AtStart(step: Step, pc: Pc)
    requires UnderLease(step) || step.TakeLease?
  {
    match step
    case TakeLease(_, _) => pc.Reserved?
    case Load(_) => pc.Leased?
    case Defer(_, _, _) => pc.Loaded?
    case Dispatch(_) => pc.Loaded?
    case Number(_) => pc.Sending?
    case Call(_) => pc.Numbered?
    case Record(_, _) => pc.Calling?
    case Settle(_, _, u) => pc.Audited? && 0.0 <= u < 1.0
    case Release(_) => pc.Discarding? || pc.Deferring? || pc.Acking? || pc.Burying? || pc.Requeueing?
  }

  /** What a row step reads and writes. */
  datatype Cell = Cell(row: Option<Row>, claim: Claim, past: Past)

  function Goto(x: Cell, pc: Pc): Cell
  {
    x.(claim := x.claim.(pc := pc))
  }

  predicate Applies(row: Option<Row>, u: Update)
  {
    row.Some? && Allowed(row.value, u)
  }

  /** An UPDATE: nothing if the row is gone, a throw if the CHECK fails. */
  function Write(x: Cell, u: Update, next: Pc): Cell
  {
    if x.row.None? then Goto(x, next)
    else if !Allowed(x.row.value, u) then Goto(x, Over)
    else
      var row := Updated(x.row.value, u);
      Goto(x, next).(row := Some(row), past := x.past.(settled := x.past.settled || Terminal(row)))
  }

  /** An UPDATE that also records an outcome. */
  function WriteOutcome(x: Cell, u: Update, next: Pc): Cell
  {
    var y := Write(x, u, next);
    if Applies(x.row, u) then y.(claim := y.claim.(counted := true)) else y
  }

  function Error(status: Option<int>): Failure
  {
    if status.Some? then HttpStatus(status.value) else NoResponse
  }

  /** What `process` decides to do with an outcome. */
  datatype Verdict = Success | GiveUp | TryAgain(delay: int)

  function Judge(job: Row, status: Option<int>, draw: real): Verdict
    requires 0.0 <= draw < 1.0
  {
    if IsSuccess(status) then Success
    else if !IsRetryable(status) || job.attempts + 1 >= job.maxAttempts then GiveUp
    else TryAgain(BackoffMs(job.attempts + 1, draw))
  }

  function SettleRow(x: Cell, clock: int, draw: real): Cell
    requires x.claim.pc.Audited? && 0.0 <= draw < 1.0
  {
    var Audited(job, status) := x.claim.pc;
    match Judge(job, status, draw)
    case Success =>
      WriteOutcome(x, Update(Succeeded, true, None, None), Acking)
    case GiveUp =>
      WriteOutcome(x, Update(Dead, true, Some(Error(status)), None), Burying)
    case TryAgain(delay) =>
      var u := Update(Queued, true, Some(Error(status)), Some(clock + delay));
      var y := WriteOutcome(x, u, Requeueing(clock + delay));
      if Applies(x.row, u) then y.(past := y.past.(delays := y.past.delays + [delay])) else y
  }

  function Stepped(x: Cell, step: Step): Cell
    requires RowStep(step) && AtStart(step, x.claim.pc)
  {
    match step
    case Load(_) =>
      Goto(x, if x.row.None? || Terminal(x.row.value) then Discarding else Loaded(x.row.value))
    case Defer(_, clock, wait) =>
      Write(x, Update(Queued, false, None, Some(clock + wait)), Deferring(clock + wait))
    case Dispatch(_) =>
      Write(x, Update(InFlight, false, None, None), Sending(x.claim.pc.job))
    case Call(_) =>
      x.(claim := x.claim.(pc := Calling(x.claim.pc.job, x.claim.pc.number), called := true, life := x.past.life))
    case Settle(_, clock, draw) =>
      SettleRow(x, clock, draw)
  }

  /** Where a claim stands after its audit row was, or was not, accepted. */
  function AfterRecord(claim: Claim, accepted: bool, status: Option<int>): Claim
    requires claim.pc.Calling?
  {
    claim.(pc := if accepted then Audited(claim.pc.job, status) else Over)
  }
}
