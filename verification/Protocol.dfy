/**
 * The delivery engine as one transition system: Redis, Postgres, and any number
 * of workers, enqueuers, replayers and schedulers interleaving step by step.
 */
module Protocol {
  import opened Prelude
  import opened Redis
  import opened Jobs
  import opened Deliveries
  import opened Actors
  import Queue

  datatype Held = Held(id: Id, claim: Claim)
  datatype Handling = Handling(id: Id, hand: Hand)

  datatype State = State(
    now: int,
    q: Queue.Queues,
    jobs: Table,
    audit: seq<AttemptRecord>,
    claims: map<nat, Held>,
    hands: map<nat, Handling>,
    past: map<Id, Past>)

  function Init(now: int): State
  {
    State(now, Queue.EMPTY, map[], [], map[], map[], map[])
  }

  function PastOf(s: State, id: Id): Past
  {
    if id in s.past then s.past[id] else UNBORN
  }

  function SetRow(jobs: Table, id: Id, row: Option<Row>): Table
  {
    if row.Some? then jobs[id := row.value] else jobs - {id}
  }

  function CellOf(s: State, c: nat): Cell
    requires c in s.claims
  {
    var Held(id, claim) := s.claims[c];
    Cell(Lookup(s.jobs, id), claim, PastOf(s, id))
  }

  function PutCell(s: State, c: nat, x: Cell): State
    requires c in s.claims
  {
    var id := s.claims[c].id;
    s.(jobs := SetRow(s.jobs, id, x.row), claims := s.claims[c := Held(id, x.claim)], past := s.past[id := x.past])
  }

  function PutClaim(s: State, c: nat, claim: Claim): State
    requires c in s.claims
  {
    s.(claims := s.claims[c := Held(s.claims[c].id, claim)])
  }

  /** Mark every id of a batch as having reached `ready` this way. */
  function Arrive(s: State, ids: set<Id>, how: Arrival): map<Id, Past>
  {
    s.past + map id | id in ids :: PastOf(s, id).(arrival := how)
  }

  predicate Enabled(s: State, step: Step)
  {
    match step
    case Tick(time) => s.now <= time
    case Idle => true
    case Insert(h, id, _, maxAttempts, _) =>
      h !in s.hands && id !in s.past && id !in s.jobs && maxAttempts >= 1
    case Place(h, _) => h in s.hands && s.hands[h].hand.Inserted?
    case PopDead(h) => h !in s.hands && s.q.dlq != []
    case Revive(h, _) => h in s.hands && s.hands[h].hand.Popped?
    case PushBack(h) => h in s.hands && s.hands[h].hand.Revived?
    case DeleteRow(id) => id in s.jobs
    case Take(c) => c !in s.claims && s.q.ready != []
    case Promote(_, _) => true
    case Reap(_, _) => true
    case _ => step.claim in s.claims && AtStart(step, s.claims[step.claim].claim.pc)
  }

  /** The release a claim owes the queue. */
  function Released(q: Queue.Queues, id: Id, pc: Pc): Queue.Queues
    requires AtStart(Release(0), pc)
  {
    match pc
    case Burying => Queue.DeadLetter(q, id)
    case Deferring(runAt) => Queue.RetryLater(q, id, runAt)
    case Requeueing(runAt) => Queue.RetryLater(q, id, runAt)
    case _ => Queue.Ack(q, id)
  }

  function DoInsert(s: State, h: nat, id: Id, row: Row): State
  {
    s.(jobs := s.jobs[id := row],
       hands := s.hands[h := Handling(id, Inserted(row.runAt))],
       past := s.past[id := UNBORN.(issued := true)])
  }

  /** Push the new id where its due time says. */
  function DoPlace(s: State, h: nat, clock: int): State
    requires h in s.hands && s.hands[h].hand.Inserted?
  {
    var Handling(id, hand) := s.hands[h];
    var past := PastOf(s, id).(pushed := true);
    var s := s.(hands := s.hands[h := Handling(id, Empty)]);
    if hand.runAt > clock then
      s.(q := Queue.PushDelayed(s.q, id, hand.runAt), past := s.past[id := past])
    else
      s.(q := Queue.Push(s.q, id), past := s.past[id := past.(arrival := ByEnqueue)])
  }

  function DoPopDead(s: State, h: nat): State
    requires s.q.dlq != []
  {
    s.(q := Queue.PopDlq(s.q), hands := s.hands[h := Handling(Queue.Oldest(s.q), Popped)])
  }

  /** Reset the row for a fresh life, or drop the id if there is none. */
  function DoRevive(s: State, h: nat, clock: int): State
    requires h in s.hands
  {
    var id := s.hands[h].id;
    if id !in s.jobs then s.(hands := s.hands[h := Handling(id, Empty)])
    else
      s.(jobs := s.jobs[id := ResetRow(s.jobs[id], clock)], hands := s.hands[h := Handling(id, Revived)],
         past := s.past[id := PastOf(s, id).(life := PastOf(s, id).life + 1, delays := [])])
  }

  function DoPushBack(s: State, h: nat): State
    requires h in s.hands
  {
    var id := s.hands[h].id;
    s.(q := Queue.Push(s.q, id), hands := s.hands[h := Handling(id, Empty)],
       past := s.past[id := PastOf(s, id).(arrival := ByReplay)])
  }

  function DoDelete(s: State, id: Id): State
  {
    s.(jobs := s.jobs - {id}, audit := Without(s.audit, id))
  }

  function DoTake(s: State, c: nat): State
    requires s.q.ready != []
  {
    s.(q := Queue.Claim(s.q), claims := s.claims[c := Held(Queue.Next(s.q), FRESH)])
  }

  function DoTakeLease(s: State, c: nat, until: int): State
    requires c in s.claims
  {
    var Held(id, claim) := s.claims[c];
    PutClaim(s, c, claim.(pc := Leased, lease := until)).(q := Queue.Lease(s.q, id, until))
  }

  function DoNumber(s: State, c: nat): State
    requires c in s.claims && s.claims[c].claim.pc.Sending?
  {
    var Held(id, claim) := s.claims[c];
    PutClaim(s, c, claim.(pc := Numbered(claim.pc.job, NextNumber(Numbers(s.audit, id)))))
  }

  /** The audit INSERT, which the foreign key or UNIQUE may refuse. */
  function DoRecord(s: State, c: nat, status: Option<int>): State
    requires c in s.claims && s.claims[c].claim.pc.Calling?
  {
    var Held(id, claim) := s.claims[c];
    if id in s.jobs && claim.pc.number !in Numbers(s.audit, id) then
      PutClaim(s, c, AfterRecord(claim, true, status)).(
        audit := s.audit + [AttemptRecord(id, claim.pc.number, status)])
    else
      PutClaim(s, c, AfterRecord(claim, false, status))
  }

  function DoRelease(s: State, c: nat): State
    requires c in s.claims && AtStart(Release(c), s.claims[c].claim.pc)
  {
    var Held(id, claim) := s.claims[c];
    PutClaim(s, c, claim.(pc := Over)).(q := Released(s.q, id, claim.pc))
  }

  /** A sweep of either kind: new queues, and a batch of ids that reached `ready`. */
  function DoSweep(s: State, q: Queue.Queues, ids: seq<Id>, how: Arrival): State
  {
    s.(q := q, past := Arrive(s, Members(ids), how))
  }

  function DoRowStep(s: State, step: Step): State
    requires RowStep(step) && step.claim in s.claims && AtStart(step, s.claims[step.claim].claim.pc)
  {
    PutCell(s, step.claim, Stepped(CellOf(s, step.claim), step))
  }

  function Do(s: State, step: Step): State
    requires Enabled(s, step)
  {
    match step
    case Tick(time) => s.(now := time)
    case Idle => s
    case Insert(h, id, webhookId, maxAttempts, runAt) => DoInsert(s, h, id, NewRow(webhookId, maxAttempts, runAt))
    case Place(h, clock) => DoPlace(s, h, clock)
    case PopDead(h) => DoPopDead(s, h)
    case Revive(h, clock) => DoRevive(s, h, clock)
    case PushBack(h) => DoPushBack(s, h)
    case DeleteRow(id) => DoDelete(s, id)
    case Take(c) => DoTake(s, c)
    case TakeLease(c, clock) => DoTakeLease(s, c, clock + Queue.VISIBILITY_TIMEOUT_MS)
    case Number(c) => DoNumber(s, c)
    case Record(c, status) => DoRecord(s, c, status)
    case Release(c) => DoRelease(s, c)
    case Promote(clock, batch) =>
      DoSweep(s, Queue.PromoteDue(s.q, clock, batch), Range(s.q.delayed, clock, batch), ByPromotion)
    case Reap(clock, batch) =>
      DoSweep(s, Queue.ReapExpired(s.q, clock, batch), Range(s.q.leases, clock, batch), ByReaper)
    case _ => DoRowStep(s, step)
  }

  /**
   * The timing the visibility timeout relies on: a worker acts only while its
   * lease runs, and no clock reading lies in the future.
   */
  predicate OnTime(s: State, step: Step)
    requires Enabled(s, step)
  {
    (UnderLease(step) ==> s.now < s.claims[step.claim].claim.lease) &&
    (ReadsClock(step) ==> step.clock <= s.now)
  }

  /** A run: states linked by steps, from an empty system. */
  ghost predicate FreeRun(states: seq<State>, steps: seq<Step>)
  {
    && |states| == |steps| + 1
    && states[0] == Init(states[0].now)
    && forall k :: 0 <= k < |steps| ==> Enabled(states[k], steps[k]) && states[k + 1] == Do(states[k], steps[k])
  }

  ghost predicate TimelyRun(states: seq<State>, steps: seq<Step>)
  {
    && FreeRun(states, steps)
    && forall k :: 0 <= k < |steps| ==> OnTime(states[k], steps[k])
  }
}
