/** Every step of the whole system is, for each job id, a step of that job's view. */
module Projection {
  import opened Prelude
  import opened Redis
  import opened Jobs
  import opened Deliveries
  import opened Actors
  import opened Protocol
  import opened JobView
  import Queue

  function ClaimsOn(claims: map<nat, Held>, id: Id): map<nat, Claim>
  {
    map c | c in claims && claims[c].id == id :: claims[c].claim
  }

  function HandsOn(hands: map<nat, Handling>, id: Id): map<nat, Hand>
  {
    map h | h in hands && hands[h].id == id :: hands[h].hand
  }

  function Project(s: State, id: Id): View
  {
    View(s.now, Count(s.q.ready, id), Count(s.q.inflight, id), Lookup(s.q.leases, id), Lookup(s.q.delayed, id),
         Count(s.q.dlq, id), Lookup(s.jobs, id), Numbers(s.audit, id),
         ClaimsOn(s.claims, id), HandsOn(s.hands, id), PastOf(s, id))
  }

  /** Whether a step is about this id. */
  predicate Concerns(s: State, step: Step, id: Id)
    requires Enabled(s, step)
  {
    match step
    case Tick(_) => true
    case Idle => false
    case Insert(_, i, _, _, _) => i == id
    case Place(h, _) => s.hands[h].id == id
    case PopDead(_) => Queue.Oldest(s.q) == id
    case Revive(h, _) => s.hands[h].id == id
    case PushBack(h) => s.hands[h].id == id
    case DeleteRow(i) => i == id
    case Take(_) => Queue.Next(s.q) == id
    case Promote(clock, batch) => id in Range(s.q.delayed, clock, batch)
    case Reap(clock, batch) => id in Range(s.q.leases, clock, batch)
    case _ => s.claims[step.claim].id == id
  }

  function StepFor(s: State, step: Step, id: Id): Step
    requires Enabled(s, step)
  {
    if Concerns(s, step, id) then step else Idle
  }

  ghost predicate Simulates(s: State, step: Step, id: Id)
    requires Enabled(s, step)
  {
    var mine := StepFor(s, step, id);
    ViewEnabled(Project(s, id), mine) && Project(Do(s, step), id) == ViewDo(Project(s, id), mine)
  }

  lemma ClaimsOnUpdate(claims: map<nat, Held>, c: nat, held: Held, id: Id)
    requires c in claims ==> claims[c].id == held.id
    ensures ClaimsOn(claims[c := held], id)
         == if held.id == id then ClaimsOn(claims, id)[c := held.claim] else ClaimsOn(claims, id)
  {
  }

  lemma HandsOnUpdate(hands: map<nat, Handling>, h: nat, held: Handling, id: Id)
    requires h in hands ==> hands[h].id == held.id
    ensures HandsOn(hands[h := held], id)
         == if held.id == id then HandsOn(hands, id)[h := held.hand] else HandsOn(hands, id)
  {
  }

  lemma ProjectInsert(s: State, h: nat, i: Id, row: Row, id: Id)
    requires h !in s.hands
    ensures Project(DoInsert(s, h, i, row), id)
         == if i == id then ViewInsert(Project(s, id), h, row) else Project(s, id)
  {
  }

  lemma ProjectPlace(s: State, h: nat, clock: int, id: Id)
    requires h in s.hands && s.hands[h].hand.Inserted?
    ensures Project(DoPlace(s, h, clock), id)
         == if s.hands[h].id == id then ViewPlace(Project(s, id), h, clock) else Project(s, id)
  {
    var i := s.hands[h].id;
    HandsOnUpdate(s.hands, h, Handling(i, Empty), id);
    CountPush(s.q.ready, i, id);
  }

  lemma ProjectPopDead(s: State, h: nat, id: Id)
    requires h !in s.hands && s.q.dlq != []
    ensures Queue.Oldest(s.q) == id ==> Project(s, id).dlq > 0
    ensures Project(DoPopDead(s, h), id)
         == if Queue.Oldest(s.q) == id then ViewPopDead(Project(s, id), h) else Project(s, id)
  {
    HandsOnUpdate(s.hands, h, Handling(Queue.Oldest(s.q), Popped), id);
    CountPopLast(s.q.dlq, id);
  }

  lemma ProjectRevive(s: State, h: nat, clock: int, id: Id)
    requires h in s.hands
    ensures Project(DoRevive(s, h, clock), id)
         == if s.hands[h].id == id then ViewRevive(Project(s, id), h, clock) else Project(s, id)
  {
    var i := s.hands[h].id;
    HandsOnUpdate(s.hands, h, Handling(i, Empty), id);
    HandsOnUpdate(s.hands, h, Handling(i, Revived), id);
  }

  lemma ProjectPushBack(s: State, h: nat, id: Id)
    requires h in s.hands
    ensures Project(DoPushBack(s, h), id)
         == if s.hands[h].id == id then ViewPushBack(Project(s, id), h) else Project(s, id)
  {
  }

  lemma ProjectDelete(s: State, i: Id, id: Id)
    ensures Project(DoDelete(s, i), id)
         == if i == id then Project(s, id).(row := None, numbers := []) else Project(s, id)
  {
    NumbersWithout(s.audit, i, id);
  }

  lemma ProjectTake(s: State, c: nat, id: Id)
    requires c !in s.claims && s.q.ready != []
    ensures Queue.Next(s.q) == id ==> Project(s, id).ready > 0
    ensures Project(DoTake(s, c), id)
         == if Queue.Next(s.q) == id then ViewTake(Project(s, id), c) else Project(s, id)
  {
    ClaimsOnUpdate(s.claims, c, Held(Queue.Next(s.q), FRESH), id);
    ClaimCounts(s.q, id);
  }

  lemma ClaimCounts(q: Queue.Queues, id: Id)
    requires q.ready != []
    ensures var one := if Queue.Next(q) == id then 1 else 0;
            Count(Queue.Claim(q).ready, id) == Count(q.ready, id) - one &&
            Count(Queue.Claim(q).inflight, id) == Count(q.inflight, id) + one
  {
    CountPopLast(q.ready, id);
    CountPush(q.inflight, Queue.Next(q), id);
  }

  lemma ProjectTakeLease(s: State, c: nat, until: int, id: Id)
    requires c in s.claims
    ensures Project(DoTakeLease(s, c, until), id)
         == if s.claims[c].id == id then ViewTakeLease(Project(s, id), c, until) else Project(s, id)
  {
  }

  lemma ProjectRowStep(s: State, step: Step, id: Id)
    requires RowStep(step) && step.claim in s.claims && AtStart(step, s.claims[step.claim].claim.pc)
    ensures Project(DoRowStep(s, step), id)
         == if s.claims[step.claim].id == id then ViewRowStep(Project(s, id), step) else Project(s, id)
  {
  }

  lemma ProjectClaim(s: State, c: nat, claim: Claim, id: Id)
    requires c in s.claims
    ensures Project(PutClaim(s, c, claim), id)
         == if s.claims[c].id == id then Project(s, id).(claims := Project(s, id).claims[c := claim])
            else Project(s, id)
  {
  }

  lemma ProjectNumber(s: State, c: nat, id: Id)
    requires c in s.claims && s.claims[c].claim.pc.Sending?
    ensures Project(DoNumber(s, c), id)
         == if s.claims[c].id == id then ViewNumber(Project(s, id), c) else Project(s, id)
  {
  }

  lemma ProjectAppend(s: State, r: AttemptRecord, id: Id)
    ensures Project(s.(audit := s.audit + [r]), id)
         == if r.jobId == id then Project(s, id).(numbers := Project(s, id).numbers + [r.attemptNumber])
            else Project(s, id)
  {
  }

  lemma ProjectRecord(s: State, c: nat, status: Option<int>, id: Id)
    requires c in s.claims && s.claims[c].claim.pc.Calling?
    ensures Project(DoRecord(s, c, status), id)
         == if s.claims[c].id == id then ViewRecord(Project(s, id), c, status) else Project(s, id)
  {
    var Held(i, claim) := s.claims[c];
    var accepted := i in s.jobs && claim.pc.number !in Numbers(s.audit, i);
    var put := PutClaim(s, c, AfterRecord(claim, accepted, status));
    ProjectClaim(s, c, AfterRecord(claim, accepted, status), id);
    if accepted {
      ProjectAppend(put, AttemptRecord(i, claim.pc.number, status), id);
    }
  }

  lemma ProjectRelease(s: State, c: nat, id: Id)
    requires c in s.claims && AtStart(Release(c), s.claims[c].claim.pc)
    ensures Project(DoRelease(s, c), id)
         == if s.claims[c].id == id then ViewRelease(Project(s, id), c) else Project(s, id)
  {
    var Held(i, claim) := s.claims[c];
    ClaimsOnUpdate(s.claims, c, Held(i, claim.(pc := Over)), id);
    CountLRem(s.q.inflight, i, id);
    CountIs(s.q.inflight, id);
    CountPush(s.q.dlq, i, id);
  }

  lemma ProjectPromote(s: State, clock: int, batch: nat, id: Id)
    ensures var ids := Range(s.q.delayed, clock, batch);
            && (id in ids ==> id in s.q.delayed && s.q.delayed[id] <= clock)
            && Project(DoSweep(s, Queue.PromoteDue(s.q, clock, batch), ids, ByPromotion), id)
               == if id in ids then ViewPromote(Project(s, id)) else Project(s, id)
  {
    RangeMember(s.q.delayed, clock, batch, id);
    CountBatch(Range(s.q.delayed, clock, batch), s.q.ready, id);
  }

  lemma ProjectReap(s: State, clock: int, batch: nat, id: Id)
    ensures var ids := Range(s.q.leases, clock, batch);
            && (id in ids ==> id in s.q.leases && s.q.leases[id] <= clock)
            && Project(DoSweep(s, Queue.ReapExpired(s.q, clock, batch), ids, ByReaper), id)
               == if id in ids then ViewReap(Project(s, id)) else Project(s, id)
  {
    RangeMember(s.q.leases, clock, batch, id);
    CountBatch(Range(s.q.leases, clock, batch), s.q.ready, id);
    EachCount(s.q.inflight, Range(s.q.leases, clock, batch), id);
  }

  lemma EachCount(s: seq<Id>, ids: seq<Id>, id: Id)
    requires multiset(ids)[id] <= 1
    ensures Count(Queue.LRemEach(s, ids), id) == if id in ids then Less(Count(s, id)) else Count(s, id)
  {
    Queue.LRemEachCounts(s, ids);
    CountIs(s, id);
    CountIs(Queue.LRemEach(s, ids), id);
    assert id in ids <==> id in multiset(ids);
  }

  lemma SimulateHand(s: State, step: Step, id: Id)
    requires Enabled(s, step)
    requires step.Place? || step.Revive? || step.PushBack?
    ensures Simulates(s, step, id)
  {
    match step
    case Place(h, clock) => ProjectPlace(s, h, clock, id);
    case Revive(h, clock) => ProjectRevive(s, h, clock, id);
    case PushBack(h) => ProjectPushBack(s, h, id);
  }

  lemma SimulateNewHand(s: State, step: Step, id: Id)
    requires Enabled(s, step)
    requires step.Insert? || step.PopDead?
    ensures Simulates(s, step, id)
  {
    match step
    case Insert(h, i, webhookId, maxAttempts, runAt) =>
      ProjectInsert(s, h, i, NewRow(webhookId, maxAttempts, runAt), id);
    case PopDead(h) => ProjectPopDead(s, h, id);
  }

  lemma SimulateReserve(s: State, step: Step, id: Id)
    requires Enabled(s, step)
    requires step.Take? || step.TakeLease?
    ensures Simulates(s, step, id)
  {
    match step
    case Take(c) => ProjectTake(s, c, id);
    case TakeLease(c, clock) => ProjectTakeLease(s, c, clock + Queue.VISIBILITY_TIMEOUT_MS, id);
  }

  lemma SimulateAudit(s: State, step: Step, id: Id)
    requires Enabled(s, step)
    requires step.Number? || step.Record?
    ensures Simulates(s, step, id)
  {
    match step
    case Number(c) => ProjectNumber(s, c, id);
    case Record(c, status) => ProjectRecord(s, c, status, id);
  }

  lemma SimulateRelease(s: State, step: Step, id: Id)
    requires Enabled(s, step) && step.Release?
    ensures Simulates(s, step, id)
  {
    ProjectRelease(s, step.claim, id);
  }

  lemma SimulateRowStep(s: State, step: Step, id: Id)
    requires Enabled(s, step) && RowStep(step)
    ensures Simulates(s, step, id)
  {
    ProjectRowStep(s, step, id);
  }

  lemma SimulatePromote(s: State, step: Step, id: Id)
    requires step.Promote?
    ensures Simulates(s, step, id)
  {
    ProjectPromote(s, step.clock, step.batch, id);
    if id in Range(s.q.delayed, step.clock, step.batch) {
      assert ViewDo(Project(s, id), step) == ViewPromote(Project(s, id));
    } else {
      assert StepFor(s, step, id) == Idle;
    }
  }

  lemma SimulateReap(s: State, step: Step, id: Id)
    requires step.Reap?
    ensures Simulates(s, step, id)
  {
    ProjectReap(s, step.clock, step.batch, id);
    if id in Range(s.q.leases, step.clock, step.batch) {
      assert ViewDo(Project(s, id), step) == ViewReap(Project(s, id));
    } else {
      assert StepFor(s, step, id) == Idle;
    }
  }

  /** Every step of the system is a step, or no step, of each id's view. */
  lemma ProjectStep(s: State, step: Step, id: Id)
    requires Enabled(s, step)
    ensures Simulates(s, step, id)
  {
    match step
    case Tick(_) =>
    case Idle =>
    case Insert(_, _, _, _, _) => SimulateNewHand(s, step, id);
    case PopDead(_) => SimulateNewHand(s, step, id);
    case Place(_, _) => SimulateHand(s, step, id);
    case Revive(_, _) => SimulateHand(s, step, id);
    case PushBack(_) => SimulateHand(s, step, id);
    case DeleteRow(i) => ProjectDelete(s, i, id);
    case Take(_) => SimulateReserve(s, step, id);
    case TakeLease(_, _) => SimulateReserve(s, step, id);
    case Number(_) => SimulateAudit(s, step, id);
    case Record(_, _) => SimulateAudit(s, step, id);
    case Release(_) => SimulateRelease(s, step, id);
    case Promote(_, _) => SimulatePromote(s, step, id);
    case Reap(_, _) => SimulateReap(s, step, id);
    case _ => SimulateRowStep(s, step, id);
  }

  /** Seen from one id, a timely step is timely. */
  lemma ProjectTiming(s: State, step: Step, id: Id)
    requires Enabled(s, step) && OnTime(s, step)
    ensures ViewEnabled(Project(s, id), StepFor(s, step, id))
    ensures ViewOnTime(Project(s, id), StepFor(s, step, id))
  {
    ProjectStep(s, step, id);
  }
}
