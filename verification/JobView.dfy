/**
 * The protocol as one job id sees it: how often the id occurs in each list, its
 * entries in the sorted sets, its row and attempt numbers, and the claims and
 * hands that hold it. Ids share the Redis lists but never affect one another,
 * so a step of the whole system is, for any one id, a step here or no step.
 */
module JobView {
  import opened Prelude
  import opened Jobs
  import opened Deliveries
  import opened Actors
  import Queue

  datatype View = View(
    now: int,
    ready: nat,
    inflight: nat,
    lease: Option<int>,
    delayed: Option<int>,
    dlq: nat,
    row: Option<Row>,
    numbers: seq<nat>,
    claims: map<nat, Claim>,
    hands: map<nat, Hand>,
    past: Past)

  function Blank(now: int): View
  {
    View(now, 0, 0, None, None, 0, None, [], map[], map[], UNBORN)
  }

  predicate ViewEnabled(v: View, step: Step)
  {
    match step
    case Tick(time) => v.now <= time
    case Idle => true
    case Insert(h, _, _, maxAttempts, _) => h !in v.hands && !v.past.issued && v.row.None? && maxAttempts >= 1
    case Place(h, _) => h in v.hands && v.hands[h].Inserted?
    case PopDead(h) => h !in v.hands && v.dlq > 0
    case Revive(h, _) => h in v.hands && v.hands[h].Popped?
    case PushBack(h) => h in v.hands && v.hands[h].Revived?
    case DeleteRow(_) => v.row.Some?
    case Take(c) => c !in v.claims && v.ready > 0
    case Promote(clock, _) => v.delayed.Some? && v.delayed.value <= clock
    case Reap(clock, _) => v.lease.Some? && v.lease.value <= clock
    case _ => step.claim in v.claims && AtStart(step, v.claims[step.claim].pc)
  }

  function Less(n: nat): nat
  {
    if n == 0 then 0 else n - 1
  }

  function ViewReleased(v: View, pc: Pc): View
    requires AtStart(Release(0), pc)
  {
    var v := v.(inflight := Less(v.inflight), lease := None);
    match pc
    case Burying => v.(dlq := v.dlq + 1)
    case Deferring(runAt) => v.(delayed := Some(runAt))
    case Requeueing(runAt) => v.(delayed := Some(runAt))
    case _ => v
  }

  function ViewInsert(v: View, h: nat, row: Row): View
  {
    v.(row := Some(row), hands := v.hands[h := Inserted(row.runAt)], past := UNBORN.(issued := true))
  }

  function ViewPlace(v: View, h: nat, clock: int): View
    requires h in v.hands && v.hands[h].Inserted?
  {
    var runAt, past := v.hands[h].runAt, v.past.(pushed := true);
    var v := v.(hands := v.hands[h := Empty]);
    if runAt > clock then v.(delayed := Some(runAt), past := past)
    else v.(ready := v.ready + 1, past := past.(arrival := ByEnqueue))
  }

  function ViewPopDead(v: View, h: nat): View
    requires v.dlq > 0
  {
    v.(dlq := v.dlq - 1, hands := v.hands[h := Popped])
  }

  function ViewRevive(v: View, h: nat, clock: int): View
  {
    if v.row.None? then v.(hands := v.hands[h := Empty])
    else
      v.(row := Some(ResetRow(v.row.value, clock)), hands := v.hands[h := Revived],
         past := v.past.(life := v.past.life + 1, delays := []))
  }

  function ViewPushBack(v: View, h: nat): View
  {
    v.(ready := v.ready + 1, hands := v.hands[h := Empty], past := v.past.(arrival := ByReplay))
  }

  function ViewTake(v: View, c: nat): View
    requires v.ready > 0
  {
    v.(ready := v.ready - 1, inflight := v.inflight + 1, claims := v.claims[c := FRESH])
  }

  function ViewTakeLease(v: View, c: nat, until: int): View
    requires c in v.claims
  {
    v.(lease := Some(until), claims := v.claims[c := v.claims[c].(pc := Leased, lease := until)])
  }

  function ViewNumber(v: View, c: nat): View
    requires c in v.claims && v.claims[c].pc.Sending?
  {
    v.(claims := v.claims[c := v.claims[c].(pc := Numbered(v.claims[c].pc.job, NextNumber(v.numbers)))])
  }

  function ViewRecord(v: View, c: nat, status: Option<int>): View
    requires c in v.claims && v.claims[c].pc.Calling?
  {
    var number := v.claims[c].pc.number;
    if v.row.Some? && number !in v.numbers then
      v.(numbers := v.numbers + [number], claims := v.claims[c := AfterRecord(v.claims[c], true, status)])
    else
      v.(claims := v.claims[c := AfterRecord(v.claims[c], false, status)])
  }

  function ViewRelease(v: View, c: nat): View
    requires c in v.claims && AtStart(Release(c), v.claims[c].pc)
  {
    ViewReleased(v, v.claims[c].pc).(claims := v.claims[c := v.claims[c].(pc := Over)])
  }

  function ViewPromote(v: View): View
  {
    v.(delayed := None, ready := v.ready + 1, past := v.past.(arrival := ByPromotion))
  }

  function ViewReap(v: View): View
  {
    v.(lease := None, inflight := Less(v.inflight), ready := v.ready + 1, past := v.past.(arrival := ByReaper))
  }

  function ViewRowStep(v: View, step: Step): View
    requires RowStep(step) && step.claim in v.claims && AtStart(step, v.claims[step.claim].pc)
  {
    var x := Stepped(Cell(v.row, v.claims[step.claim], v.past), step);
    v.(row := x.row, claims := v.claims[step.claim := x.claim], past := x.past)
  }

  function ViewDo(v: View, step: Step): View
    requires ViewEnabled(v, step)
  {
    match step
    case Tick(time) => v.(now := time)
    case Idle => v
    case Insert(h, id, webhookId, maxAttempts, runAt) => ViewInsert(v, h, NewRow(webhookId, maxAttempts, runAt))
    case Place(h, clock) => ViewPlace(v, h, clock)
    case PopDead(h) => ViewPopDead(v, h)
    case Revive(h, clock) => ViewRevive(v, h, clock)
    case PushBack(h) => ViewPushBack(v, h)
    case DeleteRow(_) => v.(row := None, numbers := [])
    case Take(c) => ViewTake(v, c)
    case TakeLease(c, clock) => ViewTakeLease(v, c, clock + Queue.VISIBILITY_TIMEOUT_MS)
    case Number(c) => ViewNumber(v, c)
    case Record(c, status) => ViewRecord(v, c, status)
    case Release(c) => ViewRelease(v, c)
    case Promote(_, _) => ViewPromote(v)
    case Reap(_, _) => ViewReap(v)
    case _ => ViewRowStep(v, step)
  }

  predicate ViewOnTime(v: View, step: Step)
    requires ViewEnabled(v, step)
  {
    (UnderLease(step) ==> v.now < v.claims[step.claim].lease) &&
    (ReadsClock(step) ==> step.clock <= v.now)
  }
}
