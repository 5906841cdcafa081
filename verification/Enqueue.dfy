/** Accepting an event: reserve the slot, write the row, push the id, fill the slot. */
module Enqueue {
  import opened Prelude
  import opened Redis
  import opened Jobs
  import opened Idempotency
  import Queue

  /** The column default in the schema. */
  const DEFAULT_MAX_ATTEMPTS := 5

  datatype Webhook = Webhook(tenant: string, isActive: bool)

  /** The store call, if any, that throws, and whether it took effect all the same. */
  datatype Fault =
    | NoFault
    | AtBegin(effect: bool)
    | AtInsert(effect: bool)
    | AtPush(effect: bool)
    | AtComplete(effect: bool)

  datatype Failed = WebhookNotFound | WebhookInactive | KeyInProgress | StoreError

  datatype Result = Accepted(id: Id, job: Row) | Rejected(error: Failed)

  /** An absent header and an empty one both mean no deduplication. */
  predicate Keyed(key: Option<string>)
  {
    key.Some? && key.value != ""
  }

  /** Whether the event may be enqueued at all. */
  function Refusal(webhook: Option<Webhook>, tenant: string): Option<Failed>
  {
    if webhook.None? || webhook.value.tenant != tenant then Some(WebhookNotFound)
    else if !webhook.value.isActive then Some(WebhookInactive)
    else None
  }

  /** Where a new id goes. */
  function Placed(q: Queue.Queues, id: Id, runAt: int, now: int): Queue.Queues
  {
    if runAt > now then Queue.PushDelayed(q, id, runAt) else Queue.Push(q, id)
  }

  /** The slot a call finds; without a key it looks for none. */
  function SlotFor(keys: map<string, Entry>, tenant: string, key: Option<string>, now: int): Option<Slot>
  {
    if Keyed(key) then SlotAt(keys, RedisKey(tenant, key.value), now) else None
  }

  /** What a keyed call learns before it creates anything: None means create. */
  function EarlyAnswer(slot: Option<Slot>, jobs: Table): Option<Result>
  {
    match slot
    case None => None
    case Some(Pending) => Some(Rejected(KeyInProgress))
    case Some(Created(id)) => if id in jobs then Some(Accepted(id, jobs[id])) else None
  }

  /** How a call ends before it creates anything; None means create. */
  function Admission(webhook: Option<Webhook>, tenant: string, key: Option<string>, slot: Option<Slot>, jobs: Table,
                     fault: Fault): Option<Result>
  {
    if Refusal(webhook, tenant).Some? then Some(Rejected(Refusal(webhook, tenant).value))
    else if Keyed(key) && fault.AtBegin? then Some(Rejected(StoreError))
    else EarlyAnswer(slot, jobs)
  }

  /** The slots by then: reserved if this call found its slot free. */
  function SlotsAfterAdmission(keys: map<string, Entry>, webhook: Option<Webhook>, tenant: string, key: Option<string>,
                               now: int, fault: Fault): map<string, Entry>
  {
    if Refusal(webhook, tenant).None? && Keyed(key) && fault != AtBegin(false) && SlotFor(keys, tenant, key, now).None?
    then keys[RedisKey(tenant, key.value) := Entry(Pending, now + TTL_MS)]
    else keys
  }

  /** Whether creating the job ends in a throw. */
  predicate Breaks(key: Option<string>, fault: Fault)
  {
    fault.AtInsert? || fault.AtPush? || (Keyed(key) && fault.AtComplete?)
  }

  /** The slots after the job was created or not; `freed` says whether the abort of a failed call took effect. */
  function SlotsAfterCreation(keys: map<string, Entry>, tenant: string, key: Option<string>, id: Id, now: int,
                              fault: Fault, freed: bool): map<string, Entry>
  {
    if !Keyed(key) then keys
    else
      var k := RedisKey(tenant, key.value);
      var filled := if Breaks(key, fault) && fault != AtComplete(true) then keys
                    else keys[k := Entry(Created(id), now + TTL_MS)];
      if Breaks(key, fault) && freed then filled - {k} else filled
  }

  /** The slots after a whole call. */
  function KeysAfter(keys: map<string, Entry>, webhook: Option<Webhook>, tenant: string, key: Option<string>,
                     jobs: Table, id: Id, beginAt: int, completeAt: int, fault: Fault, freed: bool): map<string, Entry>
  {
    var slot := SlotFor(keys, tenant, key, beginAt);
    var reserved := SlotsAfterAdmission(keys, webhook, tenant, key, beginAt, fault);
    if Admission(webhook, tenant, key, slot, jobs, fault).Some? then reserved
    else SlotsAfterCreation(reserved, tenant, key, id, completeAt, fault, freed)
  }

  /** The rows after a call that ended early or went on to create its job. */
  function JobsAfter(early: Option<Result>, jobs: Table, id: Id, row: Row, fault: Fault): Table
  {
    if early.Some? || fault == AtInsert(false) then jobs else jobs[id := row]
  }

  class Enqueuer {
    const queue: Queue.RedisQueue
    const jobs: JobRepository
    const slots: IdempotencyStore

    constructor (queue: Queue.RedisQueue, jobs: JobRepository, slots: IdempotencyStore)
      ensures this.queue == queue && this.jobs == jobs && this.slots == slots
    {
      this.queue, this.jobs, this.slots := queue, jobs, slots;
    }

    /** What must hold before any row is written; None means go on and create one. */
    method Admit(tenant: string, webhook: Option<Webhook>, key: Option<string>, now: int, fault: Fault)
      returns (r: Option<Result>)
      modifies slots
      ensures r == Admission(webhook, tenant, key, SlotFor(old(slots.keys), tenant, key, now), jobs.rows, fault)
      ensures slots.keys == SlotsAfterAdmission(old(slots.keys), webhook, tenant, key, now, fault)
      ensures r == Some(Rejected(WebhookNotFound)) <==> webhook.None? || webhook.value.tenant != tenant
      ensures r == Some(Rejected(WebhookInactive)) <==>
                webhook.Some? && webhook.value.tenant == tenant && !webhook.value.isActive
    {
      if webhook.None? || webhook.value.tenant != tenant {
        return Some(Rejected(WebhookNotFound));
      }
      if !webhook.value.isActive {
        return Some(Rejected(WebhookInactive));
      }
      if Keyed(key) {
        if fault == AtBegin(false) {
          return Some(Rejected(StoreError));
        }
        var outcome := slots.Begin(tenant, key.value, now, slots.keys, now);
        if fault.AtBegin? {
          return Some(Rejected(StoreError));
        }
        if outcome.Duplicate? {
          var existing := jobs.FindById(outcome.jobId);
          if existing.Some? {
            return Some(Accepted(outcome.jobId, existing.value));
          }
        }
        if outcome.InProgress? {
          return Some(Rejected(KeyInProgress));
        }
      }
      return None;
    }

    /** Write the row, then push the id: a failure of the push leaves the row behind. */
    method Create(id: Id, webhookId: string, runAt: Option<int>, insertAt: int, pushAt: int, fault: Fault)
      returns (job: Option<Row>)
      requires id !in jobs.rows
      modifies queue, jobs
      ensures var row := NewRow(webhookId, DEFAULT_MAX_ATTEMPTS, if runAt.Some? then runAt.value else insertAt);
              && job == (if fault.AtInsert? || fault.AtPush? then None else Some(row))
              && jobs.rows == (if fault == AtInsert(false) then old(jobs.rows) else old(jobs.rows)[id := row])
              && queue.Contents() == (if fault.AtInsert? || fault == AtPush(false) then old(queue.Contents())
                                      else Placed(old(queue.Contents()), id, row.runAt, pushAt))
    {
      if fault == AtInsert(false) {
        return None;
      }
      var row := jobs.Insert(id, webhookId, DEFAULT_MAX_ATTEMPTS, runAt, insertAt);
      if fault.AtInsert? || fault == AtPush(false) {
        return None;
      }
      if row.runAt > pushAt {
        queue.Schedule(id, row.runAt);
      } else {
        var length := queue.PushReady(id);
      }
      return if fault.AtPush? then None else Some(row);
    }

    /**
     * `id` is the UUID the database would draw. A call that throws after
     * reserving frees the slot, unless that fails too; what it wrote stays.
     */
    method Submit(tenant: string, webhookId: string, webhook: Option<Webhook>, runAt: Option<int>, key: Option<string>,
                  id: Id, beginAt: int, insertAt: int, pushAt: int, completeAt: int, fault: Fault, freed: bool)
      returns (r: Result)
      requires id !in jobs.rows
      modifies queue, jobs, slots
      ensures var early := Admission(webhook, tenant, key, SlotFor(old(slots.keys), tenant, key, beginAt),
                                     old(jobs.rows), fault);
              var row := NewRow(webhookId, DEFAULT_MAX_ATTEMPTS, if runAt.Some? then runAt.value else insertAt);
              && r == (if early.Some? then early.value
                       else if Breaks(key, fault) then Rejected(StoreError) else Accepted(id, row))
              && jobs.rows == JobsAfter(early, old(jobs.rows), id, row, fault)
              && queue.Contents() == (if early.Some? || fault.AtInsert? || fault == AtPush(false)
                                      then old(queue.Contents())
                                      else Placed(old(queue.Contents()), id, row.runAt, pushAt))
      ensures slots.keys == KeysAfter(old(slots.keys), webhook, tenant, key, old(jobs.rows), id, beginAt, completeAt,
                                      fault, freed)
      // Only the owner of an active webhook is served; the others learn why not, and leave no trace.
      ensures r.Accepted? ==> webhook.Some? && webhook.value.tenant == tenant && webhook.value.isActive
      ensures r == Rejected(WebhookNotFound) <==> webhook.None? || webhook.value.tenant != tenant
      ensures r == Rejected(WebhookInactive) <==>
                webhook.Some? && webhook.value.tenant == tenant && !webhook.value.isActive
      ensures r == Rejected(WebhookNotFound) || r == Rejected(WebhookInactive) || r == Rejected(KeyInProgress) ==>
                jobs.rows == old(jobs.rows) && queue.Contents() == old(queue.Contents()) &&
                (r == Rejected(KeyInProgress) || slots.keys == old(slots.keys))
      ensures fault == NoFault ==> r != Rejected(StoreError)
      // Without a key, or with an empty one, every call makes a job of its own and no slot is looked at.
      ensures key == None || key == Some("") ==>
                slots.keys == old(slots.keys) && r != Rejected(KeyInProgress) && (r.Accepted? ==> r.id == id)
      // What a caller is given is a stored row: one that was there, or its own new one, waiting where its time says.
      ensures r.Accepted? ==> r.id in jobs.rows && jobs.rows[r.id] == r.job
      ensures r.Accepted? && r.id != id ==>
                jobs.rows == old(jobs.rows) && queue.Contents() == old(queue.Contents())
      ensures r.Accepted? && r.id == id ==>
                var due := if runAt.Some? then runAt.value else insertAt;
                && r.job == Row(webhookId, Queued, 0, 5, due, None) && jobs.rows == old(jobs.rows)[id := r.job]
                && queue.inflight == old(queue.inflight) && queue.leases == old(queue.leases)
                && queue.dlq == old(queue.dlq)
                && queue.ready == (if due <= pushAt then [id] + old(queue.ready) else old(queue.ready))
                && queue.delayed == (if due > pushAt then old(queue.delayed)[id := due] else old(queue.delayed))
    {
      var early := Admit(tenant, webhook, key, beginAt, fault);
      if early.Some? {
        return early.value;
      }
      var job := Create(id, webhookId, runAt, insertAt, pushAt, fault);
      if Keyed(key) && job.Some? && fault != AtComplete(false) {
        slots.Complete(tenant, key.value, id, completeAt);
      }
      if job.None? || (Keyed(key) && fault.AtComplete?) {
        if Keyed(key) && freed {
          slots.Abort(tenant, key.value);
        }
        return Rejected(StoreError);
      }
      return Accepted(id, job.value);
    }
  }
}
