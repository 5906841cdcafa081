/** Idempotency keys: one slot per (tenant, key), reserved before the job is created. */
module Idempotency {
  import opened Prelude
  import opened Redis

  const TTL_MS := 86_400_000

  datatype Slot = Pending | Created(jobId: Id)

  datatype Entry = Entry(slot: Slot, expiresAt: int)

  datatype BeginResult = New | Duplicate(jobId: Id) | InProgress

  function RedisKey(tenant: string, key: string): string
  {
    "idem:" + tenant + ":" + key
  }

  /** Redis drops a key once its expiry time has passed. */
  function SlotAt(keys: map<string, Entry>, key: string, now: int): Option<Slot>
  {
    if key in keys && now <= keys[key].expiresAt then Some(keys[key].slot) else None
  }

  /** What the GET after a lost race makes of the slot. */
  function Resolve(slot: Option<Slot>): BeginResult
  {
    match slot
    case Some(Created(jobId)) => Duplicate(jobId)
    case _ => InProgress
  }

  class IdempotencyStore {
    var keys: map<string, Entry>

    constructor ()
      ensures keys == map[]
    {
      keys := map[];
    }

    /**
     * SET NX, and a GET if that lost. Others may act between the two commands:
     * `meanwhile` is what they have made of the store, and `lookAt` the time,
     * when the GET comes.
     */
    method Begin(tenant: string, key: string, now: int, meanwhile: map<string, Entry>, lookAt: int)
      returns (r: BeginResult)
      modifies this
      ensures var k := RedisKey(tenant, key);
              if SlotAt(old(keys), k, now).None?
              then r == New && keys == old(keys)[k := Entry(Pending, now + TTL_MS)]
              else r == Resolve(SlotAt(meanwhile, k, lookAt)) && keys == meanwhile
    {
      var k := RedisKey(tenant, key);
      if SlotAt(keys, k, now).None? {
        keys := keys[k := Entry(Pending, now + TTL_MS)];
        return New;
      }
      keys := meanwhile;
      var existing := SlotAt(keys, k, lookAt);
      if existing.Some? && existing.value != Pending {
        return Duplicate(existing.value.jobId);
      }
      return InProgress;
    }

    method Complete(tenant: string, key: string, jobId: Id, now: int)
      modifies this
      ensures keys == old(keys)[RedisKey(tenant, key) := Entry(Created(jobId), now + TTL_MS)]
    {
      keys := keys[RedisKey(tenant, key) := Entry(Created(jobId), now + TTL_MS)];
    }

    method Abort(tenant: string, key: string)
      modifies this
      ensures keys == old(keys) - {RedisKey(tenant, key)}
    {
      keys := keys - {RedisKey(tenant, key)};
    }
  }

  /** A slot written at some time is found for a day, to the millisecond, and no other slot is touched. */
  lemma SlotHeldForADay(keys: map<string, Entry>, k: string, slot: Slot, at: int, t: int, other: string)
    ensures var written := keys[k := Entry(slot, at + TTL_MS)];
            && SlotAt(written, k, t) == (if t <= at + 86_400_000 then Some(slot) else None)
            && (other != k ==> SlotAt(written, other, t) == SlotAt(keys, other, t))
    ensures SlotAt(keys - {k}, k, t) == None
  {
  }

  lemma SameTenantKeysDiffer(tenant: string, key1: string, key2: string)
    ensures RedisKey(tenant, key1) == RedisKey(tenant, key2) <==> key1 == key2
  {
    var prefix := "idem:" + tenant + ":";
    assert RedisKey(tenant, key1)[|prefix|..] == key1;
    assert RedisKey(tenant, key2)[|prefix|..] == key2;
  }

  /** Keys that reserve a slot are not empty. */
  ghost predicate ShareSlot(tenant1: string, tenant2: string)
  {
    exists key1, key2 :: key1 != "" && key2 != "" && RedisKey(tenant1, key1) == RedisKey(tenant2, key2)
  }

  /**
   * Two tenants can share a slot exactly when one name continues the other
   * after a colon, so slots never collide between tenants without colons.
   */
  lemma TenantsShareSlotIff(tenant1: string, tenant2: string)
    requires tenant1 != tenant2
    ensures ShareSlot(tenant1, tenant2) <==> tenant1 + ":" <= tenant2 || tenant2 + ":" <= tenant1
  {
    if tenant1 + ":" <= tenant2 {
      SharedSlot(tenant1, tenant2);
    }
    if tenant2 + ":" <= tenant1 {
      SharedSlot(tenant2, tenant1);
    }
    if key1, key2 :| key1 != "" && key2 != "" && RedisKey(tenant1, key1) == RedisKey(tenant2, key2) {
      OneContinuesTheOther(tenant1, key1, tenant2, key2);
    }
  }

  lemma SharedSlot(shorter: string, longer: string)
    requires shorter + ":" <= longer
    ensures ShareSlot(shorter, longer) && ShareSlot(longer, shorter)
  {
    var key1 := longer[|shorter| + 1..] + ":x";
    assert longer == shorter + ":" + longer[|shorter| + 1..];
    assert RedisKey(shorter, key1) == RedisKey(longer, "x");
  }

  lemma OneContinuesTheOther(tenant1: string, key1: string, tenant2: string, key2: string)
    requires tenant1 != tenant2 && RedisKey(tenant1, key1) == RedisKey(tenant2, key2)
    ensures tenant1 + ":" <= tenant2 || tenant2 + ":" <= tenant1
  {
    var k := RedisKey(tenant1, key1);
    assert k[5..5 + |tenant1|] == tenant1 && k[5..5 + |tenant2|] == tenant2;
    assert k[5 + |tenant1|] == ':' && k[5 + |tenant2|] == ':';
    if |tenant1| < |tenant2| {
      assert k[5..5 + |tenant1| + 1] == tenant1 + ":";
      assert tenant2[..|tenant1| + 1] == k[5..5 + |tenant1| + 1];
    } else if |tenant2| < |tenant1| {
      assert k[5..5 + |tenant2| + 1] == tenant2 + ":";
      assert tenant1[..|tenant2| + 1] == k[5..5 + |tenant2| + 1];
    }
  }
}
