/** The `delivery_attempts` table: the audit trail of HTTP calls. */
module Deliveries {
  import opened Prelude
  import opened Redis

  datatype AttemptRecord = AttemptRecord(jobId: Id, attemptNumber: nat, statusCode: Option<int>)

  /** The attempt numbers recorded for one job, in the order they were inserted. */
  function Numbers(audit: seq<AttemptRecord>, id: Id): seq<nat>
  {
    if audit == [] then []
    else
      var n := |audit| - 1;
      Numbers(audit[..n], id) + (if audit[n].jobId == id then [audit[n].attemptNumber] else [])
  }

  /** SQL MAX with COALESCE(..., 0). */
  function Largest(numbers: seq<nat>): nat
  {
    if numbers == [] then 0
    else Max(Largest(numbers[..|numbers| - 1]), numbers[|numbers| - 1])
  }

  /** SELECT COALESCE(MAX(attemptNumber), 0) + 1. */
  function NextNumber(numbers: seq<nat>): nat
  {
    Largest(numbers) + 1
  }

  /** ON DELETE CASCADE from the job's row. */
  function Without(audit: seq<AttemptRecord>, id: Id): seq<AttemptRecord>
  {
    if audit == [] then []
    else
      var n := |audit| - 1;
      Without(audit[..n], id) + (if audit[n].jobId == id then [] else [audit[n]])
  }

  /** 1, 2, ..., n. */
  ghost predicate Sequential(numbers: seq<nat>)
  {
    forall k :: 0 <= k < |numbers| ==> numbers[k] == k + 1
  }

  lemma NumbersAppend(audit: seq<AttemptRecord>, r: AttemptRecord, id: Id)
    ensures Numbers(audit + [r], id)
         == Numbers(audit, id) + (if r.jobId == id then [r.attemptNumber] else [])
  {
  }

  lemma {:induction false} NumbersWithout(audit: seq<AttemptRecord>, gone: Id, id: Id)
    ensures Numbers(Without(audit, gone), id) == if id == gone then [] else Numbers(audit, id)
  {
    if audit != [] {
      var n := |audit| - 1;
      NumbersWithout(audit[..n], gone, id);
      if audit[n].jobId != gone {
        NumbersAppend(Without(audit[..n], gone), audit[n], id);
      } else {
        assert Without(audit, gone) == Without(audit[..n], gone);
      }
    }
  }

  /** Over 1..n the next number is n + 1, so it is never a recorded one. */
  lemma {:induction false} NextAfterSequential(numbers: seq<nat>)
    requires Sequential(numbers)
    ensures NextNumber(numbers) == |numbers| + 1
    ensures forall k :: k in numbers <==> 1 <= k <= |numbers|
  {
    if numbers != [] {
      NextAfterSequential(numbers[..|numbers| - 1]);
    }
    forall k
      ensures k in numbers <==> 1 <= k <= |numbers|
    {
      if 1 <= k <= |numbers| {
        assert numbers[k - 1] == k;
      }
    }
  }

  /** MAX + 1 is larger than every recorded number, whatever they are. */
  lemma {:induction false} NextIsNew(numbers: seq<nat>)
    ensures NextNumber(numbers) !in numbers
    ensures forall k <- numbers :: k < NextNumber(numbers)
  {
    if numbers != [] {
      NextIsNew(numbers[..|numbers| - 1]);
      assert numbers == numbers[..|numbers| - 1] + [numbers[|numbers| - 1]];
    }
  }

  class DeliveryRepository {
    var rows: seq<AttemptRecord>

    constructor ()
      ensures rows == []
    {
      rows := [];
    }

    method NextAttemptNumber(jobId: Id) returns (n: nat)
      ensures n == NextNumber(Numbers(rows, jobId))
      ensures n !in Numbers(rows, jobId)
    {
      n := NextNumber(Numbers(rows, jobId));
      NextIsNew(Numbers(rows, jobId));
    }

    /** Fails, changing nothing, on the foreign key or on UNIQUE (jobId, attemptNumber). */
    method Insert(r: AttemptRecord, jobExists: bool) returns (ok: bool)
      modifies this
      ensures ok <==> jobExists && r.attemptNumber !in Numbers(old(rows), r.jobId)
      ensures rows == if ok then old(rows) + [r] else old(rows)
    {
      ok := jobExists && r.attemptNumber !in Numbers(rows, r.jobId);
      if ok {
        rows := rows + [r];
      }
    }
  }
}
