/** The `jobs` table: one row for each job, changed by single SQL statements. */
module Jobs {
  import opened Prelude
  import opened Redis

  datatype JobState = Queued | InFlight | Succeeded | Dead

  /** What went wrong with an attempt: no response at all, or a status. */
  datatype Failure = NoResponse | HttpStatus(code: int)

  datatype Row = Row(
    webhookId: string,
    state: JobState,
    attempts: nat,
    maxAttempts: nat,
    runAt: int,
    lastError: Option<Failure>)

  type Table = map<Id, Row>

  predicate Terminal(row: Row)
  {
    row.state == Succeeded || row.state == Dead
  }

  predicate Live(jobs: Table, id: Id)
  {
    id in jobs && !Terminal(jobs[id])
  }

  /** What INSERT writes: everything but these columns is a default. */
  function NewRow(webhookId: string, maxAttempts: nat, runAt: int): Row
  {
    Row(webhookId, Queued, 0, maxAttempts, runAt, None)
  }

  datatype Update = Update(state: JobState, increment: bool, lastError: Option<Failure>, runAt: Option<int>)

  /** The CHECK on the row an UPDATE would leave. */
  predicate Allowed(row: Row, u: Update)
  {
    row.attempts + (if u.increment then 1 else 0) <= row.maxAttempts
  }

  /** UPDATE ... SET: `lastError` is overwritten even when omitted, `runAt` is not. */
  function Updated(row: Row, u: Update): Row
  {
    row.(state := u.state,
         attempts := row.attempts + (if u.increment then 1 else 0),
         lastError := u.lastError,
         runAt := if u.runAt.Some? then u.runAt.value else row.runAt)
  }

  function ResetRow(row: Row, now: int): Row
  {
    row.(state := Queued, attempts := 0, lastError := None, runAt := now)
  }

  /** Rows for these ids, in the order of the ids; ids without a row are dropped. */
  function RowsFor(jobs: Table, ids: seq<Id>): seq<(Id, Row)>
  {
    if ids == [] then []
    else (if ids[0] in jobs then [(ids[0], jobs[ids[0]])] else []) + RowsFor(jobs, ids[1..])
  }

  datatype UpdateResult = Done(row: Row) | NoRow | CheckViolation

  class JobRepository {
    var rows: Table

    constructor ()
      ensures rows == map[]
    {
      rows := map[];
    }

    /** `id` is the UUID the database draws. */
    method Insert(id: Id, webhookId: string, maxAttempts: nat, runAt: Option<int>, now: int) returns (row: Row)
      requires id !in rows
      modifies this
      ensures row == NewRow(webhookId, maxAttempts, if runAt.Some? then runAt.value else now)
      ensures rows == old(rows)[id := row]
    {
      row := NewRow(webhookId, maxAttempts, if runAt.Some? then runAt.value else now);
      rows := rows[id := row];
    }

    method FindById(id: Id) returns (row: Option<Row>)
      ensures row.Some? <==> id in rows
      ensures row.Some? ==> row.value == rows[id]
    {
      row := Lookup(rows, id);
    }

    method UpdateState(id: Id, u: Update) returns (r: UpdateResult)
      modifies this
      ensures r == if id !in old(rows) then NoRow
                   else if !Allowed(old(rows)[id], u) then CheckViolation
                   else UpdateResult.Done(Updated(old(rows)[id], u))
      ensures rows == if r.Done? then old(rows)[id := r.row] else old(rows)
      ensures r.Done? ==>
                var was := old(rows)[id];
                && r.row.webhookId == was.webhookId && r.row.maxAttempts == was.maxAttempts
                && r.row.state == u.state && r.row.lastError == u.lastError
                && r.row.runAt == (if u.runAt.Some? then u.runAt.value else was.runAt)
                && r.row.attempts == was.attempts + (if u.increment then 1 else 0)
                && r.row.attempts <= r.row.maxAttempts
    {
      if id !in rows {
        return NoRow;
      }
      var row := rows[id];
      var attempts := row.attempts + (if u.increment then 1 else 0);
      if attempts > row.maxAttempts {
        return CheckViolation;
      }
      row := row.(state := u.state, attempts := attempts, lastError := u.lastError);
      if u.runAt.Some? {
        row := row.(runAt := u.runAt.value);
      }
      rows := rows[id := row];
      return UpdateResult.Done(row);
    }

    method ResetForReplay(id: Id, now: int) returns (row: Option<Row>)
      modifies this
      ensures row == if id in old(rows) then Some(ResetRow(old(rows)[id], now)) else None
      ensures rows == if row.Some? then old(rows)[id := row.value] else old(rows)
      ensures row.Some? ==>
                var was := old(rows)[id];
                row.value == Row(was.webhookId, Queued, 0, was.maxAttempts, now, None)
    {
      if id !in rows {
        return None;
      }
      row := Some(rows[id].(state := Queued, attempts := 0, lastError := None, runAt := now));
      rows := rows[id := row.value];
    }

    method FindByIds(ids: seq<Id>) returns (found: seq<(Id, Row)>)
      ensures found == RowsFor(rows, ids)
    {
      found := [];
      for i := 0 to |ids|
        invariant found == RowsFor(rows, ids[..i])
      {
        RowsForConcat(rows, ids[..i], ids[i]);
        assert ids[..i + 1] == ids[..i] + [ids[i]];
        if ids[i] in rows {
          found := found + [(ids[i], rows[ids[i]])];
        }
      }
      assert ids[..|ids|] == ids;
    }
  }

  /** One lookup after the other, each giving the row if there is one. */
  lemma {:induction false} RowsForIs(jobs: Table, sooner: seq<Id>, later: seq<Id>, id: Id)
    ensures RowsFor(jobs, sooner + later) == RowsFor(jobs, sooner) + RowsFor(jobs, later)
    ensures RowsFor(jobs, [id]) == if id in jobs then [(id, jobs[id])] else []
  {
    assert [id][1..] == [];
    if sooner == [] {
      assert sooner + later == later;
    } else {
      RowsForIs(jobs, sooner[1..], later, id);
      assert (sooner + later)[1..] == sooner[1..] + later;
    }
  }

  lemma {:induction false} RowsForConcat(jobs: Table, ids: seq<Id>, id: Id)
    ensures RowsFor(jobs, ids + [id]) == RowsFor(jobs, ids) + (if id in jobs then [(id, jobs[id])] else [])
  {
    if ids == [] {
      assert ids + [id] == [id];
    } else {
      RowsForConcat(jobs, ids[1..], id);
      assert (ids + [id])[1..] == ids[1..] + [id];
    }
  }
}
