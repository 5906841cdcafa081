/** What an uninterrupted call of `process` comes to, read off the stores alone. */
module Outcomes {
  import opened Prelude
  import opened Redis
  import opened Jobs
  import opened Deliveries
  import opened Backoff
  import opened Actors
  import opened Protocol
  import opened Runs
  import opened Processing
  import Queue
  import Circuit
  import Ratelimit
  import CircuitTheorems

  // ------------------------------------------------------------- keys and gates

  /** No two webhooks share a breaker or a bucket, and no breaker shares its key with a bucket. */
  lemma WebhooksKeepApart(a: Row, b: Row)
    ensures CircuitKey(a) == CircuitKey(b) <==> a.webhookId == b.webhookId
    ensures LimitKey(a) == LimitKey(b) <==> a.webhookId == b.webhookId
    ensures CircuitKey(a) != LimitKey(b)
    ensures CircuitKey(a) == "circuit:webhook:" + a.webhookId && LimitKey(a) == "ratelimit:webhook:" + a.webhookId
  {
    assert CircuitKey(a)[16..] == a.webhookId && CircuitKey(b)[16..] == b.webhookId;
    assert LimitKey(a)[18..] == a.webhookId && LimitKey(b)[18..] == b.webhookId;
    assert CircuitKey(a)[0] == 'c' && LimitKey(b)[0] == 'r';
  }

  /** A breaker stops a job exactly while its key is there, tripped, and not cooled down. */
  lemma BlockedIff(circuits: map<string, Circuit.Entry>, row: Row, cfg: Config, w: World)
    ensures Blocked(circuits, row, cfg, w) <==>
              var key := "circuit:webhook:" + row.webhookId;
              && key in circuits && w.checkAt <= circuits[key].expiresAt
              && circuits[key].hash.state == Some(Circuit.Open)
              && w.checkAt < cfg.cooldownMs + Circuit.OpenedAt(circuits[key].hash)
  {
  }

  /** What the gates decide: the breaker first, then the bucket. */
  lemma GateIs(circuits: map<string, Circuit.Entry>, buckets: map<string, Ratelimit.Entry>, row: Row, cfg: Config,
               w: World)
    ensures var key := "ratelimit:webhook:" + row.webhookId;
            var tokens := Ratelimit.Tokens(buckets, key, cfg.rate, cfg.burst, w.takeAt);
            GateFor(circuits, buckets, row, cfg, w)
              == if Blocked(circuits, row, cfg, w) then PutOff(w.deferAt, cfg.cooldownMs)
                 else if cfg.rate == 0.0 then Break
                 else if tokens >= 1.0 then Go
                 else PutOff(w.deferAt, Max(100, Ratelimit.Ceil((1.0 - tokens) / cfg.rate * 1000.0)))
  {
  }

  /** The breaker lets the job through, and its bucket has a token. */
  predicate PassesGates(circuits: map<string, Circuit.Entry>, buckets: map<string, Ratelimit.Entry>, row: Row,
                        cfg: Config, w: World)
  {
    !Blocked(circuits, row, cfg, w) && cfg.rate != 0.0 &&
    Ratelimit.Tokens(buckets, "ratelimit:webhook:" + row.webhookId, cfg.rate, cfg.burst, w.takeAt) >= 1.0
  }

  // ------------------------------------------------- what becomes of a job, by name

  /** The row due again at that time with nothing spent, and the id with it. */
  predicate PutOffUntil(q: Queue.Queues, jobs: Table, q': Queue.Queues, jobs': Table, id: Id, at: int)
    requires id in jobs
  {
    jobs' == jobs[id := jobs[id].(state := Queued, lastError := None, runAt := at)] &&
    q' == Queue.RetryLater(q, id, at)
  }

  lemma PutOffMeans(q: Queue.Queues, jobs: Table, q': Queue.Queues, jobs': Table, id: Id, at: int)
    requires id in jobs && PutOffUntil(q, jobs, q', jobs', id, at)
    ensures var row := jobs[id];
            jobs' == jobs[id := Row(row.webhookId, Queued, row.attempts, row.maxAttempts, at, None)]
    ensures q'.delayed == q.delayed[id := at] && q'.leases == q.leases - {id} && q'.ready == q.ready && q'.dlq == q.dlq
    ensures multiset(q'.inflight) == multiset(q.inflight) - multiset{id}
  {
    LRemCounts(q.inflight, id);
  }

  /** Put off until the missing part of a token has accrued, or by a tenth of a second if that is longer. */
  predicate AwaitsToken(q: Queue.Queues, jobs: Table, q': Queue.Queues, jobs': Table, id: Id, tokens: real, cfg: Config,
                        w: World)
    requires id in jobs && cfg.rate != 0.0
  {
    PutOffUntil(q, jobs, q', jobs', id, w.deferAt + Max(100, Ratelimit.Ceil((1.0 - tokens) / cfg.rate * 1000.0)))
  }

  lemma AwaitsTokenMeans(q: Queue.Queues, jobs: Table, q': Queue.Queues, jobs': Table, id: Id, tokens: real,
                         cfg: Config, w: World)
    requires id in jobs && cfg.rate != 0.0 && AwaitsToken(q, jobs, q', jobs', id, tokens, cfg, w)
    ensures id in q'.delayed && id !in q'.leases && id in jobs' && jobs'[id].runAt == q'.delayed[id]
    ensures jobs'[id].state == Queued && jobs'[id].attempts == jobs[id].attempts
    ensures q'.delayed[id] >= w.deferAt + 100
    ensures (q'.delayed[id] - w.deferAt) as real >= (1.0 - tokens) / cfg.rate * 1000.0
    ensures q'.delayed[id] > w.deferAt + 100 ==>
              (q'.delayed[id] - w.deferAt - 1) as real < (1.0 - tokens) / cfg.rate * 1000.0
  {
  }

  /** One request, on record with its outcome. */
  predicate SentOnce(audit: seq<AttemptRecord>, audit': seq<AttemptRecord>, id: Id, status: Option<int>)
  {
    audit' == audit + [AttemptRecord(id, NextNumber(Numbers(audit, id)), status)]
  }

  /** One more row, under a number above all that the job had. */
  lemma SentMeans(audit: seq<AttemptRecord>, audit': seq<AttemptRecord>, id: Id, status: Option<int>)
    requires SentOnce(audit, audit', id, status)
    ensures |audit'| == |audit| + 1 && audit <= audit'
    ensures audit'[|audit|].jobId == id && audit'[|audit|].statusCode == status
    ensures forall n <- Numbers(audit, id) :: n < audit'[|audit|].attemptNumber
    ensures Numbers(audit', id) == Numbers(audit, id) + [audit'[|audit|].attemptNumber]
  {
    NextIsNew(Numbers(audit, id));
  }

  /** What the row becomes and where the id goes, by the outcome and the attempts left. */
  predicate SettledBy(q: Queue.Queues, jobs: Table, q': Queue.Queues, jobs': Table, id: Id, w: World)
    requires id in jobs && 0.0 <= w.draw < 1.0
  {
    var row := jobs[id];
    var spent := row.(attempts := row.attempts + 1);
    var error := Some(Error(w.status));
    if IsSuccess(w.status) then
      jobs' == jobs[id := spent.(state := Succeeded, lastError := None)] && q' == Queue.Ack(q, id)
    else if IsRetryable(w.status) && spent.attempts < row.maxAttempts then
      var at := w.settleAt + BackoffMs(spent.attempts, w.draw);
      jobs' == jobs[id := spent.(state := Queued, lastError := error, runAt := at)] && q' == Queue.RetryLater(q, id, at)
    else
      jobs' == jobs[id := spent.(state := Dead, lastError := error)] && q' == Queue.DeadLetter(q, id)
  }

  /**
   * A 2xx leaves the row succeeded. No answer, a 408, a 429 or a 5xx with
   * attempts left leaves it queued, and the id delayed, for less than the cap.
   * Anything else leaves it dead, and the id at the end of the dead letters.
   * An attempt is spent and the lease is gone in any case.
   */
  lemma SettledMeans(q: Queue.Queues, jobs: Table, q': Queue.Queues, jobs': Table, id: Id, w: World)
    requires id in jobs && 0.0 <= w.draw < 1.0 && SettledBy(q, jobs, q', jobs', id, w)
    ensures id in jobs' && jobs' == jobs[id := jobs'[id]]
    ensures q'.leases == q.leases - {id} && multiset(q'.inflight) == multiset(q.inflight) - multiset{id}
    ensures q'.ready == q.ready
    ensures var row, after := jobs[id], jobs'[id];
            var error := Some(if w.status.Some? then HttpStatus(w.status.value) else NoResponse);
            var again := w.status.None? || w.status.value in {408, 429} || w.status.value >= 500;
            && after.attempts == row.attempts + 1
            && after.webhookId == row.webhookId && after.maxAttempts == row.maxAttempts
            && if w.status.Some? && 200 <= w.status.value < 300 then
                 after.state == Succeeded && after.lastError == None && after.runAt == row.runAt &&
                 q'.delayed == q.delayed && q'.dlq == q.dlq
               else if again && row.attempts + 1 < row.maxAttempts then
                 after.state == Queued && after.lastError == error &&
                 w.settleAt <= after.runAt < w.settleAt + Cap(row.attempts + 1) &&
                 q'.delayed == q.delayed[id := after.runAt] && q'.dlq == q.dlq
               else
                 after.state == Dead && after.lastError == error && after.runAt == row.runAt &&
                 q'.delayed == q.delayed && q'.dlq == [id] + q.dlq
  {
    LRemCounts(q.inflight, id);
  }

  // ---------------------------------------------------------- the claim moves on

  /** Past the point where it was reserved. */
  predicate Moved(s: State, c: nat, id: Id)
  {
    c in s.claims && s.claims[c].id == id && !s.claims[c].claim.pc.Reserved? && !s.claims[c].claim.pc.Leased?
  }

  lemma MovedStays(s: State, c: nat, id: Id, step: Step)
    requires Moved(s, c, id) && UnderLease(step) && step.claim == c
    ensures Moved(Then(s, step), c, id)
  {
    if RowStep(step) && Enabled(s, step) {
      MovedByRowStep(s, c, id, step);
    }
  }

  lemma MovedByRowStep(s: State, c: nat, id: Id, step: Step)
    requires Moved(s, c, id) && RowStep(step) && step.claim == c && Enabled(s, step)
    ensures Moved(Do(s, step), c, id)
  {
    var t, x := RowStepEffect(s, step);
    assert t.claims[c] == Held(id, x.claim);
  }

  lemma ProcessMoves(s: State, c: nat, gate: Gate, w: World)
    requires c in s.claims && s.claims[c].claim.pc.Leased?
    ensures Moved(Processed(s, c, gate, w), c, s.claims[c].id)
  {
    var id := s.claims[c].id;
    var t := LoadEffect(s, c);
    match gate
    case PutOff(clock, wait) =>
      MovedStays(t, c, id, Step.Defer(c, clock, wait));
      MovedStays(Then(t, Step.Defer(c, clock, wait)), c, id, Release(c));
    case Break =>
    case Go =>
      MovedStays(t, c, id, Dispatch(c));
      t := Then(t, Dispatch(c));
      if w.webhookExists {
        MovedStays(t, c, id, Number(c));
        MovedStays(Then(t, Number(c)), c, id, Call(c));
        MovedStays(Then(Then(t, Number(c)), Call(c)), c, id, Record(c, w.status));
        t := Recorded(t, c, w.status);
      }
      MovedStays(t, c, id, Settle(c, w.settleAt, w.draw));
      MovedStays(Then(t, Settle(c, w.settleAt, w.draw)), c, id, Release(c));
  }

  // -------------------------------------------------------- the ways it can end

  ghost predicate Fetched(s: State, c: nat, id: Id)
  {
    c in s.claims && s.claims[c].id == id && s.claims[c].claim.pc.Leased?
  }

  lemma DiscardOutcome(s: State, c: nat, id: Id, w: World) returns (t: State)
    requires Fetched(s, c, id) && !Live(s.jobs, id)
    ensures t == Processed(s, c, Go, w)
    ensures t.jobs == s.jobs && t.audit == s.audit && t.q == Queue.Ack(s.q, id)
  {
    t := LoadEffect(s, c);
    t := DiscardEffect(t, c, w);
  }

  lemma PutOffOutcome(s: State, c: nat, id: Id, clock: int, wait: int, w: World) returns (t: State)
    requires Fetched(s, c, id) && Live(s.jobs, id)
    ensures t == Processed(s, c, PutOff(clock, wait), w)
    ensures t.audit == s.audit
    ensures s.jobs[id].attempts <= s.jobs[id].maxAttempts ==>
              PutOffUntil(s.q, s.jobs, t.q, t.jobs, id, clock + wait)
  {
    t := LoadEffect(s, c);
    t := DeferredOutcome(t, c, id, clock, wait);
  }

  lemma DeferredOutcome(s: State, c: nat, id: Id, clock: int, wait: int) returns (t: State)
    requires c in s.claims && s.claims[c].id == id && s.claims[c].claim.pc.Loaded? && id in s.jobs
    ensures t == Then(Then(s, Step.Defer(c, clock, wait)), Release(c)) && t.audit == s.audit
    ensures s.jobs[id].attempts <= s.jobs[id].maxAttempts ==>
              PutOffUntil(s.q, s.jobs, t.q, t.jobs, id, clock + wait)
  {
    var u := Update(Queued, false, None, Some(clock + wait));
    WriteIs(CellOf(s, c), u, Deferring(clock + wait));
    t := DeferEffect(s, c, clock, wait);
    SameRow(s.jobs, id);
  }

  /** An UPDATE of a row that is there: refused when the CHECK fails, and otherwise just that. */
  lemma WriteIs(x: Cell, u: Update, next: Pc)
    requires x.row.Some? && next != Over
    ensures var y := Write(x, u, next);
            if Allowed(x.row.value, u) then y.row == Some(Updated(x.row.value, u)) && y.claim.pc == next
            else y.row == x.row && y.claim.pc == Over
  {
  }

  lemma BreakOutcome(s: State, c: nat, id: Id, w: World) returns (t: State)
    requires Fetched(s, c, id)
    ensures t == Processed(s, c, Break, w) && t.jobs == s.jobs && t.audit == s.audit && t.q == s.q
  {
    t := LoadEffect(s, c);
  }

  /** The row marked in flight: by now the caller has read it, and nobody else has touched it. */
  lemma Marked(s: State, c: nat, id: Id) returns (t: State)
    requires Fetched(s, c, id) && Live(s.jobs, id) && s.jobs[id].attempts <= s.jobs[id].maxAttempts
    ensures t == Then(Then(s, Load(c)), Dispatch(c)) && t.q == s.q && t.audit == s.audit
    ensures t.jobs == s.jobs[id := s.jobs[id].(state := InFlight, lastError := None)]
    ensures c in t.claims && t.claims[c].id == id && t.claims[c].claim.pc == Sending(s.jobs[id])
  {
    t := LoadEffect(s, c);
    t := DispatchEffect(t, c);
  }

  lemma NoWebhookOutcome(s: State, c: nat, id: Id, w: World) returns (t: State)
    requires Fetched(s, c, id) && Live(s.jobs, id) && s.jobs[id].attempts <= s.jobs[id].maxAttempts
    requires !w.webhookExists
    ensures t == Processed(s, c, Go, w) && OutcomeAt(Attempted(Then(s, Load(c)), c, w), c) == None
    ensures t.q == s.q && t.audit == s.audit
    ensures t.jobs == s.jobs[id := s.jobs[id].(state := InFlight, lastError := None)]
  {
    t := Marked(s, c, id);
    NothingMore(t, c, w);
  }

  /** The call is made once, under a number that no earlier call of this job has, and recorded with its outcome. */
  lemma Sent(s: State, c: nat, id: Id, w: World) returns (t: State)
    requires Fetched(s, c, id) && Live(s.jobs, id) && s.jobs[id].attempts <= s.jobs[id].maxAttempts
    requires w.webhookExists
    ensures t == Attempted(Then(s, Load(c)), c, w) && t.q == s.q
    ensures SentOnce(s.audit, t.audit, id, w.status)
    ensures t.jobs == s.jobs[id := s.jobs[id].(state := InFlight, lastError := None)]
    ensures c in t.claims && t.claims[c].id == id && t.claims[c].claim.pc == Audited(s.jobs[id], w.status)
  {
    t := Marked(s, c, id);
    t := NumberEffect(t, c);
    NextIsNew(Numbers(s.audit, id));
    t := RecordEffect(t, c, w.status);
  }

  /** `jobs` is the table as it was before the row was marked in flight. */
  lemma SettledOutcome(s: State, c: nat, id: Id, jobs: Table, w: World) returns (t: State)
    requires id in jobs && s.jobs == jobs[id := jobs[id].(state := InFlight, lastError := None)]
    requires c in s.claims && s.claims[c].id == id && s.claims[c].claim.pc == Audited(jobs[id], w.status)
    requires 0.0 <= w.draw < 1.0
    ensures t == Concluded(s, c, w) && t.audit == s.audit
    ensures jobs[id].attempts < jobs[id].maxAttempts ==> SettledBy(s.q, jobs, t.q, t.jobs, id, w)
  {
    var u, next;
    t, u, next := PlannedOutcome(s, c, id, jobs[id], w);
    PlanSettles(s.q, jobs, t.q, t.jobs, id, w, u, next);
  }

  lemma PlanSettles(q: Queue.Queues, jobs: Table, q': Queue.Queues, jobs': Table, id: Id, w: World, u: Update, next: Pc)
    requires 0.0 <= w.draw < 1.0 && id in jobs && AtStart(Release(0), next)
    requires (u, next) == PlanFor(Judge(jobs[id], w.status, w.draw), w.status, w.settleAt)
    requires var marked := jobs[id].(state := InFlight, lastError := None);
             Allowed(marked, u) ==>
               jobs' == jobs[id := marked][id := Updated(marked, u)] && q' == Released(q, id, next)
    ensures jobs[id].attempts < jobs[id].maxAttempts ==> SettledBy(q, jobs, q', jobs', id, w)
  {
    var marked := jobs[id].(state := InFlight, lastError := None);
    assert jobs[id := marked][id := Updated(marked, u)] == jobs[id := Updated(marked, u)];
  }

  lemma PlannedOutcome(s: State, c: nat, id: Id, row: Row, w: World) returns (t: State, u: Update, next: Pc)
    requires c in s.claims && s.claims[c].id == id && s.claims[c].claim.pc == Audited(row, w.status)
    requires 0.0 <= w.draw < 1.0 && id in s.jobs
    ensures t == Concluded(s, c, w) && t.audit == s.audit && AtStart(Release(0), next)
    ensures (u, next) == PlanFor(Judge(row, w.status, w.draw), w.status, w.settleAt)
    ensures if Allowed(s.jobs[id], u) then
              t.jobs == s.jobs[id := Updated(s.jobs[id], u)] && t.q == Released(s.q, id, next)
            else t.jobs == s.jobs && t.q == s.q
  {
    var plan := PlanFor(Judge(row, w.status, w.draw), w.status, w.settleAt);
    u, next := plan.0, plan.1;
    WriteIs(CellOf(s, c), u, next);
    t := ConcludeEffect(s, c, w, u, next);
    SameRow(s.jobs, id);
  }

  lemma DeliveredOutcome(s: State, c: nat, id: Id, w: World) returns (t: State)
    requires Fetched(s, c, id) && Live(s.jobs, id) && s.jobs[id].attempts <= s.jobs[id].maxAttempts
    requires w.webhookExists && 0.0 <= w.draw < 1.0
    ensures t == Processed(s, c, Go, w)
    ensures OutcomeAt(Attempted(Then(s, Load(c)), c, w), c) == Some(IsSuccess(w.status))
    ensures SentOnce(s.audit, t.audit, id, w.status)
    ensures s.jobs[id].attempts < s.jobs[id].maxAttempts ==> SettledBy(s.q, s.jobs, t.q, t.jobs, id, w)
  {
    var sent := Sent(s, c, id, w);
    t := SettledOutcome(sent, c, id, s.jobs, w);
  }

  /** A row past its budget, which no run produces, is never marked: the CHECK refuses it. */
  lemma OverBudgetOutcome(s: State, c: nat, id: Id, w: World) returns (t: State)
    requires Fetched(s, c, id) && Live(s.jobs, id) && s.jobs[id].attempts > s.jobs[id].maxAttempts
    ensures t == Processed(s, c, Go, w) && OutcomeAt(Attempted(Then(s, Load(c)), c, w), c) == None
    ensures t.q == s.q && t.audit == s.audit && t.jobs == s.jobs
  {
    t := LoadEffect(s, c);
    t := DispatchEffect(t, c);
    SameRow(s.jobs, id);
    NothingMore(t, c, w);
  }

  // --------------------------------------------------- what the breaker is told

  /** The scripts one call runs on its webhook's breaker. */
  function Told(key: string, w: World, delivered: Option<bool>): seq<CircuitTheorems.Call>
  {
    var check := CircuitTheorems.Call(key, CircuitTheorems.Checks(w.checkAt));
    match delivered
    case None => [check]
    case Some(true) => [check, CircuitTheorems.Call(key, CircuitTheorems.Succeeds(w.recordAt))]
    case Some(false) => [check, CircuitTheorems.Call(key, CircuitTheorems.Fails(w.recordAt))]
  }

  lemma BreakerTold(circuits: map<string, Circuit.Entry>, row: Row, cfg: Config, w: World, delivered: Option<bool>)
    ensures Reported(Circuit.AfterCheck(circuits, CircuitKey(row), w.checkAt, cfg.cooldownMs), row, cfg, w, delivered)
         == CircuitTheorems.AfterCalls(CircuitTheorems.Settings(cfg.threshold, cfg.cooldownMs), circuits,
                                       Told(CircuitKey(row), w, delivered))
  {
    var c, told := CircuitTheorems.Settings(cfg.threshold, cfg.cooldownMs), Told(CircuitKey(row), w, delivered);
    assert told[..1] == [told[0]] && [told[0]][..0] == [];
    assert CircuitTheorems.AfterCalls(c, circuits, [told[0]]) == CircuitTheorems.AfterCall(c, circuits, told[0]);
  }

  /** What a live job's call leaves behind, whichever way its gates decide. */
  predicate LeftBy(s: State, t: State, id: Id, gate: Gate, w: World, outcome: Option<bool>)
    requires id in s.jobs && 0.0 <= w.draw < 1.0
  {
    var inBudget := s.jobs[id].attempts <= s.jobs[id].maxAttempts;
    match gate
    case PutOff(clock, wait) =>
      && outcome == None && t.audit == s.audit
      && (inBudget ==> PutOffUntil(s.q, s.jobs, t.q, t.jobs, id, clock + wait))
    case Break => outcome == None && t.audit == s.audit && t.jobs == s.jobs && t.q == s.q
    case Go =>
      if w.webhookExists && inBudget then
        && outcome == Some(IsSuccess(w.status)) && SentOnce(s.audit, t.audit, id, w.status)
        && (s.jobs[id].attempts < s.jobs[id].maxAttempts ==> SettledBy(s.q, s.jobs, t.q, t.jobs, id, w))
      else outcome == None && t.audit == s.audit
  }

  lemma GoShows(s: State, c: nat, id: Id, w: World)
    requires Fetched(s, c, id) && Live(s.jobs, id) && 0.0 <= w.draw < 1.0
    ensures LeftBy(s, Processed(s, c, Go, w), id, Go, w, OutcomeAt(Attempted(Then(s, Load(c)), c, w), c))
  {
    if s.jobs[id].attempts > s.jobs[id].maxAttempts {
      var t := OverBudgetOutcome(s, c, id, w);
    } else if w.webhookExists {
      var t := DeliveredOutcome(s, c, id, w);
    } else {
      var t := NoWebhookOutcome(s, c, id, w);
    }
  }

  lemma PutOffShows(s: State, c: nat, id: Id, clock: int, wait: int, w: World)
    requires Fetched(s, c, id) && Live(s.jobs, id) && 0.0 <= w.draw < 1.0
    ensures LeftBy(s, Processed(s, c, PutOff(clock, wait), w), id, PutOff(clock, wait), w, None)
  {
    var t := PutOffOutcome(s, c, id, clock, wait, w);
    ShowsPutOff(s, t, id, clock, wait, w);
  }

  lemma ShowsPutOff(s: State, t: State, id: Id, clock: int, wait: int, w: World)
    requires id in s.jobs && 0.0 <= w.draw < 1.0 && t.audit == s.audit
    requires s.jobs[id].attempts <= s.jobs[id].maxAttempts ==>
               PutOffUntil(s.q, s.jobs, t.q, t.jobs, id, clock + wait)
    ensures LeftBy(s, t, id, PutOff(clock, wait), w, None)
  {
  }

  lemma StoresShow(s: State, c: nat, id: Id, circuits: map<string, Circuit.Entry>,
                   buckets: map<string, Ratelimit.Entry>, cfg: Config, w: World)
    requires Fetched(s, c, id) && Live(s.jobs, id) && 0.0 <= w.draw < 1.0
    ensures LeftBy(s, Processed(s, c, PlannedGate(s, id, circuits, buckets, cfg, w), w), id,
                  GateFor(circuits, buckets, s.jobs[id], cfg, w), w,
                  ExpectedOutcome(s, c, id, circuits, buckets, cfg, w))
  {
    match GateFor(circuits, buckets, s.jobs[id], cfg, w)
    case PutOff(clock, wait) => PutOffShows(s, c, id, clock, wait, w);
    case Break => var t := BreakOutcome(s, c, id, w);
    case Go => GoShows(s, c, id, w);
  }

  lemma ShowsMean(s: State, t: State, id: Id, circuits: map<string, Circuit.Entry>,
                  buckets: map<string, Ratelimit.Entry>, cfg: Config, w: World, outcome: Option<bool>)
    requires id in s.jobs && 0.0 <= w.draw < 1.0
    requires LeftBy(s, t, id, GateFor(circuits, buckets, s.jobs[id], cfg, w), w, outcome)
    ensures var row := s.jobs[id];
            var e := Lookup(circuits, "circuit:webhook:" + row.webhookId);
            e.Some? && w.checkAt <= e.value.expiresAt && e.value.hash.state == Some(Circuit.Open) &&
            w.checkAt - (if e.value.hash.openedAt.Some? then e.value.hash.openedAt.value else 0) < cfg.cooldownMs ==>
              && outcome == None && t.audit == s.audit && Blocked(circuits, row, cfg, w)
              && (row.attempts <= row.maxAttempts ==>
                    PutOffUntil(s.q, s.jobs, t.q, t.jobs, id, w.deferAt + cfg.cooldownMs))
    ensures Blocked(circuits, s.jobs[id], cfg, w) && s.jobs[id].attempts <= s.jobs[id].maxAttempts ==>
              t.audit == s.audit && PutOffUntil(s.q, s.jobs, t.q, t.jobs, id, w.deferAt + cfg.cooldownMs)
    ensures PassesGates(circuits, buckets, s.jobs[id], cfg, w) && w.webhookExists &&
            s.jobs[id].attempts < s.jobs[id].maxAttempts ==>
              SentOnce(s.audit, t.audit, id, w.status) && SettledBy(s.q, s.jobs, t.q, t.jobs, id, w)
    ensures !Blocked(circuits, s.jobs[id], cfg, w) && cfg.rate == 0.0 ==>
              outcome == None && t.audit == s.audit && t.jobs == s.jobs && t.q == s.q
    ensures !Blocked(circuits, s.jobs[id], cfg, w) && cfg.rate != 0.0 ==>
              var row, key := s.jobs[id], "ratelimit:webhook:" + s.jobs[id].webhookId;
              var tokens := Ratelimit.Tokens(buckets, key, cfg.rate, cfg.burst, w.takeAt);
              tokens < 1.0 ==>
                && outcome == None && t.audit == s.audit
                && (row.attempts <= row.maxAttempts ==>
                      AwaitsToken(s.q, s.jobs, t.q, t.jobs, id, tokens, cfg, w))
    ensures !Blocked(circuits, s.jobs[id], cfg, w) && cfg.rate != 0.0 ==>
              var row, key := s.jobs[id], "ratelimit:webhook:" + s.jobs[id].webhookId;
              var tokens := Ratelimit.Tokens(buckets, key, cfg.rate, cfg.burst, w.takeAt);
              tokens >= 1.0 && w.webhookExists && row.attempts <= row.maxAttempts ==>
                && outcome == Some(w.status.Some? && 200 <= w.status.value < 300)
                && SentOnce(s.audit, t.audit, id, w.status)
                && (row.attempts < row.maxAttempts ==> SettledBy(s.q, s.jobs, t.q, t.jobs, id, w))
  {
    GateIs(circuits, buckets, s.jobs[id], cfg, w);
    BlockedIff(circuits, s.jobs[id], cfg, w);
  }

  lemma CallShows(s: State, c: nat, id: Id, circuits: map<string, Circuit.Entry>,
                  buckets: map<string, Ratelimit.Entry>, cfg: Config, w: World)
    returns (t: State, outcome: Option<bool>)
    requires Fetched(s, c, id) && Live(s.jobs, id) && 0.0 <= w.draw < 1.0
    ensures t == Processed(s, c, PlannedGate(s, id, circuits, buckets, cfg, w), w)
    ensures outcome == ExpectedOutcome(s, c, id, circuits, buckets, cfg, w)
    ensures var row := s.jobs[id];
            var e := Lookup(circuits, "circuit:webhook:" + row.webhookId);
            e.Some? && w.checkAt <= e.value.expiresAt && e.value.hash.state == Some(Circuit.Open) &&
            w.checkAt - (if e.value.hash.openedAt.Some? then e.value.hash.openedAt.value else 0) < cfg.cooldownMs ==>
              && outcome == None && t.audit == s.audit && Blocked(circuits, row, cfg, w)
              && (row.attempts <= row.maxAttempts ==>
                    PutOffUntil(s.q, s.jobs, t.q, t.jobs, id, w.deferAt + cfg.cooldownMs))
    ensures Blocked(circuits, s.jobs[id], cfg, w) && s.jobs[id].attempts <= s.jobs[id].maxAttempts ==>
              t.audit == s.audit && PutOffUntil(s.q, s.jobs, t.q, t.jobs, id, w.deferAt + cfg.cooldownMs)
    ensures PassesGates(circuits, buckets, s.jobs[id], cfg, w) && w.webhookExists &&
            s.jobs[id].attempts < s.jobs[id].maxAttempts ==>
              SentOnce(s.audit, t.audit, id, w.status) && SettledBy(s.q, s.jobs, t.q, t.jobs, id, w)
    ensures !Blocked(circuits, s.jobs[id], cfg, w) && cfg.rate == 0.0 ==>
              outcome == None && t.audit == s.audit && t.jobs == s.jobs && t.q == s.q
    ensures !Blocked(circuits, s.jobs[id], cfg, w) && cfg.rate != 0.0 ==>
              var row, key := s.jobs[id], "ratelimit:webhook:" + s.jobs[id].webhookId;
              var tokens := Ratelimit.Tokens(buckets, key, cfg.rate, cfg.burst, w.takeAt);
              tokens < 1.0 ==>
                && outcome == None && t.audit == s.audit
                && (row.attempts <= row.maxAttempts ==>
                      AwaitsToken(s.q, s.jobs, t.q, t.jobs, id, tokens, cfg, w))
    ensures !Blocked(circuits, s.jobs[id], cfg, w) && cfg.rate != 0.0 ==>
              var row, key := s.jobs[id], "ratelimit:webhook:" + s.jobs[id].webhookId;
              var tokens := Ratelimit.Tokens(buckets, key, cfg.rate, cfg.burst, w.takeAt);
              tokens >= 1.0 && w.webhookExists && row.attempts <= row.maxAttempts ==>
                && outcome == Some(w.status.Some? && 200 <= w.status.value < 300)
                && SentOnce(s.audit, t.audit, id, w.status)
                && (row.attempts < row.maxAttempts ==> SettledBy(s.q, s.jobs, t.q, t.jobs, id, w))
  {
    t := Processed(s, c, PlannedGate(s, id, circuits, buckets, cfg, w), w);
    outcome := ExpectedOutcome(s, c, id, circuits, buckets, cfg, w);
    StoresShow(s, c, id, circuits, buckets, cfg, w);
    ShowsMean(s, t, id, circuits, buckets, cfg, w, outcome);
  }
}
