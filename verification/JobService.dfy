/** `process` as it changes the stores, one call after another. */
module JobService {
  import opened Prelude
  import opened Redis
  import opened Jobs
  import opened Deliveries
  import opened Backoff
  import opened Actors
  import opened Protocol
  import opened Runs
  import opened Processing
  import opened Outcomes
  import Queue
  import Circuit
  import Ratelimit
  import CircuitTheorems
  import RatelimitTheorems

  class Processor {
    const queue: Queue.RedisQueue
    const jobs: JobRepository
    const deliveries: DeliveryRepository
    const circuits: Circuit.CircuitStore
    const limits: Ratelimit.RateLimiter

    constructor (queue: Queue.RedisQueue, jobs: JobRepository, deliveries: DeliveryRepository,
                 circuits: Circuit.CircuitStore, limits: Ratelimit.RateLimiter)
      ensures this.queue == queue && this.jobs == jobs && this.deliveries == deliveries
      ensures this.circuits == circuits && this.limits == limits
    {
      this.queue, this.jobs, this.deliveries, this.circuits, this.limits := queue, jobs, deliveries, circuits, limits;
    }

    /** The stores hold what this protocol state says. */
    ghost predicate Matches(s: State)
      reads queue, jobs, deliveries
    {
      s.q == queue.Contents() && s.jobs == jobs.rows && s.audit == deliveries.rows
    }

    /** Run an UPDATE that the protocol takes as this row step, and say whether it threw. */
    method Update(jobId: Id, u: Jobs.Update, next: Pc, ghost x: Cell, ghost jobs0: Table) returns (threw: bool)
      requires jobs.rows == jobs0 && x.row == Lookup(jobs0, jobId)
      modifies jobs
      ensures jobs.rows == SetRow(jobs0, jobId, Write(x, u, next).row)
      ensures threw <==> Refused(x.row, u)
    {
      var r := jobs.UpdateState(jobId, u);
      SameRow(jobs0, jobId);
      threw := r.CheckViolation?;
    }

    /** A gate said no: put the row off, then the id. */
    method Defer(jobId: Id, runAtMs: int, ghost s: State, ghost c: nat, ghost clock: int, ghost wait: int)
      requires runAtMs == clock + wait
      requires Matches(s) && c in s.claims && s.claims[c].id == jobId && s.claims[c].claim.pc.Loaded?
      modifies queue, jobs
      ensures Matches(Then(Then(s, Step.Defer(c, clock, wait)), Release(c)))
    {
      ghost var s' := DeferEffect(s, c, clock, wait);
      var u := Jobs.Update(Queued, false, None, Some(runAtMs));
      var threw := Update(jobId, u, Deferring(runAtMs), CellOf(s, c), s.jobs);
      if threw {
        return;
      }
      queue.Retry(jobId, runAtMs);
    }

    /** Number the attempt, make the call, record it. The result says whether the audit row was accepted. */
    method Deliver(jobId: Id, status: Option<int>, ghost s: State, ghost c: nat) returns (ok: bool)
      requires Matches(s) && c in s.claims && s.claims[c].id == jobId && s.claims[c].claim.pc.Sending?
      modifies deliveries
      ensures Matches(Recorded(s, c, status))
      ensures var s' := Recorded(s, c, status);
              c in s'.claims && s'.claims[c].id == jobId &&
              s'.claims[c].claim.pc == if ok then Audited(s.claims[c].claim.pc.job, status) else Over
    {
      ghost var s1 := NumberEffect(s, c);
      ghost var s2 := RecordEffect(s1, c, status);
      var attemptNumber := deliveries.NextAttemptNumber(jobId);
      ok := deliveries.Insert(AttemptRecord(jobId, attemptNumber, status), jobId in jobs.rows);
    }

    /** Settle the row by the recorded outcome, then release the id; a CHECK violation leaves it to the reaper. */
    method Conclude(jobId: Id, job: Row, status: Option<int>, w: World, ghost s: State, ghost c: nat)
      requires Matches(s) && c in s.claims && s.claims[c].id == jobId
      requires s.claims[c].claim.pc == Audited(job, status) && 0.0 <= w.draw < 1.0
      modifies queue, jobs
      ensures Matches(Concluded(s, c, w))
    {
      ghost var x := CellOf(s, c);
      if IsSuccess(status) {
        var u := Jobs.Update(Succeeded, true, None, None);
        ghost var s' := ConcludeEffect(s, c, w, u, Acking);
        var threw := Update(jobId, u, Acking, x, s.jobs);
        if !threw {
          queue.Acknowledge(jobId);
        }
      } else if !IsRetryable(status) || job.attempts + 1 >= job.maxAttempts {
        var u := Jobs.Update(Dead, true, Some(Error(status)), None);
        ghost var s' := ConcludeEffect(s, c, w, u, Burying);
        var threw := Update(jobId, u, Burying, x, s.jobs);
        if !threw {
          queue.Bury(jobId);
        }
      } else {
        var runAtMs := w.settleAt + BackoffMs(job.attempts + 1, w.draw);
        var u := Jobs.Update(Queued, true, Some(Error(status)), Some(runAtMs));
        ghost var s' := ConcludeEffect(s, c, w, u, Requeueing(runAtMs));
        var threw := Update(jobId, u, Requeueing(runAtMs), x, s.jobs);
        if !threw {
          queue.Retry(jobId, runAtMs);
        }
      }
    }

    /**
     * One reserved job, to its end. The effect on Redis and Postgres is that of
     * the protocol's steps in order; a call that throws stops where it stands.
     * The breaker learns of delivery outcomes and of nothing else, and a token
     * is asked for only once the breaker lets the job pass.
     */
    method Process(jobId: Id, cfg: Config, w: World, ghost s: State, ghost c: nat) returns (delivered: Option<bool>)
      requires 0.0 <= w.draw < 1.0
      requires Matches(s) && c in s.claims && s.claims[c].id == jobId && s.claims[c].claim.pc.Leased?
      modifies queue, jobs, deliveries, circuits, limits
      ensures Matches(Processed(s, c, PlannedGate(s, jobId, old(circuits.keys), old(limits.buckets), cfg, w), w))
      ensures delivered == ExpectedOutcome(s, c, jobId, old(circuits.keys), old(limits.buckets), cfg, w)
      ensures limits.buckets == BucketsAfter(s.jobs, jobId, old(circuits.keys), old(limits.buckets), cfg, w)
      ensures circuits.keys == CircuitsAfter(s.jobs, jobId, old(circuits.keys), cfg, w, delivered)
      // Nothing left to deliver: the id is let go, and nobody hears of it.
      ensures !Live(s.jobs, jobId) ==>
                && delivered == None && jobs.rows == s.jobs && deliveries.rows == s.audit
                && queue.Contents() == Queue.Ack(s.q, jobId)
                && circuits.keys == old(circuits.keys) && limits.buckets == old(limits.buckets)
      // Behind an open breaker nothing is sent and no token spent: row and id are put off by the cooldown.
      ensures Live(s.jobs, jobId) ==>
                var row := s.jobs[jobId];
                var e := Lookup(old(circuits.keys), "circuit:webhook:" + row.webhookId);
                var since := if e.Some? && e.value.hash.openedAt.Some? then e.value.hash.openedAt.value else 0;
                e.Some? && w.checkAt <= e.value.expiresAt && e.value.hash.state == Some(Circuit.Open) &&
                w.checkAt - since < cfg.cooldownMs ==>
                  && delivered == None && deliveries.rows == s.audit && limits.buckets == old(limits.buckets)
                  && (row.attempts <= row.maxAttempts ==>
                        PutOffUntil(s.q, s.jobs, queue.Contents(), jobs.rows, jobId, w.deferAt + cfg.cooldownMs))
      // A bucket whose script fails ends the call there.
      ensures Live(s.jobs, jobId) && !Blocked(old(circuits.keys), s.jobs[jobId], cfg, w) && cfg.rate == 0.0 ==>
                delivered == None && deliveries.rows == s.audit && jobs.rows == s.jobs && queue.Contents() == s.q
      // With less than a token, put off until one is there, or by a tenth of a second.
      ensures Live(s.jobs, jobId) && !Blocked(old(circuits.keys), s.jobs[jobId], cfg, w) && cfg.rate != 0.0 ==>
                var row, key := s.jobs[jobId], "ratelimit:webhook:" + s.jobs[jobId].webhookId;
                var tokens := Ratelimit.Tokens(old(limits.buckets), key, cfg.rate, cfg.burst, w.takeAt);
                tokens < 1.0 ==>
                  && delivered == None && deliveries.rows == s.audit
                  && (row.attempts <= row.maxAttempts ==>
                        AwaitsToken(s.q, s.jobs, queue.Contents(), jobs.rows, jobId, tokens, cfg, w))
      // Past both gates, one request is made and recorded, and the job settled by its outcome.
      ensures Live(s.jobs, jobId) && !Blocked(old(circuits.keys), s.jobs[jobId], cfg, w) && cfg.rate != 0.0 ==>
                var row, key := s.jobs[jobId], "ratelimit:webhook:" + s.jobs[jobId].webhookId;
                var tokens := Ratelimit.Tokens(old(limits.buckets), key, cfg.rate, cfg.burst, w.takeAt);
                tokens >= 1.0 && w.webhookExists && row.attempts <= row.maxAttempts ==>
                  && delivered == Some(w.status.Some? && 200 <= w.status.value < 300)
                  && SentOnce(s.audit, deliveries.rows, jobId, w.status)
                  && (row.attempts < row.maxAttempts ==>
                        SettledBy(s.q, s.jobs, queue.Contents(), jobs.rows, jobId, w))
      // The webhook's breaker hears of one check and of the outcome, its bucket of one token; no other's does.
      ensures Live(s.jobs, jobId) ==>
                circuits.keys == CircuitTheorems.AfterCalls(
                  CircuitTheorems.Settings(cfg.threshold, cfg.cooldownMs), old(circuits.keys),
                  Told("circuit:webhook:" + s.jobs[jobId].webhookId, w, delivered))
      ensures Live(s.jobs, jobId) && !Blocked(old(circuits.keys), s.jobs[jobId], cfg, w) ==>
                limits.buckets == RatelimitTheorems.AfterCalls(
                  RatelimitTheorems.Limit(cfg.rate, cfg.burst), old(limits.buckets),
                  [RatelimitTheorems.Call("ratelimit:webhook:" + s.jobs[jobId].webhookId,
                                          RatelimitTheorems.Request(w.takeAt, 1.0))])
    {
      ghost var circuits0, buckets0 := circuits.keys, limits.buckets;
      delivered := Handle(jobId, cfg, w, s, c);
      if Live(s.jobs, jobId) {
        ghost var row := s.jobs[jobId];
        ghost var t, outcome := CallShows(s, c, jobId, circuits0, buckets0, cfg, w);
        BreakerTold(circuits0, row, cfg, w, delivered);
        RatelimitTheorems.OneCall(RatelimitTheorems.Limit(cfg.rate, cfg.burst), buckets0,
                                  RatelimitTheorems.Call(LimitKey(row), RatelimitTheorems.Request(w.takeAt, 1.0)));
      } else {
        ghost var t := DiscardOutcome(s, c, jobId, w);
      }
    }

    method Handle(jobId: Id, cfg: Config, w: World, ghost s: State, ghost c: nat) returns (delivered: Option<bool>)
      requires 0.0 <= w.draw < 1.0
      requires Matches(s) && c in s.claims && s.claims[c].id == jobId && s.claims[c].claim.pc.Leased?
      modifies queue, jobs, deliveries, circuits, limits
      ensures Matches(Processed(s, c, PlannedGate(s, jobId, old(circuits.keys), old(limits.buckets), cfg, w), w))
      ensures delivered == ExpectedOutcome(s, c, jobId, old(circuits.keys), old(limits.buckets), cfg, w)
      ensures limits.buckets == BucketsAfter(s.jobs, jobId, old(circuits.keys), old(limits.buckets), cfg, w)
      ensures circuits.keys == CircuitsAfter(s.jobs, jobId, old(circuits.keys), cfg, w, delivered)
    {
      delivered := None;
      ghost var s1 := LoadEffect(s, c);
      var job := jobs.FindById(jobId);
      if job.None? || Terminal(job.value) {
        ghost var s2 := DiscardEffect(s1, c, w);
        queue.Acknowledge(jobId);
        return;
      }
      delivered := ProcessLive(jobId, job.value, cfg, w, s1, c);
    }

    /** The same, once a live row has been read. */
    method ProcessLive(jobId: Id, job: Row, cfg: Config, w: World, ghost s: State, ghost c: nat)
      returns (delivered: Option<bool>)
      requires 0.0 <= w.draw < 1.0
      requires Matches(s) && c in s.claims && s.claims[c].id == jobId && s.claims[c].claim.pc == Loaded(job)
      modifies queue, jobs, deliveries, circuits, limits
      ensures var gate := GateFor(old(circuits.keys), old(limits.buckets), job, cfg, w);
              && Matches(match gate
                         case PutOff(clock, wait) => Then(Then(s, Step.Defer(c, clock, wait)), Release(c))
                         case Break => s
                         case Go => Concluded(Attempted(s, c, w), c, w))
              && delivered == (if gate.Go? then OutcomeAt(Attempted(s, c, w), c) else None)
      ensures limits.buckets == if Blocked(old(circuits.keys), job, cfg, w) then old(limits.buckets)
                else Ratelimit.AfterTake(old(limits.buckets), LimitKey(job), cfg.rate, cfg.burst, w.takeAt, 1.0)
      ensures circuits.keys == Reported(
                Circuit.AfterCheck(old(circuits.keys), CircuitKey(job), w.checkAt, cfg.cooldownMs),
                job, cfg, w, delivered)
    {
      delivered := None;
      var state := circuits.Check(CircuitKey(job), w.checkAt, cfg.cooldownMs);
      if state == Circuit.Open {
        Defer(jobId, w.deferAt + cfg.cooldownMs, s, c, w.deferAt, cfg.cooldownMs);
        return;
      }
      var rate := limits.Take(LimitKey(job), cfg.rate, cfg.burst, w.takeAt, 1.0);
      if rate.None? {
        return;
      }
      if !rate.value.allowed {
        var wait := Max(rate.value.retryAfterMs, 100);
        Defer(jobId, w.deferAt + wait, s, c, w.deferAt, wait);
        return;
      }
      delivered := Attempt(jobId, job, cfg, w, s, c);
    }

    /** The gates are passed: mark the row, deliver, tell the breaker, settle. */
    method Attempt(jobId: Id, job: Row, cfg: Config, w: World, ghost s: State, ghost c: nat)
      returns (delivered: Option<bool>)
      requires 0.0 <= w.draw < 1.0
      requires Matches(s) && c in s.claims && s.claims[c].id == jobId && s.claims[c].claim.pc == Loaded(job)
      modifies queue, jobs, deliveries, circuits
      ensures Matches(Concluded(Attempted(s, c, w), c, w))
      ensures delivered == OutcomeAt(Attempted(s, c, w), c)
      ensures circuits.keys == Reported(old(circuits.keys), job, cfg, w, delivered)
    {
      delivered := None;
      ghost var s1 := DispatchEffect(s, c);
      var threw := Update(jobId, Jobs.Update(InFlight, false, None, None), Sending(job), CellOf(s, c), s.jobs);
      if threw || !w.webhookExists {
        NothingMore(s1, c, w);
        return;
      }
      ghost var s2 := Recorded(s1, c, w.status);
      var ok := Deliver(jobId, w.status, s1, c);
      if !ok {
        NothingMore(s2, c, w);
        return;
      }
      var success := Finish(jobId, job, cfg, w, s2, c);
      delivered := Some(success);
    }

    /** The outcome is recorded: tell the breaker, then settle. */
    method Finish(jobId: Id, job: Row, cfg: Config, w: World, ghost s: State, ghost c: nat) returns (success: bool)
      requires 0.0 <= w.draw < 1.0
      requires Matches(s) && c in s.claims && s.claims[c].id == jobId
      requires s.claims[c].claim.pc == Audited(job, w.status)
      modifies queue, jobs, circuits
      ensures Matches(Concluded(s, c, w)) && success == IsSuccess(w.status)
      ensures circuits.keys == Reported(old(circuits.keys), job, cfg, w, Some(success))
    {
      success := IsSuccess(w.status);
      if success {
        circuits.RecordSuccess(CircuitKey(job), w.recordAt);
      } else {
        var state := circuits.RecordFailure(CircuitKey(job), cfg.threshold, w.recordAt);
      }
      Conclude(jobId, job, w.status, w, s, c);
    }
  }
}
