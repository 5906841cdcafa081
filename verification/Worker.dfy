/** A worker's consume loop, turn after turn until it is told to stop. */
module Worker {
  import opened Prelude
  import opened Redis
  import opened Jobs
  import opened Actors
  import opened Protocol
  import opened Runs
  import opened Processing
  import opened Outcomes
  import opened JobService
  import opened Deliveries
  import opened Theorems
  import Queue
  import Circuit
  import Ratelimit

  /** What one turn meets. */
  datatype Turn = Turn(reserveAt: int, leaseFails: bool, world: World)

  /** All the stores: the protocol's, the breakers and the buckets. */
  datatype Stores = Stores(s: State, circuits: map<string, Circuit.Entry>, buckets: map<string, Ratelimit.Entry>)

  /** Claim c takes the next id and, unless that fails, its lease. */
  function AfterReserve(s: State, c: nat, turn: Turn): State
    requires c !in s.claims && s.q.ready != []
  {
    var taken := Do(s, Take(c));
    if turn.leaseFails then taken else Do(taken, TakeLease(c, turn.reserveAt))
  }

  /** One turn: reserve, then process. */
  function Turned(x: Stores, c: nat, cfg: Config, turn: Turn): Stores
    requires c !in x.s.claims
  {
    if x.s.q.ready == [] then x
    else
      var s := AfterReserve(x.s, c, turn);
      if turn.leaseFails then x.(s := s)
      else
        var id, w := Queue.Next(x.s.q), turn.world;
        Stores(Processed(s, c, PlannedGate(s, id, x.circuits, x.buckets, cfg, w), w),
               CircuitsAfter(s.jobs, id, x.circuits, cfg, w, ExpectedOutcome(s, c, id, x.circuits, x.buckets, cfg, w)),
               BucketsAfter(s.jobs, id, x.circuits, x.buckets, cfg, w))
  }

  // -------------------------------------------------- what a turn does, by the stores

  /** The id at the tail of `ready` is taken, leased and handled, and its claim has moved on. */
  predicate Served(x: Stores, y: Stores, c: nat, cfg: Config, turn: Turn)
    requires 0.0 <= turn.world.draw < 1.0
  {
    if x.s.q.ready == [] then y == x
    else
      var id, w := x.s.q.ready[|x.s.q.ready| - 1], turn.world;
      if turn.leaseFails then
        y.s.q == Queue.Claim(x.s.q) && y.s.jobs == x.s.jobs && y.s.audit == x.s.audit &&
        y.circuits == x.circuits && y.buckets == x.buckets
      else
        var q := Queue.Lease(Queue.Claim(x.s.q), id, turn.reserveAt + Queue.VISIBILITY_TIMEOUT_MS);
        Moved(y.s, c, id) && if Live(x.s.jobs, id) then Handled(x, y.s, q, id, cfg, w) else Discarded(x, y, q, id)
  }

  predicate Discarded(x: Stores, y: Stores, q: Queue.Queues, id: Id)
  {
    y.s.q == Queue.Ack(q, id) && y.s.jobs == x.s.jobs && y.s.audit == x.s.audit &&
    y.circuits == x.circuits && y.buckets == x.buckets
  }

  /** A live job: put off behind its breaker, or past both gates sent once and settled. */
  predicate Handled(x: Stores, t: State, q: Queue.Queues, id: Id, cfg: Config, w: World)
    requires id in x.s.jobs && 0.0 <= w.draw < 1.0
  {
    var row := x.s.jobs[id];
    && (Blocked(x.circuits, row, cfg, w) && row.attempts <= row.maxAttempts ==>
          t.audit == x.s.audit && PutOffUntil(q, x.s.jobs, t.q, t.jobs, id, w.deferAt + cfg.cooldownMs))
    && (PassesGates(x.circuits, x.buckets, row, cfg, w) && w.webhookExists && row.attempts < row.maxAttempts ==>
          SentOnce(x.s.audit, t.audit, id, w.status) && SettledBy(q, x.s.jobs, t.q, t.jobs, id, w))
  }

  /** Past its gates a live job gets one more audit row and spends one attempt; a 2xx and no other ends it well. */
  lemma HandledMeans(x: Stores, t: State, q: Queue.Queues, id: Id, cfg: Config, w: World)
    requires id in x.s.jobs && 0.0 <= w.draw < 1.0 && Handled(x, t, q, id, cfg, w)
    requires PassesGates(x.circuits, x.buckets, x.s.jobs[id], cfg, w) && w.webhookExists
    requires x.s.jobs[id].attempts < x.s.jobs[id].maxAttempts
    ensures |Numbers(t.audit, id)| == |Numbers(x.s.audit, id)| + 1
    ensures t.audit != [] && t.audit[|t.audit| - 1].jobId == id && t.audit[|t.audit| - 1].statusCode == w.status
    ensures id !in t.q.leases && multiset(t.q.inflight) == multiset(q.inflight) - multiset{id}
    ensures id in t.jobs && t.jobs[id].attempts == x.s.jobs[id].attempts + 1
    ensures w.status.Some? && 200 <= w.status.value < 300 <==> t.jobs[id].state == Succeeded
  {
    SentMeans(x.s.audit, t.audit, id, w.status);
    SettledMeans(q, x.s.jobs, t.q, t.jobs, id, w);
  }

  /** The turn's claim is on the tail of `ready` and has moved on. */
  lemma ServedMoves(x: Stores, y: Stores, c: nat, cfg: Config, turn: Turn)
    requires 0.0 <= turn.world.draw < 1.0 && Served(x, y, c, cfg, turn) && x.s.q.ready != [] && !turn.leaseFails
    ensures c in y.s.claims && y.s.claims[c].id == x.s.q.ready[|x.s.q.ready| - 1]
    ensures !y.s.claims[c].claim.pc.Reserved? && !y.s.claims[c].claim.pc.Leased?
  {
  }

  lemma TakenCounts(q: Queue.Queues, id: Id, until: int)
    requires q.ready != [] && id == q.ready[|q.ready| - 1]
    ensures multiset(Queue.Lease(Queue.Claim(q), id, until).inflight) == multiset(q.inflight) + multiset{id}
    ensures multiset(Queue.Ack(Queue.Lease(Queue.Claim(q), id, until), id).inflight) == multiset(q.inflight)
    ensures id !in Queue.Ack(Queue.Lease(Queue.Claim(q), id, until), id).leases
  {
    LRemCounts([id] + q.inflight, id);
  }

  /** A job that is gone or finished is out of flight, and nothing else happens. */
  lemma ServedDiscards(x: Stores, y: Stores, c: nat, cfg: Config, turn: Turn, id: Id)
    requires 0.0 <= turn.world.draw < 1.0 && Served(x, y, c, cfg, turn) && x.s.q.ready != [] && !turn.leaseFails
    requires id == x.s.q.ready[|x.s.q.ready| - 1]
    requires id !in x.s.jobs || x.s.jobs[id].state == Succeeded || x.s.jobs[id].state == Dead
    ensures id !in y.s.q.leases && multiset(y.s.q.inflight) == multiset(x.s.q.inflight)
    ensures y.s.jobs == x.s.jobs && y.s.audit == x.s.audit && y.circuits == x.circuits && y.buckets == x.buckets
  {
    TakenCounts(x.s.q, id, turn.reserveAt + Queue.VISIBILITY_TIMEOUT_MS);
  }

  /** A live job past its gates is delivered, once, and settled; a 2xx and no other leaves it succeeded. */
  lemma ServedDelivers(x: Stores, y: Stores, c: nat, cfg: Config, turn: Turn, id: Id)
    requires 0.0 <= turn.world.draw < 1.0 && Served(x, y, c, cfg, turn) && x.s.q.ready != [] && !turn.leaseFails
    requires id == x.s.q.ready[|x.s.q.ready| - 1] && turn.world.webhookExists
    requires id in x.s.jobs && x.s.jobs[id].state != Succeeded && x.s.jobs[id].state != Dead
    requires x.s.jobs[id].attempts < x.s.jobs[id].maxAttempts
    requires !Blocked(x.circuits, x.s.jobs[id], cfg, turn.world) && cfg.rate != 0.0
    requires Ratelimit.Tokens(x.buckets, "ratelimit:webhook:" + x.s.jobs[id].webhookId, cfg.rate, cfg.burst,
                              turn.world.takeAt) >= 1.0
    ensures |Numbers(y.s.audit, id)| == |Numbers(x.s.audit, id)| + 1
    ensures y.s.audit != [] && y.s.audit[|y.s.audit| - 1].jobId == id
    ensures y.s.audit[|y.s.audit| - 1].statusCode == turn.world.status
    ensures id !in y.s.q.leases && multiset(y.s.q.inflight) == multiset(x.s.q.inflight)
    ensures id in y.s.jobs && y.s.jobs[id].attempts == x.s.jobs[id].attempts + 1
    ensures turn.world.status.Some? && 200 <= turn.world.status.value < 300 <==> y.s.jobs[id].state == Succeeded
  {
    var until := turn.reserveAt + Queue.VISIBILITY_TIMEOUT_MS;
    TakenCounts(x.s.q, id, until);
    HandledMeans(x, y.s, Queue.Lease(Queue.Claim(x.s.q), id, until), id, cfg, turn.world);
  }

  lemma HandledLive(x: Stores, s: State, c: nat, id: Id, cfg: Config, w: World) returns (t: State)
    requires Fetched(s, c, id) && s.jobs == x.s.jobs && s.audit == x.s.audit && Live(s.jobs, id) && 0.0 <= w.draw < 1.0
    ensures t == Processed(s, c, PlannedGate(s, id, x.circuits, x.buckets, cfg, w), w)
    ensures Handled(x, t, s.q, id, cfg, w)
  {
    var outcome;
    t, outcome := CallShows(s, c, id, x.circuits, x.buckets, cfg, w);
  }

  lemma ReserveEffect(s: State, c: nat, turn: Turn) returns (t: State)
    requires c !in s.claims && s.q.ready != [] && !turn.leaseFails
    ensures var id := s.q.ready[|s.q.ready| - 1];
            && t == AfterReserve(s, c, turn) && Fetched(t, c, id) && t.jobs == s.jobs && t.audit == s.audit
            && t.q == Queue.Lease(Queue.Claim(s.q), id, turn.reserveAt + Queue.VISIBILITY_TIMEOUT_MS)
  {
    t := AfterReserve(s, c, turn);
  }

  lemma TurnServes(x: Stores, c: nat, cfg: Config, turn: Turn)
    requires c !in x.s.claims && 0.0 <= turn.world.draw < 1.0
    ensures Served(x, Turned(x, c, cfg, turn), c, cfg, turn)
  {
    if x.s.q.ready != [] && !turn.leaseFails {
      var id, w := x.s.q.ready[|x.s.q.ready| - 1], turn.world;
      var s := ReserveEffect(x.s, c, turn);
      ProcessMoves(s, c, PlannedGate(s, id, x.circuits, x.buckets, cfg, w), w);
      if Live(s.jobs, id) {
        var t := HandledLive(x, s, c, id, cfg, w);
      } else {
        var t := DiscardOutcome(s, c, id, w);
      }
    }
  }

  type Turning = (Stores, nat, Turn) -> Stores

  /** Turns under these settings. */
  function UnderConfig(cfg: Config): Turning
  {
    (x: Stores, c: nat, turn: Turn) => if c in x.s.claims then x else Turned(x, c, cfg, turn)
  }

  /** The stores before each turn and after the last, each turn under a claim of its own. */
  ghost predicate Consumes(xs: seq<Stores>, claims: seq<nat>, turns: seq<Turn>, turning: Turning)
  {
    && |xs| == |turns| + 1 && |claims| == |turns|
    && forall i :: 0 <= i < |turns| ==>
         claims[i] !in xs[i].s.claims && xs[i + 1] == turning(xs[i], claims[i], turns[i])
  }

  /** One more turn, under a claim that nobody has used. */
  lemma ConsumesOneMore(xs: seq<Stores>, claims: seq<nat>, turns: seq<Turn>, i: nat, turning: Turning)
    returns (xs': seq<Stores>, claims': seq<nat>, c: nat)
    requires i < |turns| && Consumes(xs, claims, turns[..i], turning)
    ensures Consumes(xs', claims', turns[..i + 1], turning)
    ensures xs'[0] == xs[0] && c !in xs[i].s.claims && xs'[i + 1] == turning(xs[i], c, turns[i])
  {
    c := FreshKey(xs[i].s.claims);
    xs', claims' := xs + [turning(xs[i], c, turns[i])], claims + [c];
  }

  lemma TurnedIsARun(x: Stores, c: nat, cfg: Config, turn: Turn) returns (steps: seq<Step>)
    requires c !in x.s.claims
    ensures Leads(x.s, steps, Turned(x, c, cfg, turn).s)
  {
    steps := [];
    LeadsNowhere(x.s);
    if x.s.q.ready != [] {
      var s := AfterReserve(x.s, c, turn);
      LeadsOneMore(x.s, [], x.s, Take(c));
      steps := [] + [Take(c)];
      if !turn.leaseFails {
        LeadsOneMore(x.s, steps, Do(x.s, Take(c)), TakeLease(c, turn.reserveAt));
        steps := steps + [TakeLease(c, turn.reserveAt)];
        var gate := PlannedGate(s, Queue.Next(x.s.q), x.circuits, x.buckets, cfg, turn.world);
        var more := ProcessIsARun(s, c, gate, turn.world);
        LeadsOn(x.s, steps, s, more, Processed(s, c, gate, turn.world));
        steps := steps + more;
      }
    }
  }

  lemma ReachesByTurns(xs: seq<Stores>, claims: seq<nat>, turns: seq<Turn>, turning: Turning)
    requires Consumes(xs, claims, turns, turning)
    requires forall x: Stores, c: nat, turn: Turn :: c !in x.s.claims ==> Reaches(x.s, turning(x, c, turn).s)
    ensures Reaches(xs[0].s, xs[|turns|].s)
  {
    var states := seq(|xs|, i requires 0 <= i < |xs| => xs[i].s);
    forall i | 0 < i < |states|
      ensures Reaches(states[i - 1], states[i])
    {
      assert xs[i] == turning(xs[i - 1], claims[i - 1], turns[i - 1]);
    }
    ReachesAll(states);
  }

  /** A worker left alone for any number of turns takes steps of the protocol and no others. */
  lemma WorkerIsARun(xs: seq<Stores>, claims: seq<nat>, cfg: Config, turns: seq<Turn>)
    requires Consumes(xs, claims, turns, UnderConfig(cfg))
    ensures Reaches(xs[0].s, xs[|turns|].s)
  {
    var turning := UnderConfig(cfg);
    forall x: Stores, c: nat, turn: Turn | c !in x.s.claims
      ensures Reaches(x.s, turning(x, c, turn).s)
    {
      var steps := TurnedIsARun(x, c, cfg, turn);
    }
    ReachesByTurns(xs, claims, turns, turning);
  }

  /** So whatever holds of every reachable state holds after the loop, as the audit trail's numbering does. */
  lemma WorkerKeepsNumbering(xs: seq<Stores>, claims: seq<nat>, cfg: Config, turns: seq<Turn>, id: Id)
    requires Consumes(xs, claims, turns, UnderConfig(cfg)) && Reachable(xs[0].s)
    ensures Reachable(xs[|turns|].s) && Sequential(Numbers(xs[|turns|].s.audit, id))
  {
    WorkerIsARun(xs, claims, cfg, turns);
    ReachableOn(xs[0].s, xs[|turns|].s);
    ReachableNumbersAreSequential(xs[|turns|].s, id);
  }

  lemma ConfigServes(x: Stores, c: nat, cfg: Config, turn: Turn)
    requires c !in x.s.claims && 0.0 <= turn.world.draw < 1.0
    ensures Served(x, UnderConfig(cfg)(x, c, turn), c, cfg, turn)
  {
    TurnServes(x, c, cfg, turn);
  }

  lemma EveryTurnServes(xs: seq<Stores>, claims: seq<nat>, cfg: Config, turns: seq<Turn>)
    requires Consumes(xs, claims, turns, UnderConfig(cfg))
    requires forall turn <- turns :: 0.0 <= turn.world.draw < 1.0
    ensures forall i :: 0 <= i < |turns| ==> Served(xs[i], xs[i + 1], claims[i], cfg, turns[i])
  {
    forall i | 0 <= i < |turns|
      ensures Served(xs[i], xs[i + 1], claims[i], cfg, turns[i])
    {
      ConfigServes(xs[i], claims[i], cfg, turns[i]);
    }
  }

  class WorkerProcess {
    const processor: Processor

    constructor (processor: Processor)
      ensures this.processor == processor
    {
      this.processor := processor;
    }

    ghost predicate Shows(x: Stores)
      reads processor.queue, processor.jobs, processor.deliveries, processor.circuits, processor.limits
    {
      processor.Matches(x.s) && processor.circuits.keys == x.circuits && processor.limits.buckets == x.buckets
    }

    /** The loop: whatever a turn ends in, a throw included, the next one starts. */
    method Consume(turns: seq<Turn>, cfg: Config, ghost x: Stores)
      returns (ghost xs: seq<Stores>, ghost claims: seq<nat>)
      requires forall turn <- turns :: 0.0 <= turn.world.draw < 1.0
      requires Shows(x)
      modifies processor.queue, processor.jobs, processor.deliveries, processor.circuits, processor.limits
      ensures Consumes(xs, claims, turns, UnderConfig(cfg)) && xs[0] == x && Shows(xs[|turns|])
      ensures forall i :: 0 <= i < |turns| ==> Served(xs[i], xs[i + 1], claims[i], cfg, turns[i])
    {
      xs, claims := [x], [];
      for i := 0 to |turns|
        invariant Consumes(xs, claims, turns[..i], UnderConfig(cfg)) && xs[0] == x && Shows(xs[i])
      {
        xs, claims := ConsumeNext(turns, i, cfg, xs, claims);
      }
      assert turns[..|turns|] == turns;
      EveryTurnServes(xs, claims, cfg, turns);
    }

    method ConsumeNext(turns: seq<Turn>, i: nat, cfg: Config, ghost xs: seq<Stores>, ghost claims: seq<nat>)
      returns (ghost xs': seq<Stores>, ghost claims': seq<nat>)
      requires i < |turns| && 0.0 <= turns[i].world.draw < 1.0
      requires Consumes(xs, claims, turns[..i], UnderConfig(cfg)) && Shows(xs[i])
      modifies processor.queue, processor.jobs, processor.deliveries, processor.circuits, processor.limits
      ensures Consumes(xs', claims', turns[..i + 1], UnderConfig(cfg)) && xs'[0] == xs[0] && Shows(xs'[i + 1])
    {
      ghost var c;
      xs', claims', c := ConsumesOneMore(xs, claims, turns, i, UnderConfig(cfg));
      ghost var y := ConsumeOne(turns[i], cfg, xs[i], c);
    }

    method ConsumeOne(turn: Turn, cfg: Config, ghost x: Stores, ghost c: nat) returns (ghost y: Stores)
      requires 0.0 <= turn.world.draw < 1.0
      requires Shows(x) && c !in x.s.claims
      modifies processor.queue, processor.jobs, processor.deliveries, processor.circuits, processor.limits
      ensures Shows(y) && Served(x, y, c, cfg, turn) && y == UnderConfig(cfg)(x, c, turn)
    {
      y := UnderConfig(cfg)(x, c, turn);
      ConfigServes(x, c, cfg, turn);
      ReserveAndProcess(turn, cfg, x, c);
    }

    method ReserveAndProcess(turn: Turn, cfg: Config, ghost x: Stores, ghost c: nat)
      requires 0.0 <= turn.world.draw < 1.0
      requires Shows(x) && c !in x.s.claims
      modifies processor.queue, processor.jobs, processor.deliveries, processor.circuits, processor.limits
      ensures Shows(UnderConfig(cfg)(x, c, turn))
    {
      var jobId := processor.queue.Reserve(turn.reserveAt, turn.leaseFails);
      if jobId.None? {
        return;
      }
      var delivered := processor.Process(jobId.value, cfg, turn.world, AfterReserve(x.s, c, turn), c);
    }
  }
}
