/**
 * What holds of every job when workers act only under their own running lease.
 * Crashes may happen anywhere; enqueuers, replayers and schedulers may stall.
 */
module TimelyRuns {
  import opened Prelude
  import opened Jobs
  import opened Deliveries
  import opened Actors
  import opened JobView
  import opened FreeRuns

  // ------------------------------------------------------------ locations

  /** The Redis structures an id can wait in, counted together. */
  function Total(v: View): nat
  {
    v.ready + v.inflight + v.dlq + (if v.delayed.Some? then 1 else 0)
  }

  ghost predicate Holding(v: View, h: nat)
  {
    h in v.hands && !v.hands[h].Empty?
  }

  /** A claim that may still act: in the reserve window, or under a running lease. */
  ghost predicate Active(v: View, c: nat)
  {
    c in v.claims && (v.claims[c].pc.Reserved? || (!v.claims[c].pc.Over? && v.now < v.claims[c].lease))
  }

  ghost predicate OnePlace(v: View)
  {
    && Total(v) <= 1
    && (v.lease.Some? ==> v.inflight == 1)
    && (forall h :: Holding(v, h) ==> Total(v) == 0)
    && (forall g, h :: Holding(v, g) && Holding(v, h) ==> g == h)
  }

  ghost predicate OneClaim(v: View)
  {
    && (forall c :: Active(v, c) ==>
          v.inflight == 1 && v.lease == if v.claims[c].pc.Reserved? then None else Some(v.claims[c].lease))
    && (forall b, c :: Active(v, b) && Active(v, c) ==> b == c)
    && (v.inflight == 1 && v.lease.None? ==> InReserveWindow(v))
  }

  ghost predicate Located(v: View)
  {
    NothingBeforeInsert(v) && OnePlace(v) && OneClaim(v)
  }

  // ------------------------------------------------------------ agreement

  /** Waiting to be worked on, or in the hands of an enqueuer or replayer. */
  ghost predicate Circulating(v: View)
  {
    v.ready + v.inflight + (if v.delayed.Some? then 1 else 0) == 1 || exists h :: Holding(v, h)
  }

  /** What Redis and Postgres say about one job. */
  ghost predicate StoresAgree(v: View)
  {
    v.row.Some? ==>
      var row := v.row.value;
      && (v.delayed.Some? ==> row.state == Queued && v.delayed.value == row.runAt)
      && (v.dlq > 0 ==> row.state == Dead)
      && (forall h :: Holding(v, h) ==>
            (v.hands[h].Inserted? ==> row.state == Queued && row.runAt == v.hands[h].runAt) &&
            (v.hands[h].Popped? ==> row.state == Dead) &&
            (v.hands[h].Revived? ==> row.state == Queued && row.runAt <= v.now))
      && (!Terminal(row) ==> Circulating(v))
  }

  /** What an acting claim knows about the row. */
  ghost predicate ClaimAgrees(v: View, claim: Claim)
  {
    v.row.Some? ==>
      var row := v.row.value;
      match claim.pc
      case Discarding => Terminal(row)
      case Loaded(job) => row == job && !Terminal(row)
      case Sending(job) => row == Updated(job, Update(InFlight, false, None, None))
      case Numbered(job, n) => row == Updated(job, Update(InFlight, false, None, None)) && n == |v.numbers| + 1
      case Calling(job, n) => row == Updated(job, Update(InFlight, false, None, None)) && n == |v.numbers| + 1
      case Audited(job, _) => row == Updated(job, Update(InFlight, false, None, None))
      case Deferring(runAt) => row.state == Queued && row.runAt == runAt
      case Requeueing(runAt) => row.state == Queued && row.runAt == runAt
      case Acking => row.state == Succeeded
      case Burying => row.state == Dead
      case _ => true
  }

  ghost predicate ClaimsAgree(v: View)
  {
    forall c :: Active(v, c) ==> ClaimAgrees(v, v.claims[c])
  }

  ghost predicate Agreed(v: View)
  {
    && Located(v)
    && Numbering(v)
    && StoresAgree(v)
    && ClaimsAgree(v)
  }

  // ---------------------------------------------- who is affected by a step

  predicate OfHand(step: Step)
  {
    step.Insert? || step.Place? || step.PopDead? || step.Revive? || step.PushBack?
  }

  lemma OtherHands(v: View, step: Step)
    requires ViewEnabled(v, step)
    ensures forall h :: (OfHand(step) ==> h != step.hand) ==> (Holding(ViewDo(v, step), h) <==> Holding(v, h))
  {
  }

  /** No step makes someone else's claim active, and only time makes one inactive. */
  lemma OtherClaims(v: View, step: Step)
    requires ViewEnabled(v, step)
    ensures forall c :: (OfWorker(step) ==> c != step.claim) ==>
              (Active(ViewDo(v, step), c) ==> Active(v, c) && ViewDo(v, step).claims[c] == v.claims[c])
    ensures !step.Tick? ==>
              forall c :: (OfWorker(step) ==> c != step.claim) ==> (Active(ViewDo(v, step), c) <==> Active(v, c))
  {
  }

  // ------------------------------------------------- locations are preserved

  lemma LocatedHandStep(v: View, step: Step)
    requires Located(v) && ViewEnabled(v, step) && OfHand(step)
    ensures Located(ViewDo(v, step))
  {
    assert step.hand in v.hands ==> Holding(v, step.hand);
    OtherHands(v, step);
    OtherClaims(v, step);
    if InReserveWindow(v) {
      StaysInWindow(v, step);
    }
  }

  lemma LocatedSweep(v: View, step: Step)
    requires Located(v) && ViewEnabled(v, step) && ViewOnTime(v, step) && !OfHand(step) && !OfWorker(step)
    ensures Located(ViewDo(v, step))
  {
    OtherHands(v, step);
    OtherClaims(v, step);
    if InReserveWindow(v) {
      StaysInWindow(v, step);
    }
  }

  lemma LocatedReserve(v: View, step: Step)
    requires Located(v) && ViewEnabled(v, step) && (step.Take? || step.TakeLease?)
    ensures Located(ViewDo(v, step))
  {
    OtherHands(v, step);
    OtherClaims(v, step);
    if step.Take? {
      TakeEntersWindow(v, step.claim);
    } else {
      assert Active(v, step.claim);
    }
  }

  lemma LocatedSettle(v: View, step: Step)
    requires Located(v) && ViewEnabled(v, step) && ViewOnTime(v, step) && step.Settle?
    ensures Located(ViewDo(v, step))
  {
    assert Active(v, step.claim);
    OtherHands(v, step);
    OtherClaims(v, step);
    if InReserveWindow(v) {
      StaysInWindow(v, step);
    }
  }

  lemma LocatedRowStep(v: View, step: Step)
    requires Located(v) && ViewEnabled(v, step) && ViewOnTime(v, step) && RowStep(step) && !step.Settle?
    ensures Located(ViewDo(v, step))
  {
    assert Active(v, step.claim);
    OtherHands(v, step);
    OtherClaims(v, step);
    if InReserveWindow(v) {
      StaysInWindow(v, step);
    }
  }

  lemma LocatedAuditStep(v: View, step: Step)
    requires Located(v) && ViewEnabled(v, step) && ViewOnTime(v, step) && (step.Number? || step.Record?)
    ensures Located(ViewDo(v, step))
  {
    assert Active(v, step.claim);
    OtherHands(v, step);
    OtherClaims(v, step);
    if InReserveWindow(v) {
      StaysInWindow(v, step);
    }
  }

  lemma LocatedRelease(v: View, step: Step)
    requires Located(v) && ViewEnabled(v, step) && ViewOnTime(v, step) && step.Release?
    ensures Located(ViewDo(v, step))
  {
    assert Active(v, step.claim);
    OtherHands(v, step);
    OtherClaims(v, step);
  }

  lemma LocatedStep(v: View, step: Step)
    requires Located(v) && ViewEnabled(v, step) && ViewOnTime(v, step)
    ensures Located(ViewDo(v, step))
  {
    if OfHand(step) {
      LocatedHandStep(v, step);
    } else if step.Take? || step.TakeLease? {
      LocatedReserve(v, step);
    } else if step.Release? {
      LocatedRelease(v, step);
    } else if step.Settle? {
      LocatedSettle(v, step);
    } else if RowStep(step) {
      LocatedRowStep(v, step);
    } else if step.Number? || step.Record? {
      LocatedAuditStep(v, step);
    } else {
      LocatedSweep(v, step);
    }
  }

  // -------------------------------------------------- agreement is preserved

  function VerdictOf(v: View, step: Step): Verdict
    requires ViewEnabled(v, step) && step.Settle?
  {
    Judge(v.claims[step.claim].pc.job, v.claims[step.claim].pc.status, step.draw)
  }

  lemma AgreedHandStep(v: View, step: Step)
    requires Agreed(v) && ViewEnabled(v, step) && ViewOnTime(v, step) && OfHand(step)
    ensures StoresAgree(ViewDo(v, step)) && ClaimsAgree(ViewDo(v, step))
  {
    var v' := ViewDo(v, step);
    assert step.hand in v.hands ==> Holding(v, step.hand);
    assert v'.hands[step.hand].Empty? || Holding(v', step.hand);
    OtherHands(v, step);
    OtherClaims(v, step);
  }

  lemma AgreedSweep(v: View, step: Step)
    requires Agreed(v) && ViewEnabled(v, step) && ViewOnTime(v, step) && !OfHand(step) && !OfWorker(step)
    ensures StoresAgree(ViewDo(v, step)) && ClaimsAgree(ViewDo(v, step))
  {
    OtherHands(v, step);
    OtherClaims(v, step);
  }

  lemma AgreedReserve(v: View, step: Step)
    requires Agreed(v) && ViewEnabled(v, step) && ViewOnTime(v, step) && (step.Take? || step.TakeLease?)
    ensures StoresAgree(ViewDo(v, step)) && ClaimsAgree(ViewDo(v, step))
  {
  }

  lemma AgreedFinal(v: View, step: Step)
    requires Located(v) && StoresAgree(v) && ClaimsAgree(v)
    requires ViewEnabled(v, step) && step.Settle? && !VerdictOf(v, step).TryAgain? && Active(v, step.claim)
    ensures StoresAgree(ViewDo(v, step)) && ClaimsAgree(ViewDo(v, step))
  {
    OtherHands(v, step);
    OtherClaims(v, step);
  }

  lemma AgreedRetry(v: View, step: Step)
    requires Located(v) && StoresAgree(v) && ClaimsAgree(v)
    requires ViewEnabled(v, step) && step.Settle? && VerdictOf(v, step).TryAgain? && Active(v, step.claim)
    ensures StoresAgree(ViewDo(v, step)) && ClaimsAgree(ViewDo(v, step))
  {
    OtherHands(v, step);
    OtherClaims(v, step);
  }

  lemma AgreedWrite(v: View, step: Step)
    requires Located(v) && StoresAgree(v) && ClaimsAgree(v)
    requires ViewEnabled(v, step) && (step.Defer? || step.Dispatch?) && Active(v, step.claim)
    ensures StoresAgree(ViewDo(v, step)) && ClaimsAgree(ViewDo(v, step))
  {
    OtherHands(v, step);
    OtherClaims(v, step);
  }

  lemma AgreedRead(v: View, step: Step)
    requires Agreed(v) && ViewEnabled(v, step) && ViewOnTime(v, step) && (step.Load? || step.Call?)
    ensures StoresAgree(ViewDo(v, step)) && ClaimsAgree(ViewDo(v, step))
  {
  }

  lemma AgreedRowStep(v: View, step: Step)
    requires Agreed(v) && ViewEnabled(v, step) && ViewOnTime(v, step) && RowStep(step)
    ensures StoresAgree(ViewDo(v, step)) && ClaimsAgree(ViewDo(v, step))
  {
    assert Active(v, step.claim);
    if step.Load? || step.Call? {
      AgreedRead(v, step);
    } else if !step.Settle? {
      AgreedWrite(v, step);
    } else if VerdictOf(v, step).TryAgain? {
      AgreedRetry(v, step);
    } else {
      AgreedFinal(v, step);
    }
  }

  lemma AgreedAuditStep(v: View, step: Step)
    requires Agreed(v) && ViewEnabled(v, step) && ViewOnTime(v, step) && (step.Number? || step.Record?)
    ensures StoresAgree(ViewDo(v, step)) && ClaimsAgree(ViewDo(v, step))
  {
    assert Active(v, step.claim);
    OtherHands(v, step);
    OtherClaims(v, step);
    NextAfterSequential(v.numbers);
  }

  lemma AgreedRelease(v: View, step: Step)
    requires Agreed(v) && ViewEnabled(v, step) && ViewOnTime(v, step) && step.Release?
    ensures StoresAgree(ViewDo(v, step)) && ClaimsAgree(ViewDo(v, step))
  {
    assert Active(v, step.claim);
    OtherHands(v, step);
    OtherClaims(v, step);
  }

  lemma AgreedStep(v: View, step: Step)
    requires Agreed(v) && ViewEnabled(v, step) && ViewOnTime(v, step)
    ensures Agreed(ViewDo(v, step))
  {
    LocatedStep(v, step);
    NumberingStep(v, step);
    if OfHand(step) {
      AgreedHandStep(v, step);
    } else if step.Take? || step.TakeLease? {
      AgreedReserve(v, step);
    } else if step.Release? {
      AgreedRelease(v, step);
    } else if RowStep(step) {
      AgreedRowStep(v, step);
    } else if step.Number? || step.Record? {
      AgreedAuditStep(v, step);
    } else {
      AgreedSweep(v, step);
    }
  }
}
