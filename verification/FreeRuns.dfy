/**
 * What holds of every job under no timing assumption at all: workers may stall
 * past their leases and act later on ids that others have claimed since.
 */
module FreeRuns {
  import opened Jobs
  import opened Deliveries
  import opened Actors
  import opened JobView

  /** Before its row is inserted an id is nowhere. */
  ghost predicate NothingBeforeInsert(v: View)
  {
    !v.past.issued ==>
      v.row.None? && v.ready == 0 && v.inflight == 0 && v.dlq == 0 && v.lease.None? && v.delayed.None? &&
      v.claims == map[] && v.hands == map[] && v.numbers == [] && v.past == UNBORN
  }

  /** The row has reached a terminal state at some time, or is gone for good. */
  ghost predicate Finished(v: View)
  {
    v.past.settled || v.row.None?
  }

  /** Whoever is about to drop or has dropped the id from circulation had reason to. */
  ghost predicate OnlyFinishedLeave(v: View)
  {
    && (v.row.Some? && Terminal(v.row.value) ==> v.past.settled)
    && (v.dlq > 0 ==> Finished(v))
    && (forall c <- v.claims :: v.claims[c].pc.Discarding? || v.claims[c].pc.Acking? || v.claims[c].pc.Burying?
                            ==> Finished(v))
    && (forall h <- v.hands :: v.hands[h].Popped? || v.hands[h].Revived? ==> Finished(v))
  }

  ghost predicate InReserveWindow(v: View)
  {
    exists c :: c in v.claims && v.claims[c].pc.Reserved?
  }

  /** Something will bring the id back: a worker, a promotion or the reaper. */
  ghost predicate Recoverable(v: View)
  {
    v.past.pushed && !Finished(v) ==>
      v.ready > 0 || v.delayed.Some? || v.lease.Some? || InReserveWindow(v)
  }

  ghost predicate NeverLost(v: View)
  {
    NothingBeforeInsert(v) && OnlyFinishedLeave(v) && Recoverable(v)
  }

  /** A claim on its way into the reserve window, or still in it, is there afterwards. */
  lemma StaysInWindow(v: View, step: Step)
    requires ViewEnabled(v, step) && InReserveWindow(v)
    requires !step.TakeLease?
    ensures InReserveWindow(ViewDo(v, step))
  {
    var c :| c in v.claims && v.claims[c].pc.Reserved?;
    var v' := ViewDo(v, step);
    assert c in v'.claims && v'.claims[c].pc.Reserved?;
  }

  lemma TakeEntersWindow(v: View, c: nat)
    requires ViewEnabled(v, Take(c))
    ensures InReserveWindow(ViewDo(v, Take(c)))
  {
    assert ViewDo(v, Take(c)).claims[c].pc.Reserved?;
  }

  /** Steps of workers; the others are the clock's, enqueuers', replayers' and schedulers'. */
  predicate OfWorker(step: Step)
  {
    step.Take? || step.TakeLease? || UnderLease(step)
  }

  lemma SettleDropsOnlyFinished(v: View, step: Step)
    requires NothingBeforeInsert(v) && OnlyFinishedLeave(v) && ViewEnabled(v, step) && step.Settle?
    ensures OnlyFinishedLeave(ViewDo(v, step)) && NothingBeforeInsert(ViewDo(v, step))
  {
  }

  lemma RowStepDropsOnlyFinished(v: View, step: Step)
    requires NothingBeforeInsert(v) && OnlyFinishedLeave(v) && ViewEnabled(v, step) && RowStep(step) && !step.Settle?
    ensures OnlyFinishedLeave(ViewDo(v, step)) && NothingBeforeInsert(ViewDo(v, step))
  {
  }

  lemma WorkerDropsOnlyFinished(v: View, step: Step)
    requires NeverLost(v) && ViewEnabled(v, step) && OfWorker(step) && !RowStep(step)
    ensures OnlyFinishedLeave(ViewDo(v, step)) && NothingBeforeInsert(ViewDo(v, step))
  {
  }

  lemma OthersDropOnlyFinished(v: View, step: Step)
    requires NeverLost(v) && ViewEnabled(v, step) && !OfWorker(step)
    ensures OnlyFinishedLeave(ViewDo(v, step)) && NothingBeforeInsert(ViewDo(v, step))
  {
  }

  lemma NeverLostStep(v: View, step: Step)
    requires NeverLost(v) && ViewEnabled(v, step)
    ensures NeverLost(ViewDo(v, step))
  {
    if step.Settle? {
      SettleDropsOnlyFinished(v, step);
    } else if RowStep(step) {
      RowStepDropsOnlyFinished(v, step);
    } else if OfWorker(step) {
      WorkerDropsOnlyFinished(v, step);
    } else {
      OthersDropOnlyFinished(v, step);
    }
    if step.Take? {
      TakeEntersWindow(v, step.claim);
    } else if InReserveWindow(v) && !step.TakeLease? {
      StaysInWindow(v, step);
    }
  }

  /** Recorded attempts are 1..n, and a number somebody has read is recorded or is n + 1. */
  ghost predicate Numbering(v: View)
  {
    && NothingBeforeInsert(v)
    && Sequential(v.numbers)
    && (v.row.None? ==> v.numbers == [])
    && forall c <- v.claims :: v.row.Some? && (v.claims[c].pc.Numbered? || v.claims[c].pc.Calling?) ==>
         1 <= v.claims[c].pc.number <= |v.numbers| + 1
  }

  lemma NumberingSettle(v: View, step: Step)
    requires Numbering(v) && ViewEnabled(v, step) && step.Settle?
    ensures Numbering(ViewDo(v, step))
  {
  }

  lemma NumberingRowStep(v: View, step: Step)
    requires Numbering(v) && ViewEnabled(v, step) && RowStep(step) && !step.Settle?
    ensures Numbering(ViewDo(v, step))
  {
  }

  lemma NumberingWorkerStep(v: View, step: Step)
    requires Numbering(v) && ViewEnabled(v, step) && OfWorker(step) && !RowStep(step)
    ensures Numbering(ViewDo(v, step))
  {
    NextAfterSequential(v.numbers);
  }

  lemma NumberingStep(v: View, step: Step)
    requires Numbering(v) && ViewEnabled(v, step)
    ensures Numbering(ViewDo(v, step))
  {
    if step.Settle? {
      NumberingSettle(v, step);
    } else if RowStep(step) {
      NumberingRowStep(v, step);
    } else if OfWorker(step) {
      NumberingWorkerStep(v, step);
    }
  }

  // ------------------------------------------------- a live job, replayed or not

  /** The claim's next step takes the id out of circulation. */
  predicate EndsClaim(pc: Pc)
  {
    pc.Discarding? || pc.Acking? || pc.Burying?
  }

  predicate LiveRow(v: View)
  {
    v.row.Some? && !Terminal(v.row.value)
  }

  ghost predicate Kept(v: View)
  {
    v.ready > 0 || v.delayed.Some? || v.lease.Some? || InReserveWindow(v)
  }

  ghost predicate NoneEnds(v: View)
  {
    forall c <- v.claims :: !EndsClaim(v.claims[c].pc)
  }

  lemma NoneEndsRowStep(v: View, step: Step)
    requires LiveRow(v) && NoneEnds(v) && ViewEnabled(v, step) && RowStep(step) && LiveRow(ViewDo(v, step))
    ensures NoneEnds(ViewDo(v, step))
  {
  }

  lemma NoneEndsStep(v: View, step: Step)
    requires LiveRow(v) && NoneEnds(v) && ViewEnabled(v, step) && !RowStep(step)
    ensures NoneEnds(ViewDo(v, step))
  {
  }

  lemma KeptStep(v: View, step: Step)
    requires LiveRow(v) && NoneEnds(v) && Kept(v) && ViewEnabled(v, step)
    ensures Kept(ViewDo(v, step))
  {
    if step.Take? {
      TakeEntersWindow(v, step.claim);
    } else if InReserveWindow(v) && !step.TakeLease? {
      StaysInWindow(v, step);
    }
  }

  /** As long as the row is live, no step of anyone loses a job that nobody is about to take out. */
  lemma LiveJobStays(v: View, step: Step)
    requires LiveRow(v) && NoneEnds(v) && Kept(v) && ViewEnabled(v, step) && LiveRow(ViewDo(v, step))
    ensures NoneEnds(ViewDo(v, step)) && Kept(ViewDo(v, step))
  {
    if RowStep(step) {
      NoneEndsRowStep(v, step);
    } else {
      NoneEndsStep(v, step);
    }
    KeptStep(v, step);
  }
}
