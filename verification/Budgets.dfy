/**
 * Counting in timely runs: attempts against HTTP calls, retry delays against
 * the budget, dead rows against the dead-letter queue, calls against due times.
 */
module Budgets {
  import opened Jobs
  import opened Deliveries
  import opened Backoff
  import opened Actors
  import opened JobView
  import opened FreeRuns
  import opened TimelyRuns

  /** Claims of the current life that made their HTTP call. */
  function Called(v: View): set<nat>
  {
    set c | c in v.claims && v.claims[c].called && v.claims[c].life == v.past.life
  }

  /** Those among them whose outcome reached the row. */
  function Counted(v: View): set<nat>
  {
    set c | c in v.claims && v.claims[c].counted && v.claims[c].life == v.past.life
  }

  /** A claim makes its one call between Numbered and Calling and counts it once, after Audited. */
  ghost predicate FlagsFit(v: View)
  {
    forall c <- v.claims ::
      var claim := v.claims[c];
      && (claim.counted ==> claim.called)
      && (claim.called ==> claim.life <= v.past.life)
      && (claim.pc.Calling? || claim.pc.Audited? ==> claim.called && !claim.counted)
      && (claim.pc.Acking? || claim.pc.Burying? || claim.pc.Requeueing? ==>
            claim.called && (v.row.Some? ==> claim.counted))
      && (claim.called ==> claim.pc.Calling? || claim.pc.Audited? || claim.pc.Acking? || claim.pc.Burying? ||
                           claim.pc.Requeueing? || claim.pc.Over?)
  }

  ghost predicate CurrentLife(v: View)
  {
    forall c :: Active(v, c) && (v.claims[c].pc.Calling? || v.claims[c].pc.Audited? || v.claims[c].pc.Burying?) ==>
      v.claims[c].life == v.past.life
  }

  ghost predicate WithinBudget(v: View)
  {
    v.row.Some? ==>
      var row := v.row.value;
      && row.attempts == |Counted(v)|
      && row.attempts <= row.maxAttempts
      && (!Terminal(row) ==> row.attempts < row.maxAttempts && |v.past.delays| == row.attempts)
      && |v.past.delays| < row.maxAttempts
      && WithinCaps(v.past.delays)
  }

  ghost predicate Budgeted(v: View)
  {
    Agreed(v) && FlagsFit(v) && CurrentLife(v) && WithinBudget(v)
  }

  lemma FlagsFitSettle(v: View, step: Step)
    requires FlagsFit(v) && ViewEnabled(v, step) && step.Settle?
    ensures FlagsFit(ViewDo(v, step))
  {
  }

  lemma FlagsFitRowStep(v: View, step: Step)
    requires FlagsFit(v) && ViewEnabled(v, step) && RowStep(step) && !step.Settle?
    ensures FlagsFit(ViewDo(v, step))
  {
  }

  lemma FlagsFitStep(v: View, step: Step)
    requires FlagsFit(v) && ViewEnabled(v, step) && !RowStep(step)
    requires NothingBeforeInsert(v)
    ensures FlagsFit(ViewDo(v, step))
  {
  }

  lemma CurrentLifeSettle(v: View, step: Step)
    requires CurrentLife(v) && ViewEnabled(v, step) && step.Settle? && Active(v, step.claim)
    ensures CurrentLife(ViewDo(v, step))
  {
  }

  lemma CurrentLifeWorker(v: View, step: Step)
    requires CurrentLife(v) && ViewEnabled(v, step) && OfWorker(step) && !step.Settle?
    requires UnderLease(step) ==> Active(v, step.claim)
    ensures CurrentLife(ViewDo(v, step))
  {
  }

  lemma CurrentLifeOther(v: View, step: Step)
    requires CurrentLife(v) && Located(v) && ViewEnabled(v, step) && !OfWorker(step)
    ensures CurrentLife(ViewDo(v, step))
  {
    OtherClaims(v, step);
    assert OfHand(step) && step.hand in v.hands ==> Holding(v, step.hand);
  }

  lemma BudgetOther(v: View, step: Step)
    requires WithinBudget(v) && FlagsFit(v) && NothingBeforeInsert(v) && ViewEnabled(v, step) && !OfWorker(step)
    ensures WithinBudget(ViewDo(v, step))
  {
  }

  lemma BudgetUncounted(v: View, step: Step)
    requires WithinBudget(v) && FlagsFit(v) && ViewEnabled(v, step) && OfWorker(step) && !step.Settle?
    requires UnderLease(step) ==> ClaimAgrees(v, v.claims[step.claim])
    ensures WithinBudget(ViewDo(v, step))
  {
    assert Counted(ViewDo(v, step)) == Counted(v);
  }

  lemma BudgetFinal(v: View, step: Step)
    requires WithinBudget(v) && FlagsFit(v) && ViewEnabled(v, step) && step.Settle?
    requires ClaimAgrees(v, v.claims[step.claim]) && v.claims[step.claim].life == v.past.life
    requires !VerdictOf(v, step).TryAgain?
    ensures WithinBudget(ViewDo(v, step))
  {
    var c, v' := step.claim, ViewDo(v, step);
    if v.row.Some? {
      assert Counted(v') == Counted(v) + {c};
    }
  }

  lemma BudgetRetry(v: View, step: Step)
    requires WithinBudget(v) && FlagsFit(v) && ViewEnabled(v, step) && step.Settle?
    requires ClaimAgrees(v, v.claims[step.claim]) && v.claims[step.claim].life == v.past.life
    requires VerdictOf(v, step).TryAgain?
    ensures WithinBudget(ViewDo(v, step))
  {
    var c, v' := step.claim, ViewDo(v, step);
    if v.row.Some? {
      assert Counted(v') == Counted(v) + {c};
    }
  }

  lemma BudgetedWorkerStep(v: View, step: Step)
    requires Budgeted(v) && ViewEnabled(v, step) && OfWorker(step)
    requires UnderLease(step) ==> Active(v, step.claim)
    ensures CurrentLife(ViewDo(v, step)) && WithinBudget(ViewDo(v, step))
  {
    if !step.Settle? {
      CurrentLifeWorker(v, step);
      BudgetUncounted(v, step);
    } else {
      CurrentLifeSettle(v, step);
      if VerdictOf(v, step).TryAgain? {
        BudgetRetry(v, step);
      } else {
        BudgetFinal(v, step);
      }
    }
  }

  lemma BudgetedStep(v: View, step: Step)
    requires Budgeted(v) && ViewEnabled(v, step) && ViewOnTime(v, step)
    ensures Budgeted(ViewDo(v, step))
  {
    AgreedStep(v, step);
    if step.Settle? {
      FlagsFitSettle(v, step);
    } else if RowStep(step) {
      FlagsFitRowStep(v, step);
    } else {
      FlagsFitStep(v, step);
    }
    if OfWorker(step) {
      assert UnderLease(step) ==> Active(v, step.claim);
      BudgetedWorkerStep(v, step);
    } else {
      CurrentLifeOther(v, step);
      BudgetOther(v, step);
    }
  }

  // ------------------------------------------------------- no call goes astray

  /** While the row is there, a claim that called and is over had its outcome counted. */
  ghost predicate NoneAstray(v: View)
  {
    v.row.Some? ==> forall c <- v.claims :: v.claims[c].called && v.claims[c].pc.Over? ==> v.claims[c].counted
  }

  lemma NoneAstraySettle(v: View, step: Step)
    requires NoneAstray(v) && WithinBudget(v) && ViewEnabled(v, step) && step.Settle?
    requires ClaimAgrees(v, v.claims[step.claim])
    ensures NoneAstray(ViewDo(v, step))
  {
  }

  lemma NoneAstrayRowStep(v: View, step: Step)
    requires NoneAstray(v) && FlagsFit(v) && ViewEnabled(v, step) && RowStep(step) && !step.Settle?
    ensures NoneAstray(ViewDo(v, step))
  {
  }

  lemma NoneAstrayStep(v: View, step: Step)
    requires NoneAstray(v) && FlagsFit(v) && Numbering(v) && ViewEnabled(v, step) && !RowStep(step)
    requires UnderLease(step) ==> ClaimAgrees(v, v.claims[step.claim])
    ensures NoneAstray(ViewDo(v, step))
  {
    NextAfterSequential(v.numbers);
  }

  lemma NoneAstrayTimely(v: View, step: Step)
    requires Budgeted(v) && NoneAstray(v) && ViewEnabled(v, step) && ViewOnTime(v, step)
    ensures NoneAstray(ViewDo(v, step))
  {
    assert UnderLease(step) ==> Active(v, step.claim);
    if step.Settle? {
      NoneAstraySettle(v, step);
    } else if RowStep(step) {
      NoneAstrayRowStep(v, step);
    } else {
      NoneAstrayStep(v, step);
    }
  }

  // ---------------------------------------------------- dead rows and the DLQ

  /** Marked the row dead in its current life and has not moved the id to the DLQ. */
  predicate BuryingNow(v: View, c: nat)
  {
    c in v.claims && v.claims[c].pc.Burying? && v.claims[c].life == v.past.life
  }

  ghost predicate ReplayPending(v: View)
  {
    exists h :: Holding(v, h) && v.hands[h].Popped?
  }

  ghost predicate Interred(v: View)
  {
    v.row.Some? ==>
      && (forall c :: BuryingNow(v, c) ==> v.row.value.state == Dead && v.dlq == 0 && !ReplayPending(v))
      && (forall b, c :: BuryingNow(v, b) && BuryingNow(v, c) ==> b == c)
      && (v.row.value.state == Dead ==> v.dlq > 0 || ReplayPending(v) || exists c :: BuryingNow(v, c))
  }

  lemma OthersBurying(v: View, step: Step)
    requires ViewEnabled(v, step)
    requires !step.Revive? && !step.Insert?
    ensures forall c :: (OfWorker(step) ==> c != step.claim) ==> (BuryingNow(ViewDo(v, step), c) <==> BuryingNow(v, c))
  {
  }

  lemma InterredNonWorker(v: View, step: Step)
    requires Budgeted(v) && Interred(v) && ViewEnabled(v, step) && ViewOnTime(v, step) && !OfWorker(step)
    ensures Interred(ViewDo(v, step))
  {
    var v' := ViewDo(v, step);
    OtherHands(v, step);
    if step.Revive? || step.Insert? {
      assert step.Revive? ==> Holding(v, step.hand);
    } else {
      OthersBurying(v, step);
      if step.PopDead? {
        assert Holding(v', step.hand);
      }
    }
  }

  lemma InterredWorker(v: View, step: Step)
    requires Interred(v) && CurrentLife(v) && ViewEnabled(v, step) && OfWorker(step) && !RowStep(step)
    requires UnderLease(step) ==> Active(v, step.claim)
    ensures Interred(ViewDo(v, step))
  {
    OtherHands(v, step);
    OthersBurying(v, step);
    if step.Release? && v.claims[step.claim].pc.Burying? {
      assert BuryingNow(v, step.claim);
    }
  }

  lemma InterredQuietRowStep(v: View, step: Step)
    requires Interred(v) && ViewEnabled(v, step) && RowStep(step) && !step.Settle?
    requires Active(v, step.claim) && ClaimAgrees(v, v.claims[step.claim])
    ensures Interred(ViewDo(v, step))
  {
    OtherHands(v, step);
    OthersBurying(v, step);
    assert !ViewDo(v, step).claims[step.claim].pc.Burying?;
  }

  lemma InterredSettle(v: View, step: Step)
    requires Interred(v) && OnePlace(v) && OneClaim(v) && CurrentLife(v) && ViewEnabled(v, step) && step.Settle?
    requires Active(v, step.claim) && ClaimAgrees(v, v.claims[step.claim])
    ensures Interred(ViewDo(v, step))
  {
    OtherHands(v, step);
    OthersBurying(v, step);
    assert BuryingNow(ViewDo(v, step), step.claim) || !ViewDo(v, step).claims[step.claim].pc.Burying?;
  }

  lemma InterredStep(v: View, step: Step)
    requires Budgeted(v) && Interred(v) && ViewEnabled(v, step) && ViewOnTime(v, step)
    ensures Interred(ViewDo(v, step))
  {
    assert UnderLease(step) ==> Active(v, step.claim);
    if step.Settle? {
      InterredSettle(v, step);
    } else if RowStep(step) {
      InterredQuietRowStep(v, step);
    } else if OfWorker(step) {
      InterredWorker(v, step);
    } else {
      InterredNonWorker(v, step);
    }
  }

  // ------------------------------------------------------------- due times

  /** Has not made its call yet. */
  predicate BeforeCall(pc: Pc)
  {
    pc.Reserved? || pc.Leased? || pc.Loaded? || pc.Sending? || pc.Numbered?
  }

  /** Unless the reaper brought it, an id in `ready` or with a worker is due. */
  ghost predicate Punctual(v: View)
  {
    v.row.Some? && v.past.arrival != ByReaper ==>
      && (v.ready > 0 ==> v.row.value.runAt <= v.now)
      && (forall c :: Active(v, c) && BeforeCall(v.claims[c].pc) ==> v.row.value.runAt <= v.now)
  }

  lemma PunctualNonWorker(v: View, step: Step)
    requires Agreed(v) && Punctual(v) && ViewEnabled(v, step) && ViewOnTime(v, step) && !OfWorker(step)
    ensures Punctual(ViewDo(v, step))
  {
  }

  lemma PunctualSettle(v: View, step: Step)
    requires OneClaim(v) && Total(v) <= 1 && Punctual(v) && ViewEnabled(v, step) && step.Settle?
    requires Active(v, step.claim)
    ensures Punctual(ViewDo(v, step))
  {
    OtherClaims(v, step);
  }

  lemma PunctualRowStep(v: View, step: Step)
    requires OneClaim(v) && Total(v) <= 1 && Punctual(v) && ViewEnabled(v, step) && RowStep(step) && !step.Settle?
    requires Active(v, step.claim)
    ensures Punctual(ViewDo(v, step))
  {
  }

  lemma PunctualWorker(v: View, step: Step)
    requires OneClaim(v) && Total(v) <= 1 && Punctual(v) && ViewEnabled(v, step) && OfWorker(step) && !RowStep(step)
    requires UnderLease(step) || step.TakeLease? ==> Active(v, step.claim)
    ensures Punctual(ViewDo(v, step))
  {
  }

  lemma PunctualStep(v: View, step: Step)
    requires Agreed(v) && Punctual(v) && ViewEnabled(v, step) && ViewOnTime(v, step)
    ensures Punctual(ViewDo(v, step))
  {
    if step.Settle? {
      PunctualSettle(v, step);
    } else if RowStep(step) {
      PunctualRowStep(v, step);
    } else if OfWorker(step) {
      PunctualWorker(v, step);
    } else {
      PunctualNonWorker(v, step);
    }
  }
}
