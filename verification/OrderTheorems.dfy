/** First in, first out: `ready` and the dead-letter queue over every run. */
module OrderTheorems {
  import opened Prelude
  import opened Redis
  import opened Actors
  import opened Protocol

  /** The ids a step adds to `ready`, first to be taken first: a sweep's in order of their times. */
  function Arriving(s: State, step: Step): seq<Id>
    requires Enabled(s, step)
  {
    match step
    case Place(h, clock) => if s.hands[h].hand.runAt <= clock then [s.hands[h].id] else []
    case PushBack(h) => [s.hands[h].id]
    case Promote(clock, batch) => Range(s.q.delayed, clock, batch)
    case Reap(clock, batch) => Range(s.q.leases, clock, batch)
    case _ => []
  }

  /** The id whose claim a step opens. */
  function Taking(s: State, step: Step): seq<Id>
    requires Enabled(s, step)
  {
    if step.Take? then [Do(s, step).claims[step.claim].id] else []
  }

  /** The id a step moves to the dead-letter queue. */
  function Burying(s: State, step: Step): seq<Id>
    requires Enabled(s, step)
  {
    if step.Release? && s.claims[step.claim].claim.pc.Burying? then [s.claims[step.claim].id] else []
  }

  /** The id a replay takes up. */
  function Popping(s: State, step: Step): seq<Id>
    requires Enabled(s, step)
  {
    if step.PopDead? then [Do(s, step).hands[step.hand].id] else []
  }

  /** What each step of a run lists. */
  function Lists(states: seq<State>, steps: seq<Step>, listing: (State, Step) --> seq<Id>): seq<seq<Id>>
    requires |steps| < |states| && forall i :: 0 <= i < |steps| ==> listing.requires(states[i], steps[i])
  {
    seq(|steps|, i requires 0 <= i < |steps| => listing(states[i], steps[i]))
  }

  /** The first k lists, one after the other. */
  function Joined(lists: seq<seq<Id>>, k: nat): seq<Id>
    requires k <= |lists|
  {
    if k == 0 then [] else Joined(lists, k - 1) + lists[k - 1]
  }

  /** Each step takes some ids from a queue and adds some: what was taken and what waits is what came. */
  lemma {:induction false} FirstInFirstOut(ins: seq<seq<Id>>, outs: seq<seq<Id>>, waiting: seq<seq<Id>>, k: nat)
    requires k <= |ins| == |outs| < |waiting| && waiting[0] == []
    requires forall i :: 0 <= i < |ins| ==> waiting[i] + ins[i] == outs[i] + waiting[i + 1]
    ensures Joined(ins, k) == Joined(outs, k) + waiting[k]
  {
    if k > 0 {
      FirstInFirstOut(ins, outs, waiting, k - 1);
      var before := Joined(outs, k - 1);
      assert waiting[k - 1] + ins[k - 1] == outs[k - 1] + waiting[k];
      assert Joined(ins, k) == before + (waiting[k - 1] + ins[k - 1]);
      assert Joined(outs, k) + waiting[k] == before + (outs[k - 1] + waiting[k]);
    }
  }

  lemma ReversePushed(ids: seq<Id>, s: seq<Id>)
    ensures Reverse(Reverse(ids) + s) == Reverse(s) + ids
  {
    ReverseConcat(Reverse(ids), s);
    ReverseTwice(ids);
  }

  lemma ReversePopped(s: seq<Id>)
    requires s != []
    ensures Reverse(s) == [s[|s| - 1]] + Reverse(s[..|s| - 1])
  {
    var rest, last := s[..|s| - 1], [s[|s| - 1]];
    assert s == rest + last;
    ReverseConcat(rest, last);
    assert Reverse(last) == last;
  }

  /** Steps that change a row and the claim leave every list alone. */
  lemma RowStepKeeps(s: State, step: Step)
    requires Enabled(s, step) && RowStep(step)
    ensures Do(s, step).q == s.q && Arriving(s, step) == [] && Burying(s, step) == []
  {
  }

  lemma ReadyGrows(s: State, step: Step)
    requires Enabled(s, step) && !step.Take?
    ensures Do(s, step).q.ready == Reverse(Arriving(s, step)) + s.q.ready
  {
    if RowStep(step) {
      RowStepKeeps(s, step);
    } else {
      var ids := Arriving(s, step);
      assert |ids| == 1 ==> Reverse(ids) == [ids[0]];
    }
  }

  lemma ReadyStep(s: State, step: Step)
    requires Enabled(s, step)
    ensures Reverse(s.q.ready) + Arriving(s, step) == Taking(s, step) + Reverse(Do(s, step).q.ready)
  {
    ReversePushed(Arriving(s, step), s.q.ready);
    if step.Take? {
      ReversePopped(s.q.ready);
    } else {
      ReadyGrows(s, step);
    }
  }

  lemma DlqGrows(s: State, step: Step)
    requires Enabled(s, step) && !step.PopDead?
    ensures Do(s, step).q.dlq == Burying(s, step) + s.q.dlq
  {
    if RowStep(step) {
      RowStepKeeps(s, step);
    }
  }

  lemma DlqStep(s: State, step: Step)
    requires Enabled(s, step)
    ensures Reverse(s.q.dlq) + Burying(s, step) == Popping(s, step) + Reverse(Do(s, step).q.dlq)
  {
    var ids := Burying(s, step);
    if step.PopDead? {
      ReversePopped(s.q.dlq);
    } else {
      DlqGrows(s, step);
      assert Reverse(ids) == ids;
      ReversePushed(ids, s.q.dlq);
    }
  }

  /** `ready` is served in the order of arrival: what was taken, then what still waits, is what arrived. */
  lemma ReadyIsFifo(states: seq<State>, steps: seq<Step>, k: nat)
    requires FreeRun(states, steps) && k < |states|
    ensures Joined(Lists(states, steps, Arriving), k)
         == Joined(Lists(states, steps, Taking), k) + Reverse(states[k].q.ready)
  {
    var waiting := seq(|states|, i requires 0 <= i < |states| => Reverse(states[i].q.ready));
    var ins, outs := Lists(states, steps, Arriving), Lists(states, steps, Taking);
    forall i | 0 <= i < |steps|
      ensures waiting[i] + ins[i] == outs[i] + waiting[i + 1]
    {
      ReadyStep(states[i], steps[i]);
    }
    FirstInFirstOut(ins, outs, waiting, k);
  }

  /** So is the dead-letter queue: replays take up the oldest dead letter first. */
  lemma DlqIsFifo(states: seq<State>, steps: seq<Step>, k: nat)
    requires FreeRun(states, steps) && k < |states|
    ensures Joined(Lists(states, steps, Burying), k)
         == Joined(Lists(states, steps, Popping), k) + Reverse(states[k].q.dlq)
  {
    var waiting := seq(|states|, i requires 0 <= i < |states| => Reverse(states[i].q.dlq));
    var ins, outs := Lists(states, steps, Burying), Lists(states, steps, Popping);
    forall i | 0 <= i < |steps|
      ensures waiting[i] + ins[i] == outs[i] + waiting[i + 1]
    {
      DlqStep(states[i], steps[i]);
    }
    FirstInFirstOut(ins, outs, waiting, k);
  }
}
