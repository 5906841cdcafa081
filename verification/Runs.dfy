/** Runs put together step by step, and what can be reached by them. */
module Runs {
  import opened Actors
  import opened Protocol
  import Queue

  /** A step if its actor has come to it; nothing if the actor stopped or went another way. */
  function Then(s: State, step: Step): State
  {
    if Enabled(s, step) then Do(s, step) else s
  }

  /** States linked by steps. */
  ghost predicate Path(states: seq<State>, steps: seq<Step>)
  {
    && |states| == |steps| + 1
    && forall k :: 0 <= k < |steps| ==> Enabled(states[k], steps[k]) && states[k + 1] == Do(states[k], steps[k])
  }

  ghost predicate PathBetween(s: State, states: seq<State>, steps: seq<Step>, t: State)
  {
    Path(states, steps) && states[0] == s && states[|steps|] == t
  }

  /** From s these steps, one after the other, lead to t. */
  ghost predicate Leads(s: State, steps: seq<Step>, t: State)
  {
    exists states :: PathBetween(s, states, steps, t)
  }

  ghost predicate Reaches(s: State, t: State)
  {
    exists steps :: Leads(s, steps, t)
  }

  lemma LeadsNowhere(s: State)
    ensures Leads(s, [], s)
  {
    assert PathBetween(s, [s], [], s);
  }

  lemma PathOneMore(s: State, states: seq<State>, steps: seq<Step>, t: State, step: Step)
    requires PathBetween(s, states, steps, t) && Enabled(t, step)
    ensures PathBetween(s, states + [Do(t, step)], steps + [step], Do(t, step))
  {
    var more, longer := states + [Do(t, step)], steps + [step];
    forall k | 0 <= k < |longer|
      ensures Enabled(more[k], longer[k]) && more[k + 1] == Do(more[k], longer[k])
    {
      if k < |steps| {
        assert more[k] == states[k] && more[k + 1] == states[k + 1] && longer[k] == steps[k];
      }
    }
  }

  lemma LeadsOneMore(s: State, steps: seq<Step>, t: State, step: Step)
    requires Leads(s, steps, t) && Enabled(t, step)
    ensures Leads(s, steps + [step], Do(t, step))
  {
    var states :| PathBetween(s, states, steps, t);
    PathOneMore(s, states, steps, t, step);
  }

  lemma AndThen(s: State, steps: seq<Step>, t: State, step: Step) returns (more: seq<Step>, u: State)
    requires Leads(s, steps, t) && Enabled(t, step)
    ensures Leads(s, more, u) && u == Do(t, step)
  {
    LeadsOneMore(s, steps, t, step);
    more, u := steps + [step], Do(t, step);
  }

  lemma PathOn(s: State, here: seq<State>, first: seq<Step>, t: State, there: seq<State>, second: seq<Step>, u: State)
    requires PathBetween(s, here, first, t) && PathBetween(t, there, second, u)
    ensures PathBetween(s, here + there[1..], first + second, u)
  {
    var states, steps := here + there[1..], first + second;
    forall k | 0 <= k < |steps|
      ensures Enabled(states[k], steps[k]) && states[k + 1] == Do(states[k], steps[k])
    {
      if k >= |first| {
        assert states[k] == there[k - |first|] && steps[k] == second[k - |first|];
      }
    }
  }

  lemma LeadsOn(s: State, first: seq<Step>, t: State, second: seq<Step>, u: State)
    requires Leads(s, first, t) && Leads(t, second, u)
    ensures Leads(s, first + second, u)
  {
    var here :| PathBetween(s, here, first, t);
    var there :| PathBetween(t, there, second, u);
    PathOn(s, here, first, t, there, second, u);
  }

  lemma ReachesOn(s: State, t: State, u: State)
    requires Reaches(s, t) && Reaches(t, u)
    ensures Reaches(s, u)
  {
    var first :| Leads(s, first, t);
    var second :| Leads(t, second, u);
    LeadsOn(s, first, t, second, u);
  }

  lemma {:induction false} ReachesAll(states: seq<State>)
    requires states != [] && forall i :: 0 < i < |states| ==> Reaches(states[i - 1], states[i])
    ensures Reaches(states[0], states[|states| - 1])
    decreases |states|
  {
    var n := |states| - 1;
    if n == 0 {
      LeadsNowhere(states[0]);
    } else {
      ReachesAll(states[..n]);
      ReachesOn(states[0], states[n - 1], states[n]);
    }
  }

  /** What a sweep changes, without the ids it moved. */
  lemma PromoteStep(s: State, nowMs: int, batch: nat) returns (t: State)
    ensures t == Do(s, Step.Promote(nowMs, batch)) && t.jobs == s.jobs && t.claims == s.claims && t.now == s.now
    ensures t.q == Queue.PromoteDue(s.q, nowMs, batch)
  {
    t := Do(s, Step.Promote(nowMs, batch));
  }

  lemma ReapStep(s: State, nowMs: int, batch: nat) returns (t: State)
    ensures t == Do(s, Step.Reap(nowMs, batch)) && t.jobs == s.jobs && t.claims == s.claims && t.now == s.now
    ensures t.q == Queue.ReapExpired(s.q, nowMs, batch)
  {
    t := Do(s, Step.Reap(nowMs, batch));
  }

  /** Some run of the system comes to s. */
  ghost predicate Reachable(s: State)
  {
    exists states, steps :: FreeRun(states, steps) && states[|steps|] == s
  }

  /** Steps taken from a reachable state make a longer run. */
  lemma ReachableOn(s: State, t: State)
    requires Reachable(s) && Reaches(s, t)
    ensures Reachable(t)
  {
    var here, first :| FreeRun(here, first) && here[|first|] == s;
    var second :| Leads(s, second, t);
    var there :| PathBetween(s, there, second, t);
    assert PathBetween(here[0], here, first, s);
    PathOn(here[0], here, first, s, there, second, t);
    assert FreeRun(here + there[1..], first + second);
  }
}
