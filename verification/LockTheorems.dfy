/**
 * Leadership under stalls, crashes and expiries. Any number of processes share
 * one lock key; each acts whenever it likes on whatever it believes.
 */
module LockTheorems {
  import opened Prelude
  import opened Lock

  /**
   * The key, and for each token not yet released the time of its last
   * successful acquire or renew.
   */
  datatype State = State(now: int, entry: Option<Entry>, used: set<Token>, since: map<Token, int>)

  datatype Step =
    | Tick(time: int)
    | Acquire(token: Token)
    | Renew(token: Token)
    | Release(token: Token)

  function Init(now: int): State
  {
    State(now, None, {}, map[])
  }

  /** Tokens are drawn fresh; a holder may renew or release long after it lost the lock. */
  predicate Enabled(s: State, step: Step)
  {
    match step
    case Tick(time) => s.now <= time
    case Acquire(token) => token !in s.used
    case Renew(token) => token in s.since
    case Release(token) => token in s.since
  }

  function Do(s: State, ttl: int, step: Step): State
    requires Enabled(s, step)
  {
    match step
    case Tick(time) => s.(now := time)
    case Acquire(token) =>
      s.(entry := Acquired(s.entry, token, ttl, s.now),
         used := s.used + {token},
         since := if Holder(s.entry, s.now).None? then s.since[token := s.now] else s.since)
    case Renew(token) =>
      s.(entry := Renewed(s.entry, token, ttl, s.now),
         since := if Holder(s.entry, s.now) == Some(token) then s.since[token := s.now] else s.since)
    case Release(token) =>
      s.(entry := Released(s.entry, token, s.now), since := s.since - {token})
  }

  ghost predicate Run(states: seq<State>, steps: seq<Step>, ttl: int)
  {
    && |states| == |steps| + 1
    && states[0] == Init(states[0].now)
    && forall k :: 0 <= k < |steps| ==> Enabled(states[k], steps[k]) && states[k + 1] == Do(states[k], ttl, steps[k])
  }

  /** Within its time to live, counted from its last success: it may think itself leader. */
  predicate Leads(s: State, ttl: int, token: Token)
  {
    token in s.since && s.now <= s.since[token] + ttl
  }

  ghost predicate Consistent(s: State, ttl: int)
  {
    && (forall t <- s.since :: t in s.used && s.since[t] <= s.now)
    && (forall t :: Leads(s, ttl, t) ==> s.entry == Some(Entry(t, s.since[t] + ttl)))
    && (s.entry.Some? ==> s.entry.value.token in s.used)
  }

  lemma ConsistentStep(s: State, ttl: int, step: Step)
    requires Consistent(s, ttl) && Enabled(s, step)
    ensures Consistent(Do(s, ttl, step), ttl)
  {
  }

  lemma {:induction false} Reach(states: seq<State>, steps: seq<Step>, ttl: int, k: nat)
    requires Run(states, steps, ttl) && k < |states|
    ensures Consistent(states[k], ttl)
  {
    if k > 0 {
      Reach(states, steps, ttl, k - 1);
      ConsistentStep(states[k - 1], ttl, steps[k - 1]);
    }
  }

  /** Two tokens are never both within their time to live. */
  lemma LeadershipIsDisjoint(states: seq<State>, steps: seq<Step>, ttl: int, k: nat, a: Token, b: Token)
    requires Run(states, steps, ttl) && k < |states|
    requires Leads(states[k], ttl, a) && Leads(states[k], ttl, b)
    ensures a == b
    ensures Holder(states[k].entry, states[k].now) == Some(a)
  {
    Reach(states, steps, ttl, k);
  }

  /** A holder that renews in time never loses the lock, and extends it by the full ttl. */
  lemma TimelyRenewSucceeds(states: seq<State>, steps: seq<Step>, ttl: int, k: nat)
    requires Run(states, steps, ttl) && k < |steps| && steps[k].Renew? && ttl >= 0
    requires Leads(states[k], ttl, steps[k].token)
    ensures states[k + 1].since[steps[k].token] == states[k].now
    ensures Leads(states[k + 1], ttl, steps[k].token)
  {
    Reach(states, steps, ttl, k);
  }

  /**
   * A process that no longer holds the lock cannot touch it: its renew and its
   * release leave another's key as it was, and the other goes on leading.
   */
  lemma StaleHolderIsHarmless(states: seq<State>, steps: seq<Step>, ttl: int, k: nat, leader: Token)
    requires Run(states, steps, ttl) && k < |steps| && Leads(states[k], ttl, leader)
    requires (steps[k].Renew? || steps[k].Release? || steps[k].Acquire?) && steps[k].token != leader
    ensures states[k + 1].entry == states[k].entry
    ensures Leads(states[k + 1], ttl, leader)
  {
    Reach(states, steps, ttl, k);
  }

  /** A dead holder does not block the others: once its time is up the next acquire succeeds. */
  lemma FailoverAfterTtl(states: seq<State>, steps: seq<Step>, ttl: int, k: nat)
    requires Run(states, steps, ttl) && k < |steps| && steps[k].Acquire? && ttl >= 0
    ensures Leads(states[k + 1], ttl, steps[k].token)
       <==> states[k].entry.None? || states[k].now > states[k].entry.value.expiresAt
  {
    Reach(states, steps, ttl, k);
  }

  /** A holder that releases in time frees the lock for whoever asks next, at any later moment. */
  lemma ReleaseFreesTheLock(states: seq<State>, steps: seq<Step>, ttl: int, k: nat, time: int, token: Token)
    requires Run(states, steps, ttl) && k < |steps| && steps[k].Release? && Leads(states[k], ttl, steps[k].token)
    requires states[k].now <= time && token !in states[k].used && ttl >= 0
    ensures states[k + 1].entry == None
    ensures Leads(Do(Do(states[k + 1], ttl, Tick(time)), ttl, Acquire(token)), ttl, token)
  {
    Reach(states, steps, ttl, k);
  }

  // ------------------------------------------------- the store, call after call

  /** The store after one command on the lock's key. */
  function AfterCommand(keys: map<string, Entry>, key: string, ttl: int, now: int, step: Step): map<string, Entry>
  {
    var e := Lookup(keys, key);
    match step
    case Tick(_) => keys
    case Acquire(token) => Put(keys, key, Acquired(e, token, ttl, now))
    case Renew(token) => Put(keys, key, Renewed(e, token, ttl, now))
    case Release(token) => Put(keys, key, Released(e, token, now))
  }

  /** The stores along a run. */
  ghost predicate Commands(stores: seq<map<string, Entry>>, key: string, ttl: int, states: seq<State>, steps: seq<Step>)
  {
    && |stores| == |states| == |steps| + 1
    && forall k :: 0 <= k < |steps| ==> stores[k + 1] == AfterCommand(stores[k], key, ttl, states[k].now, steps[k])
  }

  /** The key's entry is the run's, and no command touches another key. */
  lemma {:induction false} StoreFollows(stores: seq<map<string, Entry>>, key: string, ttl: int, states: seq<State>,
                                        steps: seq<Step>, k: nat, other: string)
    requires Run(states, steps, ttl) && Commands(stores, key, ttl, states, steps) && key !in stores[0] && k < |states|
    ensures Lookup(stores[k], key) == states[k].entry
    ensures other != key ==> Lookup(stores[k], other) == Lookup(stores[0], other)
  {
    if k > 0 {
      StoreFollows(stores, key, ttl, states, steps, k - 1, other);
      var e, now, step := states[k - 1].entry, states[k - 1].now, steps[k - 1];
      if !step.Tick? {
        var e' := match step
                  case Acquire(token) => Acquired(e, token, ttl, now)
                  case Renew(token) => Renewed(e, token, ttl, now)
                  case Release(token) => Released(e, token, now);
        PutIs(stores[k - 1], key, e', key);
        PutIs(stores[k - 1], key, e', other);
      }
    }
  }
}
