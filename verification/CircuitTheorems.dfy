/** The breaker as a function of what happened: successes, failures and the clock. */
module CircuitTheorems {
  import opened Prelude
  import opened Circuit

  datatype Event = Checks(now: int) | Succeeds(now: int) | Fails(now: int)

  /** Settings that do not change over the breaker's life. */
  datatype Settings = Settings(threshold: int, cooldown: int) {
    /** One failure trips the breaker even at a threshold below one. */
    function Needed(): int
    {
      Max(1, threshold)
    }
  }

  /** The stored entry after one more event. */
  function Next(c: Settings, before: Option<Entry>, e: Event): Option<Entry>
  {
    var fields := Fields(before, e.now);
    match e
    case Checks(now) =>
      if CooledDown(fields, now, c.cooldown)
      then Some(Entry(Checked(fields, now, c.cooldown).0, now + STATE_TTL_MS)) else before
    case Succeeds(now) => Some(Entry(Succeeded(fields), now + STATE_TTL_MS))
    case Fails(now) => Some(Entry(Failed(fields, c.threshold, now).0, now + STATE_TTL_MS))
  }

  /** The stored entry after these events. */
  function Stored(c: Settings, h: seq<Event>): Option<Entry>
  {
    if h == [] then None else Next(c, Stored(c, h[..|h| - 1]), h[|h| - 1])
  }

  /** What a check at time t answers. */
  function Answer(c: Settings, h: seq<Event>, t: int): CircuitState
  {
    Checked(Fields(Stored(c, h), t), t, c.cooldown).1
  }

  predicate InTimeOrder(h: seq<Event>)
  {
    forall i, j :: 0 <= i < j < |h| ==> h[i].now <= h[j].now
  }

  predicate NotBefore(h: seq<Event>, t: int)
  {
    forall i :: 0 <= i < |h| ==> h[i].now <= t
  }

  // ------------------------------------------------------- the history function
  //
  // Everything here is read off the events and their times alone.

  /** Failures after the last success. */
  function FailuresInARow(h: seq<Event>): nat
  {
    if h == [] then 0
    else match h[|h| - 1]
      case Succeeds(_) => 0
      case Fails(_) => FailuresInARow(h[..|h| - 1]) + 1
      case Checks(_) => FailuresInARow(h[..|h| - 1])
  }

  /** When the last failure happened. */
  function LastFailure(h: seq<Event>): Option<int>
  {
    if h == [] then None
    else match h[|h| - 1]
      case Fails(now) => Some(now)
      case _ => LastFailure(h[..|h| - 1])
  }

  /** What the breaker should answer, read off the history alone. */
  function Verdict(c: Settings, h: seq<Event>, t: int): CircuitState
  {
    if FailuresInARow(h) < c.Needed() then Closed
    else match LastFailure(h)
      case None => Closed
      case Some(at) => if t - at >= c.cooldown then HalfOpen else Open
  }

  /** A check since the last success or failure found the cooldown over, so a probe is out. */
  predicate Probed(c: Settings, h: seq<Event>)
  {
    h != [] && h[|h| - 1].Checks? &&
    (Probed(c, h[..|h| - 1]) || Verdict(c, h[..|h| - 1], h[|h| - 1].now).HalfOpen?)
  }

  /** Successes and failures keep the key alive, and so does the check that lets the first probe out. */
  predicate KeepsAlive(c: Settings, h: seq<Event>, e: Event)
    decreases |h|, 2
  {
    !e.Checks? ||
    (!Lapsed(c, h, e.now) && Verdict(c, Recent(c, h), e.now).HalfOpen? && !Probed(c, Recent(c, h)))
  }

  /** When the key was last kept alive. */
  function LastWrite(c: Settings, h: seq<Event>): Option<int>
    decreases |h|, 0
  {
    if h == [] then None
    else if KeepsAlive(c, h[..|h| - 1], h[|h| - 1]) then Some(h[|h| - 1].now)
    else LastWrite(c, h[..|h| - 1])
  }

  /** More than an hour has passed since the key was last kept alive. */
  predicate Lapsed(c: Settings, h: seq<Event>, t: int)
    decreases |h|, 1
  {
    LastWrite(c, h).Some? && t > LastWrite(c, h).value + STATE_TTL_MS
  }

  /** The events that matter: those since the key last lapsed. An event that finds it lapsed starts over. */
  function Recent(c: Settings, h: seq<Event>): (r: seq<Event>)
    ensures |r| <= |h|
    decreases |h|, 0
  {
    if h == [] then []
    else
      var h', e := h[..|h| - 1], h[|h| - 1];
      (if Lapsed(c, h', e.now) then [] else Recent(c, h')) + [e]
  }

  // ---------------------------------------------------------------- refinement

  /** What is stored, in terms of the history since the last lapse. */
  ghost predicate Reflects(c: Settings, fields: Hash, h: seq<Event>, t: int)
  {
    var n := FailuresInARow(h);
    && (n >= c.Needed() <==> fields.state == Some(Open) || fields.state == Some(HalfOpen))
    && (fields.state == Some(HalfOpen) <==> n >= c.Needed() && Probed(c, h))
    && (n < c.Needed() ==> fields.failures == n)
    && (n >= c.Needed() ==>
          fields.failures >= c.threshold && LastFailure(h).Some? && fields.openedAt == LastFailure(h))
    && (fields.state == Some(HalfOpen) ==> t - OpenedAt(fields) >= c.cooldown)
    && (LastFailure(h).Some? ==> LastFailure(h).value <= t)
  }

  /** One more event, on a key that has not lapsed. */
  lemma ReflectsStep(c: Settings, fields: Hash, h: seq<Event>, t: int, e: Event)
    requires Reflects(c, fields, h, t) && t <= e.now
    ensures Reflects(c, match e
                        case Checks(now) => Checked(fields, now, c.cooldown).0
                        case Succeeds(now) => Succeeded(fields)
                        case Fails(now) => Failed(fields, c.threshold, now).0,
                     h + [e], e.now)
  {
    assert (h + [e])[..|h|] == h;
  }

  /** The stored key is there until, and only until, the history says it lapsed. */
  ghost predicate ExpiresOnTime(c: Settings, h: seq<Event>)
  {
    && (Stored(c, h).Some? <==> LastWrite(c, h).Some?)
    && (Stored(c, h).Some? ==> Stored(c, h).value.expiresAt == LastWrite(c, h).value + STATE_TTL_MS)
  }

  /** A check writes exactly when the history says it lets a probe out. */
  lemma CheckWritesIff(c: Settings, fields: Hash, h: seq<Event>, now: int)
    requires Reflects(c, fields, h, now)
    ensures CooledDown(fields, now, c.cooldown) <==> Verdict(c, h, now).HalfOpen? && !Probed(c, h)
  {
  }

  /** What the history says about the key is so. */
  ghost predicate Mirrors(c: Settings, h: seq<Event>, t: int)
  {
    && ExpiresOnTime(c, h)
    && (!Lapsed(c, h, t) ==> Reflects(c, Fields(Stored(c, h), t), Recent(c, h), t))
    && (Lapsed(c, h, t) ==> Fields(Stored(c, h), t) == NO_FIELDS)
  }

  lemma MirrorsAfterLapse(c: Settings, h: seq<Event>, e: Event, t: int)
    requires Mirrors(c, h, e.now) && Lapsed(c, h, e.now) && e.now <= t
    ensures Mirrors(c, h + [e], t)
  {
    assert (h + [e])[..|h|] == h;
    ReflectsStep(c, NO_FIELDS, [], e.now, e);
    assert [] + [e] == [e];
  }

  lemma MirrorsOneMore(c: Settings, h: seq<Event>, e: Event, t: int)
    requires Mirrors(c, h, e.now) && !Lapsed(c, h, e.now) && e.now <= t
    ensures Mirrors(c, h + [e], t)
  {
    assert (h + [e])[..|h|] == h;
    ReflectsStep(c, Fields(Stored(c, h), e.now), Recent(c, h), e.now, e);
    CheckWritesIff(c, Fields(Stored(c, h), e.now), Recent(c, h), e.now);
  }

  /** At every moment the fields a script finds reflect the events since the key last lapsed, if it has not. */
  lemma {:induction false} StoredReflectsHistory(c: Settings, h: seq<Event>, t: int)
    requires InTimeOrder(h) && NotBefore(h, t)
    ensures Mirrors(c, h, t)
    decreases |h|
  {
    if h != [] {
      var h', e := h[..|h| - 1], h[|h| - 1];
      StoredReflectsHistory(c, h', e.now);
      assert h == h' + [e];
      if Lapsed(c, h', e.now) {
        MirrorsAfterLapse(c, h', e, t);
      } else {
        MirrorsOneMore(c, h', e, t);
      }
    }
  }

  /** The stored key is gone exactly when the history says it lapsed. */
  lemma LapsesIff(c: Settings, h: seq<Event>, t: int)
    requires InTimeOrder(h) && NotBefore(h, t)
    ensures Stored(c, h).Some? && t > Stored(c, h).value.expiresAt <==> Lapsed(c, h, t)
  {
    StoredReflectsHistory(c, h, t);
  }

  /**
   * The breaker refines the history function: a check answers exactly what the
   * failures since the last success and the time of the last one say, over the
   * events since the key last lapsed.
   */
  lemma BreakerRefinesHistory(c: Settings, h: seq<Event>, t: int)
    requires InTimeOrder(h) && NotBefore(h, t)
    ensures Answer(c, h, t) == if Lapsed(c, h, t) then Closed else Verdict(c, Recent(c, h), t)
  {
    StoredReflectsHistory(c, h, t);
  }

  /** The key never expired between two events. */
  ghost predicate NeverLapses(c: Settings, h: seq<Event>)
  {
    forall k :: 0 <= k < |h| ==> !Lapsed(c, h[..k], h[k].now)
  }

  lemma {:induction false} RecentIsAll(c: Settings, h: seq<Event>)
    requires NeverLapses(c, h)
    ensures Recent(c, h) == h
    decreases |h|
  {
    if h != [] {
      var h' := h[..|h| - 1];
      forall k | 0 <= k < |h'|
        ensures !Lapsed(c, h'[..k], h'[k].now)
      {
        assert h'[..k] == h[..k];
      }
      RecentIsAll(c, h');
      assert !Lapsed(c, h[..|h| - 1], h[|h| - 1].now);
    }
  }

  lemma {:induction false} FailureHasTime(h: seq<Event>)
    requires FailuresInARow(h) > 0
    ensures LastFailure(h).Some?
    decreases |h|
  {
    if !h[|h| - 1].Fails? {
      FailureHasTime(h[..|h| - 1]);
    }
  }

  /**
   * Without a lapse: `open` exactly while the threshold has been reached since
   * the last success and the last failure is younger than the cooldown.
   */
  lemma OpenIff(c: Settings, h: seq<Event>, t: int)
    requires InTimeOrder(h) && NotBefore(h, t)
    requires NeverLapses(c, h) && !Lapsed(c, h, t)
    ensures Answer(c, h, t) == Closed <==> FailuresInARow(h) < c.Needed()
    ensures Answer(c, h, t) == Open <==>
              FailuresInARow(h) >= c.Needed() && LastFailure(h).Some? && t < LastFailure(h).value + c.cooldown
  {
    RecentIsAll(c, h);
    BreakerRefinesHistory(c, h, t);
    if FailuresInARow(h) > 0 {
      FailureHasTime(h);
    }
  }

  /** While tripped, the stored `openedAt` is the time of the last failure. */
  lemma OpenedAtIsLastFailure(c: Settings, h: seq<Event>, t: int)
    requires InTimeOrder(h) && NotBefore(h, t) && !Lapsed(c, h, t)
    requires FailuresInARow(Recent(c, h)) >= c.Needed()
    ensures Fields(Stored(c, h), t).openedAt == LastFailure(Recent(c, h))
    ensures Fields(Stored(c, h), t).openedAt.Some?
  {
    StoredReflectsHistory(c, h, t);
  }

  // ------------------------------------------------- the store, call after call

  /** A script run for one key. */
  datatype Call = Call(key: string, event: Event)

  function AfterCall(c: Settings, keys: map<string, Entry>, call: Call): map<string, Entry>
  {
    match call.event
    case Checks(now) => AfterCheck(keys, call.key, now, c.cooldown)
    case Succeeds(now) => AfterSuccess(keys, call.key, now)
    case Fails(now) => AfterFailure(keys, call.key, c.threshold, now)
  }

  /** The store after calls on any keys. */
  function AfterCalls(c: Settings, keys: map<string, Entry>, calls: seq<Call>): map<string, Entry>
  {
    if calls == [] then keys
    else
      var n := |calls| - 1;
      AfterCall(c, AfterCalls(c, keys, calls[..n]), calls[n])
  }

  /** What happened to one key. */
  function On(calls: seq<Call>, key: string): seq<Event>
  {
    if calls == [] then []
    else
      var n := |calls| - 1;
      On(calls[..n], key) + (if calls[n].key == key then [calls[n].event] else [])
  }

  lemma CallIsNext(c: Settings, keys: map<string, Entry>, call: Call, key: string)
    ensures Lookup(AfterCall(c, keys, call), key)
         == if call.key == key then Next(c, Lookup(keys, key), call.event) else Lookup(keys, key)
  {
  }

  /** Each key's entry is what its own events made of it, whatever was called on the others. */
  lemma {:induction false} EachKeyItsOwn(c: Settings, calls: seq<Call>, key: string)
    ensures Lookup(AfterCalls(c, map[], calls), key) == Stored(c, On(calls, key))
    decreases |calls|
  {
    if calls != [] {
      var n := |calls| - 1;
      EachKeyItsOwn(c, calls[..n], key);
      CallIsNext(c, AfterCalls(c, map[], calls[..n]), calls[n], key);
      if calls[n].key == key {
        assert On(calls, key)[..|On(calls, key)| - 1] == On(calls[..n], key);
      } else {
        assert On(calls, key) == On(calls[..n], key);
      }
    }
  }

  /** So a check answers what the events on its key say. */
  lemma CheckTells(c: Settings, calls: seq<Call>, key: string, t: int)
    requires InTimeOrder(On(calls, key)) && NotBefore(On(calls, key), t)
    ensures var h := On(calls, key);
            Checked(Fields(Lookup(AfterCalls(c, map[], calls), key), t), t, c.cooldown).1
              == if Lapsed(c, h, t) then Closed else Verdict(c, Recent(c, h), t)
  {
    EachKeyItsOwn(c, calls, key);
    BreakerRefinesHistory(c, On(calls, key), t);
  }

  /**
   * And a failure is answered `open` exactly when it completes enough failures
   * in a row, counted from the last success or lapse.
   */
  lemma FailureTripsIff(c: Settings, calls: seq<Call>, key: string, now: int)
    requires InTimeOrder(On(calls, key)) && NotBefore(On(calls, key), now)
    ensures var h, fields := On(calls, key), Fields(Lookup(AfterCalls(c, map[], calls), key), now);
            && Failed(fields, c.threshold, now).1 in {Open, Closed}
            && (Failed(fields, c.threshold, now).1 == Open <==>
                  FailuresInARow(Recent(c, h + [Fails(now)])) >= c.Needed())
  {
    var h := On(calls, key);
    EachKeyItsOwn(c, calls, key);
    StoredReflectsHistory(c, h, now);
    assert (h + [Fails(now)])[..|h|] == h;
    var recent := if Lapsed(c, h, now) then [] else Recent(c, h);
    assert Recent(c, h + [Fails(now)]) == recent + [Fails(now)];
    assert (recent + [Fails(now)])[..|recent|] == recent;
  }
}
