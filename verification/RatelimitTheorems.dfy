/** What the token bucket promises over whole request sequences. */
module RatelimitTheorems {
  import opened Prelude
  import opened Ratelimit

  datatype Request = Request(now: int, cost: real)

  /** A bucket's settings; they do not change over its life. */
  datatype Limit = Limit(rate: real, burst: real)

  /** The bucket after a sequence of requests, if it never expires. */
  function After(l: Limit, h: seq<Request>): Option<Bucket>
    decreases |h|, 0
  {
    if h == [] then None
    else
      var r := h[|h| - 1];
      Some(Spend(Available(l, h[..|h| - 1], r.now), r.cost, r.now))
  }

  /** The refilled count a request at time t finds. */
  function Available(l: Limit, h: seq<Request>, t: int): real
    decreases |h|, 1
  {
    Refill(After(l, h), l.rate, l.burst, t)
  }

  predicate Admits(l: Limit, h: seq<Request>, r: Request)
  {
    Available(l, h, r.now) >= r.cost
  }

  /** Cost admitted from the request at index k on, that one included. */
  function AdmittedSince(l: Limit, h: seq<Request>, k: nat): real
  {
    if k >= |h| then 0.0
    else
      var r := h[|h| - 1];
      AdmittedSince(l, h[..|h| - 1], k) + (if Admits(l, h[..|h| - 1], r) then r.cost else 0.0)
  }

  predicate InTimeOrder(h: seq<Request>)
  {
    forall i, j :: 0 <= i < j < |h| ==> h[i].now <= h[j].now
  }

  /** t is no earlier than any request of h. */
  predicate NotBefore(h: seq<Request>, t: int)
  {
    forall i :: 0 <= i < |h| ==> h[i].now <= t
  }

  lemma GainSplits(rate: real, a: int, b: int, c: int)
    requires a <= b <= c
    ensures Gain(rate, a, c) == Gain(rate, a, b) + Gain(rate, b, c)
  {
  }

  // ------------------------------------------------ exact characterisation

  /** What the burst-plus-rate bound leaves for the window from request k to time t. */
  function Room(l: Limit, h: seq<Request>, k: nat, t: int): real
    requires k < |h|
  {
    l.burst + Gain(l.rate, h[k].now, t) - AdmittedSince(l, h, k)
  }

  lemma RoomGrows(l: Limit, h: seq<Request>, r: Request, k: nat, t: int)
    requires k < |h| && h[k].now <= r.now <= t
    ensures Room(l, h + [r], k, t)
         == Room(l, h, k, r.now) + Gain(l.rate, r.now, t) - (if Admits(l, h, r) then r.cost else 0.0)
  {
  }

  lemma RoomOfLast(l: Limit, h: seq<Request>, r: Request, t: int)
    ensures Room(l, h + [r], |h|, t)
         == l.burst + Gain(l.rate, r.now, t) - (if Admits(l, h, r) then r.cost else 0.0)
  {
    assert (h + [r])[..|h|] == h;
    assert AdmittedSince(l, h, |h|) == 0.0;
  }

  lemma AvailableAfter(l: Limit, h: seq<Request>, r: Request, t: int)
    ensures Available(l, h + [r], t)
         == MinReal(l.burst,
                    Available(l, h, r.now) - (if Admits(l, h, r) then r.cost else 0.0) + Gain(l.rate, r.now, t))
  {
  }

  /**
   * The refilled count is exactly the least of `burst` and the room left in
   * every window that starts at a past request.
   */
  lemma {:induction false} AvailableIsLeastRoom(l: Limit, h: seq<Request>, t: int)
    requires InTimeOrder(h) && NotBefore(h, t)
    ensures Available(l, h, t) <= l.burst
    ensures forall k :: 0 <= k < |h| ==> Available(l, h, t) <= Room(l, h, k, t)
    ensures Available(l, h, t) == l.burst || exists k :: 0 <= k < |h| && Available(l, h, t) == Room(l, h, k, t)
    decreases |h|
  {
    if h != [] {
      var n, h', r := |h| - 1, h[..|h| - 1], h[|h| - 1];
      assert h == h' + [r];
      AvailableIsLeastRoom(l, h', r.now);
      AvailableAfter(l, h', r, t);
      RoomOfLast(l, h', r, t);
      forall k | 0 <= k < n
        ensures Available(l, h, t) <= Room(l, h, k, t)
      {
        RoomGrows(l, h', r, k, t);
      }
      if Available(l, h, t) != l.burst && Available(l, h', r.now) != l.burst {
        var k :| 0 <= k < n && Available(l, h', r.now) == Room(l, h', k, r.now);
        RoomGrows(l, h', r, k, t);
        assert Available(l, h, t) == Room(l, h, k, t);
      } else if Available(l, h, t) != l.burst {
        assert Available(l, h, t) == Room(l, h, n, t);
      }
    }
  }

  /** A request is denied exactly when admitting it would break the bound on some window, or the cap. */
  lemma DeniedIff(l: Limit, h: seq<Request>, r: Request)
    requires InTimeOrder(h) && NotBefore(h, r.now)
    ensures !Admits(l, h, r) <==>
              r.cost > l.burst ||
              exists k :: 0 <= k < |h| && AdmittedSince(l, h, k) + r.cost > l.burst + Gain(l.rate, h[k].now, r.now)
  {
    AvailableIsLeastRoom(l, h, r.now);
    if !Admits(l, h, r) && r.cost <= l.burst {
      var k :| 0 <= k < |h| && Available(l, h, r.now) == Room(l, h, k, r.now);
      assert AdmittedSince(l, h, k) + r.cost > l.burst + Gain(l.rate, h[k].now, r.now);
    }
    if k :| 0 <= k < |h| && AdmittedSince(l, h, k) + r.cost > l.burst + Gain(l.rate, h[k].now, r.now) {
      assert Available(l, h, r.now) <= Room(l, h, k, r.now);
    }
  }

  // -------------------------------------------------- a clock that may step back

  /** Tokens that accrued over every step forward the clock took. */
  function Accrued(l: Limit, h: seq<Request>): real
  {
    if |h| <= 1 then 0.0
    else Accrued(l, h[..|h| - 1]) + Gain(l.rate, h[|h| - 2].now, h[|h| - 1].now)
  }

  predicate CostsPositive(h: seq<Request>)
  {
    forall i :: 0 <= i < |h| ==> h[i].cost >= 0.0
  }

  /** One request, in terms of the count it finds. */
  lemma AfterRequest(l: Limit, h: seq<Request>)
    requires h != []
    ensures var h', r := h[..|h| - 1], h[|h| - 1];
            var found := Available(l, h', r.now);
            After(l, h) == Some(Bucket(if Admits(l, h', r) then found - r.cost else found, r.now)) &&
            AdmittedSince(l, h, 0) == AdmittedSince(l, h', 0) + (if Admits(l, h', r) then r.cost else 0.0)
  {
  }

  /** What a request finds is no more than the cap and no more than what was left plus what accrued. */
  lemma FoundBound(l: Limit, h: seq<Request>, t: int)
    requires l.rate > 0.0 && l.burst >= 0.0
    requires h != [] ==> 0.0 <= After(l, h).value.tokens <= l.burst
    ensures 0.0 <= Available(l, h, t) <= l.burst
    ensures h != [] ==> Available(l, h, t) <= After(l, h).value.tokens + Gain(l.rate, h[|h| - 1].now, t)
  {
  }

  /** Whatever the clock does, what is left and what was admitted never exceed what was there and accrued. */
  lemma {:induction false} AdmissionBound(l: Limit, h: seq<Request>)
    requires l.rate > 0.0 && l.burst >= 0.0 && CostsPositive(h)
    ensures h != [] ==> 0.0 <= After(l, h).value.tokens <= l.burst
    ensures h != [] ==> After(l, h).value.tokens + AdmittedSince(l, h, 0) <= l.burst + Accrued(l, h)
    ensures AdmittedSince(l, h, 0) <= l.burst + Accrued(l, h)
    decreases |h|
  {
    if h != [] {
      var h', r := h[..|h| - 1], h[|h| - 1];
      AdmissionBound(l, h');
      AfterRequest(l, h);
      FoundBound(l, h', r.now);
      assert r.cost >= 0.0;
      if h' == [] {
        assert AdmittedSince(l, h', 0) == 0.0 && Accrued(l, h) == 0.0;
      } else {
        assert h'[|h'| - 1] == h[|h| - 2];
      }
    }
  }

  /** With a clock that only advances, that is the plain elapsed time. */
  lemma {:induction false} AccruedIsElapsed(l: Limit, h: seq<Request>)
    requires h != [] && InTimeOrder(h)
    ensures Accrued(l, h) == Gain(l.rate, h[0].now, h[|h| - 1].now)
    decreases |h|
  {
    if |h| > 1 {
      AccruedIsElapsed(l, h[..|h| - 1]);
      GainSplits(l.rate, h[0].now, h[|h| - 2].now, h[|h| - 1].now);
    }
  }

  // ---------------------------------------------------- denials leave no trace

  lemma DenialLeavesNoTrace(l: Limit, h: seq<Request>, r: Request, t: int)
    requires l.rate > 0.0
    requires InTimeOrder(h) && NotBefore(h, r.now) && r.now <= t && !Admits(l, h, r)
    ensures Available(l, h + [r], t) == Available(l, h, t)
  {
  }

  /** The requests that were admitted. */
  function Accepted(l: Limit, h: seq<Request>): seq<Request>
  {
    if h == [] then []
    else
      var h', r := h[..|h| - 1], h[|h| - 1];
      Accepted(l, h') + (if Admits(l, h', r) then [r] else [])
  }

  lemma {:induction false} AcceptedInOrder(l: Limit, h: seq<Request>, t: int)
    requires InTimeOrder(h) && NotBefore(h, t)
    ensures InTimeOrder(Accepted(l, h)) && NotBefore(Accepted(l, h), t)
    decreases |h|
  {
    if h != [] {
      AcceptedInOrder(l, h[..|h| - 1], h[|h| - 1].now);
    }
  }

  /**
   * Path independence: had the denied requests never been made, every count
   * found since would be the same, so every other answer too.
   */
  lemma {:induction false} DenialsAreInvisible(l: Limit, h: seq<Request>, t: int)
    requires l.rate > 0.0 && InTimeOrder(h) && NotBefore(h, t)
    ensures Available(l, Accepted(l, h), t) == Available(l, h, t)
    decreases |h|
  {
    if h != [] {
      var h', r := h[..|h| - 1], h[|h| - 1];
      assert h == h' + [r];
      if Admits(l, h', r) {
        DenialsAreInvisible(l, h', r.now);
        AvailableAfter(l, h', r, t);
        AvailableAfter(l, Accepted(l, h'), r, t);
      } else {
        assert Accepted(l, h) == Accepted(l, h');
        DenialsAreInvisible(l, h', t);
        DenialLeavesNoTrace(l, h', r, t);
      }
    }
  }

  /** The admitted requests on their own are all admitted. */
  lemma {:induction false} AcceptedStayAccepted(l: Limit, h: seq<Request>)
    requires l.rate > 0.0 && InTimeOrder(h)
    ensures Accepted(l, Accepted(l, h)) == Accepted(l, h)
    decreases |h|
  {
    if h != [] {
      var h', r := h[..|h| - 1], h[|h| - 1];
      AcceptedStayAccepted(l, h');
      if Admits(l, h', r) {
        var a := Accepted(l, h');
        DenialsAreInvisible(l, h', r.now);
        assert (a + [r])[..|a|] == a;
      } else {
        assert Accepted(l, h) == Accepted(l, h');
      }
    }
  }

  /** Requests made after h, every one of them denied. */
  ghost predicate AllDenied(l: Limit, h: seq<Request>, more: seq<Request>)
  {
    forall k :: 0 <= k < |more| ==> !Admits(l, h + more[..k], more[k])
  }

  lemma {:induction false} DenialsLeaveNoTrace(l: Limit, h: seq<Request>, more: seq<Request>, t: int)
    requires l.rate > 0.0 && InTimeOrder(h + more) && NotBefore(h + more, t) && AllDenied(l, h, more)
    ensures Available(l, h + more, t) == Available(l, h, t)
    decreases |more|
  {
    if more == [] {
      assert h + more == h;
    } else {
      var n := |more| - 1;
      var sooner, r := more[..n], more[n];
      assert h + more == (h + sooner) + [r];
      assert forall i :: 0 <= i < |h + sooner| ==> (h + sooner)[i] == (h + more)[i];
      assert forall k :: 0 <= k < n ==> sooner[..k] == more[..k];
      assert (h + more)[|h| + n] == r;
      DenialsLeaveNoTrace(l, h, sooner, t);
      DenialLeavesNoTrace(l, h + sooner, r, t);
    }
  }

  // -------------------------------------------------------- retry-after is tight

  lemma EnoughIff(x: real, rate: real, deficit: real)
    requires rate > 0.0
    ensures x * rate >= deficit <==> x >= deficit / rate
  {
    var q := deficit / rate;
    assert q * rate == deficit;
    Scale(q, x, rate);
  }

  /** Enough accrues in d milliseconds to cover a deficit iff d is at least its price in time. */
  lemma DeficitCovered(rate: real, deficit: real, t: int, d: int)
    requires rate > 0.0 && deficit > 0.0 && d >= 0
    ensures Gain(rate, t, t + d) >= deficit <==> d >= Ceil(deficit / rate * 1000.0)
  {
    EnoughIff(d as real / 1000.0, rate, deficit);
    assert Gain(rate, t, t + d) == d as real / 1000.0 * rate;
    var q := deficit / rate;
    assert d as real / 1000.0 >= q <==> d as real >= q * 1000.0;
  }

  /**
   * A denial of a request the bucket could ever admit names the first moment a
   * retry succeeds: with no other admission in between, however many denials,
   * the same request d milliseconds later is admitted iff d >= retryAfterMs.
   */
  lemma RetryAfterIsTight(l: Limit, h: seq<Request>, r: Request, more: seq<Request>, d: nat)
    requires l.rate > 0.0 && r.cost <= l.burst && !Admits(l, h, r)
    requires InTimeOrder(h + [r] + more) && NotBefore(h + [r] + more, r.now + d)
    requires AllDenied(l, h + [r], more)
    ensures Admits(l, h + [r] + more, Request(r.now + d, r.cost))
       <==> d >= Decide(Available(l, h, r.now), l.rate, r.cost).retryAfterMs
  {
    var t := r.now + d;
    DenialsLeaveNoTrace(l, h + [r], more, t);
    AvailableAfter(l, h, r, t);
    DeficitCovered(l.rate, r.cost - Available(l, h, r.now), r.now, d);
  }

  // ------------------------------------------------ reclaiming an idle bucket

  /** The stored entry after a sequence of requests, when idle keys are dropped. */
  function Stored(l: Limit, h: seq<Request>): Option<Entry>
  {
    if h == [] then None
    else
      var r := h[|h| - 1];
      Written(Stored(l, h[..|h| - 1]), l.rate, l.burst, r.now, r.cost)
  }

  /** The refilled count found when idle keys are dropped. */
  function Found(l: Limit, h: seq<Request>, t: int): real
  {
    Refill(Live(Stored(l, h), t), l.rate, l.burst, t)
  }

  /** Past its expiry a bucket would have refilled to the brim. */
  lemma IdleIsFull(l: Limit, tokens: real, ts: int, t: int)
    requires l.rate > 0.0 && l.burst >= 0.0 && tokens >= 0.0
    requires t > ts + TtlMs(l.rate, l.burst)
    ensures Refill(Some(Bucket(tokens, ts)), l.rate, l.burst, t) == l.burst
  {
  }

  /**
   * Dropping idle buckets is unobservable: over every sequence of requests the
   * count found, and with it each answer and each retry time, is the same.
   */
  lemma {:induction false} ReclaimIsUnobservable(l: Limit, h: seq<Request>, t: int)
    requires l.rate > 0.0 && l.burst >= 0.0 && CostsPositive(h)
    requires InTimeOrder(h) && NotBefore(h, t)
    ensures Found(l, h, t) == Available(l, h, t)
    ensures h != [] ==> Stored(l, h) == Some(Entry(After(l, h).value, Some(h[|h| - 1].now + TtlMs(l.rate, l.burst))))
    decreases |h|
  {
    if h != [] {
      var h', r := h[..|h| - 1], h[|h| - 1];
      ReclaimIsUnobservable(l, h', r.now);
      AdmissionBound(l, h);
      var b := After(l, h).value;
      if t > r.now + TtlMs(l.rate, l.burst) {
        IdleIsFull(l, b.tokens, b.ts, t);
      }
    }
  }

  // ------------------------------------------------- the store, call after call

  /** A request for tokens from one bucket. */
  datatype Call = Call(key: string, request: Request)

  /** The store after calls on any keys. */
  function AfterCalls(l: Limit, buckets: map<string, Entry>, calls: seq<Call>): map<string, Entry>
  {
    if calls == [] then buckets
    else
      var n := |calls| - 1;
      var Call(key, r) := calls[n];
      AfterTake(AfterCalls(l, buckets, calls[..n]), key, l.rate, l.burst, r.now, r.cost)
  }

  /** What was asked of one bucket. */
  function On(calls: seq<Call>, key: string): seq<Request>
  {
    if calls == [] then []
    else
      var n := |calls| - 1;
      On(calls[..n], key) + (if calls[n].key == key then [calls[n].request] else [])
  }

  /** Each key's entry is what its own requests made of it, whatever was asked of the others. */
  lemma {:induction false} EachBucketItsOwn(l: Limit, calls: seq<Call>, key: string)
    ensures Lookup(AfterCalls(l, map[], calls), key) == Stored(l, On(calls, key))
    decreases |calls|
  {
    if calls != [] {
      var n := |calls| - 1;
      var Call(k, r) := calls[n];
      var before := AfterCalls(l, map[], calls[..n]);
      EachBucketItsOwn(l, calls[..n], key);
      PutIs(before, k, Written(Lookup(before, k), l.rate, l.burst, r.now, r.cost), key);
      if k == key {
        assert On(calls, key)[..|On(calls, key)| - 1] == On(calls[..n], key);
      } else {
        assert On(calls, key) == On(calls[..n], key);
      }
    }
  }

  /**
   * So a call is let through exactly when admitting it breaks the bound on no
   * window of its own bucket's requests, nor the cap; and then there is
   * nothing to wait for.
   */
  lemma TakeAnswers(l: Limit, calls: seq<Call>, key: string, r: Request)
    requires l.rate > 0.0 && l.burst >= 0.0 && CostsPositive(On(calls, key))
    requires InTimeOrder(On(calls, key)) && NotBefore(On(calls, key), r.now)
    ensures var h := On(calls, key);
            var tokens := Tokens(AfterCalls(l, map[], calls), key, l.rate, l.burst, r.now);
            var answer := Reply(tokens, l.rate, r.cost);
            && answer.Some?
            && (answer.value.allowed <==> Admits(l, h, r))
            && (!answer.value.allowed <==>
                  r.cost > l.burst ||
                  exists k :: 0 <= k < |h| && AdmittedSince(l, h, k) + r.cost > l.burst + Gain(l.rate, h[k].now, r.now))
            && (answer.value.allowed ==> answer.value.retryAfterMs == 0)
            && (!answer.value.allowed ==> answer.value.retryAfterMs > 0)
  {
    var h := On(calls, key);
    EachBucketItsOwn(l, calls, key);
    ReclaimIsUnobservable(l, h, r.now);
    DeniedIff(l, h, r);
    var tokens := Available(l, h, r.now);
    if tokens < r.cost {
      EnoughIff(0.0, l.rate, r.cost - tokens);
    }
  }

  lemma OneCall(l: Limit, buckets: map<string, Entry>, call: Call)
    ensures AfterCalls(l, buckets, [call])
         == AfterTake(buckets, call.key, l.rate, l.burst, call.request.now, call.request.cost)
  {
    assert [call][..0] == [];
  }
}
