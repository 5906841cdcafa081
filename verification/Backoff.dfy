/** Retry backoff: exponential, capped, with full jitter. */
module Backoff {
  import opened Prelude

  const BASE_DELAY_MS := 1_000
  const MAX_DELAY_MS := 60_000

  function Pow2(n: nat): (p: nat)
    ensures p >= 1
  {
    if n == 0 then 1 else 2 * Pow2(n - 1)
  }

  /** The largest delay after this many attempts. */
  function Cap(attempts: int): (c: nat)
    ensures 1 <= c <= MAX_DELAY_MS
  {
    Min(BASE_DELAY_MS * Pow2(Max(0, attempts - 1)), MAX_DELAY_MS)
  }

  /** A second after the first attempt, and twice as long after each further one, up to a minute. */
  lemma CapDoubles(attempts: int)
    ensures Cap(1) == 1_000
    ensures attempts >= 1 ==> Cap(attempts + 1) == Min(2 * Cap(attempts), 60_000)
  {
    assert attempts >= 1 ==> Pow2(attempts) == 2 * Pow2(attempts - 1);
  }

  /** The delay before the next attempt; `u` is the random draw from [0, 1). */
  function BackoffMs(attempts: int, u: real): (delay: int)
    requires 0.0 <= u < 1.0
    ensures 0 <= delay < Cap(attempts)
  {
    var capped := Cap(attempts) as real;
    Scale(0.0, u, capped);
    Scale(u, 1.0, capped);
    (u * capped).Floor
  }

  /** Full jitter reaches every whole delay below the cap. */
  lemma EveryDelayIsDrawn(attempts: int, delay: int) returns (u: real)
    requires 0 <= delay < Cap(attempts)
    ensures 0.0 <= u < 1.0 && BackoffMs(attempts, u) == delay
  {
    var c := Cap(attempts) as real;
    u := delay as real / c;
    assert u * c == delay as real;
    if u >= 1.0 {
      Scale(1.0, u, c);
      assert false;
    }
  }

  /** And each of them equally often: its draws are one slice of [0, 1), all slices alike. */
  lemma EqualShares(attempts: int, delay: int, u: real)
    requires 0 <= delay < Cap(attempts) && 0.0 <= u < 1.0
    ensures BackoffMs(attempts, u) == delay <==>
              delay as real / Cap(attempts) as real <= u < (delay + 1) as real / Cap(attempts) as real
  {
    var c := Cap(attempts) as real;
    SliceOf(delay, u, c);
    assert (u * c).Floor == delay <==> delay as real <= u * c < (delay + 1) as real;
  }

  lemma SliceOf(n: int, u: real, c: real)
    requires c > 0.0
    ensures n as real <= u * c <==> n as real / c <= u
    ensures u * c < (n + 1) as real <==> u < (n + 1) as real / c
  {
    var low, high := n as real / c, (n + 1) as real / c;
    assert low * c == n as real && high * c == (n + 1) as real;
    Scale(low, u, c);
    Scale(u, high, c);
  }

  predicate IsRetryable(statusCode: Option<int>)
  {
    match statusCode
    case None => true
    case Some(code) => code == 408 || code == 429 || code >= 500
  }

  predicate IsSuccess(statusCode: Option<int>)
  {
    statusCode.Some? && 200 <= statusCode.value < 300
  }

  /**
   * Every outcome is a success, worth a retry, or a permanent failure: a
   * response below 500 that is no 2xx, 408 or 429.
   */
  lemma OutcomeClasses(statusCode: Option<int>)
    ensures !(IsSuccess(statusCode) && IsRetryable(statusCode))
    ensures IsSuccess(statusCode) <==> statusCode.Some? && statusCode.value / 100 == 2
    ensures !IsSuccess(statusCode) && !IsRetryable(statusCode) <==>
              statusCode.Some? && statusCode.value !in {408, 429} &&
              (statusCode.value < 200 || 300 <= statusCode.value < 500)
  {
  }

  function Sum(s: seq<int>): int
  {
    if s == [] then 0 else Sum(s[..|s| - 1]) + s[|s| - 1]
  }

  /** The k-th delay of a life (from 0) follows attempt k + 1. */
  ghost predicate WithinCaps(delays: seq<int>)
  {
    forall k :: 0 <= k < |delays| ==> 0 <= delays[k] < Cap(k + 1)
  }

  /** All the waiting one life of a job can schedule. */
  lemma {:induction false} TotalBackoff(delays: seq<int>)
    requires WithinCaps(delays)
    ensures 0 <= Sum(delays) <= Min(1_000 * (Pow2(|delays|) - 1), 60_000 * |delays|)
  {
    if delays != [] {
      var n := |delays| - 1;
      TotalBackoff(delays[..n]);
      assert delays[n] < Cap(n + 1) <= BASE_DELAY_MS * Pow2(n);
      assert Pow2(|delays|) == 2 * Pow2(n);
    }
  }

  lemma {:induction false} Pow2Monotone(a: nat, b: nat)
    requires a <= b
    ensures Pow2(a) <= Pow2(b)
    decreases b
  {
    if a < b {
      Pow2Monotone(a, b - 1);
    }
  }
}
