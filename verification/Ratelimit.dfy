/**
 * The per-webhook token bucket. Times are whole milliseconds and token counts
 * are real numbers.
 */
module Ratelimit {
  import opened Prelude

  /** The hash behind one key: tokens left and the time of the last refill. */
  datatype Bucket = Bucket(tokens: real, ts: int)

  /** A key lives until its expiry, or for good if none was set. */
  datatype Entry = Entry(bucket: Bucket, expiresAt: Option<int>)

  datatype Answer = Answer(allowed: bool, retryAfterMs: int)

  function Ceil(x: real): (n: int)
    ensures (n - 1) as real < x <= n as real
  {
    -(-x).Floor
  }

  function MinReal(a: real, b: real): real
  {
    if b < a then b else a
  }

  /** Tokens that accrue between two times, at `rate` tokens a second. */
  function Gain(rate: real, from: int, to: int): real
  {
    Max(0, to - from) as real / 1000.0 * rate
  }

  lemma NoGain(rate: real, at: int)
    ensures Gain(rate, at, at) == 0.0
  {
  }

  /** What the bucket holds at `now`; a missing bucket is full. */
  function Refill(b: Option<Bucket>, rate: real, burst: real, now: int): real
  {
    match b
    case None => burst
    case Some(Bucket(tokens, ts)) => MinReal(burst, tokens + Gain(rate, ts, now))
  }

  function Decide(tokens: real, rate: real, cost: real): Answer
    requires rate != 0.0
  {
    if tokens >= cost then Answer(true, 0)
    else Answer(false, Ceil((cost - tokens) / rate * 1000.0))
  }

  /** The bucket after a request. */
  function Spend(tokens: real, cost: real, now: int): Bucket
  {
    Bucket(if tokens >= cost then tokens - cost else tokens, now)
  }

  function TtlMs(rate: real, burst: real): int
    requires rate != 0.0
  {
    Ceil(burst / rate * 1000.0) + 1000
  }

  /** Redis drops a key once its expiry time has passed. */
  function Live(e: Option<Entry>, now: int): Option<Bucket>
  {
    if e.Some? && (e.value.expiresAt.None? || now <= e.value.expiresAt.value) then Some(e.value.bucket) else None
  }

  /** The tokens a request finds under a key. */
  function Tokens(buckets: map<string, Entry>, key: string, rate: real, burst: real, now: int): real
  {
    Refill(Live(Lookup(buckets, key), now), rate, burst, now)
  }

  /**
   * The entry after a request. At a rate of zero the expiry comes out infinite
   * and PEXPIRE fails, which ends the script after the hash is written; an
   * expiry that is not positive deletes the key at once.
   */
  function Written(e: Option<Entry>, rate: real, burst: real, now: int, cost: real): Option<Entry>
  {
    var live := Live(e, now);
    var bucket := Spend(Refill(live, rate, burst, now), cost, now);
    if rate == 0.0 then Some(Entry(bucket, if live.Some? then e.value.expiresAt else None))
    else if TtlMs(rate, burst) <= 0 then None
    else Some(Entry(bucket, Some(now + TtlMs(rate, burst))))
  }

  /** What the caller gets back; None if the script failed. */
  function Reply(tokens: real, rate: real, cost: real): Option<Answer>
  {
    if rate == 0.0 then None else Some(Decide(tokens, rate, cost))
  }

  /** The store after a request. */
  function AfterTake(buckets: map<string, Entry>, key: string, rate: real, burst: real, now: int, cost: real)
    : map<string, Entry>
  {
    Put(buckets, key, Written(Lookup(buckets, key), rate, burst, now, cost))
  }

  class RateLimiter {
    var buckets: map<string, Entry>

    constructor ()
      ensures buckets == map[]
    {
      buckets := map[];
    }

    /** The script: refill, decide, write back, set the expiry. None stands for its failure. */
    method Take(key: string, rate: real, burst: real, now: int, cost: real) returns (answer: Option<Answer>)
      modifies this
      ensures answer == Reply(Tokens(old(buckets), key, rate, burst, now), rate, cost)
      ensures buckets == AfterTake(old(buckets), key, rate, burst, now, cost)
      ensures answer.Some? ==> (answer.value.allowed <==> Tokens(old(buckets), key, rate, burst, now) >= cost)
      ensures forall k :: k != key ==> Lookup(buckets, k) == Lookup(old(buckets), k)
    {
      var state := Live(Lookup(buckets, key), now);
      var tokens, ts := burst, now;
      if state.Some? {
        tokens, ts := state.value.tokens, state.value.ts;
      }
      NoGain(rate, now);
      var elapsedSec := Max(0, now - ts) as real / 1000.0;
      tokens := MinReal(burst, tokens + elapsedSec * rate);
      ghost var found := tokens;
      assert found == Tokens(buckets, key, rate, burst, now);
      var allowed := tokens >= cost;
      var deficit := cost - tokens;
      if allowed {
        tokens := tokens - cost;
      }
      buckets := buckets[key := Entry(Bucket(tokens, now), if state.Some? then buckets[key].expiresAt else None)];
      if rate == 0.0 {
        return None;
      }
      Expire(key, TtlMs(rate, burst), now);
      answer := Some(Answer(allowed, if allowed then 0 else Ceil(deficit / rate * 1000.0)));
    }

    /** PEXPIRE: a time to live that is not positive deletes the key. */
    method Expire(key: string, ttlMs: int, now: int)
      requires key in buckets
      modifies this
      ensures buckets == Put(old(buckets), key,
                             if ttlMs <= 0 then None else Some(Entry(old(buckets)[key].bucket, Some(now + ttlMs))))
    {
      if ttlMs <= 0 {
        buckets := buckets - {key};
      } else {
        buckets := buckets[key := buckets[key].(expiresAt := Some(now + ttlMs))];
      }
    }
  }
}
