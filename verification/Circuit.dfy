/** The per-webhook circuit breaker: three scripts over one Redis hash. */
module Circuit {
  import opened Prelude

  const STATE_TTL_MS := 3_600_000

  datatype CircuitState = Closed | Open | HalfOpen

  /** A hash field that was never set is None; HINCRBY reads a missing counter as 0. */
  datatype Hash = Hash(state: Option<CircuitState>, failures: int, openedAt: Option<int>)

  datatype Entry = Entry(hash: Hash, expiresAt: int)

  const NO_FIELDS := Hash(None, 0, None)

  /** What a script finds: Redis drops a key once its expiry time has passed. */
  function Fields(e: Option<Entry>, now: int): Hash
  {
    if e.Some? && now <= e.value.expiresAt then e.value.hash else NO_FIELDS
  }

  function OpenedAt(h: Hash): int
  {
    if h.openedAt.Some? then h.openedAt.value else 0
  }

  /** The cooldown of an open breaker is over. */
  predicate CooledDown(h: Hash, now: int, cooldown: int)
  {
    h.state == Some(Open) && now - OpenedAt(h) >= cooldown
  }

  function Checked(h: Hash, now: int, cooldown: int): (Hash, CircuitState)
  {
    match h.state
    case None => (h, Closed)
    case Some(Closed) => (h, Closed)
    case Some(HalfOpen) => (h, HalfOpen)
    case Some(Open) => if CooledDown(h, now, cooldown) then (h.(state := Some(HalfOpen)), HalfOpen) else (h, Open)
  }

  function Succeeded(h: Hash): Hash
  {
    h.(state := Some(Closed), failures := 0)
  }

  function Failed(h: Hash, threshold: int, now: int): (Hash, CircuitState)
  {
    if h.state == Some(HalfOpen) then
      (Hash(Some(Open), threshold, Some(now)), Open)
    else if h.failures + 1 >= threshold then
      (Hash(Some(Open), h.failures + 1, Some(now)), Open)
    else
      (h.(failures := h.failures + 1), Closed)
  }

  // The store after each script.

  function AfterCheck(keys: map<string, Entry>, key: string, now: int, cooldown: int): map<string, Entry>
  {
    var h := Fields(Lookup(keys, key), now);
    if CooledDown(h, now, cooldown) then keys[key := Entry(Checked(h, now, cooldown).0, now + STATE_TTL_MS)] else keys
  }

  function AfterSuccess(keys: map<string, Entry>, key: string, now: int): map<string, Entry>
  {
    keys[key := Entry(Succeeded(Fields(Lookup(keys, key), now)), now + STATE_TTL_MS)]
  }

  function AfterFailure(keys: map<string, Entry>, key: string, threshold: int, now: int): map<string, Entry>
  {
    keys[key := Entry(Failed(Fields(Lookup(keys, key), now), threshold, now).0, now + STATE_TTL_MS)]
  }

  class CircuitStore {
    var keys: map<string, Entry>

    constructor ()
      ensures keys == map[]
    {
      keys := map[];
    }

    /** Only the transition to half-open writes, and so extends the key's life. */
    method Check(key: string, now: int, cooldown: int) returns (r: CircuitState)
      modifies this
      ensures r == Checked(Fields(Lookup(old(keys), key), now), now, cooldown).1
      ensures keys == AfterCheck(old(keys), key, now, cooldown)
    {
      var h := Fields(Lookup(keys, key), now);
      if h.state == None || h.state == Some(Closed) {
        return Closed;
      }
      if h.state == Some(HalfOpen) {
        return HalfOpen;
      }
      var openedAt := OpenedAt(h);
      if now - openedAt >= cooldown {
        keys := keys[key := Entry(h.(state := Some(HalfOpen)), now + STATE_TTL_MS)];
        return HalfOpen;
      }
      return Open;
    }

    method RecordSuccess(key: string, now: int)
      modifies this
      ensures keys == AfterSuccess(old(keys), key, now)
    {
      var h := Fields(Lookup(keys, key), now);
      keys := keys[key := Entry(h.(state := Some(Closed), failures := 0), now + STATE_TTL_MS)];
    }

    method RecordFailure(key: string, threshold: int, now: int) returns (r: CircuitState)
      modifies this
      ensures r == Failed(Fields(Lookup(old(keys), key), now), threshold, now).1
      ensures keys == AfterFailure(old(keys), key, threshold, now)
      ensures key in keys && keys[key].expiresAt == now + STATE_TTL_MS
      ensures r == Open ==> keys[key].hash.state == Some(Open) && keys[key].hash.openedAt == Some(now)
    {
      var h := Fields(Lookup(keys, key), now);
      if h.state == Some(HalfOpen) {
        keys := keys[key := Entry(Hash(Some(Open), threshold, Some(now)), now + STATE_TTL_MS)];
        return Open;
      }
      var failures := h.failures + 1;
      h := h.(failures := failures);
      if failures >= threshold {
        keys := keys[key := Entry(h.(state := Some(Open), openedAt := Some(now)), now + STATE_TTL_MS)];
        return Open;
      }
      keys := keys[key := Entry(h, now + STATE_TTL_MS)];
      return Closed;
    }
  }
}
