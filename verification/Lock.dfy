/** The distributed lock: one key, a random token, and an expiry. */
module Lock {
  import opened Prelude

  type Token = nat

  datatype Entry = Entry(token: Token, expiresAt: int)

  /** Who holds the key now; Redis drops a key once its expiry time has passed. */
  function Holder(e: Option<Entry>, now: int): Option<Token>
  {
    if e.Some? && now <= e.value.expiresAt then Some(e.value.token) else None
  }

  /** SET key token PX ttl NX. */
  function Acquired(e: Option<Entry>, token: Token, ttl: int, now: int): Option<Entry>
  {
    if Holder(e, now).None? then Some(Entry(token, now + ttl)) else e
  }

  /** Compare, then DEL. */
  function Released(e: Option<Entry>, token: Token, now: int): Option<Entry>
  {
    if Holder(e, now) == Some(token) then None else e
  }

  /** Compare, then PEXPIRE. */
  function Renewed(e: Option<Entry>, token: Token, ttl: int, now: int): Option<Entry>
  {
    if Holder(e, now) == Some(token) then Some(Entry(token, now + ttl)) else e
  }

  class LockStore {
    var keys: map<string, Entry>

    constructor ()
      ensures keys == map[]
    {
      keys := map[];
    }

    /** `token` is the fresh random UUID; the result says whether we hold the lock. */
    method Acquire(key: string, token: Token, ttlMs: int, now: int) returns (ok: bool)
      modifies this
      ensures ok <==> Holder(Lookup(old(keys), key), now).None?
      ensures keys == Put(old(keys), key, Acquired(Lookup(old(keys), key), token, ttlMs, now))
      ensures keys == if ok then old(keys)[key := Entry(token, now + ttlMs)] else old(keys)
    {
      if key in keys && now <= keys[key].expiresAt {
        return false;
      }
      keys := keys[key := Entry(token, now + ttlMs)];
      return true;
    }

    method Release(key: string, token: Token, now: int) returns (ok: bool)
      modifies this
      ensures ok <==> Holder(Lookup(old(keys), key), now) == Some(token)
      ensures keys == Put(old(keys), key, Released(Lookup(old(keys), key), token, now))
      ensures keys == if ok then old(keys) - {key} else old(keys)
    {
      if key in keys && now <= keys[key].expiresAt && keys[key].token == token {
        keys := keys - {key};
        return true;
      }
      return false;
    }

    method Renew(key: string, token: Token, ttlMs: int, now: int) returns (ok: bool)
      modifies this
      ensures ok <==> Holder(Lookup(old(keys), key), now) == Some(token)
      ensures keys == Put(old(keys), key, Renewed(Lookup(old(keys), key), token, ttlMs, now))
      ensures keys == if ok then old(keys)[key := Entry(token, now + ttlMs)] else old(keys)
    {
      if key in keys && now <= keys[key].expiresAt && keys[key].token == token {
        keys := keys[key := Entry(token, now + ttlMs)];
        return true;
      }
      return false;
    }
  }
}
