/** `checkRateLimit` of cloudflare-worker.js: a counter per key kept in the edge cache,
    here a map from key to the stored count. A request is refused once its count would
    pass the limit; refused requests do not count. Entries never expire in this model. */
module RateLimit {

  /** The count stored for `key`, 0 when there is no entry. */
  function Count(store: map<string, int>, key: string): int {
    if key in store then store[key] else 0
  }

  /** The outcome of one check: whether the request is refused, and the store after it. */
  datatype Verdict = Verdict(limited: bool, store: map<string, int>)

  /** One check of `key` against `limit`. */
  function Check(store: map<string, int>, key: string, limit: int): (v: Verdict)
    ensures v.limited <==> key in store && store[key] + 1 > limit
    ensures v.limited ==> v.store == store
    ensures !v.limited ==> key in v.store && v.store[key] == Count(store, key) + 1
    ensures forall k :: k != key ==> (k in v.store <==> k in store)
    ensures forall k :: k != key && k in store ==> v.store[k] == store[k]
    ensures 1 <= limit && 0 <= Count(store, key) <= limit ==> 0 < Count(v.store, key) <= limit
  {
    if key in store && store[key] + 1 > limit then Verdict(true, store)
    else Verdict(false, store[key := Count(store, key) + 1])
  }

  /** How many of `n` back-to-back checks of `key` against `limit` are allowed. */
  function AllowedInBurst(store: map<string, int>, key: string, limit: int, n: nat): nat
    decreases n
  {
    if n == 0 then 0
    else
      var v := Check(store, key, limit);
      (if v.limited then 0 else 1) + AllowedInBurst(v.store, key, limit, n - 1)
  }

  /** The limiter's promise: from a stored count `c` within the limit, a burst of `n`
      requests on one key lets exactly `min(n, limit - c)` through. */
  lemma {:induction false} BurstAllowsUpToLimit(store: map<string, int>, key: string, limit: int, n: nat)
    requires 1 <= limit && 0 <= Count(store, key) <= limit
    ensures AllowedInBurst(store, key, limit, n) == if n <= limit - Count(store, key) then n else limit - Count(store, key)
    decreases n
  {
    if n > 0 {
      BurstAllowsUpToLimit(Check(store, key, limit).store, key, limit, n - 1);
    }
  }

  /** The cache the worker consults. */
  class Limiter {
    var store: map<string, int>

    constructor (store: map<string, int>)
      ensures this.store == store
    {
      this.store := store;
    }

    /** `checkRateLimit(key, limit, windowSeconds)`: true when the request is refused.
        The window only sets the cache entry's lifetime, which is not modelled. */
    method CheckRateLimit(key: string, limit: int, windowSeconds: int) returns (limited: bool)
      modifies this
      ensures Verdict(limited, store) == Check(old(store), key, limit)
    {
      var count := 1;
      if key in store {
        count := store[key] + 1;
        if count > limit {
          return true;
        }
      }
      store := store[key := count];
      limited := false;
    }
  }
}
