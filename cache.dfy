/** The location service's persistent cache: entries live in the device's
    key-value store under `cache_<key>`, carry the time they were written,
    and are served for strictly less than thirty minutes. The store is a
    map; the clock is the `now` argument; a failing store operation is a
    boolean argument. */
module ServiceCache {
  import opened Common
  import opened Text

  /** `CACHE_DURATION`, in milliseconds. */
  const CacheDuration: int := 30 * 60 * 1000

  const CachePrefix: string := "cache_"

  datatype Stored<T> = Stored(data: T, timestamp: int)

  type Store<T> = map<string, Stored<T>>

  function CacheKey(key: string): (k: string)
    ensures StartsWith(k, CachePrefix) && k[|CachePrefix|..] == key
  {
    CachePrefix + key
  }

  /** Two cache keys are equal only for equal keys. */
  lemma CacheKeyInjective(a: string, b: string)
    ensures CacheKey(a) == CacheKey(b) ==> a == b
  {
    if CacheKey(a) == CacheKey(b) {
      assert a == CacheKey(a)[|CachePrefix|..];
    }
  }

  /** What `getCachedData` answers when the store can be read. */
  function CachedData<T>(store: Store<T>, key: string, now: int): (r: Option<T>)
    ensures r.Some? <==> CacheKey(key) in store && now - store[CacheKey(key)].timestamp < CacheDuration
    ensures r.Some? ==> r.value == store[CacheKey(key)].data
  {
    var k := CacheKey(key);
    if k in store && now - store[k].timestamp < CacheDuration then Some(store[k].data) else None
  }

  /** The store after a successful `setCachedData`. */
  function WithCached<T>(store: Store<T>, key: string, data: T, now: int): (s: Store<T>)
    ensures s.Keys == store.Keys + {CacheKey(key)}
    ensures forall k :: k in store && k != CacheKey(key) ==> s[k] == store[k]
  {
    store[CacheKey(key) := Stored(data, now)]
  }

  /** The store after a successful `clearCache`. */
  function WithoutCached<T>(store: Store<T>): (s: Store<T>)
    ensures forall k :: k in s <==> k in store && !StartsWith(k, CachePrefix)
    ensures forall k :: k in s ==> s[k] == store[k]
  {
    map k | k in store && !StartsWith(k, CachePrefix) :: store[k]
  }

  class LocationCache<T> {
    var store: Store<T>

    constructor(initial: Store<T>)
      ensures store == initial
    {
      store := initial;
    }

    /** `getCachedData`; a failing read (or an unparsable entry) gives null. */
    method GetCachedData(key: string, now: int, readFails: bool) returns (r: Option<T>)
      ensures readFails ==> r == None
      ensures !readFails ==> r == CachedData(store, key, now)
    {
      if readFails {
        return None;
      }
      var k := CacheKey(key);
      if k in store {
        var cached := store[k];
        if now - cached.timestamp < CacheDuration {
          return Some(cached.data);
        }
      }
      return None;
    }

    /** `setCachedData`; a failing write is logged and leaves the store as it was. */
    method SetCachedData(key: string, data: T, now: int, writeFails: bool)
      modifies this
      ensures store == if writeFails then old(store) else WithCached(old(store), key, data, now)
    {
      if !writeFails {
        store := store[CacheKey(key) := Stored(data, now)];
      }
    }

    /** `clearCache`: every key of the store is listed and those with the
        prefix are removed together; a failure leaves the store as it was. */
    method ClearCache(storeFails: bool)
      modifies this
      ensures store == if storeFails then old(store) else WithoutCached(old(store))
    {
      if !storeFails {
        var cacheKeys := set k | k in store && StartsWith(k, CachePrefix);
        store := store - cacheKeys;
      }
    }
  }

  // ---------------------------------------------------------------------
  // Properties of the cache functions

  /** A value written is read back until thirty minutes have passed, and not after. */
  lemma ReadAfterWrite<T>(store: Store<T>, key: string, data: T, written: int, now: int)
    ensures CachedData(WithCached(store, key, data, written), key, now)
         == if now - written < CacheDuration then Some(data) else None
  {
  }

  /** The validity test is strict: an entry exactly thirty minutes old is a miss. */
  lemma ExpiresAtDuration<T>(store: Store<T>, key: string, data: T, written: int)
    ensures CachedData(WithCached(store, key, data, written), key, written + CacheDuration - 1) == Some(data)
    ensures CachedData(WithCached(store, key, data, written), key, written + CacheDuration) == None
  {
  }

  /** Writing one key never changes what another key reads. */
  lemma WriteIsolated<T>(store: Store<T>, key: string, other: string, data: T, written: int, now: int)
    requires other != key
    ensures CachedData(WithCached(store, key, data, written), other, now) == CachedData(store, other, now)
  {
    CacheKeyInjective(key, other);
  }

  /** After a clear every cached read misses, while keys the app stores
      without the prefix are kept. */
  lemma ClearMissesEverything<T>(store: Store<T>, key: string, now: int)
    ensures CachedData(WithoutCached(store), key, now) == None
    ensures forall k :: k in store && !StartsWith(k, CachePrefix) ==> k in WithoutCached(store)
  {
    assert StartsWith(CacheKey(key), CachePrefix);
  }

  /** Clearing twice is clearing once. */
  lemma ClearIdempotent<T>(store: Store<T>)
    ensures WithoutCached(WithoutCached(store)) == WithoutCached(store)
  {
  }
}
