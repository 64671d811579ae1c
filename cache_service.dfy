/**
 * The in-memory response cache: a map from key to (data, absolute expiry),
 * evicted lazily when a read finds the entry expired. The clock is an
 * explicit `now` argument (milliseconds).
 */
module CacheServices {
  import opened Wrappers

  /** `5 * 60 * 1000`: five minutes. */
  const DefaultTtl: int := 5 * 60 * 1000

  /** A stored value; `timestamp` is the instant after which it is stale. */
  datatype Entry<T> = Entry(data: T, timestamp: int)

  /** `Date.now() + (ttl || this.ttl)`: an absent or zero ttl means the default. */
  function Expiry(now: int, ttl: Option<int>): (e: int)
    ensures (ttl.None? || ttl.value == 0) ==> e == now + 300000
    ensures ttl.Some? && ttl.value != 0 ==> e == now + ttl.value
  {
    now + (if ttl.None? || ttl.value == 0 then DefaultTtl else ttl.value)
  }

  /** Whether an entry still answers a read at `now`; the expiry instant itself is still valid. */
  predicate Live<T>(e: Entry<T>, now: int) {
    now <= e.timestamp
  }

  /** What `get(key)` returns at `now`. */
  function Lookup<T>(cache: map<string, Entry<T>>, key: string, now: int): (r: Option<T>)
    ensures r.Some? <==> key in cache && Live(cache[key], now)
    ensures r.Some? ==> r.value == cache[key].data
  {
    if key in cache && Live(cache[key], now) then Some(cache[key].data) else None
  }

  /** The map after `get(key)` at `now`: an expired entry for `key` is deleted. */
  function AfterGet<T>(cache: map<string, Entry<T>>, key: string, now: int): (m: map<string, Entry<T>>)
    ensures m.Keys <= cache.Keys
    ensures forall k :: k in m ==> m[k] == cache[k]
    ensures forall k :: k in cache && k != key ==> k in m
    ensures key in m <==> key in cache && Live(cache[key], now)
  {
    if key in cache && !Live(cache[key], now) then cache - {key} else cache
  }

  /** A value read right after it was stored (no later than its expiry) is the stored value. */
  lemma SetThenGet<T>(cache: map<string, Entry<T>>, key: string, data: T, ttl: Option<int>, now: int, later: int)
    requires later <= Expiry(now, ttl)
    ensures Lookup(cache[key := Entry(data, Expiry(now, ttl))], key, later) == Some(data)
  {
  }

  /** Storing under one key leaves what every other key returns unchanged. */
  lemma SetKeepsOtherKeys<T>(cache: map<string, Entry<T>>, key: string, e: Entry<T>, other: string, now: int)
    requires other != key
    ensures Lookup(cache[key := e], other, now) == Lookup(cache, other, now)
  {
  }

  /** The results of reading `key` at each of the instants `times`, in order, starting from `cache`. */
  function Reads<T>(cache: map<string, Entry<T>>, key: string, times: seq<int>): (rs: seq<Option<T>>)
    ensures |rs| == |times|
  {
    if times == [] then []
    else [Lookup(cache, key, times[0])] + Reads(AfterGet(cache, key, times[0]), key, times[1..])
  }

  /**
   * Once a read finds the entry expired, it is gone: every later read of that
   * key, at any instant whatsoever, returns null until the key is set again.
   */
  lemma {:induction false} ExpiredStaysGone<T>(cache: map<string, Entry<T>>, key: string, now: int, times: seq<int>)
    requires key in cache && !Live(cache[key], now)
    ensures Lookup(cache, key, now) == None
    ensures forall i :: 0 <= i < |times| ==> Reads(AfterGet(cache, key, now), key, times)[i] == None
  {
    NeverStoredReadsNull(AfterGet(cache, key, now), key, times);
  }

  /** A key absent from the map reads as null forever, however many reads happen. */
  lemma {:induction false} NeverStoredReadsNull<T>(cache: map<string, Entry<T>>, key: string, times: seq<int>)
    requires key !in cache
    ensures forall i :: 0 <= i < |times| ==> Reads(cache, key, times)[i] == None
  {
    if times != [] {
      NeverStoredReadsNull(AfterGet(cache, key, times[0]), key, times[1..]);
    }
  }

  /** A read never changes what any other key returns, now or later. */
  lemma GetKeepsOtherKeys<T>(cache: map<string, Entry<T>>, key: string, now: int, other: string, later: int)
    requires other != key
    ensures Lookup(AfterGet(cache, key, now), other, later) == Lookup(cache, other, later)
  {
  }

  class CacheService<T> {
    var cache: map<string, Entry<T>>

    constructor ()
      ensures cache == map[]
    {
      cache := map[];
    }

    /** `set(key, data, ttl)`: replaces any entry for `key`; other keys are untouched. */
    method Set(key: string, data: T, ttl: Option<int>, now: int)
      modifies this
      ensures cache == old(cache)[key := Entry(data, Expiry(now, ttl))]
    {
      cache := cache[key := Entry(data, Expiry(now, ttl))];
    }

    /** `get(key)` at `now`: the live data, or null after deleting an expired entry. */
    method Get(key: string, now: int) returns (r: Option<T>)
      modifies this
      ensures r == Lookup(old(cache), key, now)
      ensures cache == AfterGet(old(cache), key, now)
      ensures r.Some? ==> cache == old(cache)
    {
      if key !in cache {
        return None;
      }
      var item := cache[key];
      if now > item.timestamp {
        cache := cache - {key};
        return None;
      }
      r := Some(item.data);
    }

    /** `clear()`: every later read returns null. */
    method Clear()
      modifies this
      ensures cache == map[]
      ensures forall k, t :: Lookup(cache, k, t) == None
    {
      cache := map[];
    }
  }
}
