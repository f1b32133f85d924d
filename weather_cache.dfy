/** The two-tier weather cache of src/cache/weather_cache.go.

    `DefaultWeatherCache` wraps two go-cache stores: one whose items expire after the
    configured TTL, and one whose items never expire. `Set` writes both; `Get` reads the
    first and `GetIgnoreTTL` the second. Time is an explicit integer `now` (nanoseconds),
    and expiry is checked lazily on read, as go-cache's `Get` does. */
module WeatherCache {
  import opened Wrappers

  /** go-cache's `NoExpiration`: an item stored with it never expires. */
  const NoExpiration: int := -1

  /** A go-cache item: the stored object and, when it can expire, the instant it expires at. */
  datatype Item<V> = Item(value: V, expiration: Option<int>)

  /** go-cache treats an item as gone once `now` is strictly past its expiration. */
  predicate Expired<V>(item: Item<V>, now: int) {
    item.expiration.Some? && now > item.expiration.value
  }

  /** The item go-cache stores for `SetDefault`: a positive default expiration `d` makes the
      item expire at `now + d`; zero or a negative value means it never expires. */
  function NewItem<V>(v: V, d: int, now: int): Item<V> {
    Item(v, if d > 0 then Some(now + d) else None)
  }

  /** go-cache's `Get` on one store. */
  function Find<V>(items: map<string, Item<V>>, key: string, now: int): Option<V> {
    if key in items && !Expired(items[key], now) then Some(items[key].value) else None
  }

  /** The abstract state of a `DefaultWeatherCache`: the TTL it was built with and both stores. */
  datatype CacheState<V> = CacheState(ttl: int, ttlCache: map<string, Item<V>>, nonTtlCache: map<string, Item<V>>)
  {
    /** The stores were only ever written together: nothing in the durable store expires,
        and every key of the TTL store holds the same object in the durable store. */
    ghost predicate Valid() {
      && (forall k | k in nonTtlCache :: nonTtlCache[k].expiration.None?)
      && (forall k | k in ttlCache :: k in nonTtlCache && nonTtlCache[k].value == ttlCache[k].value)
    }

    /** True when a value set at `setAt` is still fresh at `now`. */
    predicate FreshAt(setAt: int, now: int) {
      ttl <= 0 || now <= setAt + ttl
    }

    function Get(key: string, now: int): Option<V> {
      Find(ttlCache, key, now)
    }

    function GetIgnoreTTL(key: string, now: int): Option<V> {
      Find(nonTtlCache, key, now)
    }

    /** `Set` stores `value` under `key` in both stores, restarting the TTL clock at `now`. */
    function Set(key: string, value: V, now: int): (s: CacheState<V>)
      ensures s.ttl == ttl
      ensures forall t :: s.GetIgnoreTTL(key, t) == Some(value)
      ensures forall t :: s.Get(key, t) == if FreshAt(now, t) then Some(value) else None
      ensures forall k, t | k != key :: s.Get(k, t) == Get(k, t) && s.GetIgnoreTTL(k, t) == GetIgnoreTTL(k, t)
      ensures Valid() ==> s.Valid()
    {
      this.(ttlCache := ttlCache[key := NewItem(value, ttl, now)],
            nonTtlCache := nonTtlCache[key := NewItem(value, NoExpiration, now)])
    }
  }

  /** `NewWeatherCache`: both stores start empty. */
  function NewWeatherCache<V>(ttl: int): (s: CacheState<V>)
    ensures s.Valid() && s.ttl == ttl
    ensures forall k, t :: s.Get(k, t) == None && s.GetIgnoreTTL(k, t) == None
  {
    CacheState(ttl, map[], map[])
  }

  /** The durable store never expires anything: what `GetIgnoreTTL` returns does not
      depend on the time of the read. */
  lemma DurableStoreNeverExpires<V>(s: CacheState<V>, key: string, t1: int, t2: int)
    requires s.Valid()
    ensures s.GetIgnoreTTL(key, t1) == s.GetIgnoreTTL(key, t2)
  {
    if key in s.nonTtlCache {
      assert s.nonTtlCache[key].expiration.None?;
    }
  }

  /** Whatever the TTL store returns, the durable store returns too: a fresh hit and a stale
      read of the same key never disagree. */
  lemma FreshHitIsDurable<V>(s: CacheState<V>, key: string, now: int, t: int)
    requires s.Valid() && s.Get(key, now).Some?
    ensures s.GetIgnoreTTL(key, t) == s.Get(key, now)
  {
    assert key in s.ttlCache && key in s.nonTtlCache;
    assert s.nonTtlCache[key].expiration.None?;
  }

  /** A second `Set` of the same key overwrites the first in both stores. */
  lemma LaterSetWins<V>(s: CacheState<V>, key: string, v1: V, t1: int, v2: V, t2: int)
    ensures s.Set(key, v1, t1).Set(key, v2, t2) == s.Set(key, v2, t2)
  {
    assert s.Set(key, v1, t1).Set(key, v2, t2).ttlCache == s.Set(key, v2, t2).ttlCache;
    assert s.Set(key, v1, t1).Set(key, v2, t2).nonTtlCache == s.Set(key, v2, t2).nonTtlCache;
  }

  /** A value set at `t` is returned by `Get` up to and including `t + ttl`; once that instant
      has passed `Get` misses while `GetIgnoreTTL` still returns it. */
  lemma ExpiryKeepsDurableCopy<V>(ttl: int, key: string, v: V, t: int, later: int)
    requires ttl > 0 && later > t + ttl
    ensures var s := NewWeatherCache<V>(ttl).Set(key, v, t);
      && s.Get(key, t + ttl) == Some(v)
      && s.Get(key, later) == None
      && s.GetIgnoreTTL(key, later) == Some(v)
  {
    var s := NewWeatherCache<V>(ttl).Set(key, v, t);
    assert s.ttlCache[key].expiration == Some(t + ttl);
  }

  /** One recorded call `Set(key, value)` made at time `at`. */
  datatype SetCall<V> = SetCall(key: string, value: V, at: int)

  /** The cache after the calls of `calls`, in order. */
  function Replay<V>(s: CacheState<V>, calls: seq<SetCall<V>>): (r: CacheState<V>)
    ensures r.ttl == s.ttl
  {
    if calls == [] then s
    else
      var c := calls[|calls| - 1];
      Replay(s, calls[..|calls| - 1]).Set(c.key, c.value, c.at)
  }

  /** The most recent call in `calls` that set `key`, if any. */
  function LastSet<V>(calls: seq<SetCall<V>>, key: string): (r: Option<SetCall<V>>)
    ensures r.Some? ==> r.value in calls && r.value.key == key
  {
    if calls == [] then None
    else if calls[|calls| - 1].key == key then Some(calls[|calls| - 1])
    else LastSet(calls[..|calls| - 1], key)
  }

  /** After any sequence of `Set` calls, the durable store holds, for every key, the value of
      the last call that set it, and a key that no call set keeps what it had before. */
  lemma {:induction false} ReplayDurableIsLastSet<V>(s: CacheState<V>, calls: seq<SetCall<V>>, key: string, now: int)
    requires s.Valid()
    ensures Replay(s, calls).Valid()
    ensures Replay(s, calls).GetIgnoreTTL(key, now) ==
      match LastSet(calls, key)
      case Some(c) => Some(c.value)
      case None => s.GetIgnoreTTL(key, now)
  {
    if calls != [] {
      ReplayDurableIsLastSet(s, calls[..|calls| - 1], key, now);
    }
  }

  /** After any sequence of `Set` calls, `Get` returns the value of the last call that set the
      key exactly while that call's TTL window is open, and nothing once it has closed. */
  lemma {:induction false} ReplayFreshIsLastSet<V>(s: CacheState<V>, calls: seq<SetCall<V>>, key: string, now: int)
    ensures Replay(s, calls).Get(key, now) ==
      match LastSet(calls, key)
      case Some(c) => if s.FreshAt(c.at, now) then Some(c.value) else None
      case None => s.Get(key, now)
  {
    if calls != [] {
      ReplayFreshIsLastSet(s, calls[..|calls| - 1], key, now);
    }
  }

  /** The cache object: two stores that `Set` updates in place. */
  class DefaultWeatherCache<V> {
    const ttl: int
    var ttlCache: map<string, Item<V>>
    var nonTtlCache: map<string, Item<V>>

    function State(): CacheState<V>
      reads this
    {
      CacheState(ttl, ttlCache, nonTtlCache)
    }

    ghost predicate Valid()
      reads this
    {
      State().Valid()
    }

    /** `NewWeatherCache(ttl)`: a TTL store with default expiration `ttl` and an empty store
        that never expires. */
    constructor (ttl: int)
      ensures State() == NewWeatherCache(ttl)
      ensures Valid()
    {
      this.ttl := ttl;
      ttlCache := map[];
      nonTtlCache := map[];
    }

    /** Reads the TTL store; an item past its expiration is not returned. Changes nothing. */
    method Get(key: string, now: int) returns (value: Option<V>)
      ensures value == State().Get(key, now)
    {
      value := None;
      if key in ttlCache {
        var item := ttlCache[key];
        if item.expiration.None? || now <= item.expiration.value {
          value := Some(item.value);
        }
      }
    }

    /** Reads the store whose items never expire. Changes nothing. */
    method GetIgnoreTTL(key: string, now: int) returns (value: Option<V>)
      ensures value == State().GetIgnoreTTL(key, now)
    {
      value := None;
      if key in nonTtlCache {
        var item := nonTtlCache[key];
        if item.expiration.None? || now <= item.expiration.value {
          value := Some(item.value);
        }
      }
    }

    /** Writes `value` under `key` into the TTL store (with the default TTL, counted from
        `now`) and into the store that never expires. */
    method Set(key: string, value: V, now: int)
      modifies this
      ensures State() == old(State()).Set(key, value, now)
      ensures old(Valid()) ==> Valid()
    {
      ttlCache := ttlCache[key := NewItem(value, ttl, now)];
      nonTtlCache := nonTtlCache[key := NewItem(value, NoExpiration, now)];
    }
  }
}
