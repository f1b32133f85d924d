/** The fallback chain of src/controller/weather_controller.go.

    A request for a location is answered, in this fixed order, from a fresh cache entry, from
    the primary fetcher through the primary breaker, from the failover fetcher through the
    failover breaker, from the stale cache entry, or with 404. `Lookup` is that chain as a
    function of the service state; `DefaultWeatherController.GetWeather` runs it in place on
    the cache and breaker objects. The fetchers are an oracle giving, per provider and
    location, the reading that `FetchWeather` would return, or None for any error (a timeout
    included). A request takes time: the cache is read when it arrives, and a live reading is
    stored when the fetch that produced it returns, so its TTL counts from then. */
module WeatherController {
  import opened Wrappers
  import opened Model
  import WeatherCache
  import Gobreaker

  const MessageSuccess: string := "Request successful"
  const MessageSuccessCache: string := "Request successful (cached)"
  const MessageFailureCache: string := "Request failure (cache is stale)"
  const MessageFailure: string := "Location could not be found"

  /** The location used when the request has no `city` query parameter. */
  const DefaultLocation: string := "Melbourne"

  /** The upstream weather providers. */
  datatype Provider = WeatherStack | OpenWeatherMap

  /** What each provider's fetcher returns for a location during one request. */
  type Fetch = (Provider, string) -> Option<Data>

  /** One fallback slot: a fetcher and the breaker it is called through. */
  datatype Upstream = Upstream(fetcher: Provider, breaker: Gobreaker.Breaker)

  /** The state a request reads and updates: the cache and both slots. */
  datatype ServiceState = ServiceState(cache: WeatherCache.CacheState<Data>, primary: Upstream, failover: Upstream)
  {
    ghost predicate Valid() {
      cache.Valid() && primary.breaker.Valid() && failover.breaker.Valid()
    }
  }

  /** How a request was answered. */
  datatype Outcome =
    | FreshCacheHit(reading: Data)
    | LiveSuccess(reading: Data, source: Provider)
    | StaleFallback(reading: Data)
    | NotFound

  /** gin's `DefaultQuery("city", "Melbourne")`: the parameter's value whenever it is present,
      even when empty, and Melbourne only when it is absent. */
  function Location(city: Option<string>): (location: string)
    ensures city.None? ==> location == DefaultLocation
    ensures city.Some? ==> location == city.value
  {
    match city
    case Some(c) => c
    case None => DefaultLocation
  }

  /** The status, message and data the controller sends for each outcome. */
  function Respond(o: Outcome): (w: Weather)
    ensures w.status == (if o.NotFound? then StatusNotFound else StatusOK)
    ensures w.data == (if o.NotFound? then None else Some(o.reading))
    ensures o.FreshCacheHit? <==> w.message == MessageSuccessCache
    ensures o.LiveSuccess? <==> w.message == MessageSuccess
    ensures o.StaleFallback? <==> w.message == MessageFailureCache
    ensures o.NotFound? <==> w.message == MessageFailure
  {
    match o
    case FreshCacheHit(d) => Weather(StatusOK, MessageSuccessCache, Some(d))
    case LiveSuccess(d, _) => Weather(StatusOK, MessageSuccess, Some(d))
    case StaleFallback(d) => Weather(StatusOK, MessageFailureCache, Some(d))
    case NotFound => Weather(StatusNotFound, MessageFailure, None)
  }

  /** The payload tells every outcome apart; only the provider of a live reading is not shown. */
  lemma ResponsesTellOutcomesApart(o1: Outcome, o2: Outcome)
    requires Respond(o1) == Respond(o2)
    ensures o1 == o2 || (o1.LiveSuccess? && o2.LiveSuccess? && o1.reading == o2.reading)
  {
  }

  /** The reading a slot yields for a request: its fetcher's reading when its breaker lets the
      call through, nothing when the breaker is open or the fetcher fails. */
  function Yield(up: Upstream, location: string, fetch: Fetch): Option<Data> {
    if up.breaker.state == Gobreaker.Closed then fetch(up.fetcher, location) else None
  }

  /** The times, in nanoseconds, at which a request reads the clock: when it arrives (the
      fresh-cache read), when the primary fetch returns and when the failover fetch returns
      (each the time a reading from that slot is stored, and the last also that of the stale
      read). */
  datatype Clock = Clock(arrival: int, primaryReturned: int, failoverReturned: int)

  /** What one `fetchWeather` call did. */
  datatype Attempt = Attempt(upstream: Upstream, cache: WeatherCache.CacheState<Data>, reading: Option<Data>, invoked: bool)

  /** `fetchWeather`: runs the slot's fetcher through the slot's breaker; on success the reading
      is stored under the location in both cache tiers at `returned`, the time the fetch
      returned. */
  function FetchFrom(cache: WeatherCache.CacheState<Data>, up: Upstream, location: string, fetch: Fetch, returned: int): (a: Attempt)
    ensures a.reading == Yield(up, location, fetch)
    ensures a.invoked <==> up.breaker.state == Gobreaker.Closed
    ensures a.cache == if a.reading.Some? then cache.Set(location, a.reading.value, returned) else cache
    ensures a.upstream == up.(breaker := up.breaker.Execute(fetch(up.fetcher, location)).next)
    ensures cache.Valid() && up.breaker.Valid() ==> a.cache.Valid() && a.upstream.breaker.Valid()
  {
    var e := up.breaker.Execute(fetch(up.fetcher, location));
    match e.result
    case Ok(d) => Attempt(up.(breaker := e.next), cache.Set(location, d, returned), Some(d), e.invoked)
    case Err(_) => Attempt(up.(breaker := e.next), cache, None, e.invoked)
  }

  /** What `GetWeather` did: the new state, the outcome, and the fetchers invoked, in order. */
  datatype Handled = Handled(next: ServiceState, outcome: Outcome, invoked: seq<Provider>)

  /** `GetWeather`: the fallback chain. */
  function Lookup(s: ServiceState, city: Option<string>, fetch: Fetch, clock: Clock): Handled
  {
    var location := Location(city);
    match s.cache.Get(location, clock.arrival)
    case Some(d) => Handled(s, FreshCacheHit(d), [])
    case None =>
      var p := FetchFrom(s.cache, s.primary, location, fetch, clock.primaryReturned);
      var tried := if p.invoked then [s.primary.fetcher] else [];
      if p.reading.Some? then
        Handled(s.(cache := p.cache, primary := p.upstream), LiveSuccess(p.reading.value, s.primary.fetcher), tried)
      else
        var f := FetchFrom(p.cache, s.failover, location, fetch, clock.failoverReturned);
        var s' := s.(cache := f.cache, primary := p.upstream, failover := f.upstream);
        var tried' := tried + if f.invoked then [s.failover.fetcher] else [];
        if f.reading.Some? then
          Handled(s', LiveSuccess(f.reading.value, s.failover.fetcher), tried')
        else
          match s'.cache.GetIgnoreTTL(location, clock.failoverReturned)
          case Some(d) => Handled(s', StaleFallback(d), tried')
          case None => Handled(s', NotFound, tried')
  }

  /** The fallback order as a decision on four observations: a fresh entry, what each slot
      yields, and the stale entry. */
  function Decide(cached: Option<Data>, primary: Option<Data>, failover: Option<Data>, stale: Option<Data>,
                  primaryFetcher: Provider, failoverFetcher: Provider): Outcome
  {
    if cached.Some? then FreshCacheHit(cached.value)
    else if primary.Some? then LiveSuccess(primary.value, primaryFetcher)
    else if failover.Some? then LiveSuccess(failover.value, failoverFetcher)
    else if stale.Some? then StaleFallback(stale.value)
    else NotFound
  }

  /** The outcome of every request follows the fixed fallback order: fresh cache, primary,
      failover, stale cache, not found. */
  lemma LookupFollowsFallbackOrder(s: ServiceState, city: Option<string>, fetch: Fetch, clock: Clock)
    ensures var location := Location(city);
      Lookup(s, city, fetch, clock).outcome ==
        Decide(s.cache.Get(location, clock.arrival), Yield(s.primary, location, fetch), Yield(s.failover, location, fetch),
               s.cache.GetIgnoreTTL(location, clock.failoverReturned), s.primary.fetcher, s.failover.fetcher)
  {
    var location := Location(city);
    var p := FetchFrom(s.cache, s.primary, location, fetch, clock.primaryReturned);
    var f := FetchFrom(p.cache, s.failover, location, fetch, clock.failoverReturned);
    assert p.reading == Yield(s.primary, location, fetch);
    if p.reading.None? {
      assert p.cache == s.cache;
      assert f.reading == Yield(s.failover, location, fetch);
    }
  }

  /** A fetcher is invoked only on a cache miss and only through a closed breaker; the primary
      goes first, the failover only after the primary yielded nothing, and neither twice. */
  lemma AttemptsInOrder(s: ServiceState, city: Option<string>, fetch: Fetch, clock: Clock)
    ensures var location := Location(city);
      var miss := s.cache.Get(location, clock.arrival).None?;
      var tryPrimary := miss && s.primary.breaker.state == Gobreaker.Closed;
      var tryFailover := miss && Yield(s.primary, location, fetch).None? && s.failover.breaker.state == Gobreaker.Closed;
      Lookup(s, city, fetch, clock).invoked ==
        (if tryPrimary then [s.primary.fetcher] else []) + (if tryFailover then [s.failover.fetcher] else [])
  {
    var location := Location(city);
    var p := FetchFrom(s.cache, s.primary, location, fetch, clock.primaryReturned);
    assert p.reading == Yield(s.primary, location, fetch);
    assert p.invoked == (s.primary.breaker.state == Gobreaker.Closed);
    if p.reading.None? {
      assert p.cache == s.cache;
    }
  }

  /** A live reading is stored under the location in both tiers, stamped with the time the
      fetch that produced it returned; no other outcome touches the cache. */
  lemma OnlyLiveReadingsAreCached(s: ServiceState, city: Option<string>, fetch: Fetch, clock: Clock)
    ensures var h := Lookup(s, city, fetch, clock);
      var storedAt := if Yield(s.primary, Location(city), fetch).Some? then clock.primaryReturned else clock.failoverReturned;
      h.next.cache == if h.outcome.LiveSuccess? then s.cache.Set(Location(city), h.outcome.reading, storedAt) else s.cache
  {
    var location := Location(city);
    var p := FetchFrom(s.cache, s.primary, location, fetch, clock.primaryReturned);
    if p.reading.None? {
      assert p.cache == s.cache;
    }
  }

  /** Each breaker is driven by the attempt made through it and by nothing else. */
  lemma BreakersFollowAttempts(s: ServiceState, city: Option<string>, fetch: Fetch, clock: Clock)
    ensures var location := Location(city);
      var h := Lookup(s, city, fetch, clock);
      var miss := s.cache.Get(location, clock.arrival).None?;
      var tryFailover := miss && Yield(s.primary, location, fetch).None?;
      && h.next.primary.fetcher == s.primary.fetcher
      && h.next.failover.fetcher == s.failover.fetcher
      && h.next.primary.breaker ==
           (if miss then s.primary.breaker.Execute(fetch(s.primary.fetcher, location)).next else s.primary.breaker)
      && h.next.failover.breaker ==
           (if tryFailover then s.failover.breaker.Execute(fetch(s.failover.fetcher, location)).next else s.failover.breaker)
  {
    var location := Location(city);
    var p := FetchFrom(s.cache, s.primary, location, fetch, clock.primaryReturned);
    assert p.reading == Yield(s.primary, location, fetch);
  }

  /** Every request keeps the cache and both breakers consistent. */
  lemma LookupKeepsValid(s: ServiceState, city: Option<string>, fetch: Fetch, clock: Clock)
    requires s.Valid()
    ensures Lookup(s, city, fetch, clock).next.Valid()
  {
    var location := Location(city);
    if s.cache.Get(location, clock.arrival).None? {
      var p := FetchFrom(s.cache, s.primary, location, fetch, clock.primaryReturned);
      if p.reading.None? {
        var f := FetchFrom(p.cache, s.failover, location, fetch, clock.failoverReturned);
        assert f.cache.Valid() && f.upstream.breaker.Valid();
      }
    }
  }

  /** Two requests for the same location, the first answered live by the primary: the TTL
      counts from when that fetch returned, so a second request arriving within the TTL of that
      moment is served from the cache without calling any fetcher, and one arriving later, with
      both fetchers failing, gets the stale reading. */
  lemma SecondRequestUsesTheFirstReading(s: ServiceState, city: Option<string>, fetch1: Fetch, fetch2: Fetch, c1: Clock, c2: Clock)
    requires s.cache.Valid() && s.cache.ttl > 0
    requires s.cache.Get(Location(city), c1.arrival).None? && s.primary.breaker.state == Gobreaker.Closed
    requires fetch1(s.primary.fetcher, Location(city)).Some?
    requires c2.arrival > c1.primaryReturned + s.cache.ttl ==>
      fetch2(s.primary.fetcher, Location(city)).None? && fetch2(s.failover.fetcher, Location(city)).None?
    ensures var d := fetch1(s.primary.fetcher, Location(city)).value;
      var h1 := Lookup(s, city, fetch1, c1);
      var h2 := Lookup(h1.next, city, fetch2, c2);
      && h1.outcome == LiveSuccess(d, s.primary.fetcher)
      && (c2.arrival <= c1.primaryReturned + s.cache.ttl ==> h2.outcome == FreshCacheHit(d) && h2.invoked == [])
      && (c2.arrival > c1.primaryReturned + s.cache.ttl ==> h2.outcome == StaleFallback(d))
  {
    var location := Location(city);
    var d := fetch1(s.primary.fetcher, location).value;
    var h1 := Lookup(s, city, fetch1, c1);
    LookupFollowsFallbackOrder(s, city, fetch1, c1);
    OnlyLiveReadingsAreCached(s, city, fetch1, c1);
    var c := h1.next.cache;
    assert c == s.cache.Set(location, d, c1.primaryReturned);
    assert c.GetIgnoreTTL(location, c2.failoverReturned) == Some(d);
    LookupFollowsFallbackOrder(h1.next, city, fetch2, c2);
    if c2.arrival <= c1.primaryReturned + s.cache.ttl {
      assert c.Get(location, c2.arrival) == Some(d);
      AttemptsInOrder(h1.next, city, fetch2, c2);
    } else {
      assert c.Get(location, c2.arrival) == None;
      assert h1.next.primary.fetcher == s.primary.fetcher && h1.next.failover.fetcher == s.failover.fetcher;
    }
  }

  /** One request of a sequence: its query parameter, what the fetchers return during it, and
      when it reads the clock. */
  datatype Request = Request(city: Option<string>, fetch: Fetch, clock: Clock)

  /** The state after a sequence of requests, and the outcome of each. */
  datatype Served = Served(state: ServiceState, outcomes: seq<Outcome>)

  function Serve(s: ServiceState, reqs: seq<Request>): (r: Served)
    ensures |r.outcomes| == |reqs|
  {
    if reqs == [] then Served(s, [])
    else
      var prior := Serve(s, reqs[..|reqs| - 1]);
      var r := reqs[|reqs| - 1];
      var h := Lookup(prior.state, r.city, r.fetch, r.clock);
      Served(h.next, prior.outcomes + [h.outcome])
  }

  /** The reading of the most recent request for `location` that was answered live. */
  function LastLive(reqs: seq<Request>, outcomes: seq<Outcome>, location: string): Option<Data>
    requires |reqs| == |outcomes|
  {
    if reqs == [] then None
    else
      var n := |reqs| - 1;
      if Location(reqs[n].city) == location && outcomes[n].LiveSuccess? then Some(outcomes[n].reading)
      else LastLive(reqs[..n], outcomes[..n], location)
  }

  /** After any sequence of requests, the stale tier holds for each location the reading of
      the last request for it that was answered live, or what it held before when none was. */
  lemma {:induction false} StaleTierHoldsLastLive(s: ServiceState, reqs: seq<Request>, location: string, t: int)
    requires s.Valid()
    ensures Serve(s, reqs).state.Valid()
    ensures Serve(s, reqs).state.cache.GetIgnoreTTL(location, t) ==
      match LastLive(reqs, Serve(s, reqs).outcomes, location)
      case Some(d) => Some(d)
      case None => s.cache.GetIgnoreTTL(location, t)
  {
    if reqs != [] {
      var n := |reqs| - 1;
      var prior := Serve(s, reqs[..n]);
      var r := reqs[n];
      StaleTierHoldsLastLive(s, reqs[..n], location, t);
      LookupKeepsValid(prior.state, r.city, r.fetch, r.clock);
      OnlyLiveReadingsAreCached(prior.state, r.city, r.fetch, r.clock);
      assert Serve(s, reqs).outcomes[..n] == prior.outcomes;
    }
  }

  /** Over any sequence of requests, a cached or stale answer carries the reading of the last
      live answer for that location (or what the cache held at the start), and 404 is given
      only for a location that no earlier request obtained a reading for. */
  lemma CachedAnswersAreLastLiveReadings(s: ServiceState, reqs: seq<Request>, r: Request)
    requires s.Valid()
    ensures var prior := Serve(s, reqs);
      var location := Location(r.city);
      var last := match LastLive(reqs, prior.outcomes, location)
                  case Some(d) => Some(d)
                  case None => s.cache.GetIgnoreTTL(location, r.clock.arrival);
      var o := Lookup(prior.state, r.city, r.fetch, r.clock).outcome;
      && ((o.FreshCacheHit? || o.StaleFallback?) ==> last == Some(o.reading))
      && (o.NotFound? ==> last == None)
  {
    var prior := Serve(s, reqs);
    var location := Location(r.city);
    StaleTierHoldsLastLive(s, reqs, location, r.clock.failoverReturned);
    WeatherCache.DurableStoreNeverExpires(s.cache, location, r.clock.arrival, r.clock.failoverReturned);
    LookupFollowsFallbackOrder(prior.state, r.city, r.fetch, r.clock);
    if prior.state.cache.Get(location, r.clock.arrival).Some? {
      WeatherCache.FreshHitIsDurable(prior.state.cache, location, r.clock.arrival, r.clock.failoverReturned);
    }
  }

  /** The controller object: the cache and the two slots, each a fetcher and its own breaker. */
  class DefaultWeatherController {
    const primary: Provider
    const failover: Provider
    const cbPrimary: Gobreaker.CircuitBreaker
    const cbFailover: Gobreaker.CircuitBreaker
    const weatherCache: WeatherCache.DefaultWeatherCache<Data>

    function State(): ServiceState
      reads this, weatherCache, cbPrimary, cbFailover
    {
      ServiceState(weatherCache.State(), Upstream(primary, cbPrimary.Model()), Upstream(failover, cbFailover.Model()))
    }

    /** `NewWeatherController`: keeps the fetchers and breakers it is given and builds a fresh
        cache with the configured TTL. */
    constructor (ttl: int, primary: Provider, failover: Provider,
                 cbPrimary: Gobreaker.CircuitBreaker, cbFailover: Gobreaker.CircuitBreaker)
      ensures this.primary == primary && this.failover == failover
      ensures this.cbPrimary == cbPrimary && this.cbFailover == cbFailover
      ensures fresh(weatherCache) && weatherCache.State() == WeatherCache.NewWeatherCache(ttl)
    {
      this.primary := primary;
      this.failover := failover;
      this.cbPrimary := cbPrimary;
      this.cbFailover := cbFailover;
      weatherCache := new WeatherCache.DefaultWeatherCache(ttl);
    }

    /** `GetWeather`: answers one request, updating the cache and the breakers in place. */
    method GetWeather(city: Option<string>, fetch: Fetch, clock: Clock) returns (response: Weather, invoked: seq<Provider>)
      requires cbPrimary != cbFailover
      modifies weatherCache, cbPrimary, cbFailover
      ensures State() == Lookup(old(State()), city, fetch, clock).next
      ensures response == Respond(Lookup(old(State()), city, fetch, clock).outcome)
      ensures invoked == Lookup(old(State()), city, fetch, clock).invoked
    {
      var location := Location(city);

      var cached := weatherCache.Get(location, clock.arrival);
      if cached.Some? {
        return Weather(StatusOK, MessageSuccessCache, cached), [];
      }

      var fetched, called := FetchWeather(cbPrimary, primary, location, fetch, clock.primaryReturned);
      invoked := if called then [primary] else [];
      if fetched.Some? {
        return fetched.value, invoked;
      }

      fetched, called := FetchWeather(cbFailover, failover, location, fetch, clock.failoverReturned);
      invoked := invoked + if called then [failover] else [];
      if fetched.Some? {
        return fetched.value, invoked;
      }

      var fallback := weatherCache.GetIgnoreTTL(location, clock.failoverReturned);
      if fallback.Some? {
        return Weather(StatusOK, MessageFailureCache, fallback), invoked;
      }

      response := Weather(StatusNotFound, MessageFailure, None);
    }

    /** `fetchWeather`: calls the fetcher through the breaker; on success stores the reading in
        the cache at `returned`, the time the fetch returned, and returns the 200 response; on
        any failure returns nothing. */
    method FetchWeather(cb: Gobreaker.CircuitBreaker, fetcher: Provider, location: string, fetch: Fetch, returned: int)
      returns (response: Option<Weather>, invoked: bool)
      modifies cb, weatherCache
      ensures var a := FetchFrom(old(weatherCache.State()), Upstream(fetcher, old(cb.Model())), location, fetch, returned);
        && cb.Model() == a.upstream.breaker
        && weatherCache.State() == a.cache
        && invoked == a.invoked
        && response == if a.reading.Some? then Some(Weather(StatusOK, MessageSuccess, a.reading)) else None
    {
      var res;
      res, invoked := cb.Execute(fetch(fetcher, location));
      if res.Err? {
        return None, invoked;
      }
      weatherCache.Set(location, res.value, returned);
      response := Some(Weather(StatusOK, MessageSuccess, Some(res.value)));
    }
  }
}
