# zai-weather: the resilient lookup path

This project models the part of the zai-weather service that answers a weather request.
Each request names a location, by default Melbourne. The service answers it from one of
five sources, tried in a fixed order:

- a fresh entry in the two-tier cache;
- the primary provider (Weather Stack), called through its own circuit breaker;
- the failover provider (Open Weather Map), called through its own circuit breaker;
- the stale copy in the cache's durable tier;
- otherwise a 404.

Modules:

- `WeatherCache` (weather_cache.dfy) models `DefaultWeatherCache`.
  - It has two go-cache stores, one with a TTL and one that never expires.
  - `CacheState` is the pure model. The class `DefaultWeatherCache` updates its two maps in place.
  - Expiry is lazy and strict: an item is gone once `now > setAt + ttl`. A TTL of zero or less never expires.
  - Time is an explicit `now` in nanoseconds.
- `Gobreaker` (gobreaker.dfy) models the part of `sony/gobreaker` the service relies on.
  - A breaker is Closed or Open.
  - The counts of the current generation are kept.
  - The `ReadyToTrip` closure installed by `main` is given by its two thresholds.
  - `Breaker` is the pure model. The class `CircuitBreaker` updates state and counts in place.
- `WeatherController` (weather_controller.dfy) models `GetWeather` and `fetchWeather`.
  - `Lookup` is the fallback chain as a function of the service state.
  - `DefaultWeatherController.GetWeather` runs the chain on the cache and breaker objects and is proved equal to `Lookup`.
  - The fetchers are an oracle `Fetch`. For each provider and location it gives the reading the fetcher would return, or `None` for any error, a timeout included.
- `Startup` (startup.dfy) models `main`'s wiring.
  - It builds the two breakers with their own thresholds.
  - It pairs Weather Stack with the primary breaker and Open Weather Map with the failover breaker.
  - It builds the controller with a cache TTL of `CacheTTLSeconds` seconds.
- `Model` (model.dfy) holds the `Weather` and `Data` records. `Wrappers` (wrappers.dfy) holds `Option`.

Two behaviours of the breakers are worth knowing when reading the model:

- **Trip check.** gobreaker asks `ReadyToTrip` only after a failure, never after a success. So two failures and then a success (2 of 3, ratio 0.67) leave the breaker Closed. `Startup.DefaultBreakerChecksOnlyOnFailure` states this.
- **Open timeout.** `main` sets no `Timeout`, so gobreaker's 60 s Open timeout and its half-open state apply. They are not modelled (see "Left out").

A request takes time, and the model says when each step reads the clock (`WeatherController.Clock`):

- the fresh-cache read happens when the request arrives;
- a live reading is stored when the fetch that produced it returns, so its TTL counts from then.

## Model

| member | source | states |
|---|---|---|
| WeatherCache.NewWeatherCache | src/cache/weather_cache.go:25-30 | a new cache keeps the given TTL, is consistent, and neither `Get` nor `GetIgnoreTTL` finds any key at any time |
| WeatherCache.CacheState.Set | src/cache/weather_cache.go:43-46 | after `Set(k, v, now)`, `GetIgnoreTTL(k)` returns `v` at every time; `Get(k)` returns `v` exactly while `now + ttl` has not passed, so the TTL clock restarts; every other key reads as before in both stores; consistency is kept |
| WeatherCache.DurableStoreNeverExpires | src/cache/weather_cache.go:38-40 | what `GetIgnoreTTL` returns does not depend on the time of the read |
| WeatherCache.FreshHitIsDurable | src/cache/weather_cache.go:33-40 | whenever `Get` finds a value, `GetIgnoreTTL` finds the same value at any time |
| WeatherCache.LaterSetWins | src/cache/weather_cache.go:43-46 | a second `Set` of a key replaces the first in both stores |
| WeatherCache.ExpiryKeepsDurableCopy | src/cache/weather_cache_test.go:26-48 | a value set at `t` is found by `Get` up to `t + ttl`; after that `Get` misses while `GetIgnoreTTL` still returns it |
| WeatherCache.ReplayDurableIsLastSet | src/cache/weather_cache.go:43-46 | after any sequence of `Set` calls, the durable store holds each key's last set value, or what it held before; consistency is kept |
| WeatherCache.ReplayFreshIsLastSet | src/cache/weather_cache.go:33-46 | after any sequence of `Set` calls, `Get` returns the last set value exactly while that call's TTL window is open |
| WeatherCache.DefaultWeatherCache.constructor | src/cache/weather_cache.go:25-30 | the object starts as `NewWeatherCache(ttl)` |
| WeatherCache.DefaultWeatherCache.Get | src/cache/weather_cache.go:33-35 | returns the model's `Get` and changes nothing |
| WeatherCache.DefaultWeatherCache.GetIgnoreTTL | src/cache/weather_cache.go:38-40 | returns the model's `GetIgnoreTTL` and changes nothing |
| WeatherCache.DefaultWeatherCache.Set | src/cache/weather_cache.go:43-46 | the new state is the model's `Set` of the old one; consistency is kept |
| Gobreaker.QuotientAtLeast | src/main.go:36-37 | for a positive request count, `failures / requests >= ratio` holds exactly when `failures >= ratio * requests` |
| Gobreaker.FailureRatioReached | src/main.go:35-38 | trips exactly when requests reach the minimum and the failure ratio reaches the threshold (both inclusive), written without division; with no requests it trips only if there were failures (float +Inf) and not on 0/0 (NaN) |
| Gobreaker.Breaker.Execute | src/controller/weather_controller.go:120-125 | the operation is invoked exactly when the breaker is Closed; an Open breaker returns `ErrOpenState` and is unchanged; the result is the operation's value exactly when it was invoked and succeeded; the breaker opens exactly on a failure whose counts make `ReadyToTrip` hold, and the new counts are given; settings and consistency are kept |
| Gobreaker.NewCircuitBreaker | src/main.go:32-40 | a new breaker is Closed, keeps its settings and starts with zero counts |
| Gobreaker.NewBreakerIsValid | src/main.go:32-40 | a new breaker is consistent: its counts tally |
| Gobreaker.DriveKeepsValid | src/main.go:32-49 | over any sequence of calls a breaker's counts keep tallying and an Open breaker has zero counts |
| Gobreaker.SuccessesKeepClosed | src/main.go:35-38 | a run of successes never opens a Closed breaker and adds each of them to the requests and successes |
| Gobreaker.OpenStaysOpen | src/controller/weather_controller.go:120-125 | an Open breaker stays unchanged over any sequence of calls and invokes none of them |
| Gobreaker.CircuitBreaker.constructor | src/main.go:32-40 | the object starts Closed with zero counts and the given settings |
| Gobreaker.CircuitBreaker.Execute | src/controller/weather_controller.go:120-122 | the new state, the result and whether the operation ran are the model's `Execute`; consistency is kept |
| WeatherController.Location | src/controller/weather_controller.go:73 | the `city` parameter when present, even when empty, and "Melbourne" when absent |
| WeatherController.Respond | src/controller/weather_controller.go:76-106 | status 404 exactly for NotFound, else 200; data present exactly when a reading was found; each of the four messages is sent exactly for its own outcome |
| WeatherController.ResponsesTellOutcomesApart | src/controller/weather_controller.go:19-25 | two outcomes with the same response are equal, except that the provider of a live reading is not shown |
| WeatherController.FetchFrom | src/controller/weather_controller.go:110-134 | the reading is the fetcher's when the breaker is Closed; the fetcher runs exactly then; a reading is stored under the location, stamped with the time the fetch returned, and nothing else is stored; the breaker is the one `Execute` leaves; consistency is kept |
| WeatherController.LookupFollowsFallbackOrder | src/controller/weather_controller.go:72-107 | every outcome is the first of fresh cache (read at arrival), primary, failover, stale cache, not found that yields a reading |
| WeatherController.AttemptsInOrder | src/controller/weather_controller.go:83-91 | the fetchers invoked are the primary on a miss through a Closed breaker, then the failover only after the primary yielded nothing; none on a fresh hit; neither twice |
| WeatherController.OnlyLiveReadingsAreCached | src/controller/weather_controller.go:126-132 | a live reading is stored under the location, stamped with the time the primary's or the failover's fetch returned, whichever produced it, so its TTL counts from then; every other outcome leaves the cache unchanged |
| WeatherController.BreakersFollowAttempts | src/controller/weather_controller.go:84-91 | each breaker changes only by the `Execute` made through it, and the fetcher of each slot is kept |
| WeatherController.LookupKeepsValid | src/controller/weather_controller.go:72-107 | every request keeps the cache and both breakers consistent |
| WeatherController.SecondRequestUsesTheFirstReading | src/controller/weather_controller_test.go:86-141 | after the primary answers a request live, a repeat arriving within the TTL of when that fetch returned is a fresh hit with no fetch, and a later repeat with both providers failing gets the stale reading |
| WeatherController.StaleTierHoldsLastLive | src/controller/weather_controller.go:93-99 | after any sequence of requests, the stale tier holds each location's last live reading, or what it held before |
| WeatherController.CachedAnswersAreLastLiveReadings | src/controller/weather_controller.go:72-107 | over any sequence of requests, a cached or stale answer carries the last live reading for the location, and 404 is sent only where none was ever obtained |
| WeatherController.DefaultWeatherController.constructor | src/controller/weather_controller.go:46-64 | keeps the fetchers and breakers it is given and builds a fresh empty cache with the given TTL |
| WeatherController.DefaultWeatherController.GetWeather | src/controller/weather_controller.go:72-107 | the new cache and breakers, the response and the fetchers invoked are those of `Lookup` for the same clock readings |
| WeatherController.DefaultWeatherController.FetchWeather | src/controller/weather_controller.go:110-134 | the breaker, the cache and whether the fetcher ran are those of `FetchFrom`; the response is 200 "Request successful" with the reading on success and nothing on failure |
| Startup.NoTripWithoutRequests | src/main.go:35-38 | on tallied counts the trip rule never holds before a request was made |
| Startup.DefaultThresholdExamples | src/config/weather_config.go:20-23 | with 3 requests and ratio 0.6: 2 failures of 3 trip, 1 of 3 does not, 2 of 2 does not (too few requests), 3 of 5 trips (ratio exactly 0.6) |
| Startup.Wire | src/main.go:27-50 | Weather Stack is primary and Open Weather Map failover, both breakers are Closed, and the cache is a new empty one with a TTL of `CacheTTLSeconds` seconds |
| Startup.WireIsValid | src/main.go:27-50 | the service `main` wires is consistent: an empty cache and two new breakers |
| Startup.EachBreakerTripsOnItsOwnThresholds | src/main.go:32-49 | the primary breaker trips exactly on the primary thresholds and the failover breaker exactly on the failover thresholds, both inclusive |
| Startup.ThresholdsAreIndependent | src/main.go:32-49 | for any two configurations, changing one slot's thresholds does not change when the other slot's breaker trips |
| Startup.DefaultBreakerTripsOnSecondFailure | src/main.go:35-38 | with the default thresholds, a success then two failures open the breaker, after which a call fails fast with `ErrOpenState` without invoking the fetcher |
| Startup.DefaultBreakerChecksOnlyOnFailure | src/main.go:35-38 | with the default thresholds, two failures then a success leave the breaker Closed at 2 of 3, and a further failure opens it |
| Startup.NewService | src/main.go:27-50 | builds two distinct fresh breakers and a controller whose state is `Wire(cfg)` |

## Left out

- HTTP handling, gin and the JSON encoding are transport plumbing and are not modelled. The response is the `Weather` value the controller would render.
- The provider fetchers are network clients. They are replaced by the oracle `Fetch`, with one reading or one failure per provider and location for each request.
- Context timeouts and cancellation are not modelled. A timed-out fetch is a failure of the oracle. The timeout settings are left out of `WeatherConfig`.
- The system clock is not modelled. Each request is given the times at which it reads the clock (`Clock`): its arrival and the return of each fetch. Nothing ties these times to the timeouts.
- Loading the configuration from the environment is not modelled. The TTL and the thresholds are parameters of `WeatherConfig`.
- go-cache's janitor is not modelled. It deletes expired items every `10*ttl`, but expiry on read already hides them, so a reader sees the same results.
- Locks and concurrency in go-cache and gobreaker are not modelled, and neither is logging. Requests are handled one at a time.
- gobreaker's half-open state, its Open-state timeout (60 s by default) and its Closed-state interval are not modelled, so an Open breaker stays Open in the model. The consecutive-run counters are not kept, because no trip rule here reads them.
- Gobreaker.Settings: other `ReadyToTrip` closures are not modelled. Settings hold only the two thresholds `main` installs, so gobreaker's default closure and the one-failure closure of the controller tests are not modelled.
- Gobreaker.FailureRatioReached: float64 rounding and uint32 wrap-around of the counts are not modelled. Counts are unbounded and the ratio is an exact real.
- WeatherController.DefaultWeatherController.GetWeather: requires the two breakers to be distinct objects, as `main` builds them. The model does not cover one breaker shared by both slots.
- The cache stores a pointer to the response. The controller overwrites that record's `Message` on a cached or stale answer before sending it. The model stores the reading and builds each response afresh with the message of the path taken, which is what every response shows.
- `Respond` covers the fields the client receives. The 200 status written into a fetched record is fixed by `FetchWeather`'s contract.
