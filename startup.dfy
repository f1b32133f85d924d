/** The wiring of src/main.go: each upstream slot gets its own breaker, whose `ReadyToTrip`
    closure trips on a minimum number of requests and a failure ratio, both compared
    inclusively; the primary slot is Weather Stack and the failover slot Open Weather Map.
    Times and durations are in nanoseconds, as Go's `time.Duration` is. */
module Startup {
  import opened Wrappers
  import opened Model
  import WeatherCache
  import Gobreaker
  import opened WeatherController

  const Second: int := 1_000_000_000

  /** The fields of the configuration that the lookup path reads. */
  datatype WeatherConfig = WeatherConfig(
    cacheTtlSeconds: int,
    primaryRequests: nat,
    primaryFailureRatio: real,
    failoverRequests: nat,
    failoverFailureRatio: real)

  /** The configuration's defaults: a 3 s TTL, and 3 requests at a 0.6 failure ratio for both
      breakers. */
  const DefaultConfig: WeatherConfig := WeatherConfig(3, 3, 0.6, 3, 0.6)

  /** On the counts a breaker actually keeps, nothing trips before any request was made. */
  lemma NoTripWithoutRequests(counts: Gobreaker.Counts, minRequests: nat, failureRatio: real)
    requires counts.Tallied()
    ensures Gobreaker.FailureRatioReached(counts, minRequests, failureRatio) ==> counts.requests > 0
  {
  }

  /** With the default thresholds, 2 failures in 3 requests trip, 1 in 3 does not, 2 requests
      never do even if both failed, and 3 failures in 5 requests (exactly 0.6) trip. */
  lemma DefaultThresholdExamples()
    ensures Gobreaker.FailureRatioReached(Gobreaker.Counts(3, 1, 2), DefaultConfig.primaryRequests, DefaultConfig.primaryFailureRatio)
    ensures !Gobreaker.FailureRatioReached(Gobreaker.Counts(3, 2, 1), DefaultConfig.primaryRequests, DefaultConfig.primaryFailureRatio)
    ensures !Gobreaker.FailureRatioReached(Gobreaker.Counts(2, 0, 2), DefaultConfig.primaryRequests, DefaultConfig.primaryFailureRatio)
    ensures Gobreaker.FailureRatioReached(Gobreaker.Counts(5, 2, 3), DefaultConfig.primaryRequests, DefaultConfig.primaryFailureRatio)
  {
  }

  /** The primary breaker's settings: named after Weather Stack, tripping on the primary
      thresholds. */
  function PrimarySettings(cfg: WeatherConfig): Gobreaker.Settings {
    Gobreaker.Settings("Weather Stack (primary)", cfg.primaryRequests, cfg.primaryFailureRatio)
  }

  /** The failover breaker's settings: named after Open Weather Map, tripping on the failover
      thresholds. */
  function FailoverSettings(cfg: WeatherConfig): Gobreaker.Settings {
    Gobreaker.Settings("Open Weather Map (failover)", cfg.failoverRequests, cfg.failoverFailureRatio)
  }

  /** The service state `main` starts with. */
  function Wire(cfg: WeatherConfig): (s: ServiceState)
    ensures s.primary.fetcher == WeatherStack && s.failover.fetcher == OpenWeatherMap
    ensures s.primary.breaker.state == Gobreaker.Closed && s.failover.breaker.state == Gobreaker.Closed
    ensures s.cache == WeatherCache.NewWeatherCache(cfg.cacheTtlSeconds * Second)
  {
    ServiceState(
      WeatherCache.NewWeatherCache(cfg.cacheTtlSeconds * Second),
      Upstream(WeatherStack, Gobreaker.NewCircuitBreaker(PrimarySettings(cfg))),
      Upstream(OpenWeatherMap, Gobreaker.NewCircuitBreaker(FailoverSettings(cfg))))
  }

  /** The state `main` starts with is consistent: an empty cache and two new breakers. */
  lemma WireIsValid(cfg: WeatherConfig)
    ensures Wire(cfg).Valid()
  {
    Gobreaker.NewBreakerIsValid(PrimarySettings(cfg));
    Gobreaker.NewBreakerIsValid(FailoverSettings(cfg));
  }

  /** Each breaker trips on its own slot's thresholds, inclusively on both: the primary on
      `primaryRequests` and `primaryFailureRatio`, the failover on `failoverRequests` and
      `failoverFailureRatio`. */
  lemma EachBreakerTripsOnItsOwnThresholds(cfg: WeatherConfig, c: Gobreaker.Counts)
    requires c.Tallied()
    ensures Wire(cfg).primary.breaker.settings.ReadyToTrip(c) <==>
      c.requests >= cfg.primaryRequests && c.requests > 0 &&
      c.totalFailures as real >= cfg.primaryFailureRatio * c.requests as real
    ensures Wire(cfg).failover.breaker.settings.ReadyToTrip(c) <==>
      c.requests >= cfg.failoverRequests && c.requests > 0 &&
      c.totalFailures as real >= cfg.failoverFailureRatio * c.requests as real
  {
  }

  /** Changing one slot's thresholds leaves the other slot's breaker exactly as it was. */
  lemma ThresholdsAreIndependent(cfg1: WeatherConfig, cfg2: WeatherConfig, c: Gobreaker.Counts)
    ensures cfg1.failoverRequests == cfg2.failoverRequests && cfg1.failoverFailureRatio == cfg2.failoverFailureRatio ==>
      Wire(cfg1).failover.breaker.settings.ReadyToTrip(c) == Wire(cfg2).failover.breaker.settings.ReadyToTrip(c)
    ensures cfg1.primaryRequests == cfg2.primaryRequests && cfg1.primaryFailureRatio == cfg2.primaryFailureRatio ==>
      Wire(cfg1).primary.breaker.settings.ReadyToTrip(c) == Wire(cfg2).primary.breaker.settings.ReadyToTrip(c)
  {
  }

  /** A fresh breaker with the default thresholds (as `Wire(DefaultConfig)` builds both):
      a success then two failures open it on the third call, after which a further call fails
      fast without invoking the fetcher. */
  lemma DefaultBreakerTripsOnSecondFailure(d: Data, b0: Gobreaker.Breaker)
    requires b0.state == Gobreaker.Closed && b0.counts == Gobreaker.Counts(0, 0, 0)
    requires b0.settings.minRequests == DefaultConfig.primaryRequests
    requires b0.settings.failureRatio == DefaultConfig.primaryFailureRatio
    ensures var b := b0.Execute(Some(d)).next.Execute<Data>(None).next.Execute<Data>(None).next;
      && b.state == Gobreaker.Open
      && !b.Execute(Some(d)).invoked
      && b.Execute(Some(d)).result == Gobreaker.Err(Gobreaker.ErrOpenState)
  {
    var b1 := b0.(counts := Gobreaker.Counts(1, 1, 0));
    var b2 := b1.(counts := Gobreaker.Counts(2, 1, 1));
    Gobreaker.ClosedSuccess(b0, d);
    Gobreaker.ClosedFailure<Data>(b1);
    Gobreaker.ClosedFailure<Data>(b2);
  }

  /** A fresh breaker with the default thresholds: two failures then a success leave it closed
      at 2 failures in 3 requests, because only a failure asks `ReadyToTrip`; a further failure
      (3 in 4) opens it. */
  lemma DefaultBreakerChecksOnlyOnFailure(d: Data, b0: Gobreaker.Breaker)
    requires b0.state == Gobreaker.Closed && b0.counts == Gobreaker.Counts(0, 0, 0)
    requires b0.settings.minRequests == DefaultConfig.primaryRequests
    requires b0.settings.failureRatio == DefaultConfig.primaryFailureRatio
    ensures var b := b0.Execute<Data>(None).next.Execute<Data>(None).next.Execute(Some(d)).next;
      && b.state == Gobreaker.Closed
      && b.counts == Gobreaker.Counts(3, 1, 2)
      && b.Execute<Data>(None).next.state == Gobreaker.Open
  {
    var b1 := b0.(counts := Gobreaker.Counts(1, 0, 1));
    var b2 := b1.(counts := Gobreaker.Counts(2, 0, 2));
    var b3 := b2.(counts := Gobreaker.Counts(3, 1, 2));
    Gobreaker.ClosedFailure<Data>(b0);
    Gobreaker.ClosedFailure<Data>(b1);
    Gobreaker.ClosedSuccess(b2, d);
    Gobreaker.ClosedFailure<Data>(b3);
  }

  /** `main`: builds the two breakers and the controller, pairing Weather Stack with the
      primary breaker and Open Weather Map with the failover breaker. */
  method NewService(cfg: WeatherConfig) returns (c: DefaultWeatherController)
    ensures fresh(c) && fresh(c.cbPrimary) && fresh(c.cbFailover) && fresh(c.weatherCache)
    ensures c.cbPrimary != c.cbFailover
    ensures c.State() == Wire(cfg)
  {
    var cbPrimary := new Gobreaker.CircuitBreaker(PrimarySettings(cfg));
    var cbFailover := new Gobreaker.CircuitBreaker(FailoverSettings(cfg));
    c := new DefaultWeatherController(cfg.cacheTtlSeconds * Second, WeatherStack, OpenWeatherMap, cbPrimary, cbFailover);
  }
}
