/**
 * Clients that use only the contracts of the breaker and of the service:
 * the breaker configured as the service configures it opens when a full
 * window holds six failures, refuses requests, and turns HALF-OPEN on the
 * first push after the cooldown; a guarded search made while it is open
 * skips the weather call and records one outcome.
 */
module Scenarios {
  import opened CircuitBreaker
  import opened Aggregator

  /** Push `v` at `now` into a breaker whose window is still filling. */
  method Fill(b: Breaker, v: Outcome, now: int)
    requires b.Valid() && b.state == Closed && |b.outcomes| + 1 < b.windowSize
    modifies b
    ensures b.Valid() && b.Snapshot() == old(b.Snapshot()).(outcomes := old(b.outcomes) + [v])
    ensures |b.outcomes| == old(|b.outcomes|) + 1 && Sum(b.outcomes) == old(Sum(b.outcomes)) + v
  {
    SumAppend(b.outcomes, v);
    PushWhileFilling(b.Cfg(), b.Snapshot(), v, now);
    b.PushOutcome(v, now);
  }

  /** Six failures then three successes into a fresh breaker: still CLOSED, nine outcomes, six failures. */
  method FillNine(b: Breaker)
    requires b.Valid() && b.Snapshot() == Initial && b.Cfg() == Config(10, 0.4, 20000, 5, 3)
    modifies b
    ensures b.Valid() && b.state == Closed && |b.outcomes| == 9 && Sum(b.outcomes) == 6
  {
    Fill(b, 1, 0);
    Fill(b, 1, 1);
    Fill(b, 1, 2);
    Fill(b, 1, 3);
    Fill(b, 1, 4);
    Fill(b, 1, 5);
    Fill(b, 0, 6);
    Fill(b, 0, 7);
    Fill(b, 0, 8);
  }

  /** The tenth push, a success, completes the window at rate 0.6 and opens the breaker. */
  method TripOnTenthPush(b: Breaker)
    requires b.Valid() && b.state == Closed && |b.outcomes| == 9 && Sum(b.outcomes) == 6
    requires b.Cfg() == Config(10, 0.4, 20000, 5, 3)
    modifies b
    ensures b.Valid() && b.state == Open && b.lastOpenedAt == 9
  {
    SumAppend(b.outcomes, 0);
    PushFromClosed(b.Cfg(), b.Snapshot(), 0, 9);
    b.PushOutcome(0, 9);
    assert |b.outcomes| == 10 && Sum(b.outcomes) == 6;
  }

  method BreakerTripsAndCoolsDown()
  {
    var b := new Breaker(10, 0.4, 20000, 5, 3);
    FillNine(b);
    TripOnTenthPush(b);
    var allowed := b.AllowRequest();
    assert !allowed;
    PushFromOpen(b.Cfg(), b.Snapshot(), 0, 20009);
    b.PushOutcome(0, 20009);
    assert b.state == Open;
    PushFromOpen(b.Cfg(), b.Snapshot(), 0, 21009);
    b.PushOutcome(0, 21009);
    assert b.state == HalfOpen && b.halfOpenProbes == 0;
  }

  /** A guarded search whose weather call fails while the breaker's window is still filling. */
  method FailWhileFilling(service: AggregatorService, now: int)
    requires service.Valid() && service.weatherBreaker.state == Closed
    requires |service.weatherBreaker.outcomes| + 1 < service.weatherBreaker.windowSize
    modifies service.weatherBreaker
    ensures service.Valid() && service.weatherBreaker.state == Closed
    ensures |service.weatherBreaker.outcomes| == old(|service.weatherBreaker.outcomes|) + 1
    ensures Sum(service.weatherBreaker.outcomes) == old(Sum(service.weatherBreaker.outcomes)) + 1
  {
    var b := service.weatherBreaker;
    PushWhileFilling(b.Cfg(), b.Snapshot(), 1, now);
    SumAppend(b.outcomes, 1);
    ProbeOutsideHalfOpen(b.Cfg(), Push(b.Cfg(), b.Snapshot(), 1, now), false, now);
    var r, issued := service.SearchTripsCB("CMB", "BKK", "2025-01-01", Rejected, Rejected, Rejected, now);
  }

  /** Ten failed weather calls from a fresh breaker open it at the tenth. */
  method TripWeatherBreaker(service: AggregatorService)
    requires service.Valid() && service.weatherBreaker.Snapshot() == Initial
    requires service.weatherBreaker.Cfg() == Config(10, 0.4, 20000, 5, 3)
    modifies service.weatherBreaker
    ensures service.Valid() && service.weatherBreaker.state == Open
    ensures service.weatherBreaker.lastOpenedAt == 9 && |service.weatherBreaker.outcomes| == 10
  {
    var b := service.weatherBreaker;
    FailWhileFilling(service, 0);
    FailWhileFilling(service, 1);
    FailWhileFilling(service, 2);
    FailWhileFilling(service, 3);
    FailWhileFilling(service, 4);
    FailWhileFilling(service, 5);
    FailWhileFilling(service, 6);
    FailWhileFilling(service, 7);
    FailWhileFilling(service, 8);
    assert |b.outcomes| == 9 && Sum(b.outcomes) == 9;
    // The tenth failure fills the window: the breaker opens, and the probe report is ignored.
    SumAppend(b.outcomes, 1);
    PushFromClosed(b.Cfg(), b.Snapshot(), 1, 9);
    ProbeOutsideHalfOpen(b.Cfg(), Push(b.Cfg(), b.Snapshot(), 1, 9), false, 9);
    var r, issued := service.SearchTripsCB("CMB", "BKK", "2025-01-01", Rejected, Rejected, Rejected, 9);
  }

  method GuardedSearchWhileOpen(flight: Settled<FlightList>, hotel: Settled<HotelList>, weather: Settled<Forecast>)
  {
    var service := new AggregatorService();
    var b := service.weatherBreaker;
    TripWeatherBreaker(service);
    // Within the cooldown the weather call is skipped and one success outcome is recorded.
    ghost var before := b.outcomes;
    PushFromOpen(b.Cfg(), b.Snapshot(), 0, 10);
    SlideKeepsLastOutcomes(b.Cfg(), b.outcomes, 0);
    var r, issued := service.SearchTripsCB("CMB", "BKK", "2025-01-01", flight, hotel, weather, 10);
    assert |issued| == 2 && ForecastWeather("BKK", "2025-01-01") !in issued;
    assert r.weather == WeatherUnavailable(false, WeatherBreakerOpen) && r.degraded;
    assert b.outcomes == before[1..] + [0];
    assert b.state == Open;
  }
}
