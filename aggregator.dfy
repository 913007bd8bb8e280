/**
 * The five orchestration strategies of the aggregator service.
 *
 * Every downstream call is given as its settled result: `Fulfilled` with the
 * response body, or `Rejected` for a transport failure or a timeout (the
 * timeout race settles as a rejection).  Each strategy returns its result
 * record together with the calls it actually issued, in order, so that "the
 * hotel service is not called when the flight call fails" can be stated.
 */
module Aggregator {
  import opened CircuitBreaker

  datatype Settled<T> = Fulfilled(value: T) | Rejected

  /** The local hour of a timestamp. */
  type Hour = h: int | 0 <= h < 24

  datatype Flight = Flight(id: string, arrivalHour: Hour)
  datatype Hotel = Hotel(id: string)

  /** Response bodies of the downstream services. */
  datatype FlightList = FlightList(flights: seq<Flight>)
  datatype HotelList = HotelList(hotels: seq<Hotel>)
  datatype CheapestFlight = CheapestFlight(flight: Flight)
  datatype EventList = EventList(events: seq<string>)
  datatype Forecast = Forecast(summary: string)

  /** A downstream request with the parameters it carries. */
  datatype Call =
    | SearchFlights(from: string, to: string, date: string)
    | FindCheapestFlight(from: string, to: string, date: string)
    | SearchHotels(to: string, dateParam: Option<string>, late: Option<bool>)
    | SearchEvents(to: string, date: string)
    | ForecastWeather(city: string, date: string)

  /** A result section: a response body, a `{ message }` placeholder, or `null`. */
  datatype Section<T> = Live(payload: T) | Notice(message: string) | Null

  /** The weather section: a forecast, or a fallback object (which always says `degraded: true`). */
  datatype WeatherSection =
    | Report(forecast: Forecast)
    | WeatherUnavailable(emptyWeatherList: bool, summary: string)

  datatype TripResult = TripResult(flights: Section<FlightList>, hotels: Section<HotelList>, degraded: bool)

  datatype RouteResult =
    | Route(flight: Flight, hotels: seq<Hotel>, lateCheckIn: bool, degraded: bool)
    | RouteFailed(message: string, degraded: bool)

  datatype ContextResult =
    ContextResult(flights: Section<FlightList>, hotels: Section<HotelList>, events: Section<EventList>, degraded: bool)

  datatype WeatherTripResult =
    WeatherTripResult(flights: Section<FlightList>, hotels: Section<HotelList>, weather: WeatherSection, degraded: bool)

  const NoFlights := "No flights available for this route"
  const FlightsUnavailable := "Flight service unavailable"
  const NoHotels := "No hotels available for this destination"
  const HotelsUnavailable := "Hotel service unavailable"
  const FailedAggregation := "Partial or failed aggregation"
  const NoEventsInland := "No events for inland destinations"
  const EventsUnavailable := "Events service unavailable"
  const WeatherDataUnavailable := "Weather data unavailable"
  const WeatherBreakerOpen := "Weather data unavailable (CB open)"
  const WeatherCallFailed := "unavailable"

  const CoastalDestinations := ["CMB", "BKK", "MLE"]

  /**
   * How a settled flight search becomes the `flights` section: the body when
   * it lists flights, the "no flights" notice when the list is empty (not a
   * failure), the "unavailable" notice when the call was rejected.
   */
  predicate FlightsSectionOf(s: Settled<FlightList>, sec: Section<FlightList>)
  {
    match s
    case Rejected => sec == Notice(FlightsUnavailable)
    case Fulfilled(body) => if |body.flights| == 0 then sec == Notice(NoFlights) else sec == Live(body)
  }

  /** The same rule for the `hotels` section. */
  predicate HotelsSectionOf(s: Settled<HotelList>, sec: Section<HotelList>)
  {
    match s
    case Rejected => sec == Notice(HotelsUnavailable)
    case Fulfilled(body) => if |body.hotels| == 0 then sec == Notice(NoHotels) else sec == Live(body)
  }

  /**
   * The settle-all handling of the flight and hotel searches, handled with
   * the same effect in `searchTrips`, `contextualTrip` and `searchTripsV2`.
   */
  method GatherBase(flight: Settled<FlightList>, hotel: Settled<HotelList>)
    returns (flights: Section<FlightList>, hotels: Section<HotelList>, degraded: bool)
    ensures FlightsSectionOf(flight, flights) && HotelsSectionOf(hotel, hotels)
    ensures degraded <==> flight.Rejected? || hotel.Rejected?
  {
    degraded := false;
    if flight.Fulfilled? {
      if |flight.value.flights| == 0 {
        flights := Notice(NoFlights);
      } else {
        flights := Live(flight.value);
      }
    } else {
      degraded := true;
      flights := Notice(FlightsUnavailable);
    }
    if hotel.Fulfilled? {
      if |hotel.value.hotels| == 0 {
        hotels := Notice(NoHotels);
      } else {
        hotels := Live(hotel.value);
      }
    } else {
      degraded := true;
      hotels := Notice(HotelsUnavailable);
    }
  }

  /**
   * A guarded call made while CLOSED reports its result to `onProbeResult`
   * to no effect: even when its push opens the breaker, the probe report
   * that follows changes nothing.
   */
  lemma ClosedGuardedCallIgnoresProbe(c: Config, r: Runtime, success: bool, now: int)
    requires r.state == Closed
    ensures var v: Outcome := if success then 0 else 1;
      ProbeResult(c, Push(c, r, v, now), success, now) == Push(c, r, v, now)
  {
    PushFromClosed(c, r, if success then 0 else 1, now);
  }

  /**
   * A guarded call made while HALF-OPEN: its push only slides the window,
   * and the probe report alone decides the next state.
   */
  lemma HalfOpenGuardedCall(c: Config, r: Runtime, success: bool, now: int)
    requires r.state == HalfOpen
    ensures var v: Outcome := if success then 0 else 1;
      ProbeResult(c, Push(c, r, v, now), success, now) ==
      ProbeResult(c, r.(outcomes := Slide(c, r.outcomes, v)), success, now)
  {
    PushFromHalfOpen(c, r, if success then 0 else 1, now);
  }

  class AggregatorService {
    const weatherBreaker: Breaker
    var v1Hits: nat
    var v2Hits: nat

    ghost predicate Valid()
      reads weatherBreaker
    {
      weatherBreaker.Valid()
    }

    constructor ()
      ensures fresh(weatherBreaker) && Valid()
      ensures weatherBreaker.Cfg() == Config(10, 0.4, 20000, 5, 3)
      ensures weatherBreaker.Snapshot() == Initial
      ensures v1Hits == 0 && v2Hits == 0
    {
      weatherBreaker := new Breaker(10, 0.4, 20000, 5, 3);
      v1Hits := 0;
      v2Hits := 0;
    }

    /** Scatter-gather over the flight and hotel searches (API v1). */
    method SearchTrips(from: string, to: string, date: string,
                       flight: Settled<FlightList>, hotel: Settled<HotelList>)
      returns (r: TripResult, issued: seq<Call>)
      modifies this`v1Hits
      ensures v1Hits == old(v1Hits) + 1 && v2Hits == old(v2Hits)
      ensures issued == [SearchFlights(from, to, date), SearchHotels(to, None, None)]
      ensures FlightsSectionOf(flight, r.flights) && HotelsSectionOf(hotel, r.hotels)
      ensures r.degraded <==> flight.Rejected? || hotel.Rejected?
    {
      v1Hits := v1Hits + 1;
      issued := [SearchFlights(from, to, date), SearchHotels(to, None, None)];
      var flights, hotels, degraded := GatherBase(flight, hotel);
      r := TripResult(flights, hotels, degraded);
    }

    /**
     * Chaining: the cheapest flight first, then a hotel search whose `late`
     * flag comes from the flight's arrival hour.  Any failure aborts the
     * whole chain with one fixed degraded result.
     */
    method CheapestRoute(from: string, to: string, date: string,
                         flight: Settled<CheapestFlight>, hotel: Settled<HotelList>)
      returns (r: RouteResult, issued: seq<Call>)
      ensures flight.Rejected? ==> issued == [FindCheapestFlight(from, to, date)]
      ensures flight.Fulfilled? ==>
        var hour := flight.value.flight.arrivalHour;
        issued == [FindCheapestFlight(from, to, date), SearchHotels(to, None, Some(hour >= 20 || hour <= 6))]
      ensures flight.Rejected? || hotel.Rejected? ==> r == RouteFailed(FailedAggregation, true)
      ensures flight.Fulfilled? && hotel.Fulfilled? ==>
        var f := flight.value.flight;
        r == Route(f, hotel.value.hotels, f.arrivalHour >= 20 || f.arrivalHour <= 6, false)
      ensures r.degraded <==> r.RouteFailed?
    {
      issued := [FindCheapestFlight(from, to, date)];
      if flight.Rejected? {
        r := RouteFailed(FailedAggregation, true);
        return;
      }
      var f := flight.value.flight;
      var lateCheckIn := f.arrivalHour >= 20 || f.arrivalHour <= 6;
      issued := issued + [SearchHotels(to, None, Some(lateCheckIn))];
      if hotel.Rejected? {
        r := RouteFailed(FailedAggregation, true);
        return;
      }
      r := Route(f, hotel.value.hotels, lateCheckIn, false);
    }

    /**
     * Branching: the flight and hotel searches always, the events search only
     * for a coastal destination.  A failed events call degrades the result
     * without touching the sections already assembled.
     */
    method ContextualTrip(from: string, to: string, date: string,
                          flight: Settled<FlightList>, hotel: Settled<HotelList>, events: Settled<EventList>)
      returns (r: ContextResult, issued: seq<Call>)
      ensures var base := [SearchFlights(from, to, date), SearchHotels(to, None, None)];
        issued == if to in CoastalDestinations then base + [SearchEvents(to, date)] else base
      ensures FlightsSectionOf(flight, r.flights) && HotelsSectionOf(hotel, r.hotels)
      ensures to !in CoastalDestinations ==> r.events == Notice(NoEventsInland)
      ensures to in CoastalDestinations ==>
        r.events == match events case Fulfilled(body) => Live(body) case Rejected => Notice(EventsUnavailable)
      ensures r.degraded <==> flight.Rejected? || hotel.Rejected? || (to in CoastalDestinations && events.Rejected?)
    {
      var isCoastal := to in CoastalDestinations;
      issued := [SearchFlights(from, to, date), SearchHotels(to, None, None)];
      var flights, hotels, degraded := GatherBase(flight, hotel);
      var eventsSection: Section<EventList>;
      if isCoastal {
        issued := issued + [SearchEvents(to, date)];
        match events
        case Fulfilled(body) =>
          eventsSection := Live(body);
        case Rejected =>
          degraded := true;
          eventsSection := Notice(EventsUnavailable);
      } else {
        eventsSection := Notice(NoEventsInland);
      }
      r := ContextResult(flights, hotels, eventsSection, degraded);
    }

    /** Scatter-gather over flights, hotels and weather (API v2). */
    method SearchTripsV2(from: string, to: string, date: string,
                         flight: Settled<FlightList>, hotel: Settled<HotelList>, weather: Settled<Forecast>)
      returns (r: WeatherTripResult, issued: seq<Call>)
      modifies this`v2Hits
      ensures v2Hits == old(v2Hits) + 1 && v1Hits == old(v1Hits)
      ensures issued == [SearchFlights(from, to, date), SearchHotels(to, None, None), ForecastWeather(to, date)]
      ensures FlightsSectionOf(flight, r.flights) && HotelsSectionOf(hotel, r.hotels)
      ensures r.weather == match weather
        case Fulfilled(body) => Report(body)
        case Rejected => WeatherUnavailable(true, WeatherDataUnavailable)
      ensures r.degraded <==> flight.Rejected? || hotel.Rejected? || weather.Rejected?
    {
      v2Hits := v2Hits + 1;
      issued := [SearchFlights(from, to, date), SearchHotels(to, None, None), ForecastWeather(to, date)];
      var flights, hotels, degraded := GatherBase(flight, hotel);
      var weatherSection: WeatherSection;
      if weather.Fulfilled? {
        weatherSection := Report(weather.value);
      } else {
        degraded := true;
        weatherSection := WeatherUnavailable(true, WeatherDataUnavailable);
      }
      r := WeatherTripResult(flights, hotels, weatherSection, degraded);
    }

    /**
     * Flights and hotels as plain settle-all calls (bodies returned as they
     * are; a rejected call leaves its section `null`, and only the flight
     * failure degrades), then the weather call guarded by `weatherBreaker`.
     */
    method SearchTripsCB(from: string, to: string, date: string,
                         flight: Settled<FlightList>, hotel: Settled<HotelList>, weather: Settled<Forecast>,
                         now: int)
      returns (r: WeatherTripResult, issued: seq<Call>)
      requires Valid()
      modifies weatherBreaker
      ensures Valid()
      ensures var base := [SearchFlights(from, to, date), SearchHotels(to, Some(date), None)];
        issued == if old(weatherBreaker.state) == Open then base else base + [ForecastWeather(to, date)]
      ensures r.flights == if flight.Fulfilled? then Live(flight.value) else Null
      ensures r.hotels == if hotel.Fulfilled? then Live(hotel.value) else Null
      ensures old(weatherBreaker.state) == Open ==>
        && r.weather == WeatherUnavailable(false, WeatherBreakerOpen)
        && weatherBreaker.Snapshot() == Push(weatherBreaker.Cfg(), old(weatherBreaker.Snapshot()), 0, now)
      ensures old(weatherBreaker.state) != Open && weather.Fulfilled? ==>
        && r.weather == Report(weather.value)
        && weatherBreaker.Snapshot() ==
           ProbeResult(weatherBreaker.Cfg(), Push(weatherBreaker.Cfg(), old(weatherBreaker.Snapshot()), 0, now), true, now)
      ensures old(weatherBreaker.state) != Open && weather.Rejected? ==>
        && r.weather == WeatherUnavailable(false, WeatherCallFailed)
        && weatherBreaker.Snapshot() ==
           ProbeResult(weatherBreaker.Cfg(), Push(weatherBreaker.Cfg(), old(weatherBreaker.Snapshot()), 1, now), false, now)
      ensures r.degraded <==> flight.Rejected? || old(weatherBreaker.state) == Open || weather.Rejected?
    {
      issued := [SearchFlights(from, to, date), SearchHotels(to, Some(date), None)];
      var flights: Section<FlightList> := Null;
      var hotels: Section<HotelList> := Null;
      var degraded := false;
      if flight.Fulfilled? {
        flights := Live(flight.value);
      } else {
        degraded := true;
      }
      if hotel.Fulfilled? {
        hotels := Live(hotel.value);
      }

      var weatherSection: WeatherSection;
      var allowed := weatherBreaker.AllowRequest();
      if !allowed {
        weatherSection := WeatherUnavailable(false, WeatherBreakerOpen);
        degraded := true;
        weatherBreaker.PushOutcome(0, now);
      } else {
        issued := issued + [ForecastWeather(to, date)];
        match weather
        case Fulfilled(body) =>
          weatherBreaker.PushOutcome(0, now);
          weatherBreaker.OnProbeResult(true, now);
          weatherSection := Report(body);
        case Rejected =>
          weatherBreaker.PushOutcome(1, now);
          weatherBreaker.OnProbeResult(false, now);
          degraded := true;
          weatherSection := WeatherUnavailable(false, WeatherCallFailed);
      }
      r := WeatherTripResult(flights, hotels, weatherSection, degraded);
    }
  }
}
