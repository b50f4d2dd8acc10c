/** The weather hook: four observable fields and the two queries that move
    them. Each query is modelled atomically, given the provider's replies as
    inputs; it reports the requests it would issue. */
module WeatherClient {
  import opened WeatherTypes
  import Js
  import opened Forecast

  // ---------------------------------------------------------------------
  // The provider, as seen by the hook

  /** What `response.json()` gives.
      - `Json`: a body of the expected shape. Fields of a forecast entry the
        loop skips are never read, so they may hold anything.
      - `Malformed`: a body that parses, but where the hook dereferences an
        object that is missing, so the read throws the given error. For the
        current conditions that is `sys`, `main`, `wind` or `weather[0]`; for
        the forecast it is `list`, an entry that is itself `null`, or the
        `dt_txt`, `main` or `weather[0]` of an entry the loop emits.
      - `ParseError`: an error thrown by `json()` itself. */
  datatype Parsed<T> =
    | Json(value: T)
    | Malformed(readError: Option<string>)
    | ParseError(message: Option<string>)

  /** What `fetch` gives: a reply with a status, or a thrown network error
      (with its message, if it carries one). */
  datatype Fetch<T> = Reply(status: int, body: Parsed<T>) | NetworkError(message: Option<string>)

  /** The fields of a current-conditions body that the hook reads. */
  datatype CurrentBody = CurrentBody(
    name: string,
    country: string,
    temp: real,
    feelsLike: real,
    description: string,   // weather[0].description
    icon: string,          // weather[0].icon
    humidity: int,
    windSpeed: real,
    pressure: int,
    visibility: int,       // metres
    sunrise: int,
    sunset: int)

  /** The forecast body: its 3-hourly `list`. */
  datatype ForecastBody = ForecastBody(list: seq<ForecastEntry>)

  /** The requests the hook issues. */
  datatype Request =
    | CurrentByCity(city: string)
    | ForecastByCity(city: string)
    | CurrentByCoords(lat: real, lon: real)

  const NotFoundMessage := "City not found. Please check the spelling and try again."
  const ProviderFailureMessage := "Failed to fetch weather data. Please try again later."
  const UnexpectedMessage := "An unexpected error occurred"
  const LocationFailureMessage := "Failed to fetch weather data for your location."
  const LocationUnexpectedMessage := "Failed to get weather for your location"

  /** `response.ok`: a status in the 200 range. */
  predicate IsOk(status: int)
  {
    200 <= status <= 299
  }

  /** The message thrown for a failed current-conditions reply. */
  function StatusMessage(status: int): (m: string)
    ensures m == NotFoundMessage <==> status == 404
    ensures m == NotFoundMessage || m == ProviderFailureMessage
  {
    if status == 404 then NotFoundMessage else ProviderFailureMessage
  }

  /** `err instanceof Error ? err.message : fallback`. */
  function CaughtMessage(message: Option<string>, fallback: string): (m: string)
    ensures message.Some? ==> m == message.value
    ensures message.None? ==> m == fallback
  {
    match message
    case Some(m) => m
    case None => fallback
  }

  /** The `WeatherData` built from a current-conditions body. */
  function Normalize(b: CurrentBody): (w: WeatherData)
    ensures w.name == b.name && w.country == b.country && w.description == b.description &&
            w.icon == b.icon && w.humidity == b.humidity && w.windSpeed == b.windSpeed &&
            w.pressure == b.pressure && w.sunrise == b.sunrise && w.sunset == b.sunset
    ensures b.temp - 0.5 < w.temperature as real <= b.temp + 0.5
    ensures b.feelsLike - 0.5 < w.feelsLike as real <= b.feelsLike + 0.5
    ensures w.visibility * 1000.0 == b.visibility as real
  {
    WeatherData(
      b.name, b.country, Js.Round(b.temp), b.description, b.humidity,
      b.windSpeed, b.pressure, Js.Round(b.feelsLike),
      b.visibility as real / 1000.0, b.icon, b.sunrise, b.sunset)
  }

  // ---------------------------------------------------------------------
  // Specification of the two queries

  /** The hook's four observable fields. */
  datatype HookState = HookState(
    currentWeather: Option<WeatherData>,
    forecast: seq<ForecastDay>,
    loading: bool,
    error: Option<WeatherError>)

  const InitialState := HookState(None, [], false, None)

  /** A query's end state and the requests it issued, in order. */
  datatype Outcome = Outcome(state: HookState, requests: seq<Request>)

  /** What the guarded body of `fetchWeatherByCity` settles to: the result, or
      the message of the error it throws. */
  datatype CityResult =
    | Success(weather: WeatherData, days: seq<ForecastDay>)
    | Failure(message: string)

  function CityQuery(city: string, current: Fetch<CurrentBody>, forecast: Fetch<ForecastBody>)
    : (r: (CityResult, seq<Request>))
    ensures r.1 == [CurrentByCity(city)] || r.1 == [CurrentByCity(city), ForecastByCity(city)]
    ensures r.1 == [CurrentByCity(city)] <==>
              current.NetworkError? || !IsOk(current.status) || current.body.ParseError?
    ensures r.0.Success? <==>
              current.Reply? && IsOk(current.status) && current.body.Json? &&
              forecast.Reply? && forecast.body.Json?
  {
    match current
    case NetworkError(m) => (Failure(CaughtMessage(m, UnexpectedMessage)), [CurrentByCity(city)])
    case Reply(status, body) =>
      if !IsOk(status) then (Failure(StatusMessage(status)), [CurrentByCity(city)])
      else if body.ParseError? then (Failure(CaughtMessage(body.message, UnexpectedMessage)), [CurrentByCity(city)])
      else
        // the forecast is fetched and parsed before either body is read
        var sent := [CurrentByCity(city), ForecastByCity(city)];
        match forecast
        case NetworkError(m) => (Failure(CaughtMessage(m, UnexpectedMessage)), sent)
        case Reply(_, fbody) =>
          if fbody.ParseError? then (Failure(CaughtMessage(fbody.message, UnexpectedMessage)), sent)
          else if body.Malformed? then (Failure(CaughtMessage(body.readError, UnexpectedMessage)), sent)
          else if fbody.Malformed? then (Failure(CaughtMessage(fbody.readError, UnexpectedMessage)), sent)
          else (Success(Normalize(body.value), DailyForecasts(fbody.value.list)), sent)
  }

  /** `fetchWeatherByCity(city)` from state `s`. A blank city is a no-op and
      the only query that issues no request; any other ends with `loading`
      false and exactly one of a result or an error, and an error always
      comes with an empty forecast. */
  function CityOutcome(s: HookState, city: string, current: Fetch<CurrentBody>, forecast: Fetch<ForecastBody>)
    : (o: Outcome)
    ensures Js.IsBlank(city) ==> o == Outcome(s, [])
    ensures !Js.IsBlank(city) ==> |o.requests| >= 1
    ensures !Js.IsBlank(city) ==>
              !o.state.loading &&
              (o.state.error.Some? <==> o.state.currentWeather.None?) &&
              (o.state.error.Some? ==> o.state.forecast == [])
  {
    if Js.IsBlank(city) then Outcome(s, [])
    else
      var (result, sent) := CityQuery(city, current, forecast);
      match result
      case Success(w, days) => Outcome(HookState(Some(w), days, false, None), sent)
      case Failure(m) => Outcome(HookState(None, [], false, Some(WeatherError(m, None))), sent)
  }

  /** `fetchWeatherByLocation(lat, lon)` from state `s`: resolve a place name
      from the coordinates, then run the city query on that name. */
  function LocationOutcome(s: HookState, lat: real, lon: real, byCoords: Fetch<CurrentBody>,
                           current: Fetch<CurrentBody>, forecast: Fetch<ForecastBody>): (o: Outcome)
    ensures !o.state.loading
    ensures 1 <= |o.requests| <= 3 && o.requests[0] == CurrentByCoords(lat, lon)
    ensures |o.requests| > 1 ==> byCoords.Reply? && IsOk(byCoords.status) && byCoords.body.Json?
  {
    var started := s.(loading := true, error := None);
    var fail := (m: string) => Outcome(started.(loading := false, error := Some(WeatherError(m, None))),
                                       [CurrentByCoords(lat, lon)]);
    match byCoords
    case NetworkError(m) => fail(CaughtMessage(m, LocationUnexpectedMessage))
    case Reply(status, body) =>
      if !IsOk(status) then fail(LocationFailureMessage)
      else match body
        case ParseError(m) => fail(CaughtMessage(m, LocationUnexpectedMessage))
        case Malformed(m) => fail(CaughtMessage(m, LocationUnexpectedMessage))
        case Json(cd) =>
          var inner := CityOutcome(started, cd.name, current, forecast);
          Outcome(inner.state.(loading := false), [CurrentByCoords(lat, lon)] + inner.requests)
  }

  // ---------------------------------------------------------------------
  // Properties of the city query


  /** A non-ok current-conditions reply: 404 and every other status get their
      own fixed message, the forecast is never requested, and the previous
      result is cleared. */
  lemma CityStatusFailure(s: HookState, city: string, status: int, body: Parsed<CurrentBody>,
                          forecast: Fetch<ForecastBody>)
    requires !Js.IsBlank(city) && !IsOk(status)
    ensures var o := CityOutcome(s, city, Reply(status, body), forecast);
      o.requests == [CurrentByCity(city)] &&
      o.state == HookState(None, [], false, Some(WeatherError(
        if status == 404 then NotFoundMessage else ProviderFailureMessage, None)))
  {
  }

  /** A failure thrown at any of the four points (the current-conditions
      fetch, its `json()`, the forecast fetch, its `json()`) shows its own
      message, or the generic one when it has none, and clears the result;
      the forecast is requested only once the current reply has parsed. */
  lemma CityThrownFailure(s: HookState, city: string, m: Option<string>, status: int, fstatus: int,
                          cbody: Parsed<CurrentBody>, forecast: Fetch<ForecastBody>)
    requires !Js.IsBlank(city) && IsOk(status) && !cbody.ParseError?
    ensures var failed := HookState(None, [], false, Some(WeatherError(CaughtMessage(m, UnexpectedMessage), None)));
      var both := [CurrentByCity(city), ForecastByCity(city)];
      CityOutcome(s, city, NetworkError(m), forecast) == Outcome(failed, [CurrentByCity(city)]) &&
      CityOutcome(s, city, Reply(status, ParseError(m)), forecast) == Outcome(failed, [CurrentByCity(city)]) &&
      CityOutcome(s, city, Reply(status, cbody), NetworkError(m)) == Outcome(failed, both) &&
      CityOutcome(s, city, Reply(status, cbody), Reply(fstatus, ParseError(m))) == Outcome(failed, both)
  {
  }

  /** A parsed body with a missing object throws when the hook dereferences
      it, after both requests: the current body is read first, then the
      forecast's list. */
  lemma CityMalformedBody(s: HookState, city: string, status: int, fstatus: int,
                          cbody: Parsed<CurrentBody>, fbody: Parsed<ForecastBody>)
    requires !Js.IsBlank(city) && IsOk(status) && !cbody.ParseError? && !fbody.ParseError?
    requires cbody.Malformed? || fbody.Malformed?
    ensures var o := CityOutcome(s, city, Reply(status, cbody), Reply(fstatus, fbody));
      o.requests == [CurrentByCity(city), ForecastByCity(city)] &&
      o.state == HookState(None, [], false, Some(WeatherError(
        CaughtMessage(if cbody.Malformed? then cbody.readError else fbody.readError, UnexpectedMessage), None)))
  {
  }


  /** Success: no error, not loading, the normalised conditions and the reduced
      forecast, after exactly the two requests for that city. */
  lemma CitySuccess(s: HookState, city: string, status: int, cd: CurrentBody, fstatus: int, fd: ForecastBody)
    requires !Js.IsBlank(city) && IsOk(status)
    ensures CityOutcome(s, city, Reply(status, Json(cd)), Reply(fstatus, Json(fd))) ==
            Outcome(HookState(Some(Normalize(cd)), DailyForecasts(fd.list), false, None),
                    [CurrentByCity(city), ForecastByCity(city)])
  {
  }

  /** The forecast reply's status is never looked at. */
  lemma ForecastStatusIgnored(s: HookState, city: string, current: Fetch<CurrentBody>,
                              status1: int, status2: int, body: Parsed<ForecastBody>)
    ensures CityOutcome(s, city, current, Reply(status1, body)) ==
            CityOutcome(s, city, current, Reply(status2, body))
  {
  }

  /** A non-blank query's outcome does not depend on the state it starts from. */
  lemma CityOutcomeForgetsState(s: HookState, t: HookState, city: string,
                                current: Fetch<CurrentBody>, forecast: Fetch<ForecastBody>)
    requires !Js.IsBlank(city)
    ensures CityOutcome(s, city, current, forecast) == CityOutcome(t, city, current, forecast)
  {
  }


  lemma NormalizeVisibilityExample(b: CurrentBody)
    requires b.visibility == 10000
    ensures Normalize(b).visibility == 10.0
  {
  }

  // ---------------------------------------------------------------------
  // Properties of the location query

  /** A failed coordinate lookup reports its error and leaves any previous
      result in place. */
  lemma LocationFailureKeepsResult(s: HookState, lat: real, lon: real, byCoords: Fetch<CurrentBody>,
                                   current: Fetch<CurrentBody>, forecast: Fetch<ForecastBody>)
    requires byCoords.NetworkError? || !IsOk(byCoords.status) || !byCoords.body.Json?
    ensures var o := LocationOutcome(s, lat, lon, byCoords, current, forecast);
      o.requests == [CurrentByCoords(lat, lon)] &&
      o.state.currentWeather == s.currentWeather && o.state.forecast == s.forecast &&
      !o.state.loading &&
      o.state.error == Some(WeatherError(
        match byCoords
        case NetworkError(m) => CaughtMessage(m, LocationUnexpectedMessage)
        case Reply(status, body) =>
          if !IsOk(status) then LocationFailureMessage
          else if body.ParseError? then CaughtMessage(body.message, LocationUnexpectedMessage)
          else CaughtMessage(body.readError, LocationUnexpectedMessage),
        None))
  {
  }

  /** Once the name is resolved, the location query ends exactly as the city
      query on that name does (from any state) when the name is not blank;
      a blank name leaves the result alone and clears the error. */
  lemma LocationDelegatesToCity(s: HookState, t: HookState, lat: real, lon: real, status: int, cd: CurrentBody,
                                current: Fetch<CurrentBody>, forecast: Fetch<ForecastBody>)
    requires IsOk(status)
    ensures var o := LocationOutcome(s, lat, lon, Reply(status, Json(cd)), current, forecast);
      var direct := CityOutcome(t, cd.name, current, forecast);
      o.requests == [CurrentByCoords(lat, lon)] + direct.requests &&
      (!Js.IsBlank(cd.name) ==> o.state == direct.state) &&
      (Js.IsBlank(cd.name) ==> o.state == s.(loading := false, error := None))
  {
    if !Js.IsBlank(cd.name) {
      CityOutcomeForgetsState(s.(loading := true, error := None), t, cd.name, current, forecast);
    }
  }

  /** Unlike the city query, a failed location query can leave a previous
      result on screen beside the new error. */
  lemma LocationFailureShowsStaleResult(w: WeatherData, days: seq<ForecastDay>, lat: real, lon: real,
                                        current: Fetch<CurrentBody>, forecast: Fetch<ForecastBody>)
    ensures var st := LocationOutcome(HookState(Some(w), days, false, None), lat, lon,
                                      Reply(500, ParseError(None)), current, forecast).state;
      st.currentWeather == Some(w) && st.error == Some(WeatherError(LocationFailureMessage, None))
  {
  }

  // ---------------------------------------------------------------------
  // The hook as the source runs it

  /** The hook's state, updated in place by its setters. */
  class WeatherHook {
    var currentWeather: Option<WeatherData>
    var forecast: seq<ForecastDay>
    var loading: bool
    var error: Option<WeatherError>

    function State(): HookState
      reads this
    {
      HookState(currentWeather, forecast, loading, error)
    }

    constructor ()
      ensures State() == InitialState
    {
      currentWeather, forecast, loading, error := None, [], false, None;
    }

    /** `fetchWeatherByCity`, given the two replies the provider would send. */
    method FetchWeatherByCity(city: string, current: Fetch<CurrentBody>, forecastReply: Fetch<ForecastBody>)
      returns (requests: seq<Request>)
      modifies this
      ensures Outcome(State(), requests) == CityOutcome(old(State()), city, current, forecastReply)
    {
      requests := [];
      if Js.IsBlank(city) {
        return;
      }
      loading := true;
      error := None;
      var failure: Option<string> := None;
      requests := requests + [CurrentByCity(city)];
      match current {
        case NetworkError(m) =>
          failure := Some(CaughtMessage(m, UnexpectedMessage));
        case Reply(status, body) =>
          if !IsOk(status) {
            failure := Some(StatusMessage(status));
          } else {
            if body.ParseError? {
              failure := Some(CaughtMessage(body.message, UnexpectedMessage));
            } else {
              requests := requests + [ForecastByCity(city)];
              match forecastReply {
                case NetworkError(m) =>
                  failure := Some(CaughtMessage(m, UnexpectedMessage));
                case Reply(_, forecastBody) =>
                  if forecastBody.ParseError? {
                    failure := Some(CaughtMessage(forecastBody.message, UnexpectedMessage));
                  } else if body.Malformed? {
                    failure := Some(CaughtMessage(body.readError, UnexpectedMessage));
                  } else if forecastBody.Malformed? {
                    failure := Some(CaughtMessage(forecastBody.readError, UnexpectedMessage));
                  } else {
                    var weatherData := Normalize(body.value);
                    var dailyForecasts := ReduceForecast(forecastBody.value.list);
                    currentWeather := Some(weatherData);
                    forecast := dailyForecasts;
                  }
              }
            }
          }
      }
      if failure.Some? {
        error := Some(WeatherError(failure.value, None));
        currentWeather := None;
        forecast := [];
      }
      loading := false;
    }

    /** `fetchWeatherByLocation`, given the coordinate lookup's reply and the
        two replies of the city query it delegates to. */
    method FetchWeatherByLocation(lat: real, lon: real, byCoords: Fetch<CurrentBody>,
                                  current: Fetch<CurrentBody>, forecastReply: Fetch<ForecastBody>)
      returns (requests: seq<Request>)
      modifies this
      ensures Outcome(State(), requests) ==
              LocationOutcome(old(State()), lat, lon, byCoords, current, forecastReply)
    {
      loading := true;
      error := None;
      requests := [CurrentByCoords(lat, lon)];
      var failure: Option<string> := None;
      match byCoords {
        case NetworkError(m) =>
          failure := Some(CaughtMessage(m, LocationUnexpectedMessage));
        case Reply(status, body) =>
          if !IsOk(status) {
            failure := Some(LocationFailureMessage);
          } else {
            match body {
              case ParseError(m) =>
                failure := Some(CaughtMessage(m, LocationUnexpectedMessage));
              case Malformed(m) =>
                failure := Some(CaughtMessage(m, LocationUnexpectedMessage));
              case Json(currentData) =>
                var inner := FetchWeatherByCity(currentData.name, current, forecastReply);
                requests := requests + inner;
            }
          }
      }
      if failure.Some? {
        error := Some(WeatherError(failure.value, None));
      }
      loading := false;
    }
  }
}
