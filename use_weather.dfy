/** The `useWeather` hook: the lookup trigger (a city name or a location), the
    two commands that set it, which client call each query makes and when it is
    enabled, and how the two query states are combined into one loading flag
    and one error message. */
module UseWeather {
  import opened Js
  import opened OpenWeatherMap

  const MSG_NO_CRITERIA := "No search criteria provided"
  const MSG_NO_COORDINATES := "No coordinates available"

  /** The hook's two state fields. `currentLocation` is `null` or the object
      that was passed to `fetchByCoords`. */
  datatype Trigger = Trigger(searchCity: string, currentLocation: Value)

  /** `useState('')` and `useState(null)` */
  const Initial := Trigger("", Null)

  /** The three commands the hook exports. */
  datatype Command = SearchCity(city: Value) | SearchCoords(coords: Value) | ClearAll

  /** The guard of `fetchByCity`. */
  predicate AcceptsCity(city: Value) {
    city.Str? && Trim(city.s) != ""
  }

  /** The guard of `fetchByCoords`: an object whose `lat` and `lon` are numbers
      (NaN and the infinities included). */
  predicate AcceptsCoords(coords: Value) {
    Truthy(coords) && IsObjectType(coords) && Get(coords, "lat").Number? && Get(coords, "lon").Number?
  }

  /** The state after one command. */
  function Step(t: Trigger, c: Command): Trigger {
    match c
    case SearchCity(city) => if AcceptsCity(city) then Trigger(Trim(city.s), Null) else t
    case SearchCoords(coords) => if AcceptsCoords(coords) then Trigger("", coords) else t
    case ClearAll => Initial
  }

  /** The state after a sequence of commands. */
  function Run(t: Trigger, cmds: seq<Command>): Trigger
    decreases |cmds|
  {
    if cmds == [] then t else Run(Step(t, cmds[0]), cmds[1..])
  }

  /** The states the commands can reach: the city is kept trimmed, and a set
      location comes with an empty city and passed the `fetchByCoords` guard. */
  ghost predicate Consistent(t: Trigger) {
    && IsTrimmed(t.searchCity)
    && (t.currentLocation == Null || (t.searchCity == "" && AcceptsCoords(t.currentLocation)))
  }

  lemma StepKeepsConsistent(t: Trigger, c: Command)
    requires Consistent(t)
    ensures Consistent(Step(t, c))
  {
    if c.SearchCity? && AcceptsCity(c.city) {
      TrimIsSlice(c.city.s);
    }
  }

  lemma {:induction false} RunKeepsConsistent(t: Trigger, cmds: seq<Command>)
    requires Consistent(t)
    ensures Consistent(Run(t, cmds))
    decreases |cmds|
  {
    if cmds != [] {
      StepKeepsConsistent(t, cmds[0]);
      RunKeepsConsistent(Step(t, cmds[0]), cmds[1..]);
    }
  }

  /** From the initial state, whatever the commands, at most one of the two
      search criteria is set. */
  lemma AtMostOneCriterion(cmds: seq<Command>)
    ensures var t := Run(Initial, cmds);
      !(t.searchCity != "" && Truthy(t.currentLocation))
  {
    RunKeepsConsistent(Initial, cmds);
  }

  /** `fetchByCity` accepts exactly the strings that are not all whitespace;
      it then stores a non-empty trimmed name and clears the location, and on
      any other input it changes nothing. */
  lemma CityCommand(t: Trigger, city: Value)
    ensures AcceptsCity(city) <==> city.Str? && !AllWhitespace(city.s)
    ensures var t' := Step(t, SearchCity(city));
      && (AcceptsCity(city) ==> t'.searchCity != "" && IsTrimmed(t'.searchCity) && t'.currentLocation == Null)
      && (!AcceptsCity(city) ==> t' == t)
  {
    if city.Str? {
      TrimEmptyIffBlank(city.s);
      TrimIsSlice(city.s);
    }
  }

  /** `fetchByCoords` checks only the types: a NaN latitude is let through. */
  lemma NaNCoordinatesAreAccepted()
    ensures AcceptsCoords(Obj([("lat", Number(NaN)), ("lon", Number(Finite(0.0)))]))
  {
  }

  // ---------------------------------------------------------------------------
  // The two queries

  /** `enabled` of the weather query. */
  predicate WeatherEnabled(t: Trigger) {
    t.searchCity != "" || Truthy(t.currentLocation)
  }

  /** The second element of the weather query key: `searchCity || currentLocation`. */
  function WeatherQueryKey(t: Trigger): Value {
    if t.searchCity != "" then Str(t.searchCity) else t.currentLocation
  }

  /** On the states the commands reach, the query key determines the trigger. */
  lemma WeatherQueryKeyIdentifiesTrigger(t: Trigger, t': Trigger)
    requires Consistent(t) && Consistent(t')
    requires WeatherQueryKey(t) == WeatherQueryKey(t')
    ensures t == t'
  {
    if t.searchCity != "" {
      assert WeatherQueryKey(t).Str?;
      assert t'.searchCity != "";
    } else {
      assert WeatherQueryKey(t) == t.currentLocation;
      assert !t.currentLocation.Str?;
      assert t'.searchCity == "";
    }
  }

  /** What the weather query function would fetch. */
  datatype WeatherSource = ByCity(city: string) | ByLocation(lat: Value, lon: Value) | NoCriteria

  function SelectWeatherSource(t: Trigger): (r: WeatherSource)
    ensures r.NoCriteria? <==> !WeatherEnabled(t)
    ensures r.ByCity? <==> t.searchCity != ""
    ensures r.ByCity? ==> r.city == t.searchCity
    ensures r.ByLocation? ==> r == ByLocation(Get(t.currentLocation, "lat"), Get(t.currentLocation, "lon"))
  {
    if t.searchCity != "" then ByCity(t.searchCity)
    else if Truthy(t.currentLocation) then ByLocation(Get(t.currentLocation, "lat"), Get(t.currentLocation, "lon"))
    else NoCriteria
  }

  /** The weather query function: the city if set, else the location, else it throws. */
  function WeatherQuery(apiKey: string, s: ApiState, t: Trigger, now: int, net: nat -> Attempt): Exchange {
    match SelectWeatherSource(t)
    case ByCity(city) => WeatherByCity(apiKey, s, Str(city), now, net)
    case ByLocation(lat, lon) => WeatherByCoords(apiKey, s, lat, lon, now, net)
    case NoCriteria => Exchange(s, Call(Err(Thrown(MSG_NO_CRITERIA)), Rejected, now))
  }

  /** `enabled` of the forecast query: the weather data carries `coord`. */
  predicate ForecastEnabled(weatherData: Value) {
    Truthy(Get(weatherData, "coord"))
  }

  /** The forecast query function: the forecast at exactly `coord.lat`, `coord.lon`. */
  function ForecastQuery(apiKey: string, s: ApiState, weatherData: Value, now: int, net: nat -> Attempt): Exchange {
    var coords := Get(weatherData, "coord");
    if !Truthy(coords) then Exchange(s, Call(Err(Thrown(MSG_NO_COORDINATES)), Rejected, now))
    else ForecastByCoords(apiKey, s, Get(coords, "lat"), Get(coords, "lon"), now, net)
  }

  /** The forecast follows the weather: enabled exactly when the weather data has
      `coord`, it requests those coordinates and no others; without `coord` it
      touches neither the cache nor the network. */
  lemma ForecastUsesWeatherCoordinates(apiKey: string, s: ApiState, weatherData: Value, now: int, net: nat -> Attempt)
    ensures var coords := Get(weatherData, "coord");
            var x := ForecastQuery(apiKey, s, weatherData, now, net);
      && (ForecastEnabled(weatherData) ==>
            x == ForecastByCoords(apiKey, s, Get(coords, "lat"), Get(coords, "lon"), now, net))
      && (!ForecastEnabled(weatherData) ==>
            x == Exchange(s, Call(Err(Thrown(MSG_NO_COORDINATES)), Rejected, now)))
  {
  }

  /** Weather for London at (51.5, -0.1) leads to a forecast request for
      exactly (51.5, -0.1). */
  lemma LondonForecastRequest(apiKey: string, s: ApiState, now: int, net: nat -> Attempt)
    ensures var london := Obj([("name", Str("London")),
                               ("coord", Obj([("lon", Number(Finite(-0.1))), ("lat", Number(Finite(51.5)))]))]);
      ForecastQuery(apiKey, s, london, now, net).call.path.url
        == RequestUrl(FORECAST_URL, CoordinateParams(apiKey, 51.5, -0.1))
  {
    var coords := Obj([("lon", Number(Finite(-0.1))), ("lat", Number(Finite(51.5)))]);
    assert Get(coords, "lat") == Number(Finite(51.5));
    assert Get(coords, "lon") == Number(Finite(-0.1));
  }

  /** A city search makes the weather query ask the client for the trimmed
      name, which the client accepts and does not change. */
  lemma CitySearchRequestsTrimmedName(apiKey: string, s: ApiState, t: Trigger, city: Value, now: int, net: nat -> Attempt)
    requires AcceptsCity(city)
    ensures var x := WeatherQuery(apiKey, s, Step(t, SearchCity(city)), now, net);
      && x.call.path != Rejected
      && x.call.path.url == RequestUrl(WEATHER_URL, CityParams(apiKey, Trim(city.s)))
  {
    var name := Trim(city.s);
    var t' := Step(t, SearchCity(city));
    assert t' == Trigger(name, Null);
    assert SelectWeatherSource(t') == ByCity(name);
    TrimmedNameQuery(apiKey, s, city.s, now, net);
  }

  /** The client, given an already trimmed name, requests that name. */
  lemma TrimmedNameQuery(apiKey: string, s: ApiState, raw: string, now: int, net: nat -> Attempt)
    requires Trim(raw) != ""
    ensures var x := WeatherByCity(apiKey, s, Str(Trim(raw)), now, net);
      && x.call.path != Rejected
      && x.call.path.url == RequestUrl(WEATHER_URL, CityParams(apiKey, Trim(raw)))
  {
    var name := Trim(raw);
    var url := RequestUrl(WEATHER_URL, CityParams(apiKey, name));
    TrimIdempotent(raw);
    assert IsCityName(Str(name));
    assert WeatherByCity(apiKey, s, Str(name), now, net) == CachedFetch(s, url, "city", now, net);
    CachedFetchUsesUrl(s, url, "city", now, net);
  }

  /** A trigger with a NaN latitude is accepted by the hook, and its weather
      query then fails in the client's validation, before the cache or the
      network are touched. */
  lemma NaNLocationFailsInClient(apiKey: string, s: ApiState, t: Trigger, lon: real, now: int, net: nat -> Attempt)
    ensures var coords := Obj([("lat", Number(NaN)), ("lon", Number(Finite(lon)))]);
            var t' := Step(t, SearchCoords(coords));
      && t' == Trigger("", coords)
      && WeatherQuery(apiKey, s, t', now, net) == Exchange(s, Call(Err(InvalidCoordinates), Rejected, now))
  {
    var coords := Obj([("lat", Number(NaN)), ("lon", Number(Finite(lon)))]);
    assert Get(coords, "lat") == Number(NaN);
    var rest := [("lon", Number(Finite(lon)))];
    assert coords.props[1..] == rest;
    assert "lat" != "lon" by { assert "lat"[1] != "lon"[1]; }
    assert Lookup(coords.props, "lon") == Lookup(rest, "lon");
    assert Lookup(rest, "lon") == Number(Finite(lon));
  }

  // ---------------------------------------------------------------------------
  // Combined state

  /** What the hook reads from one react-query query: its loading flag, its
      data, and its `error?.message`. */
  datatype QueryState = QueryState(isLoading: bool, data: Value, errorMessage: Option<string>)

  predicate HasMessage(m: Option<string>) {
    m.Some? && m.value != ""
  }

  /** `isLoading`: either query is loading. */
  function CombinedLoading(weather: QueryState, forecast: QueryState): (r: bool)
    ensures r <==> weather.isLoading || forecast.isLoading
  {
    weather.isLoading || forecast.isLoading
  }

  /** `error`: the first non-empty message of the weather then the forecast
      query, else `null`. */
  function CombinedError(weather: QueryState, forecast: QueryState): (r: Option<string>)
    ensures r.Some? ==> r.value != ""
    ensures HasMessage(weather.errorMessage) ==> r == weather.errorMessage
    ensures !HasMessage(weather.errorMessage) && HasMessage(forecast.errorMessage) ==> r == forecast.errorMessage
    ensures r.None? <==> !HasMessage(weather.errorMessage) && !HasMessage(forecast.errorMessage)
  {
    if HasMessage(weather.errorMessage) then weather.errorMessage
    else if HasMessage(forecast.errorMessage) then forecast.errorMessage
    else None
  }

  // ---------------------------------------------------------------------------
  // The hook's state fields and commands

  class WeatherHook {
    var searchCity: string
    var currentLocation: Value

    constructor ()
      ensures Current() == Initial
      ensures Valid()
    {
      searchCity := "";
      currentLocation := Null;
    }

    function Current(): Trigger
      reads this
    {
      Trigger(searchCity, currentLocation)
    }

    ghost predicate Valid()
      reads this
    {
      Consistent(Current())
    }

    /** `fetchByCity` */
    method FetchByCity(city: Value)
      requires Valid()
      modifies this
      ensures Valid()
      ensures Current() == Step(old(Current()), SearchCity(city))
    {
      if city.Str? {
        var trimmed := Trim(city.s);
        if trimmed != "" {
          TrimIsSlice(city.s);
          searchCity := trimmed;
          currentLocation := Null;
        }
      }
    }

    /** `fetchByCoords` */
    method FetchByCoords(coords: Value)
      requires Valid()
      modifies this
      ensures Valid()
      ensures Current() == Step(old(Current()), SearchCoords(coords))
    {
      if Truthy(coords) && IsObjectType(coords) && Get(coords, "lat").Number? && Get(coords, "lon").Number? {
        currentLocation := coords;
        searchCity := "";
      }
    }

    /** `clearData` (the react-query cache it also clears is not modelled) */
    method ClearData()
      modifies this
      ensures Valid()
      ensures Current() == Step(old(Current()), ClearAll)
    {
      searchCity := "";
      currentLocation := Null;
    }

    /** The weather query function, run against the client. */
    method WeatherQueryFn(api: WeatherApi, now: int, net: nat -> Attempt) returns (call: Call)
      modifies api.cache, api.limiter
      ensures Exchange(api.State(), call) == WeatherQuery(api.apiKey, old(api.State()), Current(), now, net)
    {
      if searchCity != "" {
        call := api.FetchWeatherByCity(Str(searchCity), now, net);
      } else if Truthy(currentLocation) {
        call := api.FetchWeatherByCoords(Get(currentLocation, "lat"), Get(currentLocation, "lon"), now, net);
      } else {
        call := Call(Err(Thrown(MSG_NO_CRITERIA)), Rejected, now);
      }
    }
  }

  /** The forecast query function, run against the client with the weather data. */
  method ForecastQueryFn(api: WeatherApi, weatherData: Value, now: int, net: nat -> Attempt) returns (call: Call)
    modifies api.cache, api.limiter
    ensures Exchange(api.State(), call) == ForecastQuery(api.apiKey, old(api.State()), weatherData, now, net)
  {
    var coords := Get(weatherData, "coord");
    if !Truthy(coords) {
      return Call(Err(Thrown(MSG_NO_COORDINATES)), Rejected, now);
    }
    call := api.FetchForecastByCoords(Get(coords, "lat"), Get(coords, "lon"), now, net);
  }
}
