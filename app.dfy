/** The decision logic of the `App` component, taken out of its effects and
    memos: the recent-cities list update, the greeting and the day/night mode
    by hour, and the cloud check on the current conditions. */
module App {
  import opened Js
  import opened Sequences
  import opened UseWeather

  // ---------------------------------------------------------------------------
  // Recent cities

  /** At most this many recent cities are kept. */
  const MAX_RECENT := 5

  /** `prev.filter(c => c !== city)` */
  function Without(prev: seq<string>, city: string): (r: seq<string>)
    ensures city !in r
    ensures forall x | x in r :: x in prev
    ensures forall x | x in prev && x != city :: x in r
  {
    if prev == [] then []
    else
      var rest := Without(prev[1..], city);
      assert forall x | x in prev :: x == prev[0] || x in prev[1..];
      if prev[0] == city then rest else [prev[0]] + rest
  }

  /** The filter keeps every other city as often as it occurs and drops every
      copy of `city`. */
  lemma {:induction false} WithoutCounts(prev: seq<string>, city: string)
    ensures forall x :: multiset(Without(prev, city))[x] == if x == city then 0 else multiset(prev)[x]
  {
    if prev != [] {
      WithoutCounts(prev[1..], city);
      assert prev == [prev[0]] + prev[1..];
    }
  }

  /** The filter keeps the order of the cities it keeps. */
  lemma {:induction false} WithoutSubsequence(prev: seq<string>, city: string)
    ensures IsSubsequence(Without(prev, city), prev)
  {
    if prev != [] {
      WithoutSubsequence(prev[1..], city);
      var rest := Without(prev[1..], city);
      if prev[0] != city {
        assert ([prev[0]] + rest)[1..] == rest;
      }
    }
  }

  /** `arr.slice(0, n)` for `n >= 0`. */
  function Take(s: seq<string>, n: nat): (r: seq<string>)
    ensures |r| == if n < |s| then n else |s|
    ensures r == s[..|r|]
  {
    if n < |s| then s[..n] else s
  }

  /** The updater passed to `setRecentCities`: the new city moved to the front,
      every earlier occurrence of it dropped, capped at five entries. */
  function UpdateRecentCities(prev: seq<string>, newCity: string): (r: seq<string>)
    ensures 1 <= |r| <= MAX_RECENT && r[0] == newCity
    ensures |r| == if 1 + |Without(prev, newCity)| < MAX_RECENT then 1 + |Without(prev, newCity)| else MAX_RECENT
    ensures r[1..] == Without(prev, newCity)[..|r| - 1]
    ensures newCity !in r[1..]
    ensures forall x | x in r :: x == newCity || x in prev
  {
    var rest := Without(prev, newCity);
    var r := Take([newCity] + rest, MAX_RECENT);
    assert r == [newCity] + rest[..|r| - 1];
    assert forall x | x in rest[..|r| - 1] :: x in rest;
    r
  }

  /** The entries after the first keep their previous order, and the new city
      occurs exactly once. */
  lemma UpdateKeepsOrder(prev: seq<string>, newCity: string)
    ensures var r := UpdateRecentCities(prev, newCity);
      IsSubsequence(r[1..], prev) && multiset(r)[newCity] == 1
  {
    var r := UpdateRecentCities(prev, newCity);
    var rest := Without(prev, newCity);
    WithoutSubsequence(prev, newCity);
    PrefixOfSubsequence(rest, prev, |r| - 1);
    assert r == [newCity] + r[1..];
    assert multiset(r) == multiset([newCity]) + multiset(r[1..]);
  }

  /** Dropping a city that is not in the list changes nothing. */
  lemma {:induction false} WithoutAbsent(s: seq<string>, city: string)
    requires city !in s
    ensures Without(s, city) == s
  {
    if s != [] {
      WithoutAbsent(s[1..], city);
    }
  }

  /** Without duplicates before, without duplicates after. */
  lemma {:induction false} WithoutKeepsNoDups(s: seq<string>, city: string)
    requires NoDups(s)
    ensures NoDups(Without(s, city))
  {
    if s != [] {
      assert NoDups(s[1..]);
      WithoutKeepsNoDups(s[1..], city);
      var rest := Without(s[1..], city);
      if s[0] != city {
        assert s[0] !in s[1..];
        assert s[0] !in rest;
      }
    }
  }

  /** If the previous list had no duplicates, neither has the updated one. */
  lemma UpdateKeepsNoDups(prev: seq<string>, newCity: string)
    requires NoDups(prev)
    ensures NoDups(UpdateRecentCities(prev, newCity))
  {
    var r := UpdateRecentCities(prev, newCity);
    var rest := Without(prev, newCity);
    WithoutKeepsNoDups(prev, newCity);
    PrefixNoDups(rest, |r| - 1);
    assert r == [newCity] + rest[..|r| - 1];
    assert newCity !in rest[..|r| - 1];
  }

  /** Searching the same city again leaves the list as it is. */
  lemma UpdateIdempotent(prev: seq<string>, newCity: string)
    ensures var r := UpdateRecentCities(prev, newCity);
      UpdateRecentCities(r, newCity) == r
  {
    var r := UpdateRecentCities(prev, newCity);
    var kept := Without(prev, newCity)[..|r| - 1];
    assert r == [newCity] + kept;
    assert r[1..] == kept;
    WithoutAbsent(kept, newCity);
    assert Without(r, newCity) == kept;
  }

  /** A full list loses its oldest entry; a city already listed moves to the front. */
  lemma RecentCitiesExamples()
    ensures UpdateRecentCities(["Paris", "London", "Rome"], "London") == ["London", "Paris", "Rome"]
    ensures UpdateRecentCities(["A", "B", "C", "D", "E"], "F") == ["F", "A", "B", "C", "D"]
  {
    var p := ["Paris", "London", "Rome"];
    assert Without(p, "London") == ["Paris", "Rome"] by {
      assert p[1..][1..] == ["Rome"];
      assert Without(["Rome"], "London") == ["Rome"] by { assert "Rome" != "London"; }
      assert Without(p[1..], "London") == ["Rome"];
      assert "Paris" != "London";
    }
    var q := ["A", "B", "C", "D", "E"];
    assert Without(q, "F") == q by {
      WithoutAbsent(q, "F");
    }
  }

  /** The guard of the recent-cities effect: weather data present, no error,
      not loading, and a string `name`. */
  predicate RecordsCity(weatherData: Value, error: Option<string>, isLoading: bool) {
    Truthy(weatherData) && !HasMessage(error) && !isLoading && Get(weatherData, "name").Str?
  }

  /** The list after the recent-cities effect has run. */
  function RecentCitiesEffect(prev: seq<string>, weatherData: Value, error: Option<string>, isLoading: bool): seq<string>
  {
    if RecordsCity(weatherData, error, isLoading) then UpdateRecentCities(prev, Get(weatherData, "name").s)
    else prev
  }

  /** The list changes only when the guard holds, and then starts with the
      city just fetched; while loading, on an error or without data it stays. */
  lemma RecentCitiesOnlyOnSuccess(prev: seq<string>, weatherData: Value, error: Option<string>, isLoading: bool)
    ensures var r := RecentCitiesEffect(prev, weatherData, error, isLoading);
      && (r != prev ==> Truthy(weatherData) && !HasMessage(error) && !isLoading && Get(weatherData, "name").Str?)
      && (RecordsCity(weatherData, error, isLoading) ==> r != [] && r[0] == Get(weatherData, "name").s)
  {
  }

  /** The effect reads the hook's combined flags: a city is recorded exactly when
      the weather data carries a string name and neither query is loading or
      failed, so a failed or pending forecast keeps a fetched city out of the list. */
  lemma RecentCitiesFromHook(prev: seq<string>, weather: QueryState, forecast: QueryState)
    ensures var r := RecentCitiesEffect(prev, weather.data, CombinedError(weather, forecast), CombinedLoading(weather, forecast));
      var ready := !weather.isLoading && !forecast.isLoading
        && !HasMessage(weather.errorMessage) && !HasMessage(forecast.errorMessage);
      && (r != prev ==> ready)
      && (ready && Truthy(weather.data) && Get(weather.data, "name").Str? ==>
            r == UpdateRecentCities(prev, Get(weather.data, "name").s))
  {
  }

  // ---------------------------------------------------------------------------
  // Time of day

  const MORNING := "Good Morning!"
  const AFTERNOON := "Good Afternoon!"
  const EVENING := "Good Evening!"

  /** The greeting for `new Date().getHours()`. */
  function Greeting(hour: int): (g: string)
    ensures g == MORNING <==> 5 <= hour < 12
    ensures g == AFTERNOON <==> hour < 5 || 12 <= hour < 18
    ensures g == EVENING <==> hour >= 18
  {
    if hour < 12 && hour >= 5 then MORNING
    else if hour < 18 then AFTERNOON
    else EVENING
  }

  /** The two visual flags the start-up effect sets. */
  datatype Sky = Sky(isDayTime: bool, showStars: bool)

  function SkyMode(hour: int): (r: Sky)
    ensures !r.isDayTime <==> hour >= 18 || hour < 5
    ensures r.showStars <==> !r.isDayTime
  {
    if hour >= 18 || hour < 5 then Sky(false, true) else Sky(true, false)
  }

  /** Between midnight and five the greeting says afternoon while the sky is
      at night; at every other hour of the day the two agree. */
  lemma GreetingAgainstSky(hour: int)
    requires 0 <= hour < 24
    ensures Greeting(hour) == AFTERNOON && !SkyMode(hour).isDayTime <==> hour < 5
    ensures Greeting(hour) == MORNING ==> SkyMode(hour).isDayTime
    ensures Greeting(hour) == EVENING ==> !SkyMode(hour).isDayTime
  {
  }

  // ---------------------------------------------------------------------------
  // Clouds

  /** The conditions under which clouds are drawn. */
  const CLOUD_CONDITIONS: seq<string> :=
    ["clouds", "rain", "drizzle", "thunderstorm", "snow", "mist", "fog", "haze", "squall", "tornado"]

  /** The guard of the cloud effect: data, `weather` and `weather[0]` present. */
  predicate HasCondition(weatherData: Value) {
    Truthy(weatherData) && Truthy(Get(weatherData, "weather")) && Truthy(First(Get(weatherData, "weather")))
  }

  /** The value the cloud effect passes to `setShowClouds`; `None` when
      `weather[0].main` is not a string and `.toLowerCase()` throws. */
  function ShowClouds(weatherData: Value): (r: Option<bool>)
    ensures !HasCondition(weatherData) ==> r == Some(false)
    ensures var main := Get(First(Get(weatherData, "weather")), "main");
      && (r.None? <==> HasCondition(weatherData) && !main.Str?)
      && (r == Some(true) <==> HasCondition(weatherData) && main.Str? && ToLower(main.s) in CLOUD_CONDITIONS)
  {
    if HasCondition(weatherData) then
      var main := Get(First(Get(weatherData, "weather")), "main");
      if main.Str? then Some(ToLower(main.s) in CLOUD_CONDITIONS) else None
    else Some(false)
  }

  /** Weather data whose first condition is `main`. */
  function WithCondition(main: string): Value {
    Obj([("weather", Arr([Obj([("main", Str(main))])]))])
  }

  /** For such data, clouds are shown exactly for the listed conditions, in any case. */
  lemma CloudsForCondition(main: string)
    ensures ShowClouds(WithCondition(main)) == Some(ToLower(main) in CLOUD_CONDITIONS)
  {
    var condition := Obj([("main", Str(main))]);
    assert Get(WithCondition(main), "weather") == Arr([condition]);
    assert First(Arr([condition])) == condition;
    assert Get(condition, "main") == Str(main);
  }

  /** `Rain` and `RAIN` both draw clouds: the check ignores case. */
  lemma RainDrawsClouds()
    ensures ShowClouds(WithCondition("Rain")) == Some(true)
    ensures ShowClouds(WithCondition("RAIN")) == Some(true)
  {
    CloudsForCondition("Rain");
    CloudsForCondition("RAIN");
    LowerRain();
    assert CLOUD_CONDITIONS[1] == "rain";
  }

  lemma LowerRain()
    ensures ToLower("Rain") == "rain" && ToLower("RAIN") == "rain"
  {
    var a := ToLower("Rain");
    assert a[0] == 'r' && a[1] == 'a' && a[2] == 'i' && a[3] == 'n';
    var b := ToLower("RAIN");
    assert b[0] == 'r' && b[1] == 'a' && b[2] == 'i' && b[3] == 'n';
  }

  /** A clear sky draws none. */
  lemma ClearDrawsNoClouds()
    ensures ShowClouds(WithCondition("Clear")) == Some(false)
  {
    CloudsForCondition("Clear");
    LowerClear();
    assert "clear" != "clouds" by { assert |"clear"| != |"clouds"|; }
  }

  lemma LowerClear()
    ensures ToLower("Clear") == "clear"
  {
    var a := ToLower("Clear");
    assert a[0] == 'c' && a[1] == 'l' && a[2] == 'e' && a[3] == 'a' && a[4] == 'r';
  }

  /** Without data or without a first condition there are no clouds. */
  lemma NoConditionNoClouds()
    ensures ShowClouds(Obj([("weather", Arr([]))])) == Some(false)
    ensures ShowClouds(Null) == Some(false)
  {
  }
}
