# Weather app: the OpenWeatherMap client and its decision logic, in Dafny

This project models the request-resilience layer of a React weather app and the
small pieces of decision logic around it, and proves properties of the model.

- **Client** (`open_weather_map.dfy`, module `OpenWeatherMap`). It has:
  - a process-wide response cache whose entries live ten minutes and are deleted
    lazily when a lookup finds them expired;
  - a rate limiter, run once before the first attempt of each cache miss, whose
    stamps are therefore at least one second apart; the retries inside a miss
    do not pass through it;
  - `fetchWithRetry`, which makes up to three attempts with exponential backoff;
  - the mapping from HTTP status to error message;
  - `fetchWeatherByCity`, `fetchWeatherByCoords` and `fetchForecastByCoords`,
    which validate, check the cache, rate-limit, fetch and write through.

  The client is written twice. Spec functions on values (`ApiState`,
  `Exchange`) define it. The class `WeatherApi` owns a `ResponseCache` and a
  `RateLimiter` object, and each of its methods is proved equal to its spec
  function.
- **Hook** (`use_weather.dfy`, module `UseWeather`). The `useWeather` hook has
  two state fields, `searchCity` and `currentLocation`, held in the class
  `WeatherHook`. Two guarded commands and a reset change them. The module also
  states which client call each query makes, when each query is enabled, and how
  the two query states combine into one loading flag and one error.
- **App** (`app.dfy`, module `App`). The decision logic of the `App` component,
  taken out of its effects: the recent-cities update (move to front, cap at
  five), the greeting and the day/night mode by hour, and the cloud check.
- **Forecast** (`weather_forecast.dfy`, module `WeatherForecast`). The
  `WeatherForecast` component's slot selection (indices 4, 12, 20, …) and its
  empty, absent and short-list cases.
- **Support.** `js.dfy` (module `Js`) models the JavaScript values the code
  inspects: truthiness, property access, `typeof`, `trim` and ASCII
  `toLowerCase`. `sequences.dfy` (module `Sequences`) holds the subsequence and
  no-duplicates predicates.

Time and the network are parameters:

- Every operation receives the reading of `Date.now()` at its start.
- A sleep advances the clock by exactly the requested amount.
- The network is an oracle `net: nat -> Attempt`. It gives the outcome and the
  latency of attempt 0, 1, 2, … of one `fetchWithRetry`.

The cache key `weather_cache_` + base64(URL) is an injective image of the URL.
The URL is determined by the endpoint and the ordered parameter list. So the
model uses the value `RequestUrl(base, query)` itself as the key.

An Error a call throws is a value of the datatype `Failure`. It is one of:

- an Error passed through with its message: a rejected `fetch`, a body that
  does not parse, or one of the hook's own throws;
- one of the nine cases of `handleApiError`;
- one of the two validation errors of the client.

`Message` gives the Error's `message` text. The nine texts of `handleApiError`
are pairwise different (`ErrorMessageInjective`), so a case and its text
identify each other.

Where the code differs from the project's documentation, the model follows the
code:

- The 404 message for a city is the fixed text "City not found. Please check the
  spelling."; it does not name the city. See `CityNotFoundMessage`.
- Cache keys depend on the order of parameters. They are not canonicalised. See
  `ParameterOrderMatters`.
- `fetchByCoords` checks only that lat and lon are of type number, so NaN and
  ±Infinity are stored as the location; the client refuses them later. The
  documentation admits only finite numbers. See `NaNCoordinatesAreAccepted` and
  `NaNLocationFailsInClient`.
- A forecast failure becomes the hook's combined error, which the app shows
  and which keeps the city out of the recent list. The documentation says a
  forecast failure only leaves the forecast absent. See `CombinedError` and
  `RecentCitiesFromHook`.
- `handleApiError` never reads the response body, so a server-supplied
  `message` field is never used: the Error depends on the status and context
  alone. See `ErrorBodyIsIgnored`.
- Only the first attempt of each cache miss passes the rate limiter; the
  retries do not, so two requests can reach the network less than a second
  apart. The documentation says that never happens. See
  `RetriesAreNotRateLimited`.

## Model

| member | source | states |
|---|---|---|
| OpenWeatherMap.CreateRequestUrl | src/api/openWeatherMap.js:55-61 | the URL carries the base and every parameter, in the order given |
| OpenWeatherMap.IsCacheValid | src/api/openWeatherMap.js:24-26 | reference definition: an entry is fresh iff the clock minus its stamp is below 600000 ms |
| OpenWeatherMap.CachedData | src/api/openWeatherMap.js:24-35 | a lookup yields data exactly when the key is present and its entry is strictly less than 10 minutes old, and then yields that entry's data |
| OpenWeatherMap.AfterGet | src/api/openWeatherMap.js:28-35 | a fresh lookup leaves the cache unchanged; otherwise only the looked-up key is removed; no entry is altered |
| OpenWeatherMap.ResponseCache.constructor | src/api/openWeatherMap.js:11 | the cache starts empty |
| OpenWeatherMap.ResponseCache.GetCachedData | src/api/openWeatherMap.js:28-35 | returns the data of a valid entry or nothing, and deletes the key when it returns nothing |
| OpenWeatherMap.ResponseCache.SetCachedData | src/api/openWeatherMap.js:37-42 | replaces the entry of that key only, with the data stamped at the given time |
| OpenWeatherMap.ResponseCache.Clear | src/api/openWeatherMap.js:257-260 | the cache becomes empty |
| OpenWeatherMap.ResponseCache.Stats | src/api/openWeatherMap.js:262-274 | total counts all entries, valid counts the fresh ones, expired counts the others, and valid + expired = total |
| OpenWeatherMap.StoreThenGet | src/api/openWeatherMap.js:24-42 | after a store at t, a lookup of that key before t + 10 min returns the data, a later one returns nothing, and other keys read as before |
| OpenWeatherMap.RateLimitWait | src/api/openWeatherMap.js:44-53 | the wait is positive iff less than 1000 ms have passed since the last stamp, and it ends exactly 1000 ms after that stamp (or now, if that is later) |
| OpenWeatherMap.RateLimiter.constructor | src/api/openWeatherMap.js:15 | the stamp starts at 0 |
| OpenWeatherMap.RateLimiter.RateLimit | src/api/openWeatherMap.js:44-53 | sleeps the computed wait and stamps the clock after the sleep |
| OpenWeatherMap.StampsAreSpaced | src/api/openWeatherMap.js:44-53 | over any series of calls, no request goes out before it was asked for, and successive stamps are at least 1000 ms apart |
| OpenWeatherMap.HandleApiError | src/api/openWeatherMap.js:63-94 | reference definition: the message of the Error `handleApiError` returns, the text of the status's case |
| OpenWeatherMap.ClassifyStatus | src/api/openWeatherMap.js:63-94 | each of the nine cases of the `switch` is taken exactly for its statuses: 400, 401, 429, 404 with context 'city', 404 otherwise, 500/502/503/504, other codes from 500 up, other codes from 400 to 499, and codes below 400 |
| OpenWeatherMap.ErrorMessageInjective | src/api/openWeatherMap.js:63-94 | the nine messages are pairwise different, so a message identifies its case |
| OpenWeatherMap.HandleApiErrorMessages | src/api/openWeatherMap.js:63-94 | each of the nine message texts is returned exactly for the statuses of its case |
| OpenWeatherMap.AttemptOutcome | src/api/openWeatherMap.js:108-124 | a network error is rethrown as it is; a non-ok status throws the classified API error; an attempt succeeds iff it has an ok status and a parseable body |
| OpenWeatherMap.ErrorBodyIsIgnored | src/api/openWeatherMap.js:118-120 | two failed responses with the same status and context throw the same Error, whatever their bodies: the body's `message` field is never read (lines 63-94 take only the status) |
| OpenWeatherMap.FailedResponseMessage | src/api/openWeatherMap.js:118-120 | the Error thrown for a non-ok status carries the message `handleApiError` builds for that status and context |
| OpenWeatherMap.BackoffSchedule | src/api/openWeatherMap.js:133 | the sleep after failed attempt j is 2^j * 1000 ms |
| OpenWeatherMap.RetryFrom | src/api/openWeatherMap.js:96-136 | reference definition: the loop from attempt i on, returning on success or a thrown last attempt, sleeping 2^i s between failures |
| OpenWeatherMap.Retry | src/api/openWeatherMap.js:96-136 | reference definition: `fetchWithRetry`, the loop from attempt 0 with no sleeps and nothing elapsed |
| OpenWeatherMap.FetchWithRetry | src/api/openWeatherMap.js:96-136 | the loop computes exactly the run the retry spec function describes |
| OpenWeatherMap.RetryFromFacts | src/api/openWeatherMap.js:97-134 | from attempt i on: the loop stops at the first success or at the last attempt, having slept the backoff of every failed attempt but the last |
| OpenWeatherMap.RetryContract | src/api/openWeatherMap.js:96-136 | at most `retries` attempts, all but the last failed; the result is the last attempt's outcome; it is an error iff every attempt failed; sleeps are 2^j s after failed attempt j except the last; elapsed is latencies plus sleeps; zero retries yields `undefined` |
| OpenWeatherMap.TwoFailuresThenSuccess | src/api/openWeatherMap.js:96-136 | failures on attempts 1 and 2: the third attempt's payload is returned after sleeps of 1000 and 2000 ms |
| OpenWeatherMap.ThreeFailures | src/api/openWeatherMap.js:125-130 | three failures: the third attempt's error is rethrown, after sleeps of 1000 and 2000 ms only |
| OpenWeatherMap.WeatherByCity | src/api/openWeatherMap.js:138-179 | reference definition: a non-string or blank city is refused untouched; otherwise a cached fetch of the weather endpoint with q = the trimmed name |
| OpenWeatherMap.ByCoordinates | src/api/openWeatherMap.js:181-217 | reference definition: coordinates that are not numbers, NaN or out of range are refused untouched; otherwise a cached fetch of the endpoint with lat and lon |
| OpenWeatherMap.WeatherByCoords | src/api/openWeatherMap.js:219-255 | reference definition: the coordinate request on the weather endpoint with context 'location' |
| OpenWeatherMap.ForecastByCoords | src/api/openWeatherMap.js:181-217 | reference definition: the coordinate request on the forecast endpoint with context 'forecast' |
| OpenWeatherMap.CityValidation | src/api/openWeatherMap.js:141-150 | a city is accepted iff it is a string that is not all whitespace; a rejected one throws with nothing touched; an accepted one requests q = the trimmed name, the key and units=metric |
| OpenWeatherMap.AcceptedCoordinates | src/api/openWeatherMap.js:182-184 | coordinates pass iff both are finite numbers with latitude in [-90, 90] and longitude in [-180, 180], bounds included |
| OpenWeatherMap.CoordinateValidation | src/api/openWeatherMap.js:181-195 | both coordinate operations reject invalid coordinates with nothing touched, and otherwise request exactly lat, lon, key and units=metric from their endpoint (the weather variant repeats this at lines 219-233) |
| OpenWeatherMap.CoordinateExamples | src/api/openWeatherMap.js:182-184 | 91, 200, NaN and +Infinity are refused; the corners (90, -180) and (-90, 180) are accepted |
| OpenWeatherMap.CachedFetch | src/api/openWeatherMap.js:155-178 | reference definition: a fresh truthy entry is returned; otherwise the limiter runs, the retry loop fetches, and success is written through |
| OpenWeatherMap.CachedFetchUsesUrl | src/api/openWeatherMap.js:155-178 | a call past validation is served from the cache or sent to the network, in both cases for its own URL |
| OpenWeatherMap.CachedFetchMiss | src/api/openWeatherMap.js:164-178 | when the lookup finds nothing, the call settles as the retry loop does |
| OpenWeatherMap.CacheHitTouchesNothing | src/api/openWeatherMap.js:157-162 | a call hits iff the lookup finds a fresh, truthy entry; a hit returns that data and leaves cache and limiter unchanged |
| OpenWeatherMap.MissWaitsForLimiter | src/api/openWeatherMap.js:164-168 | on a miss the limiter runs before the fetch; its new stamp is at least 1000 ms after the old one; the attempts start at that stamp |
| OpenWeatherMap.FailureDoesNotWriteCache | src/api/openWeatherMap.js:164-178 | a failed call writes nothing: the cache is the one left by the lookup, a sub-map of the old one |
| OpenWeatherMap.SuccessWritesThrough | src/api/openWeatherMap.js:171-174 | a successful fetch stores its payload under the URL, stamped with the clock after the fetch, and changes no other key |
| OpenWeatherMap.RepeatWithinLifetimeHits | src/api/openWeatherMap.js:155-174 | the same request less than 10 minutes after a successful fetch (truthy payload) is a cache hit returning the same data |
| OpenWeatherMap.RepeatAfterLifetimeRefetches | src/api/openWeatherMap.js:24-35 | 10 minutes or more after it, the same request goes to the network again |
| OpenWeatherMap.ConsecutiveMissesAreSpaced | src/api/openWeatherMap.js:44-53 | of two consecutive calls that both miss, whatever their endpoints, the first attempts (the limiter stamps) are at least 1000 ms apart |
| OpenWeatherMap.RetriesAreNotRateLimited | src/api/openWeatherMap.js:97-134 | the retries of a miss skip the limiter: after three instant network errors the call ends 3000 ms past the stamp, and a miss made then waits nothing (lines 164-168 run the limiter only once per miss) |
| OpenWeatherMap.CityNotFoundThrice | src/api/openWeatherMap.js:96-136 | three 404 answers to a city request end the retry loop with the city-not-found error |
| OpenWeatherMap.CityNotFoundMessage | src/api/openWeatherMap.js:73-74 | a city that is not found yields the same Error whatever its name; its message is the fixed text, which does not name the city |
| OpenWeatherMap.ParameterOrderMatters | src/api/openWeatherMap.js:57-59 | the same parameters in another order give a different cache key |
| OpenWeatherMap.WeatherApi.constructor | src/api/openWeatherMap.js:10-15 | fresh, empty cache and a limiter stamped at 0 |
| OpenWeatherMap.WeatherApi.Request | src/api/openWeatherMap.js:155-178 | the cache check, rate limit, fetch and write-through on the objects do exactly what the spec function does on the state value |
| OpenWeatherMap.WeatherApi.FetchWeatherByCity | src/api/openWeatherMap.js:138-179 | the operation's result and new module state are those of its spec function |
| OpenWeatherMap.WeatherApi.FetchForecastByCoords | src/api/openWeatherMap.js:181-217 | the operation's result and new module state are those of its spec function |
| OpenWeatherMap.WeatherApi.FetchWeatherByCoords | src/api/openWeatherMap.js:219-255 | the operation's result and new module state are those of its spec function |
| OpenWeatherMap.WeatherApi.ClearCache | src/api/openWeatherMap.js:257-260 | the cache is emptied and the limiter's stamp is kept |
| Js.Trim | src/api/openWeatherMap.js:145 | reference definition: the slice between the two trim indices, or '' when nothing is left |
| Js.TrimStartIndex | src/api/openWeatherMap.js:145 | the characters before the index are whitespace and the one at it is not |
| Js.TrimEndIndex | src/api/openWeatherMap.js:145 | the characters from the index on are whitespace and the one before it is not |
| Js.TrimIsSlice | src/api/openWeatherMap.js:145 | `trim` drops whitespace only, and only at the two ends, leaving a string that starts and ends with a non-space |
| Js.TrimEmptyIffBlank | src/api/openWeatherMap.js:141 | a string trims to '' iff it is all whitespace |
| Js.TrimIdempotent | src/hooks/useWeather.js:55 | trimming an already trimmed name changes nothing |
| Js.ToLower | src/App.js:115 | same length, each ASCII capital replaced by its small letter, every other character kept |
| UseWeather.WeatherHook.constructor | src/hooks/useWeather.js:6-7 | the trigger starts as ('', null) |
| UseWeather.WeatherHook.FetchByCity | src/hooks/useWeather.js:52-58 | the new state is the command's step from the old one, and the state invariant is kept |
| UseWeather.WeatherHook.FetchByCoords | src/hooks/useWeather.js:61-68 | the new state is the command's step from the old one, and the state invariant is kept |
| UseWeather.WeatherHook.ClearData | src/hooks/useWeather.js:71-75 | the state is reset to ('', null) |
| UseWeather.Step | src/hooks/useWeather.js:52-75 | reference definition: an accepted city sets (trimmed name, null), accepted coordinates set ('', coordinates), a reset sets ('', null), anything else keeps the state |
| UseWeather.Run | src/hooks/useWeather.js:52-75 | reference definition: the commands applied one after another |
| UseWeather.CityCommand | src/hooks/useWeather.js:52-58 | a city is accepted iff it is a string that is not all whitespace; it then sets a non-empty trimmed name and clears the location; any other input changes nothing |
| UseWeather.StepKeepsConsistent | src/hooks/useWeather.js:52-75 | every command keeps the city trimmed and leaves a location only beside an empty city |
| UseWeather.RunKeepsConsistent | src/hooks/useWeather.js:52-75 | any sequence of commands keeps that invariant |
| UseWeather.AtMostOneCriterion | src/hooks/useWeather.js:6-75 | from the initial state, after any commands, the city and the location are never both set |
| UseWeather.NaNCoordinatesAreAccepted | src/hooks/useWeather.js:63-64 | the coordinate guard checks types only, so a NaN latitude is accepted |
| UseWeather.WeatherQueryKeyIdentifiesTrigger | src/hooks/useWeather.js:12 | on reachable states, equal query keys mean equal triggers |
| UseWeather.WeatherQuery | src/hooks/useWeather.js:13-19 | reference definition: the city request when a city is set, else the location request, else a throw with nothing touched |
| UseWeather.ForecastQuery | src/hooks/useWeather.js:35-38 | reference definition: without `coord` a throw with nothing touched; otherwise the forecast request for coord.lat and coord.lon |
| UseWeather.SelectWeatherSource | src/hooks/useWeather.js:13-22 | no criterion iff the query is disabled; the city is used iff it is set; otherwise the location's lat and lon are used |
| UseWeather.WeatherHook.WeatherQueryFn | src/hooks/useWeather.js:13-19 | the query function calls the client as the spec function says, or throws 'No search criteria provided' |
| UseWeather.ForecastUsesWeatherCoordinates | src/hooks/useWeather.js:34-41 | with `coord` the forecast requests exactly coord.lat and coord.lon; without it, it throws with nothing touched |
| UseWeather.ForecastQueryFn | src/hooks/useWeather.js:35-38 | the forecast query function calls the client as the spec function says |
| UseWeather.CitySearchRequestsTrimmedName | src/hooks/useWeather.js:14-15 | after an accepted city search, the weather query requests the trimmed name, which the client accepts unchanged |
| UseWeather.TrimmedNameQuery | src/api/openWeatherMap.js:141-150 | the client, given a name that is already trimmed, accepts it and requests that very name |
| UseWeather.LondonForecastRequest | src/hooks/useWeather.js:36-38 | London data at (51.5, -0.1) leads to a forecast request for exactly (51.5, -0.1) |
| UseWeather.NaNLocationFailsInClient | src/hooks/useWeather.js:16-17 | a NaN-latitude location is stored by the hook, and its query is rejected by the client before any cache or network step |
| UseWeather.CombinedLoading | src/hooks/useWeather.js:88 | loading iff either query is loading |
| UseWeather.CombinedError | src/hooks/useWeather.js:89 | the weather error message if non-empty, else the forecast one if non-empty, else none; a reported message is never empty |
| App.Without | src/App.js:93 | the filter drops every copy of the city, keeps every other listed city, and adds nothing |
| App.WithoutCounts | src/App.js:93 | every other city keeps its number of occurrences; the filtered city has none |
| App.WithoutSubsequence | src/App.js:93 | the kept cities stay in their order |
| App.Take | src/App.js:94 | the slice is the first min(n, length) elements |
| App.UpdateRecentCities | src/App.js:91-95 | the new city comes first and not again; at most 5 entries; the rest is the previous list without the new city, cut to fit; nothing else is added |
| App.UpdateKeepsOrder | src/App.js:91-95 | the entries after the first keep their previous order, and the new city occurs exactly once |
| App.WithoutAbsent | src/App.js:93 | filtering out a city that is not listed changes nothing |
| App.WithoutKeepsNoDups | src/App.js:93 | the filter creates no duplicates |
| App.UpdateKeepsNoDups | src/App.js:93-94 | a list without duplicates stays without duplicates |
| App.UpdateIdempotent | src/App.js:91-95 | searching the same city twice gives the same list as searching it once |
| App.RecentCitiesExamples | src/App.js:91-95 | a listed city moves to the front; a full list loses its oldest entry |
| App.RecentCitiesEffect | src/App.js:89-97 | reference definition: when the guard holds the name is moved to the front of the list, otherwise the list is kept |
| App.RecentCitiesOnlyOnSuccess | src/App.js:89-97 | the list changes only with data, no error, not loading, and a string name; it then starts with that name |
| App.RecentCitiesFromHook | src/App.js:89-97 | fed the hook's combined flags (src/hooks/useWeather.js:88-89), the list changes only when neither query is loading or failed, and then, given a string name, it is that name moved to the front |
| App.Greeting | src/App.js:17-22 | morning iff 5 <= hour < 12, afternoon iff hour < 5 or 12 <= hour < 18, evening iff hour >= 18 |
| App.SkyMode | src/App.js:75-82 | night (no daytime, stars shown) iff hour >= 18 or hour < 5 |
| App.GreetingAgainstSky | src/App.js:17-82 | within a day, "Good Afternoon!" under a night sky happens exactly from 0 to 4 o'clock; morning is always day and evening always night |
| App.ShowClouds | src/App.js:113-121 | no data, no `weather` or no `weather[0]`: no clouds; otherwise clouds iff the lower-cased `main` is one of the ten listed conditions; a non-string `main` throws |
| App.CloudsForCondition | src/App.js:113-121 | for data whose first condition is `main`, clouds are shown iff the lower-cased `main` is listed |
| App.RainDrawsClouds | src/App.js:115-117 | 'Rain' and 'RAIN' both show clouds |
| App.ClearDrawsNoClouds | src/App.js:115-117 | 'Clear' shows none |
| App.NoConditionNoClouds | src/App.js:114-120 | null data or an empty `weather` list shows none |
| WeatherForecast.SlotsBeforeClosedForm | src/components/WeatherForecast.js:15 | the indices below j that are 4 mod 8 number (j+3)/8 |
| WeatherForecast.SlotsFrom | src/components/WeatherForecast.js:9-16 | from index j on, as many slots are selected as there are indices that are 4 mod 8 from j to the end |
| WeatherForecast.SlotsFromAt | src/components/WeatherForecast.js:9-16 | the k-th slot selected from index j on is the item at the k-th index from j on that is 4 mod 8 |
| WeatherForecast.SlotsFromSubsequence | src/components/WeatherForecast.js:9-16 | the selected slots keep the list order |
| WeatherForecast.DailySlots | src/components/WeatherForecast.js:9-16 | exactly (n+3)/8 slots, slot k being item 8k+4: a subsequence chosen by position alone |
| WeatherForecast.RenderForecast | src/components/WeatherForecast.js:5-20 | nothing iff data or list is falsy or `list.length === 0`; a throw iff the list is not an array or holds a null item; the notice only for 1-4 items; otherwise the selected slots |
| WeatherForecast.FortySlotsGiveFiveDays | src/components/WeatherForecast.js:15 | 40 slots give the 5 at indices 4, 12, 20, 28 and 36 |
| WeatherForecast.ShortListsShowNotice | src/components/WeatherForecast.js:5-20 | for lists without null items: 0 items show nothing, 1-4 show the notice, 5 or more show days |
| WeatherForecast.AbsentDataHides | src/components/WeatherForecast.js:5-7 | null, undefined or list-less data shows nothing |

## Left out

- `testApiConnection`, the real `fetch`, request headers, `response.json()` and the development CORS-proxy rewrite are not modelled. They are network I/O and environment. One attempt is an oracle outcome with a latency.
- `btoa`, `URL` and `searchParams` percent-encoding are library serialisation. The key is the ordered parameter list itself, which is injective.
- `lat.toString()` is modelled as the number (`Decimal`), so the textual form of doubles is not modelled.
- `setTimeout` overshoot and time passing outside sleeps and attempts are not modelled. Sleeps are exact, and each operation reads the clock once at its start.
- Concurrency is not modelled. Interleaved async calls, such as two `rateLimit` calls racing on `lastRequestTime`, are outside the model: the operations run one at a time.
- react-query internals are not modelled: its own `retry: 2`, `retryDelay`, `staleTime`, `cacheTime`, `refetchData`, `queryClient.clear()`, query caching and loading/error bookkeeping. These are a foreign library. The hook's two query states are inputs (`QueryState`).
- Console logging is not modelled; it has no effect on results.
- The API key's environment variable and its built-in default are not modelled. The key is a constructor parameter of `WeatherApi`.
- Geolocation, `alert` and its messages, the start-up geolocation trigger, JSX rendering, `Math.random` star placement, `useLocalStorage` persistence and `useTheme` are browser I/O and UI. They are not part of this model, nor are the presentation components.
- Doubles are modelled as NaN, ±Infinity and reals. Negative zero and rounding are not modelled.
- Js.ToLower: lowers ASCII capitals only, while `toLowerCase` maps all of Unicode. No non-ASCII character lowercases into an ASCII letter other than the Kelvin sign (to 'k') and the dotted capital I (to 'i' and a combining dot), and neither makes one of the ten condition words, which contain no 'k' and no combining dot, so App.ShowClouds decides the same.
- There is no stale-result guard or cancellation to model: the code has none.
- App.RecentCitiesEffect: the stored list is taken to be a list of strings. Non-string entries read back from storage are not modelled.
- WeatherForecast.RenderForecast: a `forecastData.list` that is an object with its own `filter` function is treated as throwing, since parsed JSON cannot hold functions.
