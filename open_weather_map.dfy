/** The OpenWeatherMap client: a response cache with a ten minute lifetime, a
    one-request-per-second rate limiter, a retrying fetch with exponential
    backoff, the classification of HTTP failures into messages, and the three
    client operations built from them.

    The clock is explicit: every operation receives the reading of `Date.now()`
    at its start, sleeps advance it by exactly the requested amount, and every
    network attempt reports how long it took. The network is an oracle `net`
    giving the outcome of attempt number 0, 1, 2, ... of one call. */
module OpenWeatherMap {
  import opened Js

  const WEATHER_URL := "https://api.openweathermap.org/data/2.5/weather"
  const FORECAST_URL := "https://api.openweathermap.org/data/2.5/forecast"

  /** Lifetime of a cache entry, in milliseconds. */
  const CACHE_DURATION: int := 10 * 60 * 1000
  /** Minimum spacing between two rate-limited requests, in milliseconds. */
  const RATE_LIMIT_DELAY: int := 1000
  /** The number of attempts the client operations give `fetchWithRetry`. */
  const RETRIES: int := 3

  // ---------------------------------------------------------------------------
  // Request URLs

  /** A query-parameter value: a string, or the `toString()` of a finite number. */
  datatype ParamValue = Text(s: string) | Decimal(r: real)

  type Param = (string, ParamValue)

  /** A request URL: the endpoint and its query parameters in the order they were
      appended. The cache key `weather_cache_` + base64 of the URL text is an
      injective image of this value, so the value itself serves as the key. */
  datatype RequestUrl = RequestUrl(base: string, query: seq<Param>)

  /** `createRequestUrl`: appends every parameter, in order, to the base URL. */
  method CreateRequestUrl(base: string, params: seq<Param>) returns (url: RequestUrl)
    ensures url.base == base && url.query == params
  {
    var query: seq<Param> := [];
    for i := 0 to |params|
      invariant query == params[..i]
    {
      query := query + [params[i]];
    }
    url := RequestUrl(base, query);
  }

  // ---------------------------------------------------------------------------
  // Response cache

  datatype Entry = Entry(data: Value, timestamp: int)

  type CacheMap = map<RequestUrl, Entry>

  /** `isCacheValid`: an entry is fresh strictly less than CACHE_DURATION after it was written. */
  predicate IsCacheValid(timestamp: int, now: int) {
    now - timestamp < CACHE_DURATION
  }

  /** What `getCachedData(key)` returns at time `now`. */
  function CachedData(entries: CacheMap, key: RequestUrl, now: int): (r: Option<Value>)
    ensures r.Some? <==> key in entries && IsCacheValid(entries[key].timestamp, now)
    ensures r.Some? ==> r.value == entries[key].data
  {
    if key in entries && IsCacheValid(entries[key].timestamp, now) then Some(entries[key].data) else None
  }

  /** The cache after `getCachedData(key)` at time `now`: a missing or expired key is deleted. */
  function AfterGet(entries: CacheMap, key: RequestUrl, now: int): (r: CacheMap)
    ensures CachedData(entries, key, now).Some? ==> r == entries
    ensures CachedData(entries, key, now).None? ==> r.Keys == entries.Keys - {key}
    ensures forall k | k in r :: k in entries && r[k] == entries[k]
  {
    if CachedData(entries, key, now).Some? then entries else entries - {key}
  }

  /** Keys whose entries are still fresh at time `now`. */
  function ValidKeys(entries: CacheMap, now: int): set<RequestUrl> {
    set k | k in entries && IsCacheValid(entries[k].timestamp, now)
  }

  /** Keys whose entries have expired at time `now`. */
  function ExpiredKeys(entries: CacheMap, now: int): set<RequestUrl> {
    set k | k in entries && !IsCacheValid(entries[k].timestamp, now)
  }

  datatype CacheStats = CacheStats(totalEntries: int, validEntries: int, expiredEntries: int)

  /** The process-wide response cache. */
  class ResponseCache {
    var entries: CacheMap

    constructor ()
      ensures entries == map[]
    {
      entries := map[];
    }

    /** `getCachedData`: the data of a fresh entry, or nothing, deleting the key then. */
    method GetCachedData(key: RequestUrl, now: int) returns (data: Option<Value>)
      modifies this
      ensures data == CachedData(old(entries), key, now)
      ensures entries == AfterGet(old(entries), key, now)
    {
      if key in entries && IsCacheValid(entries[key].timestamp, now) {
        data := Some(entries[key].data);
      } else {
        entries := entries - {key};
        data := None;
      }
    }

    /** `setCachedData`: replaces the entry of `key` only, stamped with `now`. */
    method SetCachedData(key: RequestUrl, data: Value, now: int)
      modifies this
      ensures entries == old(entries)[key := Entry(data, now)]
    {
      entries := entries[key := Entry(data, now)];
    }

    /** `clearCache` */
    method Clear()
      modifies this
      ensures entries == map[]
    {
      entries := map[];
    }

    /** `getCacheStats`: counts the entries, the fresh ones and the expired ones. */
    function Stats(now: int): (r: CacheStats)
      reads this
      ensures r.totalEntries == |entries|
      ensures r.validEntries == |ValidKeys(entries, now)|
      ensures r.expiredEntries == |ExpiredKeys(entries, now)|
      ensures r.validEntries + r.expiredEntries == r.totalEntries
    {
      var valid := ValidKeys(entries, now);
      assert valid + ExpiredKeys(entries, now) == entries.Keys;
      assert valid !! ExpiredKeys(entries, now);
      CacheStats(|entries|, |valid|, |entries| - |valid|)
    }
  }

  /** A lookup soon enough after `setCachedData(k, d)` at time `t` returns `d`;
      a lookup later than that finds nothing; other keys are unaffected. */
  lemma StoreThenGet(entries: CacheMap, k: RequestUrl, d: Value, t: int, k': RequestUrl, t': int)
    ensures t' < t + CACHE_DURATION ==> CachedData(entries[k := Entry(d, t)], k, t') == Some(d)
    ensures t' >= t + CACHE_DURATION ==> CachedData(entries[k := Entry(d, t)], k, t') == None
    ensures k' != k ==> CachedData(entries[k := Entry(d, t)], k', t') == CachedData(entries, k', t')
  {
  }

  // ---------------------------------------------------------------------------
  // Rate limiter

  /** How long `rateLimit` sleeps when called at `now` after the stamp `last`. */
  function RateLimitWait(last: int, now: int): (w: nat)
    ensures w > 0 <==> now - last < RATE_LIMIT_DELAY
    ensures now + w == if now < last + RATE_LIMIT_DELAY then last + RATE_LIMIT_DELAY else now
  {
    var elapsed := now - last;
    if elapsed < RATE_LIMIT_DELAY then RATE_LIMIT_DELAY - elapsed else 0
  }

  /** The process-wide rate limiter: the instant of the last permitted request. */
  class RateLimiter {
    var lastRequestTime: int

    constructor ()
      ensures lastRequestTime == 0
    {
      lastRequestTime := 0;
    }

    /** `rateLimit`: sleeps out the rest of the second, then stamps the clock. */
    method RateLimit(now: int) returns (waited: nat)
      modifies this
      ensures waited == RateLimitWait(old(lastRequestTime), now)
      ensures lastRequestTime == now + waited
    {
      var timeSinceLastRequest := now - lastRequestTime;
      waited := 0;
      if timeSinceLastRequest < RATE_LIMIT_DELAY {
        waited := RATE_LIMIT_DELAY - timeSinceLastRequest;
      }
      lastRequestTime := now + waited;
    }
  }

  /** The stamps left by `rateLimit` calls issued at the clock readings `nows`,
      starting from the stamp `last`. */
  function Stamps(last: int, nows: seq<int>): (r: seq<int>)
    ensures |r| == |nows|
    decreases |nows|
  {
    if nows == [] then []
    else
      var stamp := nows[0] + RateLimitWait(last, nows[0]);
      [stamp] + Stamps(stamp, nows[1..])
  }

  /** Successive stamps, hence successive rate-limited requests, are at least
      RATE_LIMIT_DELAY apart, and no request goes out before it was asked for. */
  lemma {:induction false} StampsAreSpaced(last: int, nows: seq<int>)
    ensures forall i | 0 <= i < |nows| :: Stamps(last, nows)[i] >= nows[i]
    ensures |nows| > 0 ==> Stamps(last, nows)[0] >= last + RATE_LIMIT_DELAY
    ensures forall i | 0 < i < |nows| :: Stamps(last, nows)[i] >= Stamps(last, nows)[i - 1] + RATE_LIMIT_DELAY
    decreases |nows|
  {
    if nows != [] {
      var stamp := nows[0] + RateLimitWait(last, nows[0]);
      StampsAreSpaced(stamp, nows[1..]);
      var r := Stamps(last, nows);
      assert r == [stamp] + Stamps(stamp, nows[1..]);
      forall i | 0 < i < |nows| ensures r[i] >= r[i - 1] + RATE_LIMIT_DELAY {
        assert r[i] == Stamps(stamp, nows[1..])[i - 1];
        if i > 1 {
          assert r[i - 1] == Stamps(stamp, nows[1..])[i - 2];
        }
      }
      forall i | 0 <= i < |nows| ensures r[i] >= nows[i] {
        if i > 0 {
          assert r[i] == Stamps(stamp, nows[1..])[i - 1];
        }
      }
    }
  }

  // ---------------------------------------------------------------------------
  // Error classification

  const MSG_INVALID_REQUEST := "Invalid request. Please check your input."
  const MSG_AUTH := "Authentication error: Invalid or inactive API key. Please check your OpenWeatherMap API key."
  const MSG_CITY_NOT_FOUND := "City not found. Please check the spelling."
  const MSG_LOCATION_NOT_FOUND := "Location not found."
  const MSG_TOO_MANY_REQUESTS := "Too many requests. Please wait a moment before trying again."
  const MSG_API_UNAVAILABLE := "Server error: OpenWeatherMap API is currently unavailable. Please try again later."
  const MSG_SERVER_ERROR := "Server error: Please try again later."
  const MSG_REQUEST_ERROR := "Request error: Please check your input and try again."
  const MSG_UNKNOWN_ERROR := "An unknown error occurred while fetching weather data."

  /** The cases of the `switch` in `handleApiError`. */
  datatype ApiError =
    | InvalidRequest | Unauthorized | CityNotFound | LocationNotFound | TooManyRequests
    | ApiUnavailable | ServerError | RequestError | UnknownError

  function ErrorMessage(e: ApiError): string {
    match e
    case InvalidRequest => MSG_INVALID_REQUEST
    case Unauthorized => MSG_AUTH
    case CityNotFound => MSG_CITY_NOT_FOUND
    case LocationNotFound => MSG_LOCATION_NOT_FOUND
    case TooManyRequests => MSG_TOO_MANY_REQUESTS
    case ApiUnavailable => MSG_API_UNAVAILABLE
    case ServerError => MSG_SERVER_ERROR
    case RequestError => MSG_REQUEST_ERROR
    case UnknownError => MSG_UNKNOWN_ERROR
  }

  /** The nine messages are pairwise different. */
  lemma ErrorMessageInjective(e: ApiError, e': ApiError)
    ensures ErrorMessage(e) == ErrorMessage(e') <==> e == e'
  {
    if e != e' {
      assert |ErrorMessage(e)| != |ErrorMessage(e')|;
    }
  }

  /** Which case of the `switch` a failed response falls into. */
  function ClassifyStatus(status: int, context: string): (e: ApiError)
    ensures e == InvalidRequest <==> status == 400
    ensures e == Unauthorized <==> status == 401
    ensures e == TooManyRequests <==> status == 429
    ensures e == CityNotFound <==> status == 404 && context == "city"
    ensures e == LocationNotFound <==> status == 404 && context != "city"
    ensures e == ApiUnavailable <==> status in {500, 502, 503, 504}
    ensures e == ServerError <==> status >= 500 && status !in {500, 502, 503, 504}
    ensures e == RequestError <==> 400 <= status < 500 && status !in {400, 401, 404, 429}
    ensures e == UnknownError <==> status < 400
  {
    if status == 400 then InvalidRequest
    else if status == 401 then Unauthorized
    else if status == 404 then (if context == "city" then CityNotFound else LocationNotFound)
    else if status == 429 then TooManyRequests
    else if status == 500 || status == 502 || status == 503 || status == 504 then ApiUnavailable
    else if status >= 500 then ServerError
    else if status >= 400 then RequestError
    else UnknownError
  }

  /** `handleApiError`: the message of the Error thrown for a failed response. */
  function HandleApiError(status: int, context: string): string {
    ErrorMessage(ClassifyStatus(status, context))
  }

  /** Each message is produced for exactly its statuses. */
  lemma HandleApiErrorMessages(status: int, context: string)
    ensures var message := HandleApiError(status, context);
      && (message == MSG_INVALID_REQUEST <==> status == 400)
      && (message == MSG_AUTH <==> status == 401)
      && (message == MSG_TOO_MANY_REQUESTS <==> status == 429)
      && (message == MSG_CITY_NOT_FOUND <==> status == 404 && context == "city")
      && (message == MSG_LOCATION_NOT_FOUND <==> status == 404 && context != "city")
      && (message == MSG_API_UNAVAILABLE <==> status in {500, 502, 503, 504})
      && (message == MSG_SERVER_ERROR <==> status >= 500 && status !in {500, 502, 503, 504})
      && (message == MSG_REQUEST_ERROR <==> 400 <= status < 500 && status !in {400, 401, 404, 429})
      && (message == MSG_UNKNOWN_ERROR <==> status < 400)
  {
    var e := ClassifyStatus(status, context);
    forall e' ensures ErrorMessage(e) == ErrorMessage(e') <==> e == e' {
      ErrorMessageInjective(e, e');
    }
    assert MSG_INVALID_REQUEST == ErrorMessage(InvalidRequest);
    assert MSG_AUTH == ErrorMessage(Unauthorized);
    assert MSG_TOO_MANY_REQUESTS == ErrorMessage(TooManyRequests);
    assert MSG_CITY_NOT_FOUND == ErrorMessage(CityNotFound);
    assert MSG_LOCATION_NOT_FOUND == ErrorMessage(LocationNotFound);
    assert MSG_API_UNAVAILABLE == ErrorMessage(ApiUnavailable);
    assert MSG_SERVER_ERROR == ErrorMessage(ServerError);
    assert MSG_REQUEST_ERROR == ErrorMessage(RequestError);
    assert MSG_UNKNOWN_ERROR == ErrorMessage(UnknownError);
  }

  /** The Error a client call throws, by the place that throws it; its
      `message` is `Message` of it. */
  datatype Failure =
    | Thrown(message: string)   // a rejected `fetch`, a body that does not parse, or a throw of the hook
    | Api(kind: ApiError)       // the Error `handleApiError(response, context)` returns
    | CityRequired              // the guard of `fetchWeatherByCity`
    | InvalidCoordinates        // the guard of the two coordinate operations

  /** `error.message` */
  function Message(f: Failure): string {
    match f
    case Thrown(m) => m
    case Api(kind) => ErrorMessage(kind)
    case CityRequired => MSG_CITY_REQUIRED
    case InvalidCoordinates => MSG_INVALID_COORDINATES
  }

  /** How one attempt, the retry loop or a client call settles. */
  type Outcome = Result<Value, Failure>

  // ---------------------------------------------------------------------------
  // Fetch with retry

  /** The body of a response: parseable JSON, or text on which `response.json()` throws. */
  datatype Body = Json(value: Value) | Malformed(parseError: string)

  /** What one `fetch` produces: a rejected promise, or a response. */
  datatype Response = NetworkError(message: string) | Http(status: int, body: Body)

  /** One attempt, as the network oracle reports it: its outcome and how long it took. */
  datatype Attempt = Attempt(latency: nat, response: Response)

  /** `response.ok` */
  predicate IsOk(status: int) {
    200 <= status <= 299
  }

  /** The result of the `try` block of one attempt: the parsed payload, or
      whatever it threw. A non-ok status throws the Error `handleApiError`
      builds, whose message is `HandleApiError(status, context)`. */
  function AttemptOutcome(a: Attempt, context: string): (r: Outcome)
    ensures a.response.NetworkError? ==> r == Err(Thrown(a.response.message))
    ensures a.response.Http? && !IsOk(a.response.status) ==> r == Err(Api(ClassifyStatus(a.response.status, context)))
    ensures r.Ok? <==> a.response.Http? && IsOk(a.response.status) && a.response.body.Json?
  {
    match a.response
    case NetworkError(m) => Err(Thrown(m))
    case Http(status, body) =>
      if !IsOk(status) then Err(Api(ClassifyStatus(status, context)))
      else match body
        case Json(v) => Ok(v)
        case Malformed(m) => Err(Thrown(m))
  }

  /** A failed response throws the Error `handleApiError` builds, with its message. */
  lemma FailedResponseMessage(a: Attempt, context: string)
    requires a.response.Http? && !IsOk(a.response.status)
    ensures Message(AttemptOutcome(a, context).error) == HandleApiError(a.response.status, context)
  {
  }

  /** `handleApiError` reads only the status: the body of a failed response,
      and any `message` it carries, never reaches the Error. */
  lemma ErrorBodyIsIgnored(status: int, body: Body, body': Body, latency: nat, latency': nat, context: string)
    requires !IsOk(status)
    ensures AttemptOutcome(Attempt(latency, Http(status, body)), context)
         == AttemptOutcome(Attempt(latency', Http(status, body')), context)
         == Err(Api(ClassifyStatus(status, context)))
  {
  }

  function Pow2(i: nat): (r: nat)
    ensures r >= 1
  {
    if i == 0 then 1 else 2 * Pow2(i - 1)
  }

  /** The sleep after failed attempt `i`: `Math.pow(2, i) * 1000`. */
  function Backoff(i: nat): nat {
    Pow2(i) * 1000
  }

  /** The sleeps after attempts 0 .. n-1. */
  function BackoffSchedule(n: nat): (r: seq<nat>)
    ensures |r| == n
    ensures forall j | 0 <= j < n :: r[j] == Backoff(j)
  {
    if n == 0 then [] else BackoffSchedule(n - 1) + [Backoff(n - 1)]
  }

  /** Total latency of attempts 0 .. n-1. */
  function TotalLatency(net: nat -> Attempt, n: nat): int {
    if n == 0 then 0 else TotalLatency(net, n - 1) + net(n - 1).latency
  }

  /** Total sleep after attempts 0 .. n-1. */
  function TotalBackoff(n: nat): int {
    if n == 0 then 0 else TotalBackoff(n - 1) + Backoff(n - 1)
  }

  /** A finished `fetchWithRetry`: its result, the number of attempts made, the
      sleeps taken, and the time it took. */
  datatype RetryRun = RetryRun(result: Outcome, attempts: nat, sleeps: seq<nat>, elapsed: int)

  /** The retry loop from attempt `i` on, with the sleeps and elapsed time so far. */
  function RetryFrom(net: nat -> Attempt, retries: int, context: string, i: nat,
                     sleeps: seq<nat>, elapsed: int): RetryRun
    decreases retries - i
  {
    if i >= retries then RetryRun(Ok(Undefined), i, sleeps, elapsed)
    else
      var spent := elapsed + net(i).latency;
      var outcome := AttemptOutcome(net(i), context);
      if outcome.Ok? || i == retries - 1 then RetryRun(outcome, i + 1, sleeps, spent)
      else RetryFrom(net, retries, context, i + 1, sleeps + [Backoff(i)], spent + Backoff(i))
  }

  /** `fetchWithRetry(url, {context}, retries)` against the network `net`. */
  function Retry(net: nat -> Attempt, retries: int, context: string): RetryRun {
    RetryFrom(net, retries, context, 0, [], 0)
  }

  /** `fetchWithRetry`: the `for` loop over attempts. */
  method FetchWithRetry(net: nat -> Attempt, retries: int, context: string) returns (run: RetryRun)
    ensures run == Retry(net, retries, context)
  {
    var i: nat := 0;
    var sleeps: seq<nat> := [];
    var elapsed := 0;
    while i < retries
      invariant RetryFrom(net, retries, context, i, sleeps, elapsed) == Retry(net, retries, context)
      decreases retries - i
    {
      var attempt := net(i);
      elapsed := elapsed + attempt.latency;
      var outcome := AttemptOutcome(attempt, context);
      if outcome.Ok? {
        return RetryRun(outcome, i + 1, sleeps, elapsed);
      }
      if i == retries - 1 {
        return RetryRun(outcome, i + 1, sleeps, elapsed);
      }
      var pause := Backoff(i);
      sleeps := sleeps + [pause];
      elapsed := elapsed + pause;
      i := i + 1;
    }
    run := RetryRun(Ok(Undefined), i, sleeps, elapsed);
  }

  /** The facts about a run of the retry loop that started at attempt `i`. */
  ghost predicate RunFrom(net: nat -> Attempt, retries: int, context: string, i: nat, run: RetryRun) {
    && i < run.attempts <= retries
    && (forall j | i <= j < run.attempts - 1 :: AttemptOutcome(net(j), context).Err?)
    && run.result == AttemptOutcome(net(run.attempts - 1), context)
    && (run.result.Err? ==> run.attempts == retries)
    && run.sleeps == BackoffSchedule(run.attempts - 1)
    && run.elapsed == TotalLatency(net, run.attempts) + TotalBackoff(run.attempts - 1)
  }

  /** The retry loop from attempt `i` on, given that attempts before `i` failed
      and slept their backoff. */
  lemma {:induction false} RetryFromFacts(net: nat -> Attempt, retries: int, context: string, i: nat,
                                          sleeps: seq<nat>, elapsed: int)
    requires i < retries
    requires sleeps == BackoffSchedule(i)
    requires elapsed == TotalLatency(net, i) + TotalBackoff(i)
    ensures RunFrom(net, retries, context, i, RetryFrom(net, retries, context, i, sleeps, elapsed))
    decreases retries - i
  {
    if AttemptOutcome(net(i), context).Ok? || i == retries - 1 {
      LastAttemptFacts(net, retries, context, i, sleeps, elapsed);
    } else {
      var elapsed' := elapsed + net(i).latency + Backoff(i);
      RetryStep(net, retries, context, i, sleeps, elapsed);
      RetryFromFacts(net, retries, context, i + 1, sleeps + [Backoff(i)], elapsed');
      FailedAttemptFacts(net, retries, context, i, RetryFrom(net, retries, context, i + 1, sleeps + [Backoff(i)], elapsed'));
    }
  }

  /** A failed attempt that is not the last sleeps its backoff and goes on. */
  lemma RetryStep(net: nat -> Attempt, retries: int, context: string, i: nat,
                  sleeps: seq<nat>, elapsed: int)
    requires i < retries - 1 && AttemptOutcome(net(i), context).Err?
    requires sleeps == BackoffSchedule(i)
    requires elapsed == TotalLatency(net, i) + TotalBackoff(i)
    ensures sleeps + [Backoff(i)] == BackoffSchedule(i + 1)
    ensures elapsed + net(i).latency + Backoff(i) == TotalLatency(net, i + 1) + TotalBackoff(i + 1)
    ensures RetryFrom(net, retries, context, i, sleeps, elapsed)
         == RetryFrom(net, retries, context, i + 1, sleeps + [Backoff(i)], elapsed + net(i).latency + Backoff(i))
  {
  }

  /** The attempt at which the loop stops. */
  lemma LastAttemptFacts(net: nat -> Attempt, retries: int, context: string, i: nat,
                         sleeps: seq<nat>, elapsed: int)
    requires i < retries
    requires AttemptOutcome(net(i), context).Ok? || i == retries - 1
    requires sleeps == BackoffSchedule(i)
    requires elapsed == TotalLatency(net, i) + TotalBackoff(i)
    ensures RunFrom(net, retries, context, i, RetryFrom(net, retries, context, i, sleeps, elapsed))
  {
    var outcome := AttemptOutcome(net(i), context);
    assert RetryFrom(net, retries, context, i, sleeps, elapsed) == RetryRun(outcome, i + 1, sleeps, elapsed + net(i).latency);
  }

  /** A failed attempt in front of a run from the next attempt on. */
  lemma FailedAttemptFacts(net: nat -> Attempt, retries: int, context: string, i: nat, run: RetryRun)
    requires AttemptOutcome(net(i), context).Err?
    requires RunFrom(net, retries, context, i + 1, run)
    ensures RunFrom(net, retries, context, i, run)
  {
  }

  /** What `fetchWithRetry` promises: at most `retries` attempts; the payload of
      the first successful one; after failed attempt i, a sleep of 2^i seconds
      unless it was the last; when all attempts fail, the last one's error. With
      no attempts at all the loop falls through and yields `undefined`. */
  lemma RetryContract(net: nat -> Attempt, retries: int, context: string)
    ensures retries <= 0 ==> Retry(net, retries, context) == RetryRun(Ok(Undefined), 0, [], 0)
    ensures retries > 0 ==> var run := Retry(net, retries, context);
      && 1 <= run.attempts <= retries
      && (forall j | 0 <= j < run.attempts - 1 :: AttemptOutcome(net(j), context).Err?)
      && run.result == AttemptOutcome(net(run.attempts - 1), context)
      && (run.result.Err? <==> forall j | 0 <= j < retries :: AttemptOutcome(net(j), context).Err?)
      && (run.result.Err? ==> run.attempts == retries)
      && run.sleeps == BackoffSchedule(run.attempts - 1)
      && run.elapsed == TotalLatency(net, run.attempts) + TotalBackoff(run.attempts - 1)
  {
    if retries > 0 {
      RetryFromFacts(net, retries, context, 0, [], 0);
    }
  }

  /** Two failures and then a success: the payload, after sleeps of 1 s and 2 s. */
  lemma TwoFailuresThenSuccess(net: nat -> Attempt, context: string, v: Value)
    requires AttemptOutcome(net(0), context).Err? && AttemptOutcome(net(1), context).Err?
    requires AttemptOutcome(net(2), context) == Ok(v)
    ensures Retry(net, RETRIES, context).result == Ok(v)
    ensures Retry(net, RETRIES, context).attempts == 3
    ensures Retry(net, RETRIES, context).sleeps == [1000, 2000]
  {
    RetryContract(net, RETRIES, context);
    assert BackoffSchedule(2) == [1000, 2000];
  }

  /** Three failures: the third one's error, after sleeps of 1 s and 2 s. */
  lemma ThreeFailures(net: nat -> Attempt, context: string)
    requires forall j | 0 <= j < 3 :: AttemptOutcome(net(j), context).Err?
    ensures Retry(net, RETRIES, context).result == AttemptOutcome(net(2), context)
    ensures Retry(net, RETRIES, context).sleeps == [1000, 2000]
  {
    RetryContract(net, RETRIES, context);
    assert BackoffSchedule(2) == [1000, 2000];
  }

  // ---------------------------------------------------------------------------
  // Client operations, on the values of the module state

  /** The two module-level variables: the cache and the rate limiter's stamp. */
  datatype ApiState = ApiState(cache: CacheMap, lastRequestTime: int)

  /** Which way a call went: rejected by validation, served from the cache, or
      sent to the network after waiting `waited` for the rate limiter. */
  datatype Path =
    | Rejected
    | CacheHit(url: RequestUrl)
    | Network(url: RequestUrl, waited: nat, run: RetryRun)

  /** A finished client call: its result, its path and the clock when it returned. */
  datatype Call = Call(result: Outcome, path: Path, finish: int)

  /** A finished client call and the module state it leaves. */
  datatype Exchange = Exchange(state: ApiState, call: Call)

  /** The part the three operations share: the cache check, then on a miss the
      rate limiter, the fetch with retry and the write-through. */
  function CachedFetch(s: ApiState, url: RequestUrl, context: string, now: int, net: nat -> Attempt): Exchange {
    var cached := CachedData(s.cache, url, now);
    var cache := AfterGet(s.cache, url, now);
    if cached.Some? && Truthy(cached.value) then
      Exchange(ApiState(cache, s.lastRequestTime), Call(Ok(cached.value), CacheHit(url), now))
    else
      var waited := RateLimitWait(s.lastRequestTime, now);
      var start := now + waited;
      var run := Retry(net, RETRIES, context);
      var finish := start + run.elapsed;
      var cache' := if run.result.Ok? then cache[url := Entry(run.result.value, finish)] else cache;
      Exchange(ApiState(cache', start), Call(run.result, Network(url, waited, run), finish))
  }

  /** Every call past validation is for its URL: served from the cache, or sent to the network. */
  lemma CachedFetchUsesUrl(s: ApiState, url: RequestUrl, context: string, now: int, net: nat -> Attempt)
    ensures var x := CachedFetch(s, url, context, now, net);
      (x.call.path.CacheHit? || x.call.path.Network?) && x.call.path.url == url
  {
  }

  /** On a miss the call's result is that of the retry loop. */
  lemma CachedFetchMiss(s: ApiState, url: RequestUrl, context: string, now: int, net: nat -> Attempt)
    requires CachedData(s.cache, url, now).None?
    ensures CachedFetch(s, url, context, now, net).call.result == Retry(net, RETRIES, context).result
  {
  }

  const MSG_CITY_REQUIRED := "City name is required and must be a non-empty string."
  const MSG_INVALID_COORDINATES := "Invalid coordinates provided. Latitude must be between -90 and 90, longitude between -180 and 180."

  /** The guard of `fetchWeatherByCity`: a string that is not blank. */
  predicate IsCityName(city: Value) {
    Truthy(city) && city.Str? && Trim(city.s) != ""
  }

  function CityParams(apiKey: string, city: string): seq<Param> {
    [("q", Text(city)), ("appid", Text(apiKey)), ("units", Text("metric"))]
  }

  /** `fetchWeatherByCity(city)` */
  function WeatherByCity(apiKey: string, s: ApiState, city: Value, now: int, net: nat -> Attempt): Exchange {
    if !IsCityName(city) then Exchange(s, Call(Err(CityRequired), Rejected, now))
    else CachedFetch(s, RequestUrl(WEATHER_URL, CityParams(apiKey, Trim(city.s))), "city", now, net)
  }

  /** `x < bound` on a double. */
  predicate NumLess(x: Num, bound: real) {
    match x
    case NaN => false
    case Finite(r) => r < bound
    case Infinity(positive) => !positive
  }

  /** `x > bound` on a double. */
  predicate NumGreater(x: Num, bound: real) {
    match x
    case NaN => false
    case Finite(r) => r > bound
    case Infinity(positive) => positive
  }

  /** The guard both coordinate operations throw on. */
  predicate RejectsCoordinates(lat: Value, lon: Value) {
    || !lat.Number? || !lon.Number?
    || lat.n.NaN? || lon.n.NaN?
    || NumLess(lat.n, -90.0) || NumGreater(lat.n, 90.0) || NumLess(lon.n, -180.0) || NumGreater(lon.n, 180.0)
  }

  /** Accepted coordinates are exactly finite numbers with the latitude in
      [-90, 90] and the longitude in [-180, 180], bounds included. */
  lemma AcceptedCoordinates(lat: Value, lon: Value)
    ensures !RejectsCoordinates(lat, lon) <==>
      && lat.Number? && lat.n.Finite? && -90.0 <= lat.n.r <= 90.0
      && lon.Number? && lon.n.Finite? && -180.0 <= lon.n.r <= 180.0
  {
  }

  function CoordinateParams(apiKey: string, lat: real, lon: real): seq<Param> {
    [("lat", Decimal(lat)), ("lon", Decimal(lon)), ("appid", Text(apiKey)), ("units", Text("metric"))]
  }

  /** A coordinate operation against endpoint `base` with error context `context`. */
  function ByCoordinates(apiKey: string, base: string, context: string, s: ApiState,
                         lat: Value, lon: Value, now: int, net: nat -> Attempt): Exchange {
    if RejectsCoordinates(lat, lon) then Exchange(s, Call(Err(InvalidCoordinates), Rejected, now))
    else CachedFetch(s, RequestUrl(base, CoordinateParams(apiKey, lat.n.r, lon.n.r)), context, now, net)
  }

  /** `fetchWeatherByCoords(lat, lon)` */
  function WeatherByCoords(apiKey: string, s: ApiState, lat: Value, lon: Value, now: int, net: nat -> Attempt): Exchange {
    ByCoordinates(apiKey, WEATHER_URL, "location", s, lat, lon, now, net)
  }

  /** `fetchForecastByCoords(lat, lon)` */
  function ForecastByCoords(apiKey: string, s: ApiState, lat: Value, lon: Value, now: int, net: nat -> Attempt): Exchange {
    ByCoordinates(apiKey, FORECAST_URL, "forecast", s, lat, lon, now, net)
  }

  // ---------------------------------------------------------------------------
  // Properties of the client operations

  /** `fetchWeatherByCity` rejects exactly the non-strings and the blank strings,
      before any cache, limiter or network step; otherwise it asks for the
      trimmed name in metric units. */
  lemma CityValidation(apiKey: string, s: ApiState, city: Value, now: int, net: nat -> Attempt)
    ensures var x := WeatherByCity(apiKey, s, city, now, net);
      && (IsCityName(city) <==> city.Str? && !AllWhitespace(city.s))
      && (!IsCityName(city) ==> x == Exchange(s, Call(Err(CityRequired), Rejected, now)))
      && (IsCityName(city) ==>
            && !x.call.path.Rejected?
            && x.call.path.url == RequestUrl(WEATHER_URL,
                 [("q", Text(Trim(city.s))), ("appid", Text(apiKey)), ("units", Text("metric"))]))
  {
    if city.Str? {
      TrimEmptyIffBlank(city.s);
    }
  }

  /** Both coordinate operations reject out-of-range, NaN and non-number
      coordinates before any cache, limiter or network step; otherwise they ask
      for exactly those coordinates in metric units. */
  lemma CoordinateValidation(apiKey: string, s: ApiState, lat: Value, lon: Value, now: int, net: nat -> Attempt)
    ensures var w := WeatherByCoords(apiKey, s, lat, lon, now, net);
            var f := ForecastByCoords(apiKey, s, lat, lon, now, net);
      && (RejectsCoordinates(lat, lon) ==>
            w == f == Exchange(s, Call(Err(InvalidCoordinates), Rejected, now)))
      && (!RejectsCoordinates(lat, lon) ==>
            && w.call.path.url == RequestUrl(WEATHER_URL, CoordinateParams(apiKey, lat.n.r, lon.n.r))
            && f.call.path.url == RequestUrl(FORECAST_URL, CoordinateParams(apiKey, lat.n.r, lon.n.r)))
  {
  }

  /** Latitude 91 and longitude 200 are refused; the corners of the range are not. */
  lemma CoordinateExamples()
    ensures RejectsCoordinates(Number(Finite(91.0)), Number(Finite(0.0)))
    ensures RejectsCoordinates(Number(Finite(0.0)), Number(Finite(200.0)))
    ensures RejectsCoordinates(Number(NaN), Number(Finite(0.0)))
    ensures RejectsCoordinates(Number(Infinity(true)), Number(Finite(0.0)))
    ensures !RejectsCoordinates(Number(Finite(90.0)), Number(Finite(-180.0)))
    ensures !RejectsCoordinates(Number(Finite(-90.0)), Number(Finite(180.0)))
  {
  }

  /** A cache hit returns the cached data and leaves the cache and the limiter as
      they were: no `rateLimit`, no network attempt. */
  lemma CacheHitTouchesNothing(s: ApiState, url: RequestUrl, context: string, now: int, net: nat -> Attempt)
    ensures var x := CachedFetch(s, url, context, now, net);
      && (x.call.path.CacheHit? <==> CachedData(s.cache, url, now).Some? && Truthy(CachedData(s.cache, url, now).value))
      && (x.call.path.CacheHit? ==>
            x == Exchange(s, Call(Ok(s.cache[url].data), CacheHit(url), now)))
  {
  }

  /** On a miss `rateLimit` runs first: its stamp is at least a second after the
      previous one, and the attempts start at that stamp. */
  lemma MissWaitsForLimiter(s: ApiState, url: RequestUrl, context: string, now: int, net: nat -> Attempt)
    ensures var x := CachedFetch(s, url, context, now, net);
      x.call.path.Network? ==>
        && x.call.path.run == Retry(net, RETRIES, context)
        && x.state.lastRequestTime == now + x.call.path.waited
        && x.state.lastRequestTime >= s.lastRequestTime + RATE_LIMIT_DELAY
        && x.call.finish == x.state.lastRequestTime + x.call.path.run.elapsed
  {
  }

  /** A failed call writes nothing: the cache only loses the key the lookup found
      missing or expired. */
  lemma FailureDoesNotWriteCache(s: ApiState, url: RequestUrl, context: string, now: int, net: nat -> Attempt)
    ensures var x := CachedFetch(s, url, context, now, net);
      x.call.result.Err? ==>
        && x.state.cache == AfterGet(s.cache, url, now)
        && forall k | k in x.state.cache :: k in s.cache && x.state.cache[k] == s.cache[k]
  {
  }

  /** A successful network call writes its payload through, stamped with the
      clock after the fetch, and changes no other key. */
  lemma SuccessWritesThrough(s: ApiState, url: RequestUrl, context: string, now: int, net: nat -> Attempt)
    ensures var x := CachedFetch(s, url, context, now, net);
      x.call.path.Network? && x.call.result.Ok? ==>
        x.state.cache == s.cache[url := Entry(x.call.result.value, x.call.finish)]
  {
    var x := CachedFetch(s, url, context, now, net);
    if x.call.path.Network? && x.call.result.Ok? {
      var e := Entry(x.call.result.value, x.call.finish);
      assert AfterGet(s.cache, url, now)[url := e] == s.cache[url := e];
    }
  }

  /** The same query repeated within ten minutes of a successful network call
      (with a truthy payload) is served from the cache, with no network call. */
  lemma RepeatWithinLifetimeHits(s: ApiState, url: RequestUrl, context: string, now: int, net: nat -> Attempt,
                                 context': string, now': int, net': nat -> Attempt)
    requires CachedFetch(s, url, context, now, net).call.path.Network?
    requires CachedFetch(s, url, context, now, net).call.result.Ok?
    requires Truthy(CachedFetch(s, url, context, now, net).call.result.value)
    requires now' < CachedFetch(s, url, context, now, net).call.finish + CACHE_DURATION
    ensures var x := CachedFetch(s, url, context, now, net);
            var y := CachedFetch(x.state, url, context', now', net');
      y == Exchange(x.state, Call(x.call.result, CacheHit(url), now'))
  {
    SuccessWritesThrough(s, url, context, now, net);
  }

  /** Ten minutes or more after it, the same query goes to the network again. */
  lemma RepeatAfterLifetimeRefetches(s: ApiState, url: RequestUrl, context: string, now: int, net: nat -> Attempt,
                                     context': string, now': int, net': nat -> Attempt)
    requires CachedFetch(s, url, context, now, net).call.path.Network?
    requires CachedFetch(s, url, context, now, net).call.result.Ok?
    requires now' >= CachedFetch(s, url, context, now, net).call.finish + CACHE_DURATION
    ensures CachedFetch(CachedFetch(s, url, context, now, net).state, url, context', now', net').call.path.Network?
  {
    SuccessWritesThrough(s, url, context, now, net);
  }

  /** Of two consecutive calls that both miss the cache, whatever endpoints
      they use, the first attempts (the limiter stamps) are at least a second
      apart. */
  lemma ConsecutiveMissesAreSpaced(s: ApiState, url: RequestUrl, context: string, now: int, net: nat -> Attempt,
                                   url': RequestUrl, context': string, now': int, net': nat -> Attempt)
    requires CachedFetch(s, url, context, now, net).call.path.Network?
    requires CachedFetch(CachedFetch(s, url, context, now, net).state, url', context', now', net').call.path.Network?
    ensures var x := CachedFetch(s, url, context, now, net);
            var y := CachedFetch(x.state, url', context', now', net');
      y.state.lastRequestTime >= x.state.lastRequestTime + RATE_LIMIT_DELAY
  {
  }

  /** Only the first attempt of a miss waits for the rate limiter; the retries
      do not. When the three attempts fail at once, the last one goes out 3000 ms
      after the stamp, when the call returns, and a second miss made then waits
      nothing: it reaches the network at the same instant as that last attempt. */
  lemma RetriesAreNotRateLimited(s: ApiState, url: RequestUrl, context: string, now: int, net: nat -> Attempt)
    requires CachedData(s.cache, url, now).None?
    requires forall j | 0 <= j < 3 :: net(j).latency == 0 && net(j).response.NetworkError?
    ensures var x := CachedFetch(s, url, context, now, net);
      && x.call.path.Network?
      && x.call.path.run.attempts == 3
      && x.call.finish == x.state.lastRequestTime + 3000
      && RateLimitWait(x.state.lastRequestTime, x.call.finish) == 0
  {
    var run := Retry(net, RETRIES, context);
    RetryContract(net, RETRIES, context);
    assert run.attempts == 3;
    assert TotalLatency(net, 3) == 0;
    assert TotalBackoff(2) == 3000 by {
      assert Backoff(0) == 1000;
      assert Backoff(1) == 2000;
    }
  }

  /** The 404 message for a city does not name the city: a name that is not
      found yields the same Error whatever the name, whose message is the
      fixed `MSG_CITY_NOT_FOUND`. */
  lemma CityNotFoundMessage(apiKey: string, s: ApiState, name: string, now: int, net: nat -> Attempt)
    requires Trim(name) != ""
    requires CachedData(s.cache, RequestUrl(WEATHER_URL, CityParams(apiKey, Trim(name))), now).None?
    requires forall j | 0 <= j < 3 :: net(j).response.Http? && net(j).response.status == 404
    ensures WeatherByCity(apiKey, s, Str(name), now, net).call.result == Err(Api(CityNotFound))
  {
    var url := RequestUrl(WEATHER_URL, CityParams(apiKey, Trim(name)));
    assert IsCityName(Str(name));
    assert WeatherByCity(apiKey, s, Str(name), now, net) == CachedFetch(s, url, "city", now, net);
    CachedFetchMiss(s, url, "city", now, net);
    CityNotFoundThrice(net);
  }

  /** Three 404 answers to a city request end the retry loop with the city error. */
  lemma CityNotFoundThrice(net: nat -> Attempt)
    requires forall j | 0 <= j < 3 :: net(j).response.Http? && net(j).response.status == 404
    ensures Retry(net, RETRIES, "city").result == Err(Api(CityNotFound))
  {
    assert forall j | 0 <= j < 3 :: AttemptOutcome(net(j), "city") == Err(Api(CityNotFound)) by {
      assert ClassifyStatus(404, "city") == CityNotFound;
    }
    ThreeFailures(net, "city");
  }

  /** Parameters are keyed in the order they are appended: the same parameters in
      another order make another cache key. */
  lemma ParameterOrderMatters(apiKey: string, city: string)
    ensures RequestUrl(WEATHER_URL, CityParams(apiKey, city))
         != RequestUrl(WEATHER_URL, [("appid", Text(apiKey)), ("q", Text(city)), ("units", Text("metric"))])
  {
    assert CityParams(apiKey, city)[0].0 == "q";
  }

  // ---------------------------------------------------------------------------
  // The module state and the exported operations

  /** The module's mutable state: one cache, one limiter, and the API key. */
  class WeatherApi {
    const apiKey: string
    const cache: ResponseCache
    const limiter: RateLimiter

    constructor (apiKey: string)
      ensures this.apiKey == apiKey && fresh(cache) && fresh(limiter)
      ensures State() == ApiState(map[], 0)
    {
      this.apiKey := apiKey;
      cache := new ResponseCache();
      limiter := new RateLimiter();
    }

    function State(): ApiState
      reads cache, limiter
    {
      ApiState(cache.entries, limiter.lastRequestTime)
    }

    /** Cache check, then on a miss `rateLimit`, `fetchWithRetry` and `setCachedData`. */
    method Request(url: RequestUrl, context: string, now: int, net: nat -> Attempt) returns (call: Call)
      modifies cache, limiter
      ensures Exchange(State(), call) == CachedFetch(old(State()), url, context, now, net)
    {
      var cachedData := cache.GetCachedData(url, now);
      if cachedData.Some? && Truthy(cachedData.value) {
        return Call(Ok(cachedData.value), CacheHit(url), now);
      }
      var waited := limiter.RateLimit(now);
      var start := now + waited;
      var run := FetchWithRetry(net, RETRIES, context);
      var finish := start + run.elapsed;
      if run.result.Ok? {
        cache.SetCachedData(url, run.result.value, finish);
      }
      call := Call(run.result, Network(url, waited, run), finish);
    }

    /** `fetchWeatherByCity` */
    method FetchWeatherByCity(city: Value, now: int, net: nat -> Attempt) returns (call: Call)
      modifies cache, limiter
      ensures Exchange(State(), call) == WeatherByCity(apiKey, old(State()), city, now, net)
    {
      if !(Truthy(city) && city.Str? && Trim(city.s) != "") {
        return Call(Err(CityRequired), Rejected, now);
      }
      var trimmedCity := Trim(city.s);
      var url := CreateRequestUrl(WEATHER_URL, CityParams(apiKey, trimmedCity));
      call := Request(url, "city", now, net);
    }

    /** `fetchForecastByCoords` */
    method FetchForecastByCoords(lat: Value, lon: Value, now: int, net: nat -> Attempt) returns (call: Call)
      modifies cache, limiter
      ensures Exchange(State(), call) == ForecastByCoords(apiKey, old(State()), lat, lon, now, net)
    {
      if RejectsCoordinates(lat, lon) {
        return Call(Err(InvalidCoordinates), Rejected, now);
      }
      var url := CreateRequestUrl(FORECAST_URL, CoordinateParams(apiKey, lat.n.r, lon.n.r));
      call := Request(url, "forecast", now, net);
    }

    /** `fetchWeatherByCoords` */
    method FetchWeatherByCoords(lat: Value, lon: Value, now: int, net: nat -> Attempt) returns (call: Call)
      modifies cache, limiter
      ensures Exchange(State(), call) == WeatherByCoords(apiKey, old(State()), lat, lon, now, net)
    {
      if RejectsCoordinates(lat, lon) {
        return Call(Err(InvalidCoordinates), Rejected, now);
      }
      var url := CreateRequestUrl(WEATHER_URL, CoordinateParams(apiKey, lat.n.r, lon.n.r));
      call := Request(url, "location", now, net);
    }

    /** `clearCache` */
    method ClearCache()
      modifies cache
      ensures State() == ApiState(map[], old(State()).lastRequestTime)
    {
      cache.Clear();
    }
  }
}
