/**
 * The market-data fetcher: a single-slot cache with a sixty-second freshness window, the
 * classification of failed requests, and the decision `fetchMarketData` takes between the
 * cache, the network and the stale fallback.
 *
 * The module-level variables of `js/api.js` become a `CacheState` value that goes in and
 * comes out of every operation; `Date.now()` becomes the parameter `now`; the outcome of the
 * one network request (and of parsing its body) becomes the parameter `outcome`; the
 * `apiError` event becomes the `error` field of the result.
 */
module Api {

  import opened Wrappers
  import opened Coins
  import opened Text

  /** Freshness window of the cache, in milliseconds. */
  const CacheDuration: int := 60000

  /** The two module-level variables `cachedData` and `cacheTimestamp`; `None` is `null`. */
  datatype CacheState = CacheState(data: Option<seq<Coin>>, timestamp: Option<int>)

  /** The cache as the page loads it, and as `clearCache` leaves it. */
  const EmptyCache := CacheState(None, None)

  /**
   * `isCacheValid`. Both variables must be truthy: a stored array always is, a timestamp
   * is unless it is 0. Then the entry is fresh while strictly less than the window old.
   */
  predicate IsCacheValid(cache: CacheState, now: int) {
    cache.data.Some? && cache.timestamp.Some? && cache.timestamp.value != 0
    && now - cache.timestamp.value < CacheDuration
  }

  /** `getCachedData`: the stored list while it is fresh, `null` otherwise. */
  function GetCachedData(cache: CacheState, now: int): (r: Option<seq<Coin>>)
    ensures r.Some? <==> IsCacheValid(cache, now)
    ensures r.Some? ==> r == cache.data
  {
    if IsCacheValid(cache, now) then cache.data else None
  }

  /** `setCachedData`: both variables are overwritten, whatever they held. */
  function SetCachedData(cache: CacheState, data: seq<Coin>, now: int): (r: CacheState)
    ensures r.data == Some(data)
    ensures now != 0 ==> GetCachedData(r, now) == Some(data)
  {
    CacheState(Some(data), Some(now))
  }

  /** `clearCache`. */
  function ClearCache(cache: CacheState): (r: CacheState)
    ensures forall now :: GetCachedData(r, now) == None
    ensures r.data == None
  {
    EmptyCache
  }

  // ---------------------------------------------------------------- error classification

  datatype ErrorKind = RateLimited | ServerError | ClientError | NetworkError | UnknownError

  /** The `{type, message}` object of `handleApiError`, carried by the `apiError` event. */
  datatype ErrorInfo = ErrorInfo(kind: ErrorKind, message: string)

  /** A JavaScript `Error`: its `name` (`"Error"`, `"TypeError"`, …) and `message`. */
  datatype JsError = JsError(name: string, message: string)

  /** The message `handleApiError` pairs with each kind. */
  function MessageOf(kind: ErrorKind): string {
    match kind
    case RateLimited => "Too many requests. Please wait a moment and try again."
    case ServerError => "CoinGecko API is currently unavailable. Please try again later."
    case ClientError => "Invalid request. Please try again."
    case NetworkError => "Unable to connect to CoinGecko. Please check your internet connection."
    case UnknownError => "An unexpected error occurred. Please try again."
  }

  /** What `fetch` rejects with when no response arrives. */
  predicate IsFetchTypeError(error: JsError) {
    error.name == "TypeError" && Contains(error.message, "fetch")
  }

  /**
   * The `type` chosen by `handleApiError(error, response)`, with `response` reduced to its
   * status (`None` is `null`). The status is consulted first; a status below 400 falls
   * through to the test on the error itself.
   */
  function ErrorKindOf(error: JsError, response: Option<nat>): (r: ErrorKind)
    ensures r == RateLimited <==> response == Some(429)
    ensures r == ServerError <==> response.Some? && response.value >= 500
    ensures r == ClientError <==> response.Some? && 400 <= response.value < 500 && response.value != 429
    ensures r == NetworkError <==> (response.None? || response.value < 400) && IsFetchTypeError(error)
  {
    if response.Some? && response.value == 429 then RateLimited
    else if response.Some? && response.value >= 500 then ServerError
    else if response.Some? && response.value >= 400 then ClientError
    else if IsFetchTypeError(error) then NetworkError
    else UnknownError
  }

  /** `handleApiError`: the kind together with the message shown for it. */
  function HandleApiError(error: JsError, response: Option<nat>): (r: ErrorInfo)
    ensures r.message == MessageOf(r.kind)
    ensures r.kind == ErrorKindOf(error, response)
  {
    var kind := ErrorKindOf(error, response);
    ErrorInfo(kind, MessageOf(kind))
  }

  // ---------------------------------------------------------------- the request

  /** The parsed body: a JSON array of records, or any other JSON value. */
  datatype Json = JsonArray(items: seq<Coin>) | JsonOther

  /** What `response.json()` settles to. */
  datatype Body = Parsed(json: Json) | ParseFailed(error: JsError)

  /** What `fetch(url)` settles to: a rejection, or a response with its status and body. */
  datatype FetchOutcome = Rejected(error: JsError) | Responded(status: nat, body: Body)

  /** `response.ok`: the status is an ok status of the Fetch standard, 200 to 299 inclusive. */
  predicate IsOk(status: nat) {
    200 <= status <= 299
  }

  /**
   * What the `try` block of `fetchMarketData` ends with: the records, or the value it
   * throws. `Wrapped` is the `{error, response}` object the code throws itself; `Raw` is an
   * error thrown by `fetch` or `response.json()`, which has no `error` property.
   */
  datatype Attempt =
    | Got(items: seq<Coin>)
    | Wrapped(error: JsError, response: Option<nat>)
    | Raw(error: JsError)

  /** The `Error` thrown for a response that is not ok: its message is `HTTP <status>`. */
  function HttpError(status: nat): (e: JsError)
    ensures e.name == "Error"
    ensures |e.message| > 5 && e.message[..5] == "HTTP "
  {
    JsError("Error", "HTTP " + DecimalString(status))
  }

  /** The `try` block, with its two explicit `throw`s. */
  function TryFetch(outcome: FetchOutcome): (r: Attempt)
    ensures r.Got? <==> Succeeds(outcome)
    ensures r.Got? ==> r.items == outcome.body.json.items
    ensures r.Wrapped? && r.response.Some? ==> outcome.Responded? && r.response == Some(outcome.status) && !IsOk(outcome.status)
  {
    match outcome
    case Rejected(e) => Raw(e)
    case Responded(status, body) =>
      if !IsOk(status) then
        Wrapped(HttpError(status), Some(status))
      else
        match body
        case ParseFailed(e) => Raw(e)
        case Parsed(JsonOther) => Wrapped(JsError("Error", "Invalid response format"), None)
        case Parsed(JsonArray(items)) => Got(items)
  }

  /**
   * The `catch` block's classification: a wrapped error is classified with the response it
   * carries, a raw error with no response.
   */
  function Classify(thrown: Attempt): ErrorInfo
    requires !thrown.Got?
  {
    match thrown
    case Wrapped(e, response) => HandleApiError(e, response)
    case Raw(e) => HandleApiError(e, None)
  }

  /**
   * One call of `fetchMarketData`: what it returns (`None` is `null`), the cache it leaves,
   * the detail of the `apiError` event it dispatches if any, and whether it issued a request.
   */
  datatype FetchResult = FetchResult(
    data: Option<seq<Coin>>,
    cache: CacheState,
    error: Option<ErrorInfo>,
    requested: bool
  )

  /** An outcome that the fetcher accepts: an ok response whose body is a JSON array. */
  predicate Succeeds(outcome: FetchOutcome) {
    outcome.Responded? && IsOk(outcome.status) && outcome.body.Parsed? && outcome.body.json.JsonArray?
  }

  /** `fetchMarketData(forceRefresh)` at time `now`, with the network answering `outcome`. */
  function FetchMarketData(cache: CacheState, now: int, forceRefresh: bool, outcome: FetchOutcome): (r: FetchResult)
    ensures !forceRefresh && IsCacheValid(cache, now) ==> r == FetchResult(cache.data, cache, None, false)
    ensures r.requested <==> forceRefresh || !IsCacheValid(cache, now)
    ensures r.requested && Succeeds(outcome) ==>
              var items := outcome.body.json.items;
              r.data == Some(items) && r.cache == SetCachedData(cache, items, now) && r.error.None?
    ensures r.requested && !Succeeds(outcome) ==>
              r.data == cache.data && r.cache == cache && r.error.Some?
  {
    var cached := if forceRefresh then None else GetCachedData(cache, now);
    if cached.Some? then
      FetchResult(cached, cache, None, false)
    else
      var attempt := TryFetch(outcome);
      if attempt.Got? then
        FetchResult(Some(attempt.items), SetCachedData(cache, attempt.items, now), None, true)
      else
        FetchResult(cache.data, cache, Some(Classify(attempt)), true)
  }

  /**
   * The kind of failure an outcome is, written as a table over the outcome rather than
   * through the thrown values: a transport failure or an unparsable body is judged by the
   * error; a non-ok status by its range; an ok response with a non-array body is unknown.
   */
  function ExpectedKind(outcome: FetchOutcome): ErrorKind {
    match outcome
    case Rejected(e) => if IsFetchTypeError(e) then NetworkError else UnknownError
    case Responded(status, body) =>
      if status == 429 then RateLimited
      else if status >= 500 then ServerError
      else if 400 <= status then ClientError
      else if !IsOk(status) then UnknownError
      else if body.ParseFailed? then (if IsFetchTypeError(body.error) then NetworkError else UnknownError)
      else UnknownError
  }

  // ---------------------------------------------------------------- properties: cache

  /** After a put at a nonzero time, the entry is fresh exactly while less than the window old. */
  lemma FreshnessWindow(cache: CacheState, data: seq<Coin>, stored: int, now: int)
    requires stored != 0
    ensures IsCacheValid(SetCachedData(cache, data, stored), now) <==> now - stored < CacheDuration
    ensures GetCachedData(SetCachedData(cache, data, stored), now) ==
              (if now - stored < CacheDuration then Some(data) else None)
  {
  }

  /** At exactly 60000 ms the entry is already stale. */
  lemma StaleAtWindow(cache: CacheState, data: seq<Coin>, stored: int)
    ensures !IsCacheValid(SetCachedData(cache, data, stored), stored + 60000)
    ensures stored != 0 ==> IsCacheValid(SetCachedData(cache, data, stored), stored + 59999)
  {
  }

  /** A stale entry stays stale as the clock advances; a fresh one was fresh before. */
  lemma FreshnessMonotone(cache: CacheState, now: int, later: int)
    requires now <= later
    ensures IsCacheValid(cache, later) ==> IsCacheValid(cache, now)
    ensures !IsCacheValid(cache, now) ==> !IsCacheValid(cache, later)
  {
  }

  /** A put replaces the whole entry: after putting X then Y, the cache holds exactly Y. */
  lemma PutReplaces(cache: CacheState, x: seq<Coin>, y: seq<Coin>, t1: int, t2: int)
    requires t2 != 0
    ensures SetCachedData(SetCachedData(cache, x, t1), y, t2) == SetCachedData(EmptyCache, y, t2)
    ensures GetCachedData(SetCachedData(SetCachedData(cache, x, t1), y, t2), t2) == Some(y)
  {
  }

  /** As written, an entry stored at time 0 is never fresh: the timestamp is falsy. */
  lemma ZeroTimestampNeverFresh(cache: CacheState, data: seq<Coin>, now: int)
    ensures !IsCacheValid(SetCachedData(cache, data, 0), now)
  {
  }

  /** After `clearCache` nothing is served, and a failing fetch falls back to `null`. */
  lemma ClearForgets(cache: CacheState, now: int, forceRefresh: bool, outcome: FetchOutcome)
    ensures GetCachedData(ClearCache(cache), now) == None
    ensures !Succeeds(outcome) ==> FetchMarketData(ClearCache(cache), now, forceRefresh, outcome).data == None
  {
  }

  // ---------------------------------------------------------------- properties: fetch

  /** The error of a failed fetch is the one the outcome table predicts, with its message. */
  lemma FailureClassified(cache: CacheState, now: int, forceRefresh: bool, outcome: FetchOutcome)
    requires forceRefresh || !IsCacheValid(cache, now)
    requires !Succeeds(outcome)
    ensures var r := FetchMarketData(cache, now, forceRefresh, outcome);
            r.error.Some? && r.error.value.kind == ExpectedKind(outcome)
            && r.error.value.message == MessageOf(ExpectedKind(outcome))
  {
    ThrownKindMatchesTable(outcome);
  }

  /** The thrown values and `handleApiError` together realise the outcome table. */
  lemma ThrownKindMatchesTable(outcome: FetchOutcome)
    requires !Succeeds(outcome)
    ensures Classify(TryFetch(outcome)).kind == ExpectedKind(outcome)
  {
    match outcome
    case Rejected(e) =>
      RawErrorKind(e);
    case Responded(status, body) =>
      if !IsOk(status) {
        StatusFailureKind(status, body);
      } else if body.ParseFailed? {
        assert TryFetch(outcome) == Raw(body.error);
        RawErrorKind(body.error);
      } else {
        ShapeFailureKind(status);
      }
  }

  /** An error thrown by `fetch` or by `response.json()` is judged by its name and message. */
  lemma RawErrorKind(e: JsError)
    ensures Classify(Raw(e)).kind == if IsFetchTypeError(e) then NetworkError else UnknownError
  {
  }

  /** An ok response whose body is not an array is an unknown error. */
  lemma ShapeFailureKind(status: nat)
    requires IsOk(status)
    ensures Classify(TryFetch(Responded(status, Parsed(JsonOther)))).kind == UnknownError
  {
    var e := JsError("Error", "Invalid response format");
    assert TryFetch(Responded(status, Parsed(JsonOther))) == Wrapped(e, None);
    assert !IsFetchTypeError(e) by { assert e.name[0] != "TypeError"[0]; }
  }

  /** A non-ok status is classified by its range alone. */
  lemma StatusFailureKind(status: nat, body: Body)
    requires !IsOk(status)
    ensures Classify(TryFetch(Responded(status, body))).kind == ExpectedKind(Responded(status, body))
  {
    var e := HttpError(status);
    assert TryFetch(Responded(status, body)) == Wrapped(e, Some(status));
    assert !IsFetchTypeError(e) by { assert e.name[0] != "TypeError"[0]; }
  }

  /** Only a non-ok status can be a rate limit, a server error or a client error. */
  lemma StatusKindsNeedStatus(outcome: FetchOutcome)
    ensures ExpectedKind(outcome) in {RateLimited, ServerError, ClientError} <==>
              outcome.Responded? && outcome.status >= 400
  {
  }

  /** A body that is not an array is reported as unknown and never reaches the cache. */
  lemma NonArrayBodyRejected(cache: CacheState, now: int, status: nat)
    requires IsOk(status)
    ensures var r := FetchMarketData(cache, now, true, Responded(status, Parsed(JsonOther)));
            r.cache == cache && r.error.Some? && r.error.value.kind == UnknownError
  {
    FailureClassified(cache, now, true, Responded(status, Parsed(JsonOther)));
  }

  /** A successful fetch stores what it returns, fresh from that moment. */
  lemma SuccessIsServedNext(cache: CacheState, now: int, later: int, forceRefresh: bool, items: seq<Coin>, status: nat)
    requires forceRefresh || !IsCacheValid(cache, now)
    requires IsOk(status) && now != 0 && now <= later < now + CacheDuration
    ensures var r := FetchMarketData(cache, now, forceRefresh, Responded(status, Parsed(JsonArray(items))));
            r.data == Some(items) &&
            forall o :: FetchMarketData(r.cache, later, false, o) == FetchResult(Some(items), r.cache, None, false)
  {
  }

  /** A stale cache and a forced refresh answered with 503: the stale list and a server error. */
  lemma StaleFallbackOn503(stale: seq<Coin>)
    ensures var cache := SetCachedData(EmptyCache, stale, 1000);
            var r := FetchMarketData(cache, 1000 + 120000, true, Responded(503, Parsed(JsonOther)));
            r.data == Some(stale) && r.cache == cache && r.error.Some? && r.error.value.kind == ServerError
  {
  }
}
