/**
  The pure decisions of the Waifu Haven image API client, each as a function
  of its inputs: configuration defaults, request headers, the fallback
  category set, the category-cache step, argument validation, the reading of
  an image response, the HTTP status to error message mapping, the
  random-selection resolution and the statistics report. The class in module
  Client performs these decisions on its own state.
 */
module ApiLogic {
  import opened JsValues

  const DefaultBaseUrl := "http://waifu-haven.ddns.net:50006"
  const DefaultTimeout := 30000
  const DefaultUserAgent := "WaifuAPIClient/2.1.0"

  /** How long a fetched category set stays valid, in milliseconds (five minutes). */
  const CacheLifetime := 5 * 60 * 1000

  // ---------------------------------------------------------------------------
  // Configuration and headers
  // ---------------------------------------------------------------------------

  /** The constructor's `options` argument; an absent option is `Undefined`. */
  datatype Options = Options(baseUrl: JsValue, timeout: JsValue, userAgent: JsValue)

  const NoOptions := Options(Undefined, Undefined, Undefined)

  /** The settings a client holds for its whole life. */
  datatype Config = Config(apiKey: JsValue, baseUrl: JsValue, timeout: JsValue, userAgent: JsValue)

  /**
    The constructor's decisions: a falsy key is refused, and each falsy option
    is replaced by its default.
   */
  function Configure(apiKey: JsValue, options: Options): (r: Result<Config, JsError>)
    ensures r.Failure? <==> !Truthy(apiKey)
    ensures r.Failure? ==> r.error == Error("API key is required", None)
    ensures r.Success? ==> r.value.apiKey == apiKey
    ensures r.Success? ==> Truthy(r.value.baseUrl) && Truthy(r.value.timeout) && Truthy(r.value.userAgent)
  {
    if !Truthy(apiKey) then
      Failure(Error("API key is required", None))
    else
      Success(Config(
        apiKey,
        Or(options.baseUrl, Str(DefaultBaseUrl)),
        Or(options.timeout, Number(DefaultTimeout)),
        Or(options.userAgent, Str(DefaultUserAgent))))
  }

  datatype Headers = Headers(authorization: string, userAgent: JsValue, accept: string, botPlatform: string)

  /** The headers every authenticated request carries. */
  function RequestHeaders(config: Config): (h: Headers)
    ensures h.userAgent == config.userAgent
    ensures h.accept == "application/json" && h.botPlatform == "discord"
    ensures BearerToken(h.authorization) == Some(ToString(config.apiKey))
  {
    Headers("Bearer " + ToString(config.apiKey), config.userAgent, "application/json", "discord")
  }

  /** The credential an `Authorization: Bearer <token>` header carries, if it has that form. */
  function BearerToken(authorization: string): Option<string> {
    if |authorization| >= 7 && authorization[..7] == "Bearer " then Some(authorization[7..]) else None
  }

  /**
    `ImageApiClient.validateApiKey`: a string of at least ten UTF-16 code
    units, which is at least five characters.
   */
  function ValidateApiKey(apiKey: JsValue): (valid: bool)
    ensures valid <==> apiKey.Str? && Utf16Length(apiKey.s) >= 10
    ensures valid ==> |apiKey.s| >= 5
  {
    Truthy(apiKey) && apiKey.Str? && Utf16Length(apiKey.s) >= 10
  }

  // ---------------------------------------------------------------------------
  // Categories and the cache
  // ---------------------------------------------------------------------------

  /**
    The category payload `data` of `GET /categories`: `Missing` when it is null
    or undefined; otherwise the `sfw` and `nsfw` arrays, each possibly absent.
   */
  datatype CategoryData = Missing | Lists(sfw: Option<seq<string>>, nsfw: Option<seq<string>>)

  /** The static category set used whenever the categories endpoint cannot be used. */
  function DefaultCategories(): (c: CategoryData)
    ensures c.Lists? && c.sfw.Some? && c.nsfw.Some?
    ensures |c.sfw.value| == 10 && |c.nsfw.value| == 6
  {
    Lists(
      Some(["kurumi", "rushia", "waifu", "maid", "marin-kitagawa", "mori-calliope",
            "raiden-shogun", "oppai", "uniform", "kamisato-ayaka"]),
      Some(["ass", "hentai", "redo-of-healer", "blowjob", "waifu", "milf"]))
  }

  /**
    What an HTTP request yields: it throws, or it returns a response with a
    status code and a JSON body `{success, data, meta}`.
   */
  datatype Fetch<D> =
    | Threw(error: JsError)
    | Returned(status: int, success: JsValue, data: D, meta: JsValue)

  /** Whether a request returned status 200 with a body whose `success` flag is truthy. */
  predicate FetchOk<D>(f: Fetch<D>) {
    f.Returned? && f.status == 200 && Truthy(f.success)
  }

  /** The client's `_categoriesCache` and `_cacheExpiry`; both start out null. */
  datatype CacheState = CacheState(cached: CategoryData, expiry: Option<int>)

  const EmptyCache := CacheState(Missing, None)

  /**
    Whether the cache may answer at time `now`: a category set is stored, its
    expiry is set and non-zero, and that expiry lies in the future.
   */
  predicate CacheFresh(s: CacheState, now: int) {
    s.cached.Lists? && s.expiry.Some? && s.expiry.value != 0 && now < s.expiry.value
  }

  /** The categories one `getCategories` call returns, and the cache it leaves. */
  datatype Lookup = Lookup(result: CategoryData, next: CacheState)

  /**
    One `getCategories` call. The clock is read twice: `now` before the request,
    to test the cache, and `storedAt` once the response has arrived, to set
    the new expiry. `fetch` is what `GET /categories` would yield if the call
    makes it.
   */
  function CategoriesStep(s: CacheState, now: int, storedAt: int, fetch: Fetch<CategoryData>): (r: Lookup)
    ensures CacheFresh(s, now) ==> r == Lookup(s.cached, s)
    ensures !FetchOk(fetch) ==> r.next == s
    ensures r.next == s || r.next == CacheState(r.result, Some(storedAt + CacheLifetime))
  {
    if CacheFresh(s, now) then Lookup(s.cached, s)
    else if FetchOk(fetch) then Lookup(fetch.data, CacheState(fetch.data, Some(storedAt + CacheLifetime)))
    else Lookup(DefaultCategories(), s)
  }

  // ---------------------------------------------------------------------------
  // Validated image requests
  // ---------------------------------------------------------------------------

  /** An image request that passed the argument checks: `GET /{kind}/{category}`. */
  datatype Request = Request(category: string, kind: string)

  const CategoryRequiredMessage := "Category is required and must be a string"
  const ImageTypeMessage := "Type must be either \"sfw\" or \"nsfw\""

  /** The `type` argument of `getImage` once its default `'sfw'` is applied. */
  function ImageType(typeArg: JsValue): JsValue {
    ArgOrDefault(typeArg, Str("sfw"))
  }

  predicate IsImageType(t: JsValue) {
    t == Str("sfw") || t == Str("nsfw")
  }

  /** The argument checks `getImage` makes before it looks at the categories. */
  function ValidateArgs(category: JsValue, typeArg: JsValue): (r: Result<Request, JsError>)
    ensures r.Success? <==> category.Str? && category.s != "" && IsImageType(ImageType(typeArg))
    ensures r.Success? ==> r.value == Request(category.s, ImageType(typeArg).s)
  {
    if !Truthy(category) || !category.Str? then Failure(Error(CategoryRequiredMessage, None))
    else if !IsImageType(ImageType(typeArg)) then Failure(Error(ImageTypeMessage, None))
    else Success(Request(category.s, ImageType(typeArg).s))
  }

  /** The list the category set holds for `kind`; an absent list counts as empty. */
  function ListFor(categories: CategoryData, kind: string): seq<string>
    requires categories.Lists?
  {
    var list := if kind == "sfw" then categories.sfw else if kind == "nsfw" then categories.nsfw else None;
    if list.Some? then list.value else []
  }

  function UnknownCategoryMessage(kind: string, valid: seq<string>): string {
    "Invalid " + ToUpperAscii(kind) + " category. Valid categories: " + Join(valid, ", ")
  }

  /** The membership check against the resolved category set. */
  function CheckMembership(categories: CategoryData, request: Request): (r: Result<Request, JsError>)
    ensures r.Success? <==> categories.Lists? && request.category in ListFor(categories, request.kind)
    ensures r.Success? ==> r.value == request
  {
    if categories.Missing? then
      Failure(TypeError(CannotRead(request.kind)))
    else if request.category !in ListFor(categories, request.kind) then
      Failure(Error(UnknownCategoryMessage(request.kind, ListFor(categories, request.kind)), None))
    else
      Success(request)
  }

  /** The fields of an image in the body of `GET /{type}/{category}`. */
  datatype ImageData = ImageData(url: JsValue, mimeType: JsValue, size: JsValue, category: JsValue, filename: JsValue)

  /** What `getImage` resolves to (its `success` field is always true). */
  datatype ImageResult = ImageResult(
    url: JsValue, mimeType: JsValue, size: JsValue, category: JsValue, filename: JsValue, meta: JsValue)

  /**
    The outcome of one `getImage` call before the error mapping, and whether it
    reached the increment of `successfulRequests`.
   */
  datatype Attempt = Attempt(result: Result<ImageResult, JsError>, countedSuccess: bool)

  /**
    A response with status 200 and a truthy `success` is counted as a success
    before its `data` is read, so a missing `data` is counted as a success and
    then fails with a TypeError.
   */
  function ReadImage(fetch: Fetch<Option<ImageData>>): (a: Attempt)
    ensures a.countedSuccess <==> FetchOk(fetch)
    ensures a.result.Success? <==> FetchOk(fetch) && fetch.data.Some?
  {
    match fetch
    case Threw(e) => Attempt(Failure(e), false)
    case Returned(status, success, data, meta) =>
      if status == 200 && Truthy(success) then
        if data.Some? then
          var d := data.value;
          Attempt(Success(ImageResult(d.url, d.mimeType, d.size, d.category, d.filename, meta)), true)
        else
          Attempt(Failure(TypeError(CannotRead("url"))), true)
      else
        Attempt(Failure(Error("Failed to fetch image", None)), false)
  }

  const InvalidKeyMessage := "Invalid API key. Please check your credentials."
  const AccessDeniedMessage := "Access denied. Check your API key permissions."
  const RateLimitMessage := "Rate limit exceeded. Please slow down your requests."

  /** The statuses that have a message of their own. */
  const NamedStatuses: set<int> := {400, 401, 403, 404, 429}

  /**
    The message `getImage` throws for an error response with this status. For
    400 and for every status without a message of its own, the server's
    message, when there is one, ends the text.
   */
  function StatusMessage(status: int, message: JsValue, category: JsValue): (r: string)
    ensures (status == 400 || status !in NamedStatuses) && Truthy(message) ==>
              |ToString(message)| <= |r| && r[|r| - |ToString(message)|..] == ToString(message)
  {
    if status == 400 then "Invalid category: " + ToString(Or(message, Str("Bad request")))
    else if status == 401 then InvalidKeyMessage
    else if status == 403 then AccessDeniedMessage
    else if status == 404 then "No images found in category \"" + ToString(category) + "\"."
    else if status == 429 then RateLimitMessage
    else "API error (" + ToString(Number(status)) + "): " + ToString(Or(message, Str("Unknown error")))
  }

  /**
    The catch clause of `getImage`: an error carrying an HTTP response is
    replaced by a new error with a descriptive message; any other error is
    rethrown as it is.
   */
  function MapError(e: JsError, category: JsValue): (r: JsError)
    ensures !(r.Error? && r.response.Some?)
    ensures !(e.Error? && e.response.Some?) ==> r == e
    ensures e.Error? && e.response.Some? ==> r.Error? && r.message == StatusMessage(e.response.value.status, e.response.value.message, category)
  {
    if e.Error? && e.response.Some? then
      Error(StatusMessage(e.response.value.status, e.response.value.message, category), None)
    else e
  }

  /** Whether `getImage` gets as far as the image request for these arguments. */
  predicate Admitted(category: JsValue, typeArg: JsValue, categories: CategoryData) {
    ValidateArgs(category, typeArg).Success? && CheckMembership(categories, ValidateArgs(category, typeArg).value).Success?
  }

  /**
    One `getImage(category, type)` call, where `categories` is what its
    `getCategories` call returns and `fetch` what the image request yields.
   */
  function ImageRequest(category: JsValue, typeArg: JsValue, categories: CategoryData, fetch: Fetch<Option<ImageData>>): (a: Attempt)
    ensures a.countedSuccess ==> Admitted(category, typeArg, categories) && FetchOk(fetch)
    ensures a.result.Success? ==> a.countedSuccess
    ensures a.result.Failure? ==> !(a.result.error.Error? && a.result.error.response.Some?)
  {
    var checked :=
      match ValidateArgs(category, typeArg)
      case Failure(e) => Failure(e)
      case Success(request) => CheckMembership(categories, request);
    if checked.Failure? then
      Attempt(Failure(MapError(checked.error, category)), false)
    else
      var a := ReadImage(fetch);
      if a.result.Failure? then Attempt(Failure(MapError(a.result.error, category)), a.countedSuccess) else a
  }

  // ---------------------------------------------------------------------------
  // Random selection
  // ---------------------------------------------------------------------------

  /** The category and type `getRandomImage` passes on to `getImage`. */
  datatype Selection = Selection(category: string, kind: string)

  const RandomTypeMessage := "Type must be \"sfw\", \"nsfw\", or \"any\""

  predicate IsRandomType(t: JsValue) {
    t == Str("sfw") || t == Str("nsfw") || t == Str("any")
  }

  /** `Math.floor(draw * n)` for a draw of `Math.random()`. */
  function PickIndex(draw: real, n: nat): (i: nat)
    requires 0.0 <= draw < 1.0 && n > 0
    ensures i < n
  {
    assert 0.0 <= draw * (n as real) < n as real;
    (draw * (n as real)).Floor
  }

  /**
    The choice `getRandomImage(type)` makes from the resolved category set.
    For `'any'`, `coin` is the first `Math.random()` result and `draw` the
    second; otherwise `draw` is the only one.
   */
  function ResolveRandom(categories: CategoryData, typeArg: JsValue, coin: real, draw: real): (r: Result<Selection, JsError>)
    requires 0.0 <= coin < 1.0 && 0.0 <= draw < 1.0
    ensures !IsRandomType(ArgOrDefault(typeArg, Str("sfw"))) ==> r == Failure(Error(RandomTypeMessage, None))
    ensures r.Success? ==>
              && categories.Lists? && IsImageType(Str(r.value.kind))
              && r.value.category in ListFor(categories, r.value.kind)
  {
    var t := ArgOrDefault(typeArg, Str("sfw"));
    if !IsRandomType(t) then
      Failure(Error(RandomTypeMessage, None))
    else if categories.Missing? then
      Failure(TypeError(CannotRead(if t == Str("nsfw") then "nsfw" else "sfw")))
    else if t == Str("any") && categories.sfw.None? then
      Failure(TypeError(NotIterable("categories.sfw")))
    else if t == Str("any") && categories.nsfw.None? then
      Failure(TypeError(NotIterable("categories.nsfw")))
    else
      var available :=
        if t == Str("sfw") then categories.sfw
        else if t == Str("nsfw") then categories.nsfw
        else Some(categories.sfw.value + categories.nsfw.value);
      var coinType := if t == Str("any") then (if coin < 0.5 then "sfw" else "nsfw") else t.s;
      if available.None? || |available.value| == 0 then
        Failure(Error("No categories available for type: " + t.s, None))
      else
        var chosen := available.value[PickIndex(draw, |available.value|)];
        var kind := if t == Str("any") then (if chosen in categories.sfw.value then "sfw" else "nsfw") else coinType;
        Success(Selection(chosen, kind))
  }

  // ---------------------------------------------------------------------------
  // Statistics
  // ---------------------------------------------------------------------------

  /**
    `successRate`: the text "0%" when nothing was requested, otherwise the
    percentage successful / total, whose one-decimal formatting is not modelled.
   */
  datatype SuccessRate = Text(text: string) | Percentage(successful: nat, total: nat)

  datatype StatsReport = StatsReport(
    totalRequests: nat, successfulRequests: nat, failedRequests: nat, successRate: SuccessRate)

  /** The object `getStats` returns for these counters. */
  function Report(total: nat, successful: nat, failed: nat): (s: StatsReport)
    ensures s.totalRequests == total && s.successfulRequests == successful && s.failedRequests == failed
    ensures s.successRate == Text("0%") <==> total == 0
    ensures total > 0 ==> s.successRate == Percentage(successful, total)
  {
    StatsReport(total, successful, failed, if total > 0 then Percentage(successful, total) else Text("0%"))
  }
}
