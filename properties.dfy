/**
  What the client promises, stated over the functions of module ApiLogic:
  configuration defaults, the cache state machine, the order of the checks in
  `getImage`, the counter discipline, the status-to-message mapping and the
  random selection.
 */
module Properties {
  import opened JsValues
  import opened ApiLogic

  // ---------------------------------------------------------------------------
  // Configuration
  // ---------------------------------------------------------------------------

  /** Each option is kept when it is truthy and replaced by its default otherwise. */
  lemma ConfigureDefaults(apiKey: JsValue, options: Options)
    requires Truthy(apiKey)
    ensures var c := Configure(apiKey, options).value;
      && c.baseUrl == (if Truthy(options.baseUrl) then options.baseUrl else Str(DefaultBaseUrl))
      && c.timeout == (if Truthy(options.timeout) then options.timeout else Number(DefaultTimeout))
      && c.userAgent == (if Truthy(options.userAgent) then options.userAgent else Str(DefaultUserAgent))
    ensures Configure(apiKey, NoOptions) ==
              Success(Config(apiKey, Str(DefaultBaseUrl), Number(30000), Str("WaifuAPIClient/2.1.0")))
  {
  }

  /** Configuring again with a client's own settings gives the same client. */
  lemma ConfigureIdempotent(apiKey: JsValue, options: Options)
    requires Truthy(apiKey)
    ensures var c := Configure(apiKey, options).value;
      Configure(apiKey, Options(c.baseUrl, c.timeout, c.userAgent)) == Success(c)
  {
  }

  /**
    A key that passes `validateApiKey` is always accepted by the constructor,
    but the constructor also accepts keys that `validateApiKey` rejects: every
    non-empty string shorter than ten code units, every non-zero number,
    `true` and every object.
   */
  lemma ValidKeysAreAccepted(apiKey: JsValue, options: Options, s: string, n: int)
    ensures ValidateApiKey(apiKey) ==> Configure(apiKey, options).Success?
    ensures s != "" && Utf16Length(s) < 10 ==> Configure(Str(s), options).Success? && !ValidateApiKey(Str(s))
    ensures n != 0 ==> Configure(Number(n), options).Success? && !ValidateApiKey(Number(n))
    ensures Configure(Bool(true), options).Success? && !ValidateApiKey(Bool(true))
    ensures Configure(Object, options).Success? && !ValidateApiKey(Object)
  {
  }

  /** Without characters above U+FFFF, `length` is the number of characters. */
  lemma {:induction false} Utf16LengthOfBmp(s: string)
    requires forall i :: 0 <= i < |s| ==> s[i] as int <= 0xFFFF
    ensures Utf16Length(s) == |s|
    decreases |s|
  {
    if s != [] {
      Utf16LengthOfBmp(s[1..]);
    }
  }

  /** Five characters above U+FFFF are ten code units, so they make a valid key. */
  lemma AstralKeyIsValid()
    ensures ValidateApiKey(Str("\U{1F600}\U{1F600}\U{1F600}\U{1F600}\U{1F600}"))
  {
  }

  /** For a string key, the `Authorization` header carries exactly that key. */
  lemma BearerCarriesStringKey(config: Config)
    requires config.apiKey.Str?
    ensures BearerToken(RequestHeaders(config).authorization) == Some(config.apiKey.s)
  {
  }

  // ---------------------------------------------------------------------------
  // The fallback category set
  // ---------------------------------------------------------------------------

  predicate NoDuplicates(names: seq<string>) {
    forall i, j :: 0 <= i < j < |names| ==> names[i] != names[j]
  }

  /** The fallback lists are duplicate-free and share exactly one name, "waifu". */
  lemma DefaultCategoriesShape()
    ensures var d := DefaultCategories();
      && NoDuplicates(d.sfw.value) && NoDuplicates(d.nsfw.value)
      && (forall name :: name in d.sfw.value && name in d.nsfw.value <==> name == "waifu")
  {
  }

  // ---------------------------------------------------------------------------
  // The category cache
  // ---------------------------------------------------------------------------

  /**
    `getCategories` never fails: it returns the cached set, the fetched set or
    the default set. A failed fetch leaves the cache as it was, and a
    successful one stores its payload with an expiry five minutes ahead.
   */
  lemma CategoriesOutcomes(s: CacheState, now: int, storedAt: int, fetch: Fetch<CategoryData>)
    ensures var r := CategoriesStep(s, now, storedAt, fetch);
      && (CacheFresh(s, now) ==> r == Lookup(s.cached, s))
      && (!CacheFresh(s, now) && !FetchOk(fetch) ==> r == Lookup(DefaultCategories(), s))
      && (!CacheFresh(s, now) && FetchOk(fetch) ==>
            r == Lookup(fetch.data, CacheState(fetch.data, Some(storedAt + 300000))))
  {
  }

  /**
    The network is consulted exactly when the cache is not fresh: a fresh
    cache answers every call by itself, and for a stale cache some fetch
    outcome changes the answer.
   */
  lemma NetworkConsultedIffStale(s: CacheState, now: int, storedAt: int)
    ensures CacheFresh(s, now) <==> forall f :: CategoriesStep(s, now, storedAt, f) == Lookup(s.cached, s)
  {
    if !CacheFresh(s, now) {
      var failed: Fetch<CategoryData> := Threw(Error("Network Error", None));
      var other := Lists(Some([]), Some([]));
      var fetched: Fetch<CategoryData> := Returned(200, Bool(true), other, Undefined);
      if s.cached == DefaultCategories() {
        assert CategoriesStep(s, now, storedAt, fetched).result == other != s.cached;
      } else {
        assert CategoriesStep(s, now, storedAt, failed).result == DefaultCategories() != s.cached;
      }
    }
  }

  /**
    After a successful fetch whose response arrived at time `t`, every call
    before `t + 300000` returns the fetched set without a request; the first
    call at or after it makes a new request.
   */
  lemma CacheWindow(s: CacheState, now: int, t: int, fetch: Fetch<CategoryData>,
                    later: int, laterStored: int, again: Fetch<CategoryData>)
    requires !CacheFresh(s, now) && FetchOk(fetch) && fetch.data.Lists?
    requires 0 <= t <= later
    ensures var next := CategoriesStep(s, now, t, fetch).next;
      && (later < t + CacheLifetime ==> CategoriesStep(next, later, laterStored, again) == Lookup(fetch.data, next))
      && (later >= t + CacheLifetime ==> !CacheFresh(next, later))
  {
  }

  /** A successful fetch whose payload is null or undefined is never served from the cache. */
  lemma MissingPayloadNotServed(s: CacheState, now: int, t: int, fetch: Fetch<CategoryData>, later: int)
    requires !CacheFresh(s, now) && FetchOk(fetch) && fetch.data.Missing?
    ensures CategoriesStep(s, now, t, fetch).result == Missing
    ensures !CacheFresh(CategoriesStep(s, now, t, fetch).next, later)
  {
  }

  // ---------------------------------------------------------------------------
  // getImage: the order of the checks
  // ---------------------------------------------------------------------------

  /**
    An empty or non-string category, then a type outside {sfw, nsfw}, are
    rejected before the category set or the network is looked at, and the
    call is not counted as a success.
   */
  lemma ArgumentErrors(category: JsValue, typeArg: JsValue, categories: CategoryData, fetch: Fetch<Option<ImageData>>)
    ensures !(category.Str? && category.s != "") ==>
              ImageRequest(category, typeArg, categories, fetch) == Attempt(Failure(Error(CategoryRequiredMessage, None)), false)
    ensures category.Str? && category.s != "" && !IsImageType(ImageType(typeArg)) ==>
              ImageRequest(category, typeArg, categories, fetch) == Attempt(Failure(Error(ImageTypeMessage, None)), false)
  {
  }

  /** `getImage` with no type argument asks for an sfw image. */
  lemma TypeDefaultsToSfw(category: JsValue, categories: CategoryData, fetch: Fetch<Option<ImageData>>)
    ensures ImageRequest(category, Undefined, categories, fetch) == ImageRequest(category, Str("sfw"), categories, fetch)
  {
  }

  /**
    A valid category name that is not in the resolved list for its type (an
    absent list counts as empty) is rejected with a message naming the type
    in upper case and listing the valid names joined by ", ".
   */
  lemma UnknownCategory(category: string, kind: string, categories: CategoryData, fetch: Fetch<Option<ImageData>>)
    requires category != "" && (kind == "sfw" || kind == "nsfw")
    requires categories.Lists? && category !in ListFor(categories, kind)
    ensures ImageRequest(Str(category), Str(kind), categories, fetch) ==
              Attempt(Failure(Error(UnknownCategoryMessage(kind, ListFor(categories, kind)), None)), false)
    ensures kind == "sfw" && categories.sfw.None? ==>
              ImageRequest(Str(category), Str(kind), categories, fetch).result.error.message ==
              "Invalid " + "SFW" + " category. Valid categories: "
  {
  }

  /** A request that is not admitted ends the same way whatever the network would have said. */
  lemma RejectedRequestIgnoresNetwork(category: JsValue, typeArg: JsValue, categories: CategoryData,
                                      f1: Fetch<Option<ImageData>>, f2: Fetch<Option<ImageData>>)
    requires !Admitted(category, typeArg, categories)
    ensures ImageRequest(category, typeArg, categories, f1) == ImageRequest(category, typeArg, categories, f2)
    ensures ImageRequest(category, typeArg, categories, f1).result.Failure?
    ensures !ImageRequest(category, typeArg, categories, f1).countedSuccess
  {
  }

  /**
    `getImage` succeeds exactly when the category is a non-empty string listed
    for a type in {sfw, nsfw} and the response is a status-200 success with
    image data; the result then carries that data.
   */
  lemma ImageSuccess(category: JsValue, typeArg: JsValue, categories: CategoryData, fetch: Fetch<Option<ImageData>>)
    ensures var r := ImageRequest(category, typeArg, categories, fetch).result;
      r.Success? <==> Admitted(category, typeArg, categories) && FetchOk(fetch) && fetch.data.Some?
    ensures var r := ImageRequest(category, typeArg, categories, fetch).result;
      r.Success? ==>
        && category.Str? && IsImageType(ImageType(typeArg)) && categories.Lists?
        && category.s in ListFor(categories, ImageType(typeArg).s)
        && var d := fetch.data.value;
           r.value == ImageResult(d.url, d.mimeType, d.size, d.category, d.filename, fetch.meta)
  {
  }

  // ---------------------------------------------------------------------------
  // getImage: the counters
  // ---------------------------------------------------------------------------

  /**
    With a well-formed response (a status-200 success always has data), a
    call is counted as a success exactly when it succeeds, so exactly one of
    the success and failure counters moves.
   */
  lemma CountersExclusive(category: JsValue, typeArg: JsValue, categories: CategoryData, fetch: Fetch<Option<ImageData>>)
    requires FetchOk(fetch) ==> fetch.data.Some?
    ensures var a := ImageRequest(category, typeArg, categories, fetch);
      a.countedSuccess <==> a.result.Success?
  {
  }

  /** A status-200 success without data is counted both as a success and as a failure. */
  lemma MissingImageDataCountedTwice(category: JsValue, typeArg: JsValue, categories: CategoryData, fetch: Fetch<Option<ImageData>>)
    requires Admitted(category, typeArg, categories) && FetchOk(fetch) && fetch.data.None?
    ensures var a := ImageRequest(category, typeArg, categories, fetch);
      a.countedSuccess && a.result == Failure(TypeError(CannotRead("url")))
  {
  }

  // ---------------------------------------------------------------------------
  // getImage: error mapping
  // ---------------------------------------------------------------------------

  /**
    An error carrying an HTTP response becomes a plain error with the status
    message; any other error, a response that is not a status-200 success
    included, reaches the caller as it is.
   */
  lemma RequestErrors(category: JsValue, typeArg: JsValue, categories: CategoryData, fetch: Fetch<Option<ImageData>>)
    requires Admitted(category, typeArg, categories)
    ensures fetch.Threw? && fetch.error.Error? && fetch.error.response.Some? ==>
              var resp := fetch.error.response.value;
              ImageRequest(category, typeArg, categories, fetch).result ==
                Failure(Error(StatusMessage(resp.status, resp.message, category), None))
    ensures fetch.Threw? && !(fetch.error.Error? && fetch.error.response.Some?) ==>
              ImageRequest(category, typeArg, categories, fetch).result == Failure(fetch.error)
    ensures fetch.Returned? && !FetchOk(fetch) ==>
              ImageRequest(category, typeArg, categories, fetch).result == Failure(Error("Failed to fetch image", None))
  {
  }

  /** The message for each named status, in the words the client uses. */
  lemma NamedStatusMessages(message: JsValue, category: JsValue)
    ensures StatusMessage(400, message, category) ==
              "Invalid category: " + (if Truthy(message) then ToString(message) else "Bad request")
    ensures StatusMessage(401, message, category) == InvalidKeyMessage
    ensures StatusMessage(403, message, category) == AccessDeniedMessage
    ensures category.Str? ==> StatusMessage(404, message, category) == "No images found in category \"" + category.s + "\"."
    ensures StatusMessage(429, message, category) == RateLimitMessage
  {
  }

  /** Any other status gets a message naming the status and the server's message. */
  lemma OtherStatusMessage(status: int, message: JsValue, category: JsValue)
    requires status !in {400, 401, 403, 404, 429}
    ensures StatusMessage(status, message, category) ==
              "API error (" + ToString(Number(status)) + "): " + (if Truthy(message) then ToString(message) else "Unknown error")
  {
  }

  /** Status 500 has no message of its own: it falls to the generic one. */
  lemma ServerErrorIsGeneric(category: JsValue)
    ensures StatusMessage(500, Undefined, category) == "API error (" + "500" + "): " + "Unknown error"
  {
  }

  /** `String(n)` of an integer never contains a closing parenthesis. */
  lemma NumeralHasNoParenthesis(n: int)
    ensures |ToString(Number(n))| > 0
    ensures forall i :: 0 <= i < |ToString(Number(n))| ==> ToString(Number(n))[i] != ')'
  {
  }

  /** `String(n)` starts with a minus sign exactly when `n` is negative. */
  lemma NumeralSign(n: int)
    ensures |ToString(Number(n))| > 0
    ensures ToString(Number(n))[0] == '-' <==> n < 0
  {
  }

  /** Different integers have different decimal strings. */
  lemma NumeralInjective(a: int, b: int)
    requires ToString(Number(a)) == ToString(Number(b))
    ensures a == b
  {
    NumeralSign(a);
    NumeralSign(b);
    if a < 0 {
      var da, db := ToString(Number(a)), ToString(Number(b));
      assert NatToString(-a) == da[1..] == db[1..] == NatToString(-b);
    }
  }

  /** The character at position 10 of a status message tells the status class apart. */
  function ClassMark(status: int): char {
    if status == 400 then 't'
    else if status == 401 then 'I'
    else if status == 403 then 'i'
    else if status == 404 then 'f'
    else if status == 429 then ' '
    else '('
  }

  lemma StatusMessageMark(status: int, message: JsValue, category: JsValue)
    ensures |StatusMessage(status, message, category)| > 10
    ensures StatusMessage(status, message, category)[10] == ClassMark(status)
  {
    FixedMessageMarks();
  }

  lemma FixedMessageMarks()
    ensures |InvalidKeyMessage| > 10 && InvalidKeyMessage[10] == 'I'
    ensures |AccessDeniedMessage| > 10 && AccessDeniedMessage[10] == 'i'
    ensures |RateLimitMessage| > 10 && RateLimitMessage[10] == ' '
  {
  }

  /** In a generic message, the first `)` after "API error (" closes the numeral. */
  lemma NumeralEndsAtParenthesis(m: string, d: string, x: string)
    requires m == "API error (" + d + "): " + x
    requires forall i :: 0 <= i < |d| ==> d[i] != ')'
    ensures m[11..11 + |d|] == d
    ensures m[11 + |d|] == ')'
    ensures forall i :: 11 <= i < 11 + |d| ==> m[i] != ')'
  {
  }

  /** Two generic messages are equal only for the same status. */
  lemma GenericMessageDeterminesStatus(a: int, b: int, x: string, y: string)
    requires "API error (" + ToString(Number(a)) + "): " + x == "API error (" + ToString(Number(b)) + "): " + y
    ensures a == b
  {
    var da, db := ToString(Number(a)), ToString(Number(b));
    var m := "API error (" + da + "): " + x;
    NumeralHasNoParenthesis(a);
    NumeralHasNoParenthesis(b);
    NumeralEndsAtParenthesis(m, da, x);
    NumeralEndsAtParenthesis(m, db, y);
    assert |da| == |db|;
    NumeralInjective(a, b);
  }

  /** Only the statuses without a message of their own share a mark. */
  lemma ClassMarkNamesStatus(s1: int, s2: int)
    requires ClassMark(s1) == ClassMark(s2)
    ensures s1 in NamedStatuses || s2 in NamedStatuses ==> s1 == s2
  {
  }

  /** Two messages for statuses without a message of their own are equal only for the same status. */
  lemma OtherMessagesDetermineStatus(s1: int, m1: JsValue, c1: JsValue, s2: int, m2: JsValue, c2: JsValue)
    requires StatusMessage(s1, m1, c1) == StatusMessage(s2, m2, c2)
    requires s1 !in NamedStatuses && s2 !in NamedStatuses
    ensures s1 == s2
  {
    OtherStatusMessage(s1, m1, c1);
    OtherStatusMessage(s2, m2, c2);
    GenericMessageDeterminesStatus(s1, s2, if Truthy(m1) then ToString(m1) else "Unknown error",
                                   if Truthy(m2) then ToString(m2) else "Unknown error");
  }

  /**
    The status is recoverable from the message: two error responses with
    different statuses never produce the same message.
   */
  lemma StatusMessageDeterminesStatus(s1: int, m1: JsValue, c1: JsValue, s2: int, m2: JsValue, c2: JsValue)
    requires StatusMessage(s1, m1, c1) == StatusMessage(s2, m2, c2)
    ensures s1 == s2
  {
    StatusMessageMark(s1, m1, c1);
    StatusMessageMark(s2, m2, c2);
    ClassMarkNamesStatus(s1, s2);
    if s1 !in NamedStatuses && s2 !in NamedStatuses {
      OtherMessagesDetermineStatus(s1, m1, c1, s2, m2, c2);
    }
  }

  // ---------------------------------------------------------------------------
  // getRandomImage
  // ---------------------------------------------------------------------------

  /** Every position of a candidate list is chosen by some draw. */
  lemma EveryCandidateReachable(k: nat, n: nat)
    requires k < n
    ensures 0.0 <= (k as real) / (n as real) < 1.0
    ensures PickIndex((k as real) / (n as real), n) == k
  {
  }

  /** The coin flipped for `'any'` never affects the outcome. */
  lemma CoinIgnored(categories: CategoryData, typeArg: JsValue, c1: real, c2: real, draw: real)
    requires 0.0 <= c1 < 1.0 && 0.0 <= c2 < 1.0 && 0.0 <= draw < 1.0
    ensures ResolveRandom(categories, typeArg, c1, draw) == ResolveRandom(categories, typeArg, c2, draw)
  {
  }

  /**
    A type other than sfw, nsfw and any throws. With a valid type, a missing
    category set fails when its list is read, and `'any'` fails when it
    spreads an absent list.
   */
  lemma RandomErrors(categories: CategoryData, typeArg: JsValue, coin: real, draw: real)
    requires 0.0 <= coin < 1.0 && 0.0 <= draw < 1.0
    ensures var t := ArgOrDefault(typeArg, Str("sfw"));
      var r := ResolveRandom(categories, typeArg, coin, draw);
      && (!IsRandomType(t) ==> r == Failure(Error(RandomTypeMessage, None)))
      && (IsRandomType(t) && categories.Missing? ==>
            r == Failure(TypeError(CannotRead(if t == Str("nsfw") then "nsfw" else "sfw"))))
      && (t == Str("any") && categories.Lists? && categories.sfw.None? ==>
            r == Failure(TypeError(NotIterable("categories.sfw"))))
      && (t == Str("any") && categories.Lists? && categories.sfw.Some? && categories.nsfw.None? ==>
            r == Failure(TypeError(NotIterable("categories.nsfw"))))
  {
  }

  /**
    The candidates for a valid type: its own list (an absent list counts as
    empty), or for `'any'` the sfw list followed by the nsfw list.
   */
  function Candidates(categories: CategoryData, t: string): seq<string>
    requires categories.Lists?
    requires t == "any" ==> categories.sfw.Some? && categories.nsfw.Some?
  {
    if t == "any" then categories.sfw.value + categories.nsfw.value else ListFor(categories, t)
  }

  /**
    Once the set and the type have been read, `getRandomImage` fails exactly
    when there are no candidates, with the message naming the type (the
    default 'sfw' included). Otherwise it picks the candidate at
    `floor(draw * n)`, and requests it as the given type, or for `'any'` as
    sfw exactly when the name is in the sfw list.
   */
  lemma RandomOutcome(categories: CategoryData, typeArg: JsValue, coin: real, draw: real)
    requires 0.0 <= coin < 1.0 && 0.0 <= draw < 1.0
    requires IsRandomType(ArgOrDefault(typeArg, Str("sfw"))) && categories.Lists?
    requires ArgOrDefault(typeArg, Str("sfw")) == Str("any") ==> categories.sfw.Some? && categories.nsfw.Some?
    ensures var t := ArgOrDefault(typeArg, Str("sfw")).s;
      var list := Candidates(categories, t);
      var r := ResolveRandom(categories, typeArg, coin, draw);
      && (r.Failure? <==> |list| == 0)
      && (|list| == 0 ==> r == Failure(Error("No categories available for type: " + t, None)))
      && (|list| > 0 ==>
            var chosen := list[PickIndex(draw, |list|)];
            r == Success(Selection(chosen, if t != "any" then t else if chosen in categories.sfw.value then "sfw" else "nsfw")))
  {
  }

  /** `'sfw'` (also the default) picks from the sfw list only, and never reads the nsfw list. */
  lemma SfwPicksFromSfw(sfw: Option<seq<string>>, n1: Option<seq<string>>, n2: Option<seq<string>>, coin: real, draw: real)
    requires 0.0 <= coin < 1.0 && 0.0 <= draw < 1.0
    ensures ResolveRandom(Lists(sfw, n1), Str("sfw"), coin, draw) == ResolveRandom(Lists(sfw, n2), Str("sfw"), coin, draw)
    ensures ResolveRandom(Lists(sfw, n1), Undefined, coin, draw) == ResolveRandom(Lists(sfw, n1), Str("sfw"), coin, draw)
    ensures var r := ResolveRandom(Lists(sfw, n1), Str("sfw"), coin, draw);
      r.Success? ==> r.value.kind == "sfw" && sfw.Some? && r.value.category in sfw.value
  {
  }

  /** `'nsfw'` picks from the nsfw list only, and never reads the sfw list. */
  lemma NsfwPicksFromNsfw(s1: Option<seq<string>>, s2: Option<seq<string>>, nsfw: Option<seq<string>>, coin: real, draw: real)
    requires 0.0 <= coin < 1.0 && 0.0 <= draw < 1.0
    ensures ResolveRandom(Lists(s1, nsfw), Str("nsfw"), coin, draw) == ResolveRandom(Lists(s2, nsfw), Str("nsfw"), coin, draw)
    ensures var r := ResolveRandom(Lists(s1, nsfw), Str("nsfw"), coin, draw);
      r.Success? ==> r.value.kind == "nsfw" && nsfw.Some? && r.value.category in nsfw.value
  {
  }

  /**
    `'any'` picks from the sfw list followed by the nsfw list, and the type
    it requests is sfw exactly when the picked name is in the sfw list.
   */
  lemma AnyTypeFollowsSfwMembership(categories: CategoryData, coin: real, draw: real)
    requires 0.0 <= coin < 1.0 && 0.0 <= draw < 1.0
    ensures var r := ResolveRandom(categories, Str("any"), coin, draw);
      r.Success? ==>
        && categories.Lists? && categories.sfw.Some? && categories.nsfw.Some?
        && r.value.category in categories.sfw.value + categories.nsfw.value
        && (r.value.kind == "sfw" <==> r.value.category in categories.sfw.value)
  {
  }

  /** How many positions of `list` hold a name that is in `sfw`. */
  function SfwPositions(list: seq<string>, sfw: seq<string>): nat
    decreases |list|
  {
    if list == [] then 0 else (if list[0] in sfw then 1 else 0) + SfwPositions(list[1..], sfw)
  }

  /**
    With the fallback set, `'any'` draws from 16 positions and 11 of them ask
    for an sfw image: the 10 sfw names and "waifu" in the nsfw half.
   */
  lemma {:induction false} SfwPositionsAppend(a: seq<string>, b: seq<string>, sfw: seq<string>)
    ensures SfwPositions(a + b, sfw) == SfwPositions(a, sfw) + SfwPositions(b, sfw)
    decreases |a|
  {
    if a == [] {
      assert a + b == b;
    } else {
      assert (a + b)[0] == a[0];
      assert (a + b)[1..] == a[1..] + b;
      SfwPositionsAppend(a[1..], b, sfw);
    }
  }

  lemma {:induction false} SfwPositionsOfSubset(list: seq<string>, sfw: seq<string>)
    requires forall i :: 0 <= i < |list| ==> list[i] in sfw
    ensures SfwPositions(list, sfw) == |list|
    decreases |list|
  {
    if list != [] {
      SfwPositionsOfSubset(list[1..], sfw);
    }
  }

  /** In `sfw + nsfw`, every sfw position asks for sfw, plus the nsfw names that are also sfw names. */
  lemma SfwFirstPositions(sfw: seq<string>, nsfw: seq<string>)
    ensures SfwPositions(sfw + nsfw, sfw) == |sfw| + SfwPositions(nsfw, sfw)
  {
    SfwPositionsAppend(sfw, nsfw, sfw);
    SfwPositionsOfSubset(sfw, sfw);
  }

  lemma FallbackAnySplit()
    ensures var d := DefaultCategories();
      |d.sfw.value + d.nsfw.value| == 16 && SfwPositions(d.sfw.value + d.nsfw.value, d.sfw.value) == 11
  {
    SfwFirstPositions(DefaultCategories().sfw.value, DefaultCategories().nsfw.value);
    FallbackNsfwSfwPositions();
  }

  /** Of the fallback nsfw names, only "waifu" is also an sfw name. */
  lemma FallbackNsfwSfwPositions()
    ensures SfwPositions(DefaultCategories().nsfw.value, DefaultCategories().sfw.value) == 1
  {
    var sfw := DefaultCategories().sfw.value;
    var n := DefaultCategories().nsfw.value;
    assert "ass" !in sfw && "hentai" !in sfw && "redo-of-healer" !in sfw;
    assert "blowjob" !in sfw && "waifu" in sfw && "milf" !in sfw;
    assert SfwPositions(n[5..], sfw) == 0;
    assert SfwPositions(n[4..], sfw) == 1;
    assert SfwPositions(n[3..], sfw) == 1;
    assert SfwPositions(n[2..], sfw) == 1;
    assert SfwPositions(n[1..], sfw) == 1;
  }

  /**
    With the fallback set, the draw that lands on "waifu" in the nsfw half of
    the combined list still asks for an sfw image, even when the coin says nsfw.
   */
  lemma WaifuAlwaysSfw()
    ensures ResolveRandom(DefaultCategories(), Str("any"), 0.75, 14.0 / 16.0) == Success(Selection("waifu", "sfw"))
  {
  }

  /** `getImage` admits every non-empty successful pick when it sees the same set. */
  lemma PickIsAdmitted(categories: CategoryData, typeArg: JsValue, coin: real, draw: real)
    requires 0.0 <= coin < 1.0 && 0.0 <= draw < 1.0
    ensures var r := ResolveRandom(categories, typeArg, coin, draw);
      r.Success? && r.value.category != "" ==> Admitted(Str(r.value.category), Str(r.value.kind), categories)
  {
  }
}
