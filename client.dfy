/**
  `ImageApiClient`: the object that owns a configuration, the category cache
  and the request counters, and updates them in place. The network, the clock
  and `Math.random()` are parameters: each method receives what its requests
  would yield, the times `Date.now()` would read, and the random draws.
 */
module Client {
  import opened JsValues
  import opened ApiLogic

  /** The inputs one `getImage` call reads from the outside world. */
  datatype Network = Network(
    /** what `Date.now()` reads when its `getCategories` call tests the cache */
    now: int,
    /** what `Date.now()` reads when that call stores a fetched set */
    storedAt: int,
    /** what `GET /categories` yields, if the cache is stale */
    categories: Fetch<CategoryData>,
    /** what `GET /{type}/{category}` yields, if the request is made */
    image: Fetch<Option<ImageData>>)

  class ImageApiClient {
    const config: Config

    var categoriesCache: CategoryData
    var cacheExpiry: Option<int>

    var totalRequests: nat
    var successfulRequests: nat
    var failedRequests: nat

    /**
      How many calls were counted both as a success and as a failure: a
      status-200 response whose body has no `data` is counted as successful and
      then fails while its fields are read.
     */
    ghost var doubleCounted: nat

    ghost predicate Valid()
      reads this
    {
      && Truthy(config.apiKey)
      && successfulRequests + failedRequests == totalRequests + doubleCounted
      && successfulRequests <= totalRequests
      && failedRequests <= totalRequests
    }

    function Cache(): CacheState
      reads this
    {
      CacheState(categoriesCache, cacheExpiry)
    }

    function Stats(): (nat, nat, nat)
      reads this
    {
      (totalRequests, successfulRequests, failedRequests)
    }

    /** Sets up a client for a configuration whose key was accepted. */
    constructor (config: Config)
      requires Truthy(config.apiKey)
      ensures Valid()
      ensures this.config == config
      ensures Cache() == EmptyCache && Stats() == (0, 0, 0)
    {
      this.config := config;
      categoriesCache, cacheExpiry := Missing, None;
      totalRequests, successfulRequests, failedRequests := 0, 0, 0;
      doubleCounted := 0;
    }

    /** `new ImageApiClient(apiKey, options)`, which throws on a falsy key. */
    static method Create(apiKey: JsValue, options: Options) returns (r: Result<ImageApiClient, JsError>)
      ensures r.Failure? <==> !Truthy(apiKey)
      ensures r.Failure? ==> r.error == Error("API key is required", None)
      ensures r.Success? ==> fresh(r.value) && r.value.Valid()
      ensures r.Success? ==> r.value.config == Configure(apiKey, options).value
      ensures r.Success? ==> r.value.Cache() == EmptyCache && r.value.Stats() == (0, 0, 0)
    {
      var configured := Configure(apiKey, options);
      if configured.Failure? {
        return Failure(configured.error);
      }
      var client := new ImageApiClient(configured.value);
      return Success(client);
    }

    /**
      `getCategories()`: the cached set while it is fresh; otherwise the
      fetched set, which is cached for five minutes; on any failure the
      default set, with the cache left as it was.
     */
    method GetCategories(now: int, storedAt: int, fetch: Fetch<CategoryData>) returns (categories: CategoryData)
      modifies this`categoriesCache, this`cacheExpiry
      ensures categories == CategoriesStep(old(Cache()), now, storedAt, fetch).result
      ensures Cache() == CategoriesStep(old(Cache()), now, storedAt, fetch).next
    {
      if CacheFresh(Cache(), now) {
        return categoriesCache;
      }
      if FetchOk(fetch) {
        categoriesCache := fetch.data;
        cacheExpiry := Some(storedAt + CacheLifetime);
        return fetch.data;
      }
      return DefaultCategories();
    }

    /**
      `getImage(category, type)`: counts the request, validates the arguments,
      checks the category against the resolved set, makes the request, counts
      its success or failure and maps an HTTP error to its message.
     */
    method GetImage(category: JsValue, typeArg: JsValue, net: Network) returns (r: Result<ImageResult, JsError>)
      requires Valid()
      modifies this`categoriesCache, this`cacheExpiry, this`totalRequests,
               this`successfulRequests, this`failedRequests, this`doubleCounted
      ensures Valid()
      ensures
        var lookup := CategoriesStep(old(Cache()), net.now, net.storedAt, net.categories);
        var attempt := ImageRequest(category, typeArg, lookup.result, net.image);
        && r == attempt.result
        && totalRequests == old(totalRequests) + 1
        && successfulRequests == old(successfulRequests) + (if attempt.countedSuccess then 1 else 0)
        && failedRequests == old(failedRequests) + (if r.Failure? then 1 else 0)
        && Cache() == (if ValidateArgs(category, typeArg).Success? then lookup.next else old(Cache()))
    {
      totalRequests := totalRequests + 1;
      var outcome: Result<ImageResult, JsError>;
      var counted := false;
      var valid := ValidateArgs(category, typeArg);
      if valid.Failure? {
        outcome := Failure(valid.error);
      } else {
        var categories := GetCategories(net.now, net.storedAt, net.categories);
        var admitted := CheckMembership(categories, valid.value);
        if admitted.Failure? {
          outcome := Failure(admitted.error);
        } else {
          var read := ReadImage(net.image);
          if read.countedSuccess {
            successfulRequests := successfulRequests + 1;
            counted := true;
          }
          outcome := read.result;
        }
      }
      if outcome.Failure? {
        failedRequests := failedRequests + 1;
        if counted {
          doubleCounted := doubleCounted + 1;
        }
        r := Failure(MapError(outcome.error, category));
      } else {
        r := outcome;
      }
    }

    /** `getSFW(category)` */
    method GetSfw(category: JsValue, net: Network) returns (r: Result<ImageResult, JsError>)
      requires Valid()
      modifies this`categoriesCache, this`cacheExpiry, this`totalRequests,
               this`successfulRequests, this`failedRequests, this`doubleCounted
      ensures Valid()
      ensures
        var lookup := CategoriesStep(old(Cache()), net.now, net.storedAt, net.categories);
        var attempt := ImageRequest(category, Str("sfw"), lookup.result, net.image);
        && r == attempt.result
        && totalRequests == old(totalRequests) + 1
        && successfulRequests == old(successfulRequests) + (if attempt.countedSuccess then 1 else 0)
        && failedRequests == old(failedRequests) + (if r.Failure? then 1 else 0)
        && Cache() == (if ValidateArgs(category, Str("sfw")).Success? then lookup.next else old(Cache()))
    {
      r := GetImage(category, Str("sfw"), net);
    }

    /** `getNSFW(category)` */
    method GetNsfw(category: JsValue, net: Network) returns (r: Result<ImageResult, JsError>)
      requires Valid()
      modifies this`categoriesCache, this`cacheExpiry, this`totalRequests,
               this`successfulRequests, this`failedRequests, this`doubleCounted
      ensures Valid()
      ensures
        var lookup := CategoriesStep(old(Cache()), net.now, net.storedAt, net.categories);
        var attempt := ImageRequest(category, Str("nsfw"), lookup.result, net.image);
        && r == attempt.result
        && totalRequests == old(totalRequests) + 1
        && successfulRequests == old(successfulRequests) + (if attempt.countedSuccess then 1 else 0)
        && failedRequests == old(failedRequests) + (if r.Failure? then 1 else 0)
        && Cache() == (if ValidateArgs(category, Str("nsfw")).Success? then lookup.next else old(Cache()))
    {
      r := GetImage(category, Str("nsfw"), net);
    }

    /**
      `getRandomImage(type)`: resolves the category set (reading the clock at
      `now`, and at `storedAt` if it stores a fetched set), picks a category
      with the draws `coin` and `draw`, and hands the pick to `getImage`, which
      resolves the category set again under `net`. A failed pick leaves the
      counters alone.
     */
    method GetRandomImage(typeArg: JsValue, now: int, storedAt: int, fetch: Fetch<CategoryData>, coin: real, draw: real, net: Network)
      returns (r: Result<ImageResult, JsError>)
      requires Valid()
      requires 0.0 <= coin < 1.0 && 0.0 <= draw < 1.0
      modifies this`categoriesCache, this`cacheExpiry, this`totalRequests,
               this`successfulRequests, this`failedRequests, this`doubleCounted
      ensures Valid()
      ensures
        var first := CategoriesStep(old(Cache()), now, storedAt, fetch);
        var pick := ResolveRandom(first.result, typeArg, coin, draw);
        && (pick.Failure? ==> r == Failure(pick.error) && Stats() == old(Stats()) && Cache() == first.next)
        && (pick.Success? ==>
              var category, kind := Str(pick.value.category), Str(pick.value.kind);
              var second := CategoriesStep(first.next, net.now, net.storedAt, net.categories);
              var attempt := ImageRequest(category, kind, second.result, net.image);
              && r == attempt.result
              && totalRequests == old(totalRequests) + 1
              && successfulRequests == old(successfulRequests) + (if attempt.countedSuccess then 1 else 0)
              && failedRequests == old(failedRequests) + (if r.Failure? then 1 else 0)
              && Cache() == (if ValidateArgs(category, kind).Success? then second.next else first.next))
    {
      var categories := GetCategories(now, storedAt, fetch);
      var pick := ResolveRandom(categories, typeArg, coin, draw);
      if pick.Failure? {
        return Failure(pick.error);
      }
      r := GetImage(Str(pick.value.category), Str(pick.value.kind), net);
    }

    /** `getStats()` */
    function GetStats(): (s: StatsReport)
      reads this
      ensures (s.totalRequests, s.successfulRequests, s.failedRequests) == Stats()
      ensures s.successRate == Text("0%") <==> totalRequests == 0
    {
      Report(totalRequests, successfulRequests, failedRequests)
    }

    /** `resetStats()`: zeroes the counters and leaves the cache alone. */
    method ResetStats()
      requires Valid()
      modifies this`totalRequests, this`successfulRequests, this`failedRequests, this`doubleCounted
      ensures Valid()
      ensures Stats() == (0, 0, 0) && GetStats() == StatsReport(0, 0, 0, Text("0%"))
      ensures Cache() == old(Cache())
    {
      totalRequests, successfulRequests, failedRequests := 0, 0, 0;
      doubleCounted := 0;
    }
  }
}
