# Waifu Haven image API client — a verified model

This project models `ImageApiClient` from `index.js`. The client wraps a remote
image HTTP API that uses bearer-token authentication. The model covers the
parts of the client that make decisions:

- the constructor's key check and its configuration defaults;
- the headers sent with every authenticated request;
- the five-minute category cache, which falls back to a static category set;
- the validated `getImage` pipeline with its three request counters;
- the mapping from an HTTP error status to an error message;
- the random category selection of `getRandomImage`;
- the statistics report, and resetting the counters;
- the static `validateApiKey` check.

The model has four modules:

- `JsValues` (`js_values.dfy`) covers the part of JavaScript's value model that
  the client depends on. It has dynamically typed values, truthiness (`!x`,
  `a || b`), string conversion in template literals, string `length` in
  UTF-16 code units, `join`, ASCII `toUpperCase`, and thrown errors.
- `ApiLogic` (`api_logic.dfy`) holds every decision as a pure function:
  - `Configure` and `RequestHeaders` (configuration and headers);
  - `DefaultCategories` and `CategoriesStep` (one `getCategories` call as a
    step of the cache state machine);
  - `ValidateArgs`, `CheckMembership`, `ReadImage`, `StatusMessage`,
    `MapError` and `ImageRequest` (one whole `getImage` call);
  - `ResolveRandom` (the choice `getRandomImage` makes);
  - `Report` (what `getStats` returns).
- `Client` (`client.dfy`) is the class `ImageApiClient`. Its fields are the
  category cache, the cache expiry and the three counters, and its methods
  update them in place. Each method is proved against the functions of
  `ApiLogic`. The class invariant `Valid()` relates the counters to each other.
- `Properties` (`properties.dfy`) holds the lemmas that state what the client
  promises.

The outside world enters as parameters:

- The result of each HTTP request is a `Fetch` value. A request either throws a
  `JsError`, which may carry an HTTP response, or returns a status and a body.
- `Date.now()` is an integer. `getCategories` reads the clock twice: `now`
  before its request, to test the cache, and `storedAt` after the response,
  to set the new expiry.
- Each `Math.random()` call is a real number in [0, 1).

The model keeps the behaviour of `index.js` where it departs from what an
API client of this kind is usually expected to do:

- Status 500 has no message of its own. It falls to the generic
  `API error (<status>): …` branch.
- A 429 response gets a fixed message with no retry-after hint.
- For `'any'`, `getRandomImage` does flip a coin, but the result is overwritten.
  The type it requests is `sfw` exactly when the picked name is in the sfw
  list. So the requested type follows the picked position, not the coin, and
  a name that is in both lists, such as `waifu`, is always requested as sfw.
  With the fallback set, 11 of the 16 positions ask for an sfw image.
- The constructor lets the caller override the base URL, the timeout and the
  user agent. Any falsy option gets its default.
- Sometimes a status-200 success arrives without image data. `getImage` first
  counts it as a success, then fails to read the missing data and counts it as
  a failure too. The model keeps this behaviour. The class invariant counts such
  calls in a ghost counter.

## Model

| member | source | states |
|---|---|---|
| `ApiLogic.Configure` | index.js:8-28 | fails with "API key is required" exactly when the key is falsy; otherwise it keeps the key, and every setting it holds is truthy |
| `Properties.ConfigureDefaults` | index.js:14-16 | a truthy option is kept and a falsy one becomes its default: base URL `http://waifu-haven.ddns.net:50006`, timeout 30000, user agent `WaifuAPIClient/2.1.0` |
| `Properties.ConfigureIdempotent` | index.js:14-16 | configuring again with a client's own settings gives the same configuration |
| `Client.ImageApiClient.constructor` | index.js:13-27 | a new client holds the configuration, a null cache and expiry, and all three counters at 0 |
| `Client.ImageApiClient.Create` | index.js:8-28 | throws exactly when the key is falsy; otherwise it returns a fresh client with the configured settings, an empty cache and zero counters |
| `ApiLogic.RequestHeaders` | index.js:276-283 | the headers carry the client's user agent, `Accept: application/json` and `X-Bot-Platform: discord`; the `Authorization` header is `Bearer ` followed by the key |
| `Properties.BearerCarriesStringKey` | index.js:278 | for a string key, the bearer token is exactly that key |
| `ApiLogic.ValidateApiKey` | index.js:317-319 | true exactly for a string whose `length` in UTF-16 code units is at least 10, so a valid key has at least 5 characters |
| `Properties.ValidKeysAreAccepted` | index.js:9-10 | every key that passes `validateApiKey` is accepted by the constructor; every non-empty string shorter than 10 code units, every non-zero number, `true` and every object are accepted by the constructor but fail `validateApiKey` |
| `Properties.Utf16LengthOfBmp` | index.js:318 | for a string with no character above U+FFFF, `length` is its number of characters |
| `Properties.AstralKeyIsValid` | index.js:318 | five characters above U+FFFF are 10 code units, so they pass `validateApiKey` |
| `ApiLogic.DefaultCategories` | index.js:289-294 | the fallback set has an sfw list of 10 names and an nsfw list of 6 names |
| `Properties.DefaultCategoriesShape` | index.js:291-292 | both fallback lists are duplicate-free, and the only name they share is "waifu" |
| `ApiLogic.CategoriesStep` | index.js:34-57 | a fresh cache answers by itself and is kept; a failed fetch never changes the cache; the only change is to store the returned set with an expiry 300000 ms after the second clock reading |
| `Properties.CategoriesOutcomes` | index.js:34-57 | `getCategories` never fails. A fresh cache is returned as is. A stale cache with a status-200 success stores the payload with expiry `storedAt + 300000`. Any other outcome returns the default set and leaves the cache unchanged |
| `Properties.NetworkConsultedIffStale` | index.js:37-39 | the cache answers every call regardless of the network exactly when a cache and a truthy expiry exist and `now < expiry` |
| `Properties.CacheWindow` | index.js:37-48 | after a successful fetch whose response arrived at time t ≥ 0, every call before t + 300000 returns the fetched set without a request; a call at or after t + 300000 makes a new request |
| `Properties.MissingPayloadNotServed` | index.js:37-49 | a successful fetch with a null payload returns it, but that payload is never served from the cache |
| `Client.ImageApiClient.GetCategories` | index.js:34-57 | the result and the new cache and expiry are those of one cache step from the old cache |
| `ApiLogic.ValidateArgs` | index.js:70-76 | the arguments pass exactly when the category is a non-empty string and the type, `'sfw'` when not given, is `sfw` or `nsfw` |
| `ApiLogic.CheckMembership` | index.js:79-84 | the request passes exactly when the category set is present and the category is in its list for the type; an absent list counts as empty |
| `ApiLogic.ReadImage` | index.js:93-108 | a response is counted as a success exactly when it has status 200 and a truthy `success`; it yields an image exactly when, in addition, it has data |
| `Properties.ArgumentErrors` | index.js:70-76 | an empty or non-string category is rejected first, and then a bad type. Both rejections carry their fixed messages and happen before any category lookup or request |
| `Properties.TypeDefaultsToSfw` | index.js:65 | `getImage` with no type behaves as with `'sfw'` |
| `Properties.UnknownCategory` | index.js:80-84 | an unlisted category is rejected with "Invalid <TYPE> category. Valid categories: " followed by the list joined by ", " |
| `Properties.RejectedRequestIgnoresNetwork` | index.js:69-91 | a call that fails validation or the membership check fails and is not counted as a success, whatever the network would have answered |
| `Properties.ImageSuccess` | index.js:93-105 | `getImage` succeeds exactly when the request is admitted and the response is a status-200 success with data; the result is then exactly the five image fields of that data together with `meta` |
| `ApiLogic.ImageRequest` | index.js:65-136 | a call is counted as a success only if the request was admitted and the response is a status-200 success; every successful call was counted; no error that reaches the caller carries an HTTP response |
| `Properties.CountersExclusive` | index.js:93-110 | with a well-formed response, a call is counted as a success exactly when it succeeds |
| `Properties.MissingImageDataCountedTwice` | index.js:94-99 | a status-200 success without data is counted as a success and then fails with a TypeError |
| `Properties.RequestErrors` | index.js:106-134 | an error with an HTTP response becomes a plain error carrying the status message. An error without a response is rethrown unchanged. A response that is not a 200 success gives "Failed to fetch image" |
| `ApiLogic.MapError` | index.js:109-135 | the error it throws never carries a response; an error with a response is replaced by one whose message is the status message; any other error is rethrown unchanged |
| `ApiLogic.StatusMessage` | index.js:118-131 | for 400 and for every status without a message of its own, the server's message, when present, ends the text |
| `Properties.StatusMessageDeterminesStatus` | index.js:118-131 | two error responses with different statuses never produce the same message, whatever their server messages and categories |
| `Properties.NamedStatusMessages` | index.js:118-128 | 400 gives "Invalid category: " followed by the server message, or "Bad request" when there is none; 401, 403 and 429 give fixed messages; 404 names the category |
| `Properties.OtherStatusMessage` | index.js:129-130 | any other status gives "API error (<status>): " followed by the server message, or "Unknown error" when there is none |
| `Properties.ServerErrorIsGeneric` | index.js:129-130 | status 500 without a message gives "API error (500): Unknown error" |
| `Client.ImageApiClient.GetImage` | index.js:65-136 | increments `totalRequests` by one. `successfulRequests` grows exactly when the call was counted as a success, and `failedRequests` exactly when the call fails. The result is that of the pipeline, and the cache changes only when the arguments were valid. The counter invariant is kept |
| `Client.ImageApiClient.GetSfw` | index.js:143-145 | has exactly the effect of `getImage` with type `sfw` on the result, the three counters and the cache, and keeps the counter invariant |
| `Client.ImageApiClient.GetNsfw` | index.js:152-154 | has exactly the effect of `getImage` with type `nsfw` on the result, the three counters and the cache, and keeps the counter invariant |
| `ApiLogic.PickIndex` | index.js:186 | `Math.floor(draw * n)` is a valid index for every draw in [0, 1) |
| `Properties.EveryCandidateReachable` | index.js:186 | every index below n is chosen by some draw |
| `Properties.CoinIgnored` | index.js:174-191 | the coin flipped for `'any'` never changes the outcome |
| `ApiLogic.ResolveRandom` | index.js:161-193 | a type other than sfw, nsfw or any throws its fixed message; a successful pick names `sfw` or `nsfw` and a category listed for that type |
| `Properties.RandomErrors` | index.js:161-180 | a type other than sfw, nsfw or any throws; with a valid type, a missing category set throws a TypeError on reading its list, and `'any'` throws a TypeError when it spreads an absent list |
| `Properties.RandomOutcome` | index.js:161-191 | otherwise the pick fails exactly when the candidate list (the type's own list, absent counting as empty, or both lists for `'any'`) is empty, with "No categories available for type: <type>"; when it is not empty, the result is the candidate at `floor(draw * n)` requested as the given type, or for `'any'` as sfw exactly when the name is in the sfw list |
| `Properties.SfwPicksFromSfw` | index.js:168-170 | `'sfw'`, which is also the default, picks from the sfw list only and never reads the nsfw list |
| `Properties.NsfwPicksFromNsfw` | index.js:171-173 | `'nsfw'` picks from the nsfw list only and never reads the sfw list |
| `Properties.AnyTypeFollowsSfwMembership` | index.js:174-191 | `'any'` picks from the sfw list followed by the nsfw list; the requested type is `sfw` exactly when the picked name is in the sfw list |
| `Properties.FallbackAnySplit` | index.js:175-190 | with the fallback set, `'any'` draws from 16 positions, and exactly 11 of them (the 10 sfw names and "waifu" in the nsfw half) are requested as sfw |
| `Properties.WaifuAlwaysSfw` | index.js:186-190 | with the fallback set, the draw that lands on "waifu" in the nsfw half still requests an sfw image, even when the coin says nsfw |
| `Properties.PickIsAdmitted` | index.js:161-193 | `getImage` admits a successful pick if it is non-empty and the set did not change |
| `Client.ImageApiClient.GetRandomImage` | index.js:161-197 | a failed pick is thrown and leaves the counters alone. A successful pick is handed to `getImage`, with that method's effect on the result, the counters and the cache |
| `ApiLogic.Report` | index.js:248-255 | the report copies the three counters; the success rate is "0%" exactly when nothing was requested, and otherwise the ratio of successful requests to all requests |
| `Client.ImageApiClient.GetStats` | index.js:248-255 | reports the client's counters; "0%" exactly when `totalRequests` is 0 |
| `Client.ImageApiClient.ResetStats` | index.js:260-266 | all three counters become 0 and the report reads "0%". The cache is unchanged and the counter invariant is kept |

## Left out

- HTTP transport (`axios`, URLs, the per-request timeout): each request is an abstract `Fetch` outcome passed in. The base URL and timeout are stored but not used.
- `Date.now()` and `Math.random()` are parameters. The draws are reals in [0, 1), as `Math.random()` promises. The two clock readings of `getCategories` are not constrained against each other.
- `ApiLogic.PickIndex`: takes the floor of the exact product draw · n, where JavaScript takes the floor of that product rounded to a double. Rounding could only change the index when the exact product lies just below an integer.
- `getHealth` and `getStatus`: each only wraps one HTTP call in a success-or-failure record.
- The success-rate text for a positive total (`toFixed(1)` of a floating-point percentage): the model reports the two counts, `Percentage(successful, total)`, in place of the formatted percentage, so equal ratios of different counts give different values.
- `console.error` logging in `getImage`.
- Promises and interleaving at `await` points: each method runs as one atomic step.
- `ImageApiClient.createBot`: it only fixes a user agent.
- example/example.js: a usage snippet with no logic of its own.
- JavaScript numbers are integers here. NaN, fractions and their string forms are not modelled.
- `getCategories` returns the cached object by reference, so a caller that mutates it changes what later calls return and what `getImage` admits. The model treats the category set, and the client's public fields (`apiKey`, `userAgent`, `stats`), as values that callers cannot mutate; the configuration is a constant.
- Every object, arrays and functions included, converts to the string "[object Object]".
- TypeError messages have one fixed wording. The engine's actual text differs between null and undefined.
- A response body that is not an object is not modelled. Neither is a category entry that is not an array of strings, nor an `options` argument that is null.
- The constant `success: true` field of the object `getImage` returns is not represented in `ImageResult`.
