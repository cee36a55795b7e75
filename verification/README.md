# Ledger-access layer of the prediction-markets dashboard, in Dafny

This project models the part of the prediction-markets dashboard that talks to
the Canton ledger JSON API. On the browser side that is the query cache, the
retry-with-backoff utility, the error formatter, the CORS-proxy fallback, the
health probes, the `LedgerClient` command and header builders, and the RedStone
oracle service. On the server side it is the five serverless handlers:

- `api/query.js`, the query forwarder with endpoint search;
- `api/openapi.js`, the OpenAPI discovery endpoint;
- `api/command.js` and `api/query/index.js`, the single-endpoint forwarders;
- `api/oracle.js`, the price proxy.

Everything is a pure function over explicit inputs:

- The clock is a `now` or `timestamp` argument.
- `Math.random()` is the text it renders to.
- The network is a function from the outgoing request to its outcome: a response with status, content type, text and JSON-parse outcome, or a thrown error.
- Waits are recorded instead of slept.
- The module-level state of the CORS-proxy fallback is a `State` value threaded from one call to the next, so calls are taken one after another (see "## Left out").

JavaScript semantics the code relies on are modelled explicitly in `Js`. These are truthiness, `a || b`, and property access that throws on `null` or `undefined`. `Url` models `encodeURIComponent`, including UTF-8 percent-encoding. `Text` models `join`, `substring`, `includes`, ASCII `toUpperCase` and decimal rendering.

Modules: `Wrappers`, `Js`, `Text`, `Url`, `Http` (shared), `Errors` (shared error record), `TtlCache`, `Retry`, `ErrorHandler`, `QueryProxy`, `OpenApiProxy`, `LedgerForward`, `OracleProxy`, `CorsProxy`, `HealthCheck`, `LedgerClient`, `OracleService`.

Facts about the code that shape the model:

- `LedgerClient.query` and `submitCommand` post once through axios and rethrow any error. They do not use the cache or the retry utility, and nothing clears the cache after a command.
- `api/command.js` posts the request body unchanged to the single URL `<ledger>/v1/command`. It does not try other payload shapes or endpoints.
- `generateKey` uses `JSON.stringify`, whose output depends on property insertion order. The model therefore takes the query's JSON text as an input and proves what holds for any such text.

## Model

| member | source | states |
|---|---|---|
| TtlCache.New | frontend/src/utils/cache.js:6-9 | A new cache is empty; its default TTL is the given one, or 60000 ms when none is given. |
| TtlCache.Get | frontend/src/utils/cache.js:16-27 | A read returns a value exactly when the key is present and `now <= expiresAt`, and then it returns the stored value. An absent key or live entry leaves the map unchanged. An expired entry is removed and nothing else changes. |
| TtlCache.Set | frontend/src/utils/cache.js:35-40 | The key maps to the value with expiry `now + ttl`, or `now + defaultTTL` when no TTL is given. Any old entry for the key is overwritten. Every other key keeps its entry. |
| TtlCache.Delete | frontend/src/utils/cache.js:46-48 | Only the given key is removed; every remaining entry is unchanged. |
| TtlCache.Clear | frontend/src/utils/cache.js:53-55 | No entry remains. |
| TtlCache.SetThenGet | frontend/src/utils/cache.js:21 | A value set at `t` with TTL `ttl` reads back at any time up to and including `t + ttl`. |
| TtlCache.DefaultTtlApplies | frontend/src/utils/cache.js:35 | Without a TTL, a value set at `t` reads back exactly while `now <= t + defaultTTL`. |
| TtlCache.ExpiredIsEvicted | frontend/src/utils/cache.js:21-24 | A read after expiry gives nothing and evicts the entry, so a later read gives nothing even at an earlier clock reading. |
| TtlCache.SetLeavesOthers | frontend/src/utils/cache.js:35-40 | Setting one key does not change what any other key reads. |
| TtlCache.DeleteAndClearForget | frontend/src/utils/cache.js:46-55 | After `delete(k)`, k reads nothing and other keys read as before. After `clear()`, every key reads nothing. |
| TtlCache.KeyShape | frontend/src/utils/cache.js:63-65 | `generateKey` (`TtlCache.GenerateKey`) builds `query:`, the ids joined by commas, `:`, then the query text. The part before the query text holds no brace. |
| TtlCache.KeyInjective | frontend/src/utils/cache.js:63-65 | The key is a function of ids and query text. For comma-free and brace-free ids and object-shaped query text, equal keys imply equal id lists (same order) and equal query text. |
| TtlCache.ReorderChangesKey | frontend/src/utils/cache.js:64 | Listing two distinct ids in the other order gives a different key. |
| TtlCache.CommaInIdCollides | frontend/src/utils/cache.js:64 | An id containing a comma collides: `["A,B"]` and `["A","B"]` share a key. |
| Retry.Resolve | frontend/src/utils/retry.js:16-30 | Omitted options default to 3 retries, 1000 ms initial delay and 10000 ms maximum delay. |
| Retry.Loop | frontend/src/utils/retry.js:35-50 | From any attempt, the loop stops at the first success, at the first non-retryable error, or after attempt `maxRetries`. Every attempt it passed over threw a retryable error. The i-th wait is `Delay(i)`. |
| Retry.RetryWithBackoff | frontend/src/utils/retry.js:15-53 | The function is called between 1 and `maxRetries + 1` times, with one wait fewer than calls. Every call before the last threw a retryable error. A success returns the last call's value. A throw rethrows the last call's error, and that error is non-retryable or the last allowed attempt was reached. A negative `maxRetries` calls nothing and throws `undefined`. |
| Retry.StopsAtFirstSuccess | frontend/src/utils/retry.js:37 | After k retryable failures, a success at call k is returned, and exactly k+1 calls were made. |
| Retry.NonRetryableThrowsAtOnce | frontend/src/utils/retry.js:42-44 | A first error that the policy rejects is thrown after exactly one call, with no wait. |
| Retry.ExhaustionThrowsLastError | frontend/src/utils/retry.js:35-52 | When every call throws a retryable error, all `maxRetries + 1` calls are made and the final call's error is thrown. |
| Retry.DelayCapped | frontend/src/utils/retry.js:48 | Every wait after the first (`Retry.Delay`) is at most `maxDelay`. |
| Retry.DelayMonotone | frontend/src/utils/retry.js:33-48 | With `0 <= initialDelay <= maxDelay`, the waits never decrease and stay within `maxDelay`. |
| Retry.DelayClosedForm | frontend/src/utils/retry.js:48 | For non-negative settings, wait i (i >= 1) equals `min(initialDelay * 2^i, maxDelay)`. |
| Retry.DefaultPolicyByStatus | frontend/src/utils/retry.js:20-29 | The default policy (`Retry.DefaultShouldRetry`) retries every 5xx response. It does not retry a 4xx response that lacks the network-error code or message. |
| Retry.TwoServerErrorsThenSuccess | frontend/src/utils/retry.js:15-53 | Two 503s then a success, with `maxRetries: 3`, return the value after 3 calls and waits of 1000 and 2000 ms. |
| Retry.LoopDependsOnlyOnOutcomes | frontend/src/utils/retry.js:35-50 | Two functions with the same outcomes from the current attempt on give the same run. |
| Retry.WithRetryForwardsArguments | frontend/src/utils/retry.js:61-65 | `withRetry(fn)(...args)` (`Retry.WithRetry`) depends on `fn` only through `fn(...args)`: every attempt gets the same arguments. |
| ErrorHandler.FormatError | frontend/src/utils/errorHandler.js:10-44 | The message is never falsy. It is a non-empty string whenever the response body's `error` and `message` fields are strings or absent. |
| ErrorHandler.AbsentError | frontend/src/utils/errorHandler.js:11 | No error gives "An unknown error occurred". |
| ErrorHandler.NetworkFirst | frontend/src/utils/errorHandler.js:14-16 | A network error (code `ERR_NETWORK` or message containing "Network Error") gives the network message, whatever else the error holds. |
| ErrorHandler.CorsBeforeStatus | frontend/src/utils/errorHandler.js:19-21 | A message mentioning CORS or Access-Control gives the connection-blocked message before any status is considered. |
| ErrorHandler.FixedStatusIgnoresBody | frontend/src/utils/errorHandler.js:24-36 | Statuses 404, 403, 401 and 500 give their fixed messages, and replacing the response body changes nothing. |
| ErrorHandler.OtherStatusPassesThrough | frontend/src/utils/errorHandler.js:25-38 | Any other status yields the body's `error`, else its `message`, else `Error <status>: <message>`. |
| ErrorHandler.ServiceUnavailableExample | frontend/src/utils/errorHandler.js:37-38 | A 503 with an empty body and message "oops" gives `Error 503: oops`. |
| ErrorHandler.NoResponseUsesMessage | frontend/src/utils/errorHandler.js:43 | Without a response, the raw message is shown, or "An unexpected error occurred" when it is absent or empty. |
| Http.LedgerUrl | api/query.js:40 | An unset or empty `VITE_LEDGER_URL` falls back to the development participant; otherwise the variable's value is used. |
| Http.TrimSlash | api/query.js:45 | The base URL loses one trailing slash when it ends in one and is otherwise unchanged. |
| Http.TrimSlashRemovesAtMostOne | api/openapi.js:19 | Of two trailing slashes, one remains. |
| Http.PassAuthorization | api/command.js:40 | The Authorization header is passed on unchanged exactly when the request has a non-empty one. |
| Http.Gate | api/query.js:29-38 | OPTIONS gets 200 with no body. Any other method except the allowed one gets 405 with the handler's headers. Only the allowed method passes. |
| Http.FirstAccepted | api/query.js:74-109 | The search returns the first candidate, in order, whose outcome is accepted; every earlier candidate was rejected. It returns the list length when none is accepted. |
| Js.Prop | api/query.js:64-65 | Reading a property fails exactly when the base value is `null` or `undefined`. |
| QueryProxy.ForwardedBody | api/query.js:63-66 | The body sent upstream is `{templateIds, query}`, with `[]` and `{}` replacing falsy fields. An absent or null request body throws. |
| QueryProxy.Candidates | api/query.js:51-57 | There are five POST candidates, one per path, in the order v2/query, v1/query, query, v2/contracts/search, v1/contracts/search. All carry the same body and header. |
| QueryProxy.Handle | api/query.js:3-170 | Every reply carries the CORS headers, at most five candidates are tried, and no reply is ever 404. |
| QueryProxy.PreflightFirst | api/query.js:29-32 | A preflight gets 200 with no body, and nothing is sent upstream. |
| QueryProxy.OtherMethodsRejected | api/query.js:35-38 | Any method other than OPTIONS and POST gets 405 naming the received method, and nothing is sent upstream. |
| QueryProxy.SelectsFirstAnswer | api/query.js:74-109 | When every earlier candidate threw or answered 404 and candidate i answered with another status, candidate i's reply is forwarded. Exactly candidates 0..i were sent, in order. |
| QueryProxy.SoftFailsToEmpty | api/query.js:113-120 | When every candidate throws or answers 404, all five are tried and the reply is 200 `{result: []}`. |
| QueryProxy.ForwardsErrorStatus | api/query.js:139-157 | A selected non-2xx JSON reply has its status and data forwarded unchanged by `QueryProxy.Forward`, whose `QueryProxy.Data` is the parsed body. |
| QueryProxy.ForwardsSuccess | api/query.js:160-161 | A selected 2xx JSON reply gives 200 with its data. |
| QueryProxy.WrapsNonJson | api/query.js:125-135 | A non-JSON reply becomes `{error: "Non-JSON response", text}`. `text` is a prefix of at most 500 characters of the upstream text. |
| QueryProxy.NormalisesBody | api/query.js:63-66 | Truthy template ids and query are kept as sent; missing ones become `[]` and `{}`. |
| OpenApiProxy.Candidates | api/openapi.js:22-27 | There are four GET candidates, in the listed order. |
| OpenApiProxy.Urls | api/openapi.js:66 | The tried-endpoint list holds every candidate URL, in order. |
| OpenApiProxy.Handle | api/openapi.js:3-69 | Every reply carries the CORS headers and is 200, 404 or 405. At most four requests are sent. |
| OpenApiProxy.MethodGate | api/openapi.js:10-16 | A preflight gets 200 with no body. Any method but GET gets 405. Neither calls upstream. |
| OpenApiProxy.SelectsFirstOk | api/openapi.js:31-56 | When candidate i returned 2xx and every earlier candidate threw or returned another status, the reply is built from candidate i. Exactly candidates 0..i were sent, in order. |
| OpenApiProxy.SpecTruncated | api/openapi.js:53 | The returned spec text is a prefix of at most 5000 characters of what the endpoint sent. |
| OpenApiProxy.ExhaustionListsAll | api/openapi.js:64-68 | When no candidate returns 2xx, all four are tried and the 404 reply lists all four. |
| LedgerForward.Forward | api/command.js:13-58 | Every reply carries the CORS headers. A POST sends exactly one request. A throw or unparsable body gives 500 with the failure text. Parsed data comes back with the upstream status when not 2xx, and with 200 otherwise. |
| LedgerForward.CommandMethodGate | api/command.js:21-31 | For `LedgerForward.Command`, a preflight gets 200 with no body and another method gets 405 naming it. Neither calls upstream. |
| LedgerForward.CommandForwardsUnchanged | api/command.js:33-43 | A command goes out once, body unchanged, to `<ledger URL>/v1/command`. The Authorization header is passed only when non-empty. |
| LedgerForward.CommandFailuresAre500 | api/command.js:45-58 | A thrown fetch or an unparsable body gives status 500 with error `Failed to submit command`. |
| LedgerForward.QueryIndexForwardsUnchanged | api/query/index.js:32-43 | `LedgerForward.QueryIndex` posts a query once, body unchanged, to `<ledger URL>/v1/query` for every ledger URL. There is no endpoint search and no slash trimming, so a ledger URL ending in `/` yields `//v1/query`. |
| LedgerForward.QueryIndexForwardsStatus | api/query/index.js:45-52 | A non-2xx JSON reply is forwarded with its status; a 2xx one gives 200. |
| LedgerForward.QueryIndexFailuresAre500 | api/query/index.js:53-59 | Any exception gives 500 `{error: "Failed to query ledger", message}`. |
| OracleProxy.Handle | api/oracle.js:3-50 | Every reply carries the CORS headers and is 200, 400, 405 or 500. At most one upstream call is made. |
| OracleProxy.MethodGate | api/oracle.js:13-21 | A preflight gets 200 with no body. Any method but GET gets 405. Neither calls upstream. |
| OracleProxy.SymbolRequired | api/oracle.js:23-27 | A missing or empty symbol gives 400 before any upstream call. |
| OracleProxy.SymbolEncoded | api/oracle.js:30 | The symbol is URL-encoded into the upstream URL. The encoding holds no `&`, `=` or `#`, and for ASCII symbols it decodes back to the symbol. |
| OracleProxy.UpstreamErrorBecomes500 | api/oracle.js:37-39 | A non-2xx upstream status becomes 500 naming that status. It is never forwarded. |
| OracleProxy.OkForwarded | api/oracle.js:41-42 | A 2xx JSON reply gives 200 with its data. |
| Url.EncodeSafe | api/oracle.js:30 | `encodeURIComponent` output uses only unreserved characters, `%` and hex digits. |
| Url.EncodeHasNoDelimiters | api/oracle.js:30 | An encoded component holds no `&`, `=`, `#`, `?` or `/`. |
| Url.EncodeUnreservedIdentity | api/oracle.js:30 | A component made only of unreserved characters is left as it is. |
| Url.DecodeEncodeAscii | api/oracle.js:30 | Percent-decoding undoes the encoding for ASCII text. |
| CorsProxy.Rotate | frontend/src/services/corsProxy.js:37-38 | Rotation moves the index to the next position modulo the list length, keeping it in range. |
| CorsProxy.Available | frontend/src/services/corsProxy.js:54 | The filtered list keeps exactly the proxies that support the method, in list order: its first element is the first usable proxy (`CorsProxy.FirstKept`), and it is empty exactly when none is usable. |
| CorsProxy.AvailableFor | frontend/src/services/corsProxy.js:50-58 | POST, PUT and PATCH may use only cors-anywhere; other methods may use both proxies. |
| CorsProxy.AvailableForIsFilter | frontend/src/services/corsProxy.js:50-61 | The per-method list is exactly the filter of the proxy list, and its first element, the one the code uses, is cors-anywhere for every method. So the list is never empty and the no-proxy error is unreachable. |
| CorsProxy.AttemptError | frontend/src/services/corsProxy.js:73-84 | An attempt fails exactly when the fetch throws or the status is 500 or above. A 4xx reply is not a failure. |
| CorsProxy.FetchWithProxy | frontend/src/services/corsProxy.js:48-95 | There are between 1 and `AttemptBound(failures)` attempts, all to cors-anywhere, and the no-proxy error never occurs. Every attempt but the last failed. The call succeeds exactly when the last attempt did not fail, and then returns that attempt's status and resets the counter to 0. A failure throws the last attempt's error and leaves the counter increased by the number of attempts. |
| CorsProxy.PostLikeNeverRetries | frontend/src/services/corsProxy.js:51-88 | A POST, PUT or PATCH makes exactly one attempt. |
| CorsProxy.AtMostThreeAttempts | frontend/src/services/corsProxy.js:88-93 | From a counter of 0, no call makes more than three attempts. |
| CorsProxy.ClientErrorsReturned | frontend/src/services/corsProxy.js:73-82 | A 4xx reply is returned to the caller and resets the counter. |
| CorsProxy.GetExhaustsAfterThree | frontend/src/services/corsProxy.js:84-93 | A GET that keeps failing makes three attempts from a counter of 0, throws, and leaves the counter at 3. |
| CorsProxy.AfterExhaustionOneAttempt | frontend/src/services/corsProxy.js:84-93 | The counter is not cleared by a failed call, so once it reaches 3, each call gets one attempt until a success. |
| CorsProxy.RetriesSameProxy | frontend/src/services/corsProxy.js:61-90 | Every retry of a failing GET goes to cors-anywhere; allorigins is never requested. |
| CorsProxy.FetchRotating | frontend/src/services/corsProxy.js:37-95 | This is the corrected fetch, which uses the rotated proxy. It keeps the same bounds and counting, every request goes through a proxy, and consecutive requests never use the same proxy. |
| CorsProxy.RotatingTriesNextProxy | frontend/src/services/corsProxy.js:87-90 | With the correction, a GET whose first attempt fails is retried through allorigins. |
| CorsProxy.ShouldUseProxy | frontend/src/services/corsProxy.js:101-103 | The fallback is always available. |
| HealthCheck.CheckApiHealth | frontend/src/utils/healthCheck.js:9-43 | Healthy exactly when a response arrived within 3000 ms and its status is not 404. |
| HealthCheck.HealthVerdicts | frontend/src/utils/healthCheck.js:23-39 | A 2xx and a 503 are healthy. A 404, a timeout and a network error are not. |
| HealthCheck.CheckDirectConnection | frontend/src/utils/healthCheck.js:50-67 | Reachable exactly when the probe query got a response whose status is neither 404 nor 500 or above. A thrown fetch is unreachable. |
| HealthCheck.DirectStricterThanHealth | frontend/src/utils/healthCheck.js:28-63 | For a response within the timeout, reachability implies health. A 5xx status is healthy but unreachable. |
| LedgerClient.BearerHeader | frontend/src/services/ledgerClient.js:16 | There is a header exactly when the token is non-empty, and then it is `Bearer <token>`. |
| LedgerClient.New | frontend/src/services/ledgerClient.js:3-19 | The base URL is the given one, else `VITE_LEDGER_URL`, else the development participant. The Authorization header follows the token. |
| LedgerClient.SetToken | frontend/src/services/ledgerClient.js:107-110 | The token is replaced and the header follows it; without a token the header is cleared. |
| LedgerClient.AuthorizationFollowsToken | frontend/src/services/ledgerClient.js:107-110 | A non-empty token gives `Bearer <token>`. No token, an empty token, and `setToken(null)` give no header. |
| LedgerClient.ResultOf | frontend/src/services/ledgerClient.js:33 | The result is `data.result` when truthy and `[]` otherwise. Null or absent data throws. |
| LedgerClient.Query | frontend/src/services/ledgerClient.js:27-38 | A rejection is rethrown unchanged; otherwise the result is extracted from the response data. |
| LedgerClient.QueryResultExtraction | frontend/src/services/ledgerClient.js:33 | A reply without `result` gives `[]`; a reply with a list gives that list. |
| LedgerClient.SubmitCommand | frontend/src/services/ledgerClient.js:45-55 | Posts `{commands}` to `/v1/command` with the argument unchanged. It returns the response data as-is and rethrows a rejection unchanged. |
| LedgerClient.CreateCommandFor | frontend/src/services/ledgerClient.js:64-76 | The command carries the given party, application id `prediction-markets`, an id starting `create-`, and exactly one `{templateId, payload}`. |
| LedgerClient.ExerciseCommandFor | frontend/src/services/ledgerClient.js:87-101 | The command carries the given party, an id starting `exercise-`, and exactly one `{templateId, contractId, choice, argument}`. |
| LedgerClient.Create | frontend/src/services/ledgerClient.js:64-76 | One post to `/v1/command` of `{commands}` built by `CreateCommandFor`; the ledger's data comes back unchanged and a rejection is rethrown. |
| LedgerClient.Exercise | frontend/src/services/ledgerClient.js:87-101 | One post to `/v1/command` of `{commands}` built by `ExerciseCommandFor`; the ledger's data comes back unchanged and a rejection is rethrown. |
| LedgerClient.CommandValueReadsBack | frontend/src/services/ledgerClient.js:65-100 | The posted JSON reads back as the command: `party`, `applicationId`, `commandId`, and a `list` with one object per entry. A create entry holds `templateId` and `payload`; an exercise entry holds `templateId`, `contractId`, `choice` and `argument`. |
| LedgerClient.CommandIdInjective | frontend/src/services/ledgerClient.js:68-91 | For the same kind, equal command ids mean equal clock readings and equal random parts, given random parts without `-`. |
| LedgerClient.CreateAndExerciseIdsDiffer | frontend/src/services/ledgerClient.js:68-91 | A create id never equals an exercise id. |
| OracleService.UseProxyRoute | frontend/src/services/oracleService.js:19 | An explicit flag wins. By default the proxy is used unless the build is a development build on localhost. |
| OracleService.RoutesAgree | frontend/src/services/oracleService.js:20-22 | The direct URL chosen by `OracleService.PriceUrl` is exactly the one `api/oracle.js` builds for the upper-cased symbol. The encoded symbol cannot add query parameters. |
| OracleService.ProxyRouteDecodes | frontend/src/services/oracleService.js:21 | For ASCII symbols, the proxy route's query value decodes to the upper-cased symbol. |
| OracleService.CaseInsensitiveUrl | frontend/src/services/oracleService.js:21-22 | Symbols differing only in case are fetched from the same URL. |
| OracleService.ExtractPrice | frontend/src/services/oracleService.js:30-39 | Extraction fails exactly when it reads a field of null or undefined: the reply itself, or an array reply's first element. For an object, a truthy `price` wins, else `value` if truthy, else null. For an array, the first object element gives its `value` if truthy, else its `price`; an empty array gives null. A bare number is its own price. A boolean or string reply gives null. |
| OracleService.PricePrecedence | frontend/src/services/oracleService.js:30-39 | A truthy `price` beats `value`. A falsy one, 0 included, falls through to a truthy `value`, and to null when `value` is falsy too. |
| OracleService.ArrayFirstElement | frontend/src/services/oracleService.js:34-35 | For a first element with any other fields: its `value` if truthy, else its `price`, else undefined. A null first element throws. An empty array gives null. |
| OracleService.FetchPrice | frontend/src/services/oracleService.js:16-52 | A rejection or unreadable reply throws an error naming the symbol as given. Success carries the upper-cased symbol, the extracted price, the timestamp, source `RedStone` and the raw reply. |
| OracleService.AssembleKeys | frontend/src/services/oracleService.js:70-76 | The map holds exactly the keys some result wrote. |
| OracleService.AssembleLast | frontend/src/services/oracleService.js:70-76 | A key holds the entry of the last result that wrote it. |
| OracleService.FetchMultiplePrices | frontend/src/services/oracleService.js:59-79 | The map has one key per symbol's entry and no other. A key written once holds that symbol's entry. |
| OracleService.MultipleKeys | frontend/src/services/oracleService.js:60-76 | A symbol whose fetch succeeded has its upper-cased form as a key. A symbol whose fetch failed is a key as given, as `OracleService.EntryOf` files it. |
| OracleService.LaterSymbolWins | frontend/src/services/oracleService.js:70-76 | Of two symbols differing only in case, the later successful fetch is kept. |
| OracleService.FailureKeptUnderGivenCase | frontend/src/services/oracleService.js:63-72 | A failed `btc` is filed under `btc`, not `BTC`. |
| OracleService.ParseFloat | frontend/src/services/oracleService.js:90 | A number reads as itself, a string by its optional sign and decimal prefix after leading white space, and anything else as NaN. |
| OracleService.ParseFloatSkipsSpace | frontend/src/services/oracleService.js:90 | Any run of ECMAScript white space or line terminators before the text (tab, vertical tab, form feed, no-break space, the Zs spaces, U+2028/2029, U+FEFF) does not change the parsed value. |
| OracleService.ParseFloatWholeNumber | frontend/src/services/oracleService.js:90 | A rendered whole number reads back as itself, ignoring a suffix such as ` USD`. |
| OracleService.ParseFloatDecimal | frontend/src/services/oracleService.js:90 | `a.b` reads as `a + b / 10^len(b)`. |
| OracleService.CheckCondition | frontend/src/services/oracleService.js:87-107 | The condition is met only with a truthy, parseable price and a known operator. |
| OracleService.ConditionsComplement | frontend/src/services/oracleService.js:93-103 | Each of `>`, `>=`, `<`, `<=`, `==` is that comparison of the parsed price. `>` and `<=` are complements, as are `>=` and `<`, and `==` is `>=` and `<=` together. |
| OracleService.MissingPriceMeetsNothing | frontend/src/services/oracleService.js:88-105 | Without a truthy, parseable price no condition holds. A price of 0 fails both `<= 5` and `> 5`. |
| OracleService.StringPriceCompared | frontend/src/services/oracleService.js:88-90 | A string price such as `"0 USD"` passes the guard and is compared by its numeric prefix. |
| OracleService.LedgerRecord | frontend/src/services/oracleService.js:114-121 | The ledger record has `symbol`, `price` (left out when undefined), `timestamp` and `source`, and never `rawData`. |
| OracleService.LedgerRecordReadsBack | frontend/src/services/oracleService.js:114-121 | Reading the record back yields every field of the oracle data except the raw reply, which reads as undefined. |

## Left out

- I/O is not modelled: console logging, real `fetch` and axios calls, `res.setHeader` mechanics, timers and `AbortController`. Upstream calls are a function parameter, headers are an ordered list, the health timeout is the probe's elapsed time, and waits are recorded values.
- JSON parsing and serialisation are left out. An upstream reply carries its parse outcome. `JSON.stringify` of request bodies is not modelled; bodies are `Js.Value` trees. `formatForLedger` is modelled up to the object it serialises, `OracleService.LedgerRecord`, not the text.
- `TtlCache.GenerateKey` takes the query's JSON text as input, because `JSON.stringify` is not modelled. Key equality for deep-equal but differently ordered objects is therefore not stated.
- The JSON-parse outcome of an upstream reply may be `Success(undefined)`, although `response.json()` never yields `undefined`. Statements about such replies (for example `api/query.js` forwarding them where `JSON.stringify(undefined).substring` would throw) say nothing about the real handler.
- Query-string parameters are single strings. Vercel parses a repeated parameter such as `?symbol=a&symbol=b` into an array, which `api/oracle.js` accepts as truthy and encodes as `a%2Cb`; that case is not modelled.
- Numbers are `real`. NaN only appears in `OracleService.ParseFloat`, as `None`.
- OracleService.ParseFloat: exponents (`1e3`), `Infinity` and `parseFloat` of arrays (read as NaN here, by their first element in JavaScript) are not modelled. For negative numbers the sign is modelled, but no round-trip lemma is proved.
- OpenApiProxy.SpecTruncated: `Text.Take` counts Unicode code points, while `substring` counts UTF-16 code units. For text with characters outside the Basic Multilingual Plane, the real cut is shorter than the model's.
- QueryProxy.WrapsNonJson: the same code-point counting applies to the 500-character prefix.
- `Text.Upper` maps only ASCII letters; `toUpperCase` on other scripts is not modelled.
- Url.DecodeEncodeAscii: the round trip is proved for ASCII text only. Multi-byte UTF-8 decoding is not modelled.
- The `api/query.js` bookkeeping of `lastError`, the read of 404 bodies, and the redirect and Accept options only feed logging or request options. They are left out.
- Retry: `maxRetries` is an integer; fractional values and a `shouldRetry` that itself throws are not modelled.
- `logError` is outside the formatter and is left out.
- LedgerClient.CommandIdInjective: assumes the rendered `Math.random()` contains no `-`. Renderings in exponent form such as `1e-7` are not covered.
- The `LedgerClient` `Content-Type` header and the `options.headers` merge and `X-Requested-With` header in `fetchWithProxy` are not modelled.
- CorsProxy.FetchWithProxy: calls are assumed not to overlap. In the code, `proxyFailures` is one module-level counter shared by every pending `fetchWithProxy`, and each call awaits its fetch, so overlapping calls can reset or advance each other's count. The attempt bounds of `CorsProxy.AtMostThreeAttempts`, `CorsProxy.GetExhaustsAfterThree`, `CorsProxy.AfterExhaustionOneAttempt` and `CorsProxy.FetchRotating` hold only for calls that do not overlap; with overlap, a call that fails, then sees another call succeed, can make a fourth attempt.
- `getCurrentProxy` is read only by a log line and is not modelled on its own.
- OracleService.FetchMultiplePrices: each fetch's timestamp is a parameter indexed by position. The concurrency of `Promise.all` is not modelled, because each fetch settles independently and only the order of the `forEach` matters.
- The outer `try`/`catch` in `checkApiHealth` cannot be reached by any modelled outcome and has no separate counterpart.

## Findings

| source | as written | input that shows it | evidently intended | confidence | as-written member | corrected member |
|---|---|---|---|---|---|---|
| frontend/src/services/corsProxy.js:61-90 | After a failed attempt the code rotates `currentProxyIndex` and recurses. The recursive call still picks `availableProxies[0]`, so the rotation has no effect. | A GET whose proxied fetch throws every time: three requests, all to cors-anywhere; allorigins is never tried. | "Try next proxy if available": the retry should go through the next proxy in the rotation. | medium, not executed | CorsProxy.RetriesSameProxy (with CorsProxy.FetchWithProxy) | CorsProxy.FetchRotating (with CorsProxy.RotatingTriesNextProxy) |
