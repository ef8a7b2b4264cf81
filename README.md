# Semantic Scholar client request governor, in Dafny

This project models the client side of the Semantic Scholar MCP server. That client sends
requests to the Semantic Scholar HTTP API, one at a time, through a rate limiter. It reacts
to HTTP 429 ("too many requests") with exponential backoff, and gives up after a fixed
number of attempts. The model covers:

- **`BackoffStrategy`** (module `Backoff`): a class whose `attempts` counter is updated in
  place. Each 429 signal returns `baseDelay * 2^attempts`, counts the attempt and pauses the
  rate limiter. Once the counter reaches `maxAttempts` it returns the sentinel `-1` instead.
  `reset` returns the counter to 0. The defaults are 5 attempts and 1000 ms.
- **The rate limiter** (module `RateLimiting`), only as far as the backoff and the client
  depend on it: its interval, a ghost log of the `pause(d)` calls, and a ghost count of the
  work units handed to `execute`.
- **`SemanticScholarClient.request`** (module `Client`):
  - It runs as a `while` loop inside a single limiter slot.
  - It is proved against the specification function `Resolve`, which gives the outcome, the
    number of transport calls, the final counter and the backoff waits.
  - The transport is a parameter. It is a total function from the request and the call
    index to a response or a network rejection.
  - The lemmas about `Resolve` prove:
    - the call bound `maxAttempts - a0 + 1`;
    - the delays of the retries;
    - that the last call decides the outcome;
    - that success leaves the counter at 0;
    - that a server answering only 429 costs exactly the remaining budget.
- **Request building** (modules `ClientRequests` and `SearchParams`) for all nine client methods:
  - query parameters as an ordered key/value list with `URLSearchParams` get/set semantics;
  - JavaScript truthiness, so `0`, `""`, `false` and `[]` are omitted;
  - the `?` that only a non-empty query gets;
  - the POST bodies and their defaults.
  - Header merging and the limiter interval (2000 ms with an API key, 5000 ms without) are
    in `Client`.
- **Errors** (module `Errors`): the `SemanticScholarError` message, which is proved to
  determine the status and the response, and `formatToolError` over a datatype of thrown
  values.
- **Field lists** (module `Fields`): the constant field lists and `buildFieldsParam`. A round
  trip through splitting on `,` is proved.
- Supporting modules: `Wrappers` (Option, Result) and `JsText` (`String(n)` for integers with
  its parse-back, comma join/split, substring tests).

The API key, which the source reads from the environment, is a constructor parameter here.

## Model

| member | source | states |
|---|---|---|
| RateLimiting.RateLimiter.constructor | src/api/rate-limiter.ts:8-14 | a new limiter has the given interval, no pauses and no admitted work |
| RateLimiting.RateLimiter.Pause | src/api/rate-limiter.ts:20-23 | each pause is appended to the pause log; none replaces an earlier one |
| RateLimiting.RateLimiter.Admit | src/api/rate-limiter.ts:16-18 | `execute` takes exactly one slot |
| Backoff.Pow2 | src/api/backoff.ts:27 | `2^n` is at least 1 |
| Backoff.SignalDelay | src/api/backoff.ts:22-31 | the answer is -1 exactly when the attempts are used up, and otherwise `baseDelay * 2^attempts` |
| Backoff.SignalAttempts | src/api/backoff.ts:23-28 | the counter moves by at most one and never past `maxAttempts` |
| Backoff.BackoffStrategy.constructor | src/api/backoff.ts:6-16 | the counter starts at 0; an absent option takes 5 or 1000, and a given one is kept (0 included) |
| Backoff.BackoffStrategy.OnRateLimited | src/api/backoff.ts:22-31 | below the ceiling it returns `baseDelay * 2^old(attempts)`, increments the counter and logs one pause of exactly that delay; at the ceiling it returns -1 and changes neither the counter nor the pause log; `attempts <= maxAttempts` is kept |
| Backoff.BackoffStrategy.Reset | src/api/backoff.ts:36-38 | the counter is 0 from any state, and the invariant holds |
| Backoff.BackoffStrategy.CurrentAttempts | src/api/backoff.ts:40-42 | it is the counter, read without changing anything, and within `maxAttempts` while the invariant holds |
| Backoff.Episode | src/api/backoff.ts:22-31 | the signals of `n` successive calls, one per call |
| Backoff.EpisodeAt | src/api/backoff.ts:23-30 | the k-th signal of an episode is `baseDelay * 2^(attempts+k)` below the ceiling and -1 from then on |
| Backoff.EpisodeDoubles | src/api/backoff.ts:27 | each delay of an episode is twice the previous one |
| Backoff.EpisodeTotalFrom | src/api/backoff.ts:23-30 | the waits of the rest of an episode add up to `baseDelay * (2^max - 2^attempts)` |
| Backoff.EpisodeTotal | src/api/backoff.ts:23-30 | a full episode waits `baseDelay * (2^maxAttempts - 1)` in total |
| Backoff.DefaultEpisodeTotal | src/api/backoff.ts:14-15 | with the defaults, a full episode waits 31000 ms |
| Backoff.DefaultEpisode | src/api/backoff.ts:14-31 | with the defaults, six signals are 1000, 2000, 4000, 8000, 16000, -1 |
| Backoff.ExponentialDelayScenario | tests/backoff.test.ts:14-23 | three signals give 1000, 2000, 4000 |
| Backoff.MaxAttemptsExceededScenario | tests/backoff.test.ts:25-31 | with two attempts allowed: 1000, 2000, then -1 twice, and the counter stays at 2 |
| Backoff.ResetScenario | tests/backoff.test.ts:33-43 | after two signals the counter is 2; reset brings it to 0, and the next delay is 1000 |
| Backoff.PauseScenario | tests/backoff.test.ts:45-51 | one signal returns 1000, and the limiter's pause log is then exactly `[1000]`, that one delay |
| Backoff.CustomBaseDelayScenario | tests/backoff.test.ts:53-59 | a base of 500 gives 500, 1000, 2000 |
| Backoff.CustomMaxAttemptsScenario | tests/backoff.test.ts:61-68 | a ceiling of 3 gives 1000, 2000, 4000, -1 |
| JsText.IntToString | src/api/client.ts:84 | the sign and exact decimal digits of `n`: a numeral whose first character is a digit exactly when `n >= 0`; this is `String(n)` for integers of magnitude at most 2^53 |
| JsText.NatToStringRoundTrip | src/api/client.ts:84 | the decimal digits read back as the number |
| JsText.IntToStringRoundTrip | src/api/client.ts:84 | parsing `String(n)` gives `n` back |
| JsText.IntToStringInjective | src/utils/errors.ts:8 | different integers print differently |
| JsText.Join | src/utils/fields.ts:66 | a one-element list joins to that element |
| JsText.Split | src/utils/fields.ts:66 | splitting yields at least one piece |
| JsText.SplitJoin | src/utils/fields.ts:66 | splitting a join of comma-free strings on `,` gives the list back |
| Errors.ApiError.Name | src/utils/errors.ts:9 | the error's `name` is `SemanticScholarError`, not the plain `Error` name |
| Errors.ApiError.Message | src/utils/errors.ts:4-10 | the message starts with `Semantic Scholar API Error (`, ends with the response, and contains the status code and the response |
| Errors.MessageDeterminesError | src/utils/errors.ts:8 | two errors with the same message have the same status and response |
| Errors.ToJsString | src/utils/errors.ts:31 | `String(v)` of a string is the string itself, and of a number is its numeral |
| Errors.FormatToolError | src/utils/errors.ts:13-32 | for an API error, the result starts with `API 错误: ` exactly when the status is not 400, 404, 429 or 500; a plain Error gives its message; anything else gives `String(value)` |
| Errors.FormatKnownStatuses | src/utils/errors.ts:15-23 | 400, 404, 429 and 500 give their four fixed texts, whatever the response, and the four texts differ from each other |
| Errors.FormatOtherStatus | src/utils/errors.ts:24-25 | any other status gives `API 错误: ` plus the message, which contains the status code and the response |
| Errors.FormatApiErrorNotBare | src/utils/errors.ts:14-30 | an API error never formats to its bare message |
| Errors.FormatNonErrorExamples | tests/errors.test.ts:46-55 | `"string error"`, `123` and `Error("Network error")` format as the tests expect |
| Fields.ChosenFields | src/utils/fields.ts:65-66 | a non-empty `fields` wins; otherwise the defaults, which are the default paper fields when omitted |
| Fields.BuildFieldsParam | src/utils/fields.ts:65-66 | a single chosen field yields that field with no comma |
| Fields.BuildFieldsParamRoundTrip | src/utils/fields.ts:66 | for a non-empty chosen list with no comma in any element, splitting the result on `,` gives that list back |
| Fields.FieldConstantsCommaFree | src/utils/fields.ts:3-27 | no default field name contains a comma |
| Fields.DefaultParamSplitsToDefaults | src/utils/fields.ts:65-66 | with `fields` absent or empty and the defaults omitted, the result splits into the default paper fields |
| Fields.BuildFieldsParamExamples | tests/fields.test.ts:9-27 | the joined strings the tests expect, for given, absent, empty and single-element lists |
| Fields.FieldConstantsMembership | src/utils/fields.ts:3-63 | the default lists hold the fields the tests name, and every default paper, citation and author field is among the `ALL_*` fields |
| SearchParams.GetNone | src/api/client.ts:79-87 | `get(name)` is absent exactly when no pair carries the name |
| SearchParams.GetAppend | src/api/client.ts:79-87 | appending a new name makes it readable and leaves every other name as it was |
| SearchParams.RemoveAll | src/api/client.ts:79-87 | removing a name leaves it unreadable and every other name as it was |
| SearchParams.ReplaceFirst | src/api/client.ts:79-87 | replacing the first value of a name reads back the new value; other names are unchanged |
| SearchParams.Set | src/api/client.ts:80-87 | `set` reads back the value and leaves other names alone; a new name is appended at the end and keeps the names unique |
| SearchParams.Serialize | src/api/client.ts:95 | the query string is empty exactly when there are no parameters |
| SearchParams.QuerySuffix | src/api/client.ts:96 | the suffix is empty for an empty query, and otherwise `?` followed by the query |
| ClientRequests.StringParam | src/api/client.ts:81-82 | an optional string is sent exactly when it is present and non-empty |
| ClientRequests.NumberParam | src/api/client.ts:84 | an integer is sent exactly when it is present and non-zero, as a numeral that parses back to it; the numeral's digits are those of `String(n)` for integers of magnitude at most 2^53 |
| ClientRequests.FlagParam | src/api/client.ts:83 | a flag is sent, as `true`, exactly when it is true |
| ClientRequests.ListParam | src/api/client.ts:85 | a list is sent exactly when it is present and non-empty, comma-joined so that splitting gives it back |
| ClientRequests.SetIfTruthy | src/api/client.ts:81-87 | a conditional `set` reads back the value exactly when it is truthy, adds that one name at most, keeps names unique and leaves other names alone |
| ClientRequests.SearchPapersQuery | src/api/client.ts:79-87 | `query` is always set; each of the seven other parameters reads back exactly its truthy value; names are unique, and nothing else is set |
| ClientRequests.SearchPapersCall | src/api/client.ts:79-89 | the query carries `query` and each of the seven other parameters exactly when truthy, with unique names and nothing else; the endpoint is the search path, `?` and that query, which is the conditional-suffix form because the query is never empty |
| ClientRequests.FieldsQuery | src/api/client.ts:93-95 | the query holds `fields` exactly when it is truthy |
| ClientRequests.PageQuery | src/api/client.ts:104-108 | `fields`, `limit` and `offset` each read back exactly their truthy values; names are unique, and nothing else is set |
| ClientRequests.GetPaperCall | src/api/client.ts:92-97 | the paper path gains a query suffix exactly when `fields` is truthy |
| ClientRequests.GetPaperCitationsCall | src/api/client.ts:99-110 | the paging query, with the citations path suffixed only when the query is non-empty |
| ClientRequests.GetPaperReferencesCall | src/api/client.ts:112-123 | the paging query, with the references path suffixed only when the query is non-empty |
| ClientRequests.BatchGetPapersCall | src/api/client.ts:125-138 | a POST whose body carries the ids, under the batch path with the `fields` suffix |
| ClientRequests.SearchAuthorsQuery | src/api/client.ts:148-152 | `query` is always set; `fields`, `limit` and `offset` read back their truthy values; names are unique, and nothing else is set |
| ClientRequests.SearchAuthorsCall | src/api/client.ts:148-154 | the query carries `query`, and `fields`, `limit` and `offset` exactly when truthy, with unique names and nothing else; the endpoint is the author search path, `?` and that query, equal to the conditional-suffix form |
| ClientRequests.GetAuthorCall | src/api/client.ts:157-162 | the author path gains a query suffix exactly when `fields` is truthy |
| ClientRequests.GetAuthorPapersCall | src/api/client.ts:164-175 | the paging query, with the author papers path suffixed only when the query is non-empty |
| ClientRequests.GetRecommendationsCall | src/api/client.ts:179-200 | a POST with `fields` and `limit` when truthy; the body carries the positive ids, and the negative ids or `[]` when they are absent |
| ClientRequests.AlwaysQueried | src/api/client.ts:89 | with a non-empty query, the unconditional `?` equals the conditional suffix |
| ClientRequests.SuffixOnlyWhenSet | src/api/client.ts:95-96 | appending the suffix changes the path exactly when a parameter is set |
| Client.LimiterInterval | src/api/client.ts:24-25 | 2000 ms exactly when an API key is set (present and non-empty), and otherwise 5000 ms |
| Client.MergedHeaders | src/api/client.ts:31-41 | the headers are `Content-Type`, `x-api-key` when a key is set, and the caller's; the caller's values win on a clash; `x-api-key` is present exactly when the key is set or the caller supplies it |
| Client.BuildHttpRequest | src/api/client.ts:38-42 | the URL is the base URL followed by the endpoint; method and body come from the caller; the headers carry `Content-Type`, and `x-api-key` by the rule above |
| Client.Resolve | src/api/client.ts:30-62 | a logical request makes between 1 and `maxAttempts - a0 + 1` transport calls, with one backoff wait between consecutive calls |
| Client.ResolveRetries | src/api/client.ts:44-51 | every call before the last was answered 429, and the k-th wait is `baseDelay * 2^(a0+k)`, all below the ceiling |
| Client.ResolveLast | src/api/client.ts:44-61 | the last call decides the outcome. A rejection is rethrown. A 429 there is the terminal `(429, 'Max retry attempts exceeded')` error, after exactly `maxAttempts - a0 + 1` calls with the counter at the ceiling. Another failing status is thrown with its body, and the counter is only where the retries put it. An OK status returns the body with the counter at 0 |
| Client.SuccessIffLastOk | src/api/client.ts:54-61 | a request succeeds exactly when its last call is answered OK, and then the counter is 0 |
| Client.ResolveAllThrottled | src/api/client.ts:44-51 | a server that always answers 429 costs exactly `maxAttempts - a0 + 1` calls and ends in the terminal 429 error |
| Client.SemanticScholarClient.constructor | src/api/client.ts:23-27 | the limiter interval is chosen by the key, the backoff has the default options and shares the limiter, and nothing is logged yet |
| Client.SemanticScholarClient.Request | src/api/client.ts:29-65 | one limiter slot is taken, and all retries stay in it. The outcome, the call count and the final counter are those of `Resolve`. The pause log and the wait log each grow by exactly the backoff delays |
| Client.RecoveredRequestScenario | src/api/client.ts:44-61 | two 429s, then an OK: the body is returned after three calls, with the counter back at 0 |
| Client.ExhaustedRequestScenario | src/api/client.ts:44-48 | a server that always throttles costs six calls with the defaults and ends in the terminal 429 error |
| Client.NotFoundScenario | src/api/client.ts:54-57 | a 404 is thrown with its body after one call, and the counter is untouched |

## Left out

- Time is not modelled: the p-queue interval scheduling, the `setTimeout` resume timers of
  `pause`, the retry wait (a ghost log instead), `isPaused` and `pending`. Each pause is
  logged on its own, and no claim is made about which one ends last.
- `fetch`, `response.text()` and `response.json()` are I/O. The transport is a parameter
  returning a status and a body text. JSON parsing of the body and `JSON.stringify` of POST
  bodies are not modelled: the bodies are datatypes.
- `URLSearchParams` percent-encoding and `encodeURIComponent` are runtime library code. Pair
  serialisation is a plain `name=value` join with `&`, with no percent-encoding, and path ids are inserted unchanged.
- `process.env` becomes the constructor's `apiKey` parameter. The module-level singleton
  instance is not modelled.
- The MCP tool layer, the server wiring, the console test client and the type declarations
  are not part of this model.
- Only integers are modelled for numbers. There is no floating point (`Math.pow` is `Pow2`
  on naturals), no fractional or negative `maxAttempts`/`baseDelay` (they are `nat`), and no
  fractional `limit`/`offset` in `String(n)`.
- JsText.IntToString: equals JavaScript's `String(n)` only for |n| ≤ 2^53, the safe integers.
  JavaScript numbers are doubles. Between 2^53 and 10^21, `String(n)` prints the shortest
  digits that read back as the double, padded with zeros, so `String(2**60)` is
  `1152921504606847000`. There the model prints the exact digits `1152921504606846976`
  instead. From 10^21 up, JavaScript switches to exponent form (`1e+21`), which the model never
  produces.
- ClientRequests.NumberParam: the numeral it sends has the digits of `String(n)` only for
  |n| ≤ 2^53, for the reason above. The promise that the numeral reads back as the number
  holds in JavaScript for every number as well.
- Errors.ToJsString: `String(value)` is given for strings, integers, booleans, `null` and
  `undefined` only, not for objects.
- ClientRequests.SearchPapersQuery: the order of the pairs in the query string is not
  stated; the contract fixes the value under each name, uniqueness and the absence of other
  names. The same holds for PageQuery, SearchAuthorsQuery and GetRecommendationsCall.
- A network rejection from `fetch` is modelled as a plain `Error` with a message. Other
  exceptions thrown inside `request` are not modelled.
- The backoff counter is reset only on an OK response, as the code does (src/api/client.ts:54-61),
  not on every response that is not a 429. A failing non-429 status leaves it where the
  retries put it.
