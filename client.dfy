/** The request governor of `SemanticScholarClient` (src/api/client.ts:17-65):
    the choice of limiter interval, the headers every request carries, and the
    retry loop that turns transport responses into a body or an error while
    driving the backoff. The transport is a parameter: it answers the k-th call
    of one logical request. */
module Client {
  import opened Wrappers
  import opened JsText
  import opened Errors
  import opened RateLimiting
  import opened Backoff
  import opened ClientRequests

  const BaseUrl := "https://api.semanticscholar.org"
  const KeyedInterval: nat := 2000
  const AnonymousInterval: nat := 5000
  const MaxRetryMessage := "Max retry attempts exceeded"

  /** `if (this.apiKey)`: an absent key and the empty key are both falsy. */
  predicate ApiKeySet(apiKey: Option<string>) {
    apiKey.Some? && apiKey.value != ""
  }

  /** The interval `new RateLimiter(...)` is given: a key buys a faster pace. */
  function LimiterInterval(apiKey: Option<string>): (n: nat)
    ensures n == KeyedInterval <==> ApiKeySet(apiKey)
    ensures n == AnonymousInterval <==> !ApiKeySet(apiKey)
  {
    if ApiKeySet(apiKey) then KeyedInterval else AnonymousInterval
  }

  /** The headers `request` starts from. */
  function DefaultHeaders(apiKey: Option<string>): map<string, string> {
    var base := map["Content-Type" := "application/json"];
    if ApiKeySet(apiKey) then base["x-api-key" := apiKey.value] else base
  }

  /** `{ ...headers, ...options?.headers }`: the caller's entries win. */
  function MergedHeaders(apiKey: Option<string>, caller: map<string, string>): (h: map<string, string>)
    ensures h.Keys == {"Content-Type"} + (if ApiKeySet(apiKey) then {"x-api-key"} else {}) + caller.Keys
    ensures forall k :: k in caller ==> h[k] == caller[k]
    ensures "Content-Type" !in caller ==> h["Content-Type"] == "application/json"
    ensures "x-api-key" in h <==> ApiKeySet(apiKey) || "x-api-key" in caller
    ensures ApiKeySet(apiKey) && "x-api-key" !in caller ==> h["x-api-key"] == apiKey.value
  {
    DefaultHeaders(apiKey) + caller
  }

  /** What `fetch` is handed: the endpoint under the base URL, the caller's
      method and body, and the merged headers. */
  datatype HttpRequest = HttpRequest(url: string, httpMethod: Option<string>, body: Option<RequestBody>, headers: map<string, string>)

  function BuildHttpRequest(apiKey: Option<string>, call: ApiCall): (req: HttpRequest)
    ensures StartsWith(req.url, BaseUrl) && req.url[|BaseUrl|..] == call.endpoint
    ensures req.httpMethod == call.options.httpMethod && req.body == call.options.body
    ensures "Content-Type" in req.headers
    ensures "x-api-key" in req.headers <==> ApiKeySet(apiKey) || "x-api-key" in call.options.headers
  {
    HttpRequest(BaseUrl + call.endpoint, call.options.httpMethod, call.options.body,
                MergedHeaders(apiKey, call.options.headers))
  }

  /** What one `fetch` produces: a response, or a rejection (a network failure). */
  datatype FetchOutcome = Response(status: int, body: string) | NetworkError(message: string)

  /** `response.ok`. */
  predicate IsOk(status: int) {
    200 <= status <= 299
  }

  /** The transport's answer to the `k`-th call made for one logical request. */
  type Transport = (HttpRequest, nat) -> FetchOutcome

  /** The `k`-th call is answered 429. */
  predicate Throttled(transport: Transport, req: HttpRequest, k: nat) {
    var answer := transport(req, k);
    answer.Response? && answer.status == 429
  }

  /** How a logical request ends: its value or what it throws, where the
      backoff counter is left, how many transport calls it made, and the
      backoff waits between them. */
  datatype Resolution = Resolution(outcome: Result<string, Thrown>, attempts: nat, calls: nat, delays: seq<nat>)

  /** The meaning of `doRequest`, started with the counter at `attempts` and
      with `start` the index of its first transport call. */
  function Resolve(req: HttpRequest, transport: Transport, attempts: nat, maxAttempts: nat, baseDelay: nat, start: nat): (r: Resolution)
    requires attempts <= maxAttempts
    ensures 1 <= r.calls <= maxAttempts - attempts + 1
    ensures |r.delays| == r.calls - 1
    ensures attempts <= r.attempts <= maxAttempts || r.attempts == 0
    decreases maxAttempts - attempts
  {
    match transport(req, start)
    case NetworkError(m) => Resolution(Failure(PlainError(m)), attempts, 1, [])
    case Response(status, body) =>
      if status == 429 then
        var delay := SignalDelay(attempts, maxAttempts, baseDelay);
        if delay == Exhausted then
          Resolution(Failure(ApiFailure(ApiError(429, MaxRetryMessage))), attempts, 1, [])
        else
          var rest := Resolve(req, transport, attempts + 1, maxAttempts, baseDelay, start + 1);
          Resolution(rest.outcome, rest.attempts, rest.calls + 1, [delay as nat] + rest.delays)
      else if !IsOk(status) then
        Resolution(Failure(ApiFailure(ApiError(status, body))), attempts, 1, [])
      else
        Resolution(Success(body), 0, 1, [])
  }

  /** Every call but the last was answered 429, and the k-th wait is the
      backoff's k-th delay `baseDelay * 2^(attempts + k)`. */
  lemma {:induction false} ResolveRetries(req: HttpRequest, transport: Transport, attempts: nat, maxAttempts: nat, baseDelay: nat, start: nat)
    requires attempts <= maxAttempts
    ensures forall k :: start <= k < start + Resolve(req, transport, attempts, maxAttempts, baseDelay, start).calls - 1 ==>
      Throttled(transport, req, k)
    ensures forall k :: 0 <= k < |Resolve(req, transport, attempts, maxAttempts, baseDelay, start).delays| ==>
      attempts + k < maxAttempts &&
      Resolve(req, transport, attempts, maxAttempts, baseDelay, start).delays[k] == baseDelay * Pow2(attempts + k)
    decreases maxAttempts - attempts
  {
    var r := Resolve(req, transport, attempts, maxAttempts, baseDelay, start);
    var first := transport(req, start);
    if first.Response? && first.status == 429 && attempts < maxAttempts {
      ResolveRetries(req, transport, attempts + 1, maxAttempts, baseDelay, start + 1);
      var rest := Resolve(req, transport, attempts + 1, maxAttempts, baseDelay, start + 1);
      assert r.calls == rest.calls + 1 && r.delays == [baseDelay * Pow2(attempts)] + rest.delays;
      assert Throttled(transport, req, start);
      forall k | 0 < k < |r.delays|
        ensures attempts + k < maxAttempts && r.delays[k] == baseDelay * Pow2(attempts + k)
      {
        assert r.delays[k] == rest.delays[k - 1];
        assert attempts + 1 + (k - 1) == attempts + k;
      }
    }
  }

  /** The last call decides the outcome: a rejection rethrows its message; a
      429 there means the attempts ran out, after exactly the calls the
      remaining budget allows; any other failing status is thrown with its
      body and leaves the counter where the retries put it; an OK status
      returns the body and leaves the counter at 0. */
  lemma {:induction false} ResolveLast(req: HttpRequest, transport: Transport, attempts: nat, maxAttempts: nat, baseDelay: nat, start: nat)
    requires attempts <= maxAttempts
    ensures var r := Resolve(req, transport, attempts, maxAttempts, baseDelay, start);
      var last := transport(req, start + r.calls - 1);
      (last.NetworkError? ==>
        r.outcome == Failure(PlainError(last.message)) && r.attempts == attempts + r.calls - 1) &&
      (last.Response? && last.status == 429 ==>
        r.outcome == Failure(ApiFailure(ApiError(429, MaxRetryMessage))) &&
        r.attempts == maxAttempts && r.calls == maxAttempts - attempts + 1) &&
      (last.Response? && last.status != 429 && !IsOk(last.status) ==>
        r.outcome == Failure(ApiFailure(ApiError(last.status, last.body))) && r.attempts == attempts + r.calls - 1) &&
      (last.Response? && IsOk(last.status) ==>
        r.outcome == Success(last.body) && r.attempts == 0)
    decreases maxAttempts - attempts
  {
    var first := transport(req, start);
    if first.Response? && first.status == 429 && attempts < maxAttempts {
      ResolveLast(req, transport, attempts + 1, maxAttempts, baseDelay, start + 1);
      var rest := Resolve(req, transport, attempts + 1, maxAttempts, baseDelay, start + 1);
      assert (start + 1) + rest.calls - 1 == start + (rest.calls + 1) - 1;
    }
  }

  /** A logical request succeeds exactly when its last call is answered OK,
      and then the backoff counter is back at 0. */
  lemma SuccessIffLastOk(req: HttpRequest, transport: Transport, attempts: nat, maxAttempts: nat, baseDelay: nat, start: nat)
    requires attempts <= maxAttempts
    ensures var r := Resolve(req, transport, attempts, maxAttempts, baseDelay, start);
      var last := transport(req, start + r.calls - 1);
      (r.outcome.Success? <==> last.Response? && IsOk(last.status)) &&
      (r.outcome.Success? ==> r.attempts == 0)
  {
    ResolveLast(req, transport, attempts, maxAttempts, baseDelay, start);
  }

  /** A server that answers 429 to every call costs exactly
      `maxAttempts - attempts + 1` calls and ends in the terminal 429 error. */
  lemma {:induction false} ResolveAllThrottled(req: HttpRequest, transport: Transport, attempts: nat, maxAttempts: nat, baseDelay: nat, start: nat)
    requires attempts <= maxAttempts
    requires forall k :: start <= k <= start + maxAttempts - attempts ==> Throttled(transport, req, k)
    ensures var r := Resolve(req, transport, attempts, maxAttempts, baseDelay, start);
      r.outcome == Failure(ApiFailure(ApiError(429, MaxRetryMessage))) &&
      r.calls == maxAttempts - attempts + 1 && r.attempts == maxAttempts
    decreases maxAttempts - attempts
  {
    assert Throttled(transport, req, start);
    if attempts < maxAttempts {
      ResolveAllThrottled(req, transport, attempts + 1, maxAttempts, baseDelay, start + 1);
    }
  }

  class SemanticScholarClient {
    const apiKey: Option<string>
    const rateLimiter: RateLimiter
    const backoff: BackoffStrategy
    /** The `setTimeout` waits between retries, oldest first. */
    ghost var waits: seq<nat>

    ghost predicate Valid()
      reads this, backoff
    {
      backoff.limiter == rateLimiter && backoff.Valid()
    }

    /** `new SemanticScholarClient()`, with the environment's key passed in. */
    constructor (apiKey: Option<string>)
      ensures Valid() && fresh(rateLimiter) && fresh(backoff)
      ensures this.apiKey == apiKey && waits == []
      ensures rateLimiter.interval == LimiterInterval(apiKey)
      ensures rateLimiter.pauses == [] && rateLimiter.admitted == 0
      ensures backoff.attempts == 0 && backoff.maxAttempts == DefaultMaxAttempts && backoff.baseDelay == DefaultBaseDelay
    {
      this.apiKey := apiKey;
      var limiter := new RateLimiter(LimiterInterval(apiKey));
      rateLimiter := limiter;
      backoff := new BackoffStrategy(limiter, DefaultBackoffOptions);
      waits := [];
    }

    /** `request(endpoint, options)`: one slot of the limiter, inside which the
        same request is sent again after each 429 the backoff still allows.
        The outcome, the number of transport calls, where the counter ends,
        and the pauses and waits added are those `Resolve` gives. */
    method Request(call: ApiCall, transport: Transport) returns (outcome: Result<string, Thrown>, calls: nat)
      requires Valid()
      modifies this`waits, backoff`attempts, rateLimiter`pauses, rateLimiter`admitted
      ensures Valid()
      ensures var r := Resolve(BuildHttpRequest(apiKey, call), transport, old(backoff.attempts),
                               backoff.maxAttempts, backoff.baseDelay, 0);
        outcome == r.outcome && calls == r.calls && backoff.attempts == r.attempts &&
        rateLimiter.pauses == old(rateLimiter.pauses) + r.delays &&
        waits == old(waits) + r.delays
      ensures rateLimiter.admitted == old(rateLimiter.admitted) + 1
    {
      var req := BuildHttpRequest(apiKey, call);
      rateLimiter.Admit();
      ghost var whole := Resolve(req, transport, backoff.attempts, backoff.maxAttempts, backoff.baseDelay, 0);
      ghost var delays: seq<nat> := [];
      calls := 0;
      while true
        invariant Valid()
        invariant rateLimiter.admitted == old(rateLimiter.admitted) + 1
        invariant rateLimiter.pauses == old(rateLimiter.pauses) + delays
        invariant waits == old(waits) + delays
        invariant var rest := Resolve(req, transport, backoff.attempts, backoff.maxAttempts, backoff.baseDelay, calls);
          whole == Resolution(rest.outcome, rest.attempts, rest.calls + calls, delays + rest.delays)
        decreases backoff.maxAttempts - backoff.attempts
      {
        var response := transport(req, calls);
        ghost var rest := Resolve(req, transport, backoff.attempts, backoff.maxAttempts, backoff.baseDelay, calls);
        calls := calls + 1;
        if response.NetworkError? {
          outcome := Failure(PlainError(response.message));
          return;
        }
        if response.status == 429 {
          var delay := backoff.OnRateLimited();
          if delay == Exhausted {
            outcome := Failure(ApiFailure(ApiError(429, MaxRetryMessage)));
            return;
          }
          waits := waits + [delay as nat];
          assert delays + rest.delays == (delays + [delay as nat]) + rest.delays[1..];
          delays := delays + [delay as nat];
          continue;
        }
        if !IsOk(response.status) {
          outcome := Failure(ApiFailure(ApiError(response.status, response.body)));
          return;
        }
        backoff.Reset();
        outcome := Success(response.body);
        return;
      }
    }
  }

  /** Two 429s, then an OK: the body arrives on the third call, after waits of
      1000 and 2000 ms, and the counter is back at 0. */
  method RecoveredRequestScenario() returns (outcome: Result<string, Thrown>, calls: nat, attempts: nat)
    ensures outcome == Success("{}") && calls == 3 && attempts == 0
  {
    var client := new SemanticScholarClient(None);
    var transport: Transport := (req: HttpRequest, k: nat) => if k < 2 then Response(429, "") else Response(200, "{}");
    outcome, calls := client.Request(ApiCall("/graph/v1/paper/x", NoOptions), transport);
    attempts := client.backoff.attempts;
  }

  /** A server that always throttles: six calls, then the terminal error. */
  method ExhaustedRequestScenario() returns (outcome: Result<string, Thrown>, calls: nat)
    ensures outcome == Failure(ApiFailure(ApiError(429, MaxRetryMessage))) && calls == 6
  {
    var client := new SemanticScholarClient(Some("key"));
    var transport: Transport := (req: HttpRequest, k: nat) => Response(429, "");
    var call := ApiCall("/graph/v1/paper/x", NoOptions);
    ResolveAllThrottled(BuildHttpRequest(client.apiKey, call), transport, 0, DefaultMaxAttempts, DefaultBaseDelay, 0);
    outcome, calls := client.Request(call, transport);
  }

  /** A 404 is thrown with its body at once; the counter is untouched. */
  method NotFoundScenario() returns (outcome: Result<string, Thrown>, calls: nat, attempts: nat)
    ensures outcome == Failure(ApiFailure(ApiError(404, "Paper not found"))) && calls == 1 && attempts == 0
  {
    var client := new SemanticScholarClient(None);
    var transport: Transport := (req: HttpRequest, k: nat) => Response(404, "Paper not found");
    outcome, calls := client.Request(ApiCall("/graph/v1/paper/x", NoOptions), transport);
    attempts := client.backoff.attempts;
  }
}
