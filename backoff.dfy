/** The exponential backoff that turns 429 responses into pauses of the rate
    limiter and gives up after a fixed number of attempts (src/api/backoff.ts). */
module Backoff {
  import opened Wrappers
  import opened RateLimiting

  const DefaultMaxAttempts: nat := 5
  const DefaultBaseDelay: nat := 1000

  /** The sentinel `onRateLimited` returns once the attempts are used up. */
  const Exhausted: int := -1

  function Pow2(n: nat): (p: nat)
    ensures p >= 1
  {
    if n == 0 then 1 else 2 * Pow2(n - 1)
  }

  /** What `onRateLimited` returns when the counter stands at `attempts`. */
  function SignalDelay(attempts: nat, maxAttempts: nat, baseDelay: nat): (d: int)
    ensures d == Exhausted <==> attempts >= maxAttempts
    ensures d != Exhausted ==> d == baseDelay * Pow2(attempts)
  {
    if attempts >= maxAttempts then Exhausted else baseDelay * Pow2(attempts)
  }

  /** Where `onRateLimited` leaves the counter. */
  function SignalAttempts(attempts: nat, maxAttempts: nat): (next: nat)
    ensures attempts <= maxAttempts ==> next <= maxAttempts
    ensures next == attempts || next == attempts + 1
  {
    if attempts >= maxAttempts then attempts else attempts + 1
  }

  /** `{ maxAttempts?, baseDelay? }`; an absent entry takes its default. */
  datatype BackoffOptions = BackoffOptions(maxAttempts: Option<nat>, baseDelay: Option<nat>)

  const DefaultBackoffOptions := BackoffOptions(None, None)

  class BackoffStrategy {
    var attempts: nat
    const maxAttempts: nat
    const baseDelay: nat
    const limiter: RateLimiter

    ghost predicate Valid()
      reads this
    {
      attempts <= maxAttempts
    }

    /** `new BackoffStrategy(limiter, options)`: `??` keeps every given value,
        zero included, and fills in only what is missing. */
    constructor (limiter: RateLimiter, options: BackoffOptions)
      ensures Valid()
      ensures attempts == 0 && this.limiter == limiter
      ensures maxAttempts == if options.maxAttempts.Some? then options.maxAttempts.value else DefaultMaxAttempts
      ensures baseDelay == if options.baseDelay.Some? then options.baseDelay.value else DefaultBaseDelay
    {
      this.limiter := limiter;
      attempts := 0;
      maxAttempts := if options.maxAttempts.Some? then options.maxAttempts.value else DefaultMaxAttempts;
      baseDelay := if options.baseDelay.Some? then options.baseDelay.value else DefaultBaseDelay;
    }

    /** `onRateLimited()`: while attempts remain, pause the limiter for
        `baseDelay * 2^attempts`, count the attempt and return the delay;
        once they are used up, return -1 and change nothing. */
    method OnRateLimited() returns (delay: int)
      requires Valid()
      modifies this`attempts, limiter`pauses
      ensures Valid()
      ensures delay == SignalDelay(old(attempts), maxAttempts, baseDelay)
      ensures attempts == SignalAttempts(old(attempts), maxAttempts)
      ensures old(attempts) < maxAttempts ==>
        delay == baseDelay * Pow2(old(attempts)) && attempts == old(attempts) + 1 &&
        limiter.pauses == old(limiter.pauses) + [delay]
      ensures old(attempts) >= maxAttempts ==>
        delay == Exhausted && attempts == old(attempts) && limiter.pauses == old(limiter.pauses)
    {
      if attempts >= maxAttempts {
        return Exhausted;
      }
      var d := baseDelay * Pow2(attempts);
      attempts := attempts + 1;
      limiter.Pause(d);
      delay := d;
    }

    /** `reset()`: a fresh episode, from any state. */
    method Reset()
      modifies this`attempts
      ensures Valid() && attempts == 0
    {
      attempts := 0;
    }

    /** `currentAttempts`. */
    function CurrentAttempts(): (n: nat)
      reads this
      ensures n == attempts
      ensures Valid() ==> n <= maxAttempts
    {
      attempts
    }
  }

  /** The values `n` successive `onRateLimited` calls return, starting with the
      counter at `attempts`. */
  function Episode(attempts: nat, maxAttempts: nat, baseDelay: nat, n: nat): (ds: seq<int>)
    ensures |ds| == n
    decreases n
  {
    if n == 0 then []
    else [SignalDelay(attempts, maxAttempts, baseDelay)]
         + Episode(SignalAttempts(attempts, maxAttempts), maxAttempts, baseDelay, n - 1)
  }

  /** Within an episode the k-th signal after `attempts` waits
      `baseDelay * 2^(attempts + k)` until the ceiling, and gets -1 from then on. */
  lemma {:induction false} EpisodeAt(attempts: nat, maxAttempts: nat, baseDelay: nat, n: nat, k: nat)
    requires attempts <= maxAttempts && k < n
    ensures Episode(attempts, maxAttempts, baseDelay, n)[k] ==
      if attempts + k < maxAttempts then baseDelay * Pow2(attempts + k) else Exhausted
    decreases n
  {
    if k > 0 {
      if attempts < maxAttempts {
        EpisodeAt(attempts + 1, maxAttempts, baseDelay, n - 1, k - 1);
      } else {
        EpisodeAt(attempts, maxAttempts, baseDelay, n - 1, k - 1);
      }
    }
  }

  /** Each delay of an episode is twice the one before it. */
  lemma EpisodeDoubles(maxAttempts: nat, baseDelay: nat, k: nat)
    requires k + 1 < maxAttempts
    ensures Episode(0, maxAttempts, baseDelay, maxAttempts)[k + 1] ==
      2 * Episode(0, maxAttempts, baseDelay, maxAttempts)[k]
  {
    EpisodeAt(0, maxAttempts, baseDelay, maxAttempts, k);
    EpisodeAt(0, maxAttempts, baseDelay, maxAttempts, k + 1);
  }

  /** Sum of the delays (the non-negative entries) of a list of signal results. */
  function TotalDelay(ds: seq<int>): int {
    if ds == [] then 0 else (if ds[0] >= 0 then ds[0] else 0) + TotalDelay(ds[1..])
  }

  lemma {:induction false} EpisodeTotalFrom(attempts: nat, maxAttempts: nat, baseDelay: nat)
    requires attempts <= maxAttempts
    ensures TotalDelay(Episode(attempts, maxAttempts, baseDelay, maxAttempts - attempts)) ==
      baseDelay * (Pow2(maxAttempts) - Pow2(attempts))
    decreases maxAttempts - attempts
  {
    if attempts < maxAttempts {
      EpisodeTotalFrom(attempts + 1, maxAttempts, baseDelay);
      var ds := Episode(attempts, maxAttempts, baseDelay, maxAttempts - attempts);
      var rest := Episode(attempts + 1, maxAttempts, baseDelay, maxAttempts - attempts - 1);
      assert ds == [baseDelay * Pow2(attempts)] + rest;
      assert ds[1..] == rest;
      assert baseDelay * (Pow2(maxAttempts) - 2 * Pow2(attempts)) == baseDelay * Pow2(maxAttempts) - 2 * (baseDelay * Pow2(attempts));
      assert baseDelay * (Pow2(maxAttempts) - Pow2(attempts)) == baseDelay * Pow2(maxAttempts) - baseDelay * Pow2(attempts);
    }
  }

  /** A whole episode waits `baseDelay * (2^maxAttempts - 1)` in all before it
      is exhausted: 31000 ms with the defaults. */
  lemma EpisodeTotal(maxAttempts: nat, baseDelay: nat)
    ensures TotalDelay(Episode(0, maxAttempts, baseDelay, maxAttempts)) == baseDelay * (Pow2(maxAttempts) - 1)
  {
    EpisodeTotalFrom(0, maxAttempts, baseDelay);
  }

  lemma DefaultEpisodeTotal()
    ensures TotalDelay(Episode(0, DefaultMaxAttempts, DefaultBaseDelay, DefaultMaxAttempts)) == 31000
  {
    EpisodeTotal(DefaultMaxAttempts, DefaultBaseDelay);
    assert Pow2(5) == 32;
  }

  /** `1000 * 2^k` for the five attempts of the defaults, then -1. */
  lemma DefaultEpisode()
    ensures Episode(0, DefaultMaxAttempts, DefaultBaseDelay, 6) == [1000, 2000, 4000, 8000, 16000, -1]
  {
    var ds := Episode(0, DefaultMaxAttempts, DefaultBaseDelay, 6);
    forall k | 0 <= k < 6
      ensures ds[k] == [1000, 2000, 4000, 8000, 16000, -1][k]
    {
      EpisodeAt(0, DefaultMaxAttempts, DefaultBaseDelay, 6, k);
      assert Pow2(4) == 16;
    }
  }

  /** The backoff tests, step by step against the class: each method here
      builds its own limiter and strategy and returns what the calls returned. */

  /** tests/backoff.test.ts, "should calculate exponential delay". */
  method ExponentialDelayScenario() returns (d1: int, d2: int, d3: int)
    ensures d1 == 1000 && d2 == 2000 && d3 == 4000
  {
    var limiter := new RateLimiter(1000);
    var b := new BackoffStrategy(limiter, DefaultBackoffOptions);
    d1 := b.OnRateLimited();
    d2 := b.OnRateLimited();
    d3 := b.OnRateLimited();
  }

  /** "should return -1 when max attempts exceeded": `maxAttempts = 2`; a
      fourth call is -1 again and the counter stays at 2. */
  method MaxAttemptsExceededScenario() returns (d1: int, d2: int, d3: int, d4: int, attemptsAfter: nat)
    ensures d1 == 1000 && d2 == 2000 && d3 == -1 && d4 == -1 && attemptsAfter == 2
  {
    var limiter := new RateLimiter(1000);
    var b := new BackoffStrategy(limiter, BackoffOptions(Some(2), None));
    d1 := b.OnRateLimited();
    d2 := b.OnRateLimited();
    d3 := b.OnRateLimited();
    d4 := b.OnRateLimited();
    attemptsAfter := b.CurrentAttempts();
  }

  /** "should reset attempts on success". */
  method ResetScenario() returns (before: nat, after: nat, d: int)
    ensures before == 2 && after == 0 && d == 1000
  {
    var limiter := new RateLimiter(1000);
    var b := new BackoffStrategy(limiter, DefaultBackoffOptions);
    var _ := b.OnRateLimited();
    var _ := b.OnRateLimited();
    before := b.CurrentAttempts();
    b.Reset();
    after := b.CurrentAttempts();
    d := b.OnRateLimited();
  }

  /** "should pause limiter when rate limited": the limiter was asked to pause
      for exactly the delay returned. */
  method PauseScenario() returns (d: int, ghost pauses: seq<nat>)
    ensures d == 1000 && pauses == [d]
  {
    var limiter := new RateLimiter(1000);
    var b := new BackoffStrategy(limiter, DefaultBackoffOptions);
    d := b.OnRateLimited();
    pauses := limiter.pauses;
  }

  /** "should use custom baseDelay". */
  method CustomBaseDelayScenario() returns (d1: int, d2: int, d3: int)
    ensures d1 == 500 && d2 == 1000 && d3 == 2000
  {
    var limiter := new RateLimiter(1000);
    var b := new BackoffStrategy(limiter, BackoffOptions(None, Some(500)));
    d1 := b.OnRateLimited();
    d2 := b.OnRateLimited();
    d3 := b.OnRateLimited();
  }

  /** "should use custom maxAttempts". */
  method CustomMaxAttemptsScenario() returns (d1: int, d2: int, d3: int, d4: int)
    ensures d1 == 1000 && d2 == 2000 && d3 == 4000 && d4 == -1
  {
    var limiter := new RateLimiter(1000);
    var b := new BackoffStrategy(limiter, BackoffOptions(Some(3), None));
    d1 := b.OnRateLimited();
    d2 := b.OnRateLimited();
    d3 := b.OnRateLimited();
    d4 := b.OnRateLimited();
  }
}
