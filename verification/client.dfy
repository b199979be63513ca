/** The HTTP client for the cost API (pkg/client/client.go). The network, URL
    building and JSON decoding are outside the model: one HTTP round trip is an
    `Exchange` value supplied by the caller, carrying the status, the body and
    the decoder's verdict on that body. */
module Client {
  import opened Wrappers
  import opened Types

  /** Client configuration. The HTTP timeout and the unused aggregate option
      are not modelled. */
  datatype Config = Config(baseUrl: string, window: string, maxRetries: int)

  /** A client with client.go's defaults: a one-day window and three retries. */
  function New(baseUrl: string): (c: Config)
    ensures c.baseUrl == baseUrl && c.window == "1d" && c.maxRetries == 3
  {
    Config(baseUrl, "1d", 3)
  }

  /** The two errors a Go context reports once it is done. */
  datatype CtxErr = Canceled | DeadlineExceeded

  /** Errors surfaced by the client. */
  datatype FetchError =
    | RequestFailed(cause: string)                       // "do request: ..."
    | BodyReadFailed(cause: string)                      // "read response body: ..."
    | UnexpectedStatus(status: int, body: seq<byte>)     // "unexpected status N: body"
    | DecodeFailed(cause: string)                        // "decode response: ..."
    | ContextDone(reason: CtxErr)                        // ctx.Err(), returned as is
    | RetriesExhausted(retries: int, last: Option<FetchError>)  // "after N retries: ..."
    | Unhealthy(status: int)                             // "unhealthy: status N"

  /** What one HTTP round trip did. `decoded` is the JSON decoder's verdict on
      `body`, an error message when the body does not decode. */
  datatype Exchange<T> =
    | TransportFailure(cause: string)
    | ReadFailure(cause: string)
    | Response(status: int, body: seq<byte>, decoded: Result<T, string>)

  const StatusOK := 200

  /** One request: a transport or read failure, any status other than 200, and
      a body that does not decode are all errors; otherwise the decoded value. */
  function DoFetch<T>(x: Exchange<T>): (r: Result<T, FetchError>)
    ensures r.Ok? <==> x.Response? && x.status == StatusOK && x.decoded.Ok?
    ensures r.Ok? ==> r.value == x.decoded.value
    ensures x.Response? && x.status != StatusOK ==> r == Err(UnexpectedStatus(x.status, x.body))
    ensures r.Err? ==> !r.error.ContextDone? && !r.error.RetriesExhausted?
  {
    match x
    case TransportFailure(cause) => Err(RequestFailed(cause))
    case ReadFailure(cause) => Err(BodyReadFailed(cause))
    case Response(status, body, decoded) =>
      if status != StatusOK then Err(UnexpectedStatus(status, body))
      else match decoded
        case Ok(v) => Ok(v)
        case Err(msg) => Err(DecodeFailed(msg))
  }

  // ---------------------------------------------------------------------------
  // Backoff durations, as the Go int64 nanosecond arithmetic computes them.

  const Second := 1_000_000_000

  function Pow2(n: nat): nat
  {
    if n == 0 then 1 else 2 * Pow2(n - 1)
  }

  /** Two's-complement wrap-around of a Go int64. */
  function Int64(x: int): int
  {
    (x + 0x8000_0000_0000_0000) % 0x1_0000_0000_0000_0000 - 0x8000_0000_0000_0000
  }

  /** The wait before attempt `attempt` in nanoseconds, computed as
      `time.Duration(1 << (attempt-1)) * time.Second` with int64 wrap-around. */
  function BackoffNanos(attempt: nat): int
    requires attempt >= 1
  {
    Int64(Int64(Pow2(attempt - 1)) * Second)
  }

  lemma {:induction false} Pow2Monotone(a: nat, b: nat)
    requires a <= b
    ensures Pow2(a) <= Pow2(b)
    decreases b
  {
    if a < b {
      Pow2Monotone(a, b - 1);
    }
  }

  lemma {:induction false} Pow2Add(a: nat, b: nat)
    ensures Pow2(a + b) == Pow2(a) * Pow2(b)
    decreases a
  {
    if a > 0 {
      Pow2Add(a - 1, b);
      var p, q := Pow2(a - 1), Pow2(b);
      assert Pow2(a + b) == 2 * (p * q);
      DoubleTimes(p, q);
    }
  }

  lemma DoubleTimes(p: int, q: int)
    ensures (2 * p) * q == 2 * (p * q)
  {
    assert (2 * p) * q == (p + p) * q == p * q + p * q;
  }

  lemma Pow2Values()
    ensures Pow2(33) == 8589934592 && Pow2(34) == 17179869184
  {
    assert Pow2(2) == 4;
    Pow2Add(2, 2);
    Pow2Add(4, 4);
    Pow2Add(8, 8);
    Pow2Add(16, 16);
    assert Pow2(32) == 4294967296;
    Pow2Add(32, 1);
    Pow2Add(32, 2);
  }

  lemma Int64Identity(x: int)
    requires -0x8000_0000_0000_0000 <= x < 0x8000_0000_0000_0000
    ensures Int64(x) == x
  {
  }

  /** The wait before attempt k is 2^(k-1) seconds: 1 s, 2 s, 4 s, ... for every
      attempt up to the 34th retry, where the nanosecond value still fits. */
  lemma BackoffDoubles(k: nat)
    requires 1 <= k <= 34
    ensures BackoffNanos(k) == Pow2(k - 1) * Second
  {
    Pow2Monotone(k - 1, 33);
    Pow2Values();
    Int64Identity(Pow2(k - 1));
    Int64Identity(Pow2(k - 1) * Second);
  }

  /** From the 35th retry on, the int64 product wraps: the wait before
      attempt 35 is a negative duration, which a timer treats as no wait. */
  lemma BackoffWrapsAt35()
    ensures BackoffNanos(35) < 0
  {
    Pow2Values();
    Int64Identity(Pow2(34));
  }

  // ---------------------------------------------------------------------------
  // The retry loop of FetchCloudCosts.

  /** What the world does around attempt k: whether the context is done during
      the backoff wait before it (not consulted for attempt 0), the HTTP round
      trip, and whether the context is done when the attempt has failed. */
  datatype Attempt = Attempt(
    waitInterrupted: Option<CtxErr>,
    exchange: Exchange<CostResponse>,
    doneAfter: Option<CtxErr>)

  /** The outcome of the loop: the result, how many requests were sent, and the
      backoff waits that were started, in nanoseconds. */
  datatype Run = Run(result: Result<CostResponse, FetchError>, attempts: nat, waits: seq<int>)

  /** Whether attempt i's request failed. */
  predicate Failed(env: seq<Attempt>, i: int)
    requires 0 <= i < |env|
  {
    DoFetch(env[i].exchange).Err?
  }

  /** The loop from attempt k on, after `lastErr`: recursion one attempt at a time. */
  function Retry(maxRetries: int, env: seq<Attempt>, k: nat, lastErr: Option<FetchError>): (r: Run)
    requires |env| > maxRetries
    ensures k <= maxRetries + 1 ==> r.attempts <= maxRetries + 1 - k
    ensures k > maxRetries ==> r.attempts == 0
    decreases maxRetries + 1 - k
  {
    if k > maxRetries then
      Run(Err(RetriesExhausted(maxRetries, lastErr)), 0, [])
    else
      var wait := if k > 0 then [BackoffNanos(k)] else [];
      if k > 0 && env[k].waitInterrupted.Some? then
        Run(Err(ContextDone(env[k].waitInterrupted.value)), 0, wait)
      else
        match DoFetch(env[k].exchange)
        case Ok(d) => Run(Ok(d), 1, wait)
        case Err(e) =>
          if env[k].doneAfter.Some? then
            Run(Err(ContextDone(env[k].doneAfter.value)), 1, wait)
          else
            var rest := Retry(maxRetries, env, k + 1, Some(e));
            Run(rest.result, rest.attempts + 1, wait + rest.waits)
  }

  /** FetchCloudCosts with the given client and world: a loop over attempts
      0..maxRetries that waits before every retry, returns the first success,
      stops on cancellation and otherwise wraps the last error. `env` supplies
      one entry per attempt the loop may make. */
  method FetchCloudCosts(cfg: Config, env: seq<Attempt>) returns (run: Run)
    requires |env| > cfg.maxRetries
    ensures run == Retry(cfg.maxRetries, env, 0, None)
  {
    ghost var whole := Retry(cfg.maxRetries, env, 0, None);
    var lastErr: Option<FetchError> := None;
    var attempt: nat := 0;
    var waits: seq<int> := [];
    while attempt <= cfg.maxRetries
      invariant attempt == 0 || attempt <= cfg.maxRetries + 1
      invariant attempt == 0 ==> waits == [] && lastErr.None?
      invariant whole == After(attempt, waits, Retry(cfg.maxRetries, env, attempt, lastErr))
      decreases cfg.maxRetries + 1 - attempt
    {
      ghost var before := waits;
      ghost var prevErr := lastErr;
      RetryStops(cfg.maxRetries, env, attempt, lastErr, waits);
      if attempt > 0 {
        waits := waits + [BackoffNanos(attempt)];
        if env[attempt].waitInterrupted.Some? {
          return Run(Err(ContextDone(env[attempt].waitInterrupted.value)), attempt, waits);
        }
      }
      var result := DoFetch(env[attempt].exchange);
      if result.Ok? {
        return Run(Ok(result.value), attempt + 1, waits);
      }
      lastErr := Some(result.error);
      if env[attempt].doneAfter.Some? {
        return Run(Err(ContextDone(env[attempt].doneAfter.value)), attempt + 1, waits);
      }
      RetryContinues(cfg.maxRetries, env, attempt, prevErr, before, result.error);
      attempt := attempt + 1;
    }
    assert waits + [] == waits;
    return Run(Err(RetriesExhausted(cfg.maxRetries, lastErr)), attempt, waits);
  }

  /** A run of `rest` preceded by `n` requests and the waits `w`. */
  function After(n: nat, w: seq<int>, rest: Run): Run
  {
    Run(rest.result, n + rest.attempts, w + rest.waits)
  }

  /** One more request and its wait move from the rest of a run into its
      prefix without changing the whole. */
  lemma AfterStep(n: nat, w: seq<int>, wait: seq<int>, next: Run)
    ensures After(n + 1, w + wait, next) == After(n, w, Run(next.result, next.attempts + 1, wait + next.waits))
  {
    assert (w + wait) + next.waits == w + (wait + next.waits);
  }

  /** How attempt k ends the run, after the prefix of k requests and the
      waits `w`: interrupted while waiting, on success, or on cancellation. */
  lemma RetryStops(m: int, env: seq<Attempt>, k: nat, lastErr: Option<FetchError>, w: seq<int>)
    requires |env| > m && k <= m
    ensures var run, wait := After(k, w, Retry(m, env, k, lastErr)), (if k > 0 then [BackoffNanos(k)] else []);
      && (k > 0 && env[k].waitInterrupted.Some? ==>
            run == Run(Err(ContextDone(env[k].waitInterrupted.value)), k, w + wait))
      && (!(k > 0 && env[k].waitInterrupted.Some?) && DoFetch(env[k].exchange).Ok? ==>
            run == Run(Ok(DoFetch(env[k].exchange).value), k + 1, w + wait))
      && (!(k > 0 && env[k].waitInterrupted.Some?) && DoFetch(env[k].exchange).Err? && env[k].doneAfter.Some? ==>
            run == Run(Err(ContextDone(env[k].doneAfter.value)), k + 1, w + wait))
  {
    var wait: seq<int> := if k > 0 then [BackoffNanos(k)] else [];
    assert wait + [] == wait;
  }

  /** A failed attempt k that was neither interrupted nor cancelled hands
      the run on to attempt k + 1, with its request and wait moved into the
      prefix. */
  lemma RetryContinues(m: int, env: seq<Attempt>, k: nat, lastErr: Option<FetchError>, w: seq<int>, e: FetchError)
    requires |env| > m && k <= m
    requires k > 0 ==> env[k].waitInterrupted.None?
    requires DoFetch(env[k].exchange) == Err(e) && env[k].doneAfter.None?
    ensures After(k, w, Retry(m, env, k, lastErr))
            == After(k + 1, w + (if k > 0 then [BackoffNanos(k)] else []), Retry(m, env, k + 1, Some(e)))
  {
    var wait: seq<int> := if k > 0 then [BackoffNanos(k)] else [];
    var next := Retry(m, env, k + 1, Some(e));
    assert Retry(m, env, k, lastErr) == Run(next.result, next.attempts + 1, wait + next.waits);
    AfterStep(k, w, wait, next);
  }

  /** The first wait index of a run starting at attempt k. */
  function FirstWait(k: nat): nat
  {
    if k == 0 then 1 else k
  }

  /** Shape of a run from attempt k: at most one request per remaining
      attempt, at most one wait per request (plus an interrupted one), and the
      waits follow the backoff schedule. */
  lemma {:induction false} RetryShape(m: int, env: seq<Attempt>, k: nat, last: Option<FetchError>)
    requires |env| > m
    ensures |Retry(m, env, k, last).waits| <= Retry(m, env, k, last).attempts + 1
    ensures k == 0 ==> |Retry(m, env, k, last).waits| <= Retry(m, env, k, last).attempts
    ensures forall i :: 0 <= i < |Retry(m, env, k, last).waits| ==>
              Retry(m, env, k, last).waits[i] == BackoffNanos(FirstWait(k) + i)
    decreases m + 1 - k
  {
    if k <= m && !(k > 0 && env[k].waitInterrupted.Some?) {
      match DoFetch(env[k].exchange)
      case Ok(d) =>
      case Err(e) =>
        if env[k].doneAfter.None? {
          RetryShape(m, env, k + 1, Some(e));
          var rest := Retry(m, env, k + 1, Some(e));
          var wait: seq<int> := if k > 0 then [BackoffNanos(k)] else [];
          var all := Retry(m, env, k, last).waits;
          assert all == wait + rest.waits;
          forall i | 0 <= i < |all|
            ensures all[i] == BackoffNanos(FirstWait(k) + i)
          {
            if i >= |wait| {
              assert all[i] == rest.waits[i - |wait|];
            }
          }
        }
    }
  }

  /** Every request before the last one failed and the context was still live
      after it, and no wait before a request that was sent was interrupted: the
      loop never stops early, and never goes on after a success or a
      cancellation. */
  lemma {:induction false} RetryEarlierAttemptsFailed(m: int, env: seq<Attempt>, k: nat, last: Option<FetchError>)
    requires |env| > m
    ensures var r := Retry(m, env, k, last);
      && (forall i :: k <= i < k + r.attempts - 1 ==> Failed(env, i) && env[i].doneAfter.None?)
      && (forall i :: k <= i < k + r.attempts && i > 0 ==> env[i].waitInterrupted.None?)
    decreases m + 1 - k
  {
    if k <= m && !(k > 0 && env[k].waitInterrupted.Some?) {
      match DoFetch(env[k].exchange)
      case Ok(d) =>
      case Err(e) =>
        if env[k].doneAfter.None? {
          RetryEarlierAttemptsFailed(m, env, k + 1, Some(e));
        }
    }
  }

  /** How a run from attempt k ends: with the success of its last request, with
      the context's error (during a wait, or after a failed request), or, once
      every attempt up to maxRetries has failed, with the last error wrapped in
      "after maxRetries retries". Nothing else can be returned. */
  lemma {:induction false} RetryOutcome(m: int, env: seq<Attempt>, k: nat, last: Option<FetchError>)
    requires |env| > m
    ensures var r := Retry(m, env, k, last);
      var n := r.attempts;
      && (r.result.Ok? <==> n >= 1 && k + n - 1 < |env| && DoFetch(env[k + n - 1].exchange).Ok?)
      && (r.result.Ok? ==> r.result == DoFetch(env[k + n - 1].exchange))
      && (r.result.Err? ==> r.result.error.ContextDone? || r.result.error.RetriesExhausted?)
      && (r.result.Err? && r.result.error.RetriesExhausted? ==>
            && r.result.error.retries == m
            && k + n == (if k > m then k else m + 1)
            && (n == 0 ==> r.result.error.last == last)
            && (n >= 1 ==> r.result.error.last == Some(DoFetch(env[k + n - 1].exchange).error)
                           && env[k + n - 1].doneAfter.None?))
      && (r.result.Err? && r.result.error.ContextDone? ==>
            || (k + n <= m && k + n > 0 && env[k + n].waitInterrupted == Some(r.result.error.reason))
            || (n >= 1 && k + n - 1 < |env| && Failed(env, k + n - 1) && env[k + n - 1].doneAfter == Some(r.result.error.reason)))
    decreases m + 1 - k
  {
    if k <= m && !(k > 0 && env[k].waitInterrupted.Some?) {
      match DoFetch(env[k].exchange)
      case Ok(d) =>
      case Err(e) =>
        if env[k].doneAfter.None? {
          RetryOutcome(m, env, k + 1, Some(e));
        }
    }
  }

  /** The error the loop carries into attempt j when it started at attempt k. */
  function LastBefore(env: seq<Attempt>, k: nat, j: nat, last: Option<FetchError>): Option<FetchError>
    requires k <= j <= |env|
  {
    if j == k || !Failed(env, j - 1) then last else Some(DoFetch(env[j - 1].exchange).error)
  }

  /** When attempts k..j-1 all fail with a live context and none of their
      waits is interrupted, the run from k reaches attempt j: it is j - k
      requests followed by the run from j. */
  lemma {:induction false} RetryReaches(m: int, env: seq<Attempt>, k: nat, j: nat, last: Option<FetchError>)
    requires |env| > m
    requires k <= j <= m + 1
    requires forall i :: k <= i < j ==> Failed(env, i) && env[i].doneAfter.None?
    requires forall i :: k <= i < j && i > 0 ==> env[i].waitInterrupted.None?
    ensures var r := Retry(m, env, k, last);
      var s := Retry(m, env, j, LastBefore(env, k, j, last));
      r.result == s.result && r.attempts == (j - k) + s.attempts
    decreases j - k
  {
    if k < j {
      assert Failed(env, k);
      var e := DoFetch(env[k].exchange).error;
      RetryReaches(m, env, k + 1, j, Some(e));
    }
  }

  /** FetchCloudCosts sends at most maxRetries + 1 requests, and waits
      2^(k-1) seconds (as an int64 nanosecond count) before attempt k. */
  lemma AttemptsBounded(cfg: Config, env: seq<Attempt>)
    requires |env| > cfg.maxRetries
    ensures var r := Retry(cfg.maxRetries, env, 0, None);
      && r.attempts <= (if cfg.maxRetries >= 0 then cfg.maxRetries + 1 else 0)
      && |r.waits| <= r.attempts
      && forall i :: 0 <= i < |r.waits| ==> r.waits[i] == BackoffNanos(i + 1)
  {
    RetryShape(cfg.maxRetries, env, 0, None);
  }

  /** The first successful request is returned and no later request is sent:
      the result is a success exactly when the last request sent succeeded,
      and every request before it failed. */
  lemma FirstSuccessReturned(cfg: Config, env: seq<Attempt>)
    requires |env| > cfg.maxRetries
    ensures var r := Retry(cfg.maxRetries, env, 0, None);
      r.result.Ok? ==>
        && r.attempts >= 1
        && r.result == DoFetch(env[r.attempts - 1].exchange)
        && forall i :: 0 <= i < r.attempts - 1 ==> Failed(env, i)
  {
    RetryOutcome(cfg.maxRetries, env, 0, None);
    RetryEarlierAttemptsFailed(cfg.maxRetries, env, 0, None);
  }

  /** A context that is done after a failed request, or during a wait, ends the
      loop at once with the context's error: no further request is sent. */
  lemma CancellationStops(cfg: Config, env: seq<Attempt>, j: nat)
    requires |env| > cfg.maxRetries
    requires j <= cfg.maxRetries
    requires forall i :: 0 <= i < j ==> Failed(env, i) && env[i].doneAfter.None?
    requires forall i :: 1 <= i <= j ==> env[i].waitInterrupted.None?
    requires Failed(env, j) && env[j].doneAfter.Some?
    ensures var r := Retry(cfg.maxRetries, env, 0, None);
      r.attempts == j + 1 && r.result == Err(ContextDone(env[j].doneAfter.value))
  {
    RetryReaches(cfg.maxRetries, env, 0, j, None);
  }

  /** Wait interrupted before attempt j: the loop stops with the context's
      error having sent exactly j requests. */
  lemma CancellationDuringWaitStops(cfg: Config, env: seq<Attempt>, j: nat)
    requires |env| > cfg.maxRetries
    requires 1 <= j <= cfg.maxRetries
    requires forall i :: 0 <= i < j ==> Failed(env, i) && env[i].doneAfter.None?
    requires forall i :: 1 <= i < j ==> env[i].waitInterrupted.None?
    requires env[j].waitInterrupted.Some?
    ensures var r := Retry(cfg.maxRetries, env, 0, None);
      r.attempts == j && r.result == Err(ContextDone(env[j].waitInterrupted.value))
  {
    RetryReaches(cfg.maxRetries, env, 0, j, None);
  }

  /** When every request fails and the context stays live, all maxRetries + 1
      requests are sent and the error is "after maxRetries retries" wrapping
      the last request's error. */
  lemma ExhaustionWrapsLastError(cfg: Config, env: seq<Attempt>)
    requires 0 <= cfg.maxRetries < |env|
    requires forall i :: 0 <= i <= cfg.maxRetries ==> Failed(env, i) && env[i].doneAfter.None?
    requires forall i :: 1 <= i <= cfg.maxRetries ==> env[i].waitInterrupted.None?
    ensures var r := Retry(cfg.maxRetries, env, 0, None);
      && r.attempts == cfg.maxRetries + 1
      && Failed(env, cfg.maxRetries)
      && r.result == Err(RetriesExhausted(cfg.maxRetries, Some(DoFetch(env[cfg.maxRetries].exchange).error)))
  {
    RetryReaches(cfg.maxRetries, env, 0, cfg.maxRetries + 1, None);
  }

  /** A non-positive maxRetries below zero sends no request at all and reports
      "after maxRetries retries" wrapping nothing. */
  lemma NegativeRetriesSendNothing(cfg: Config, env: seq<Attempt>)
    requires cfg.maxRetries < 0
    ensures Retry(cfg.maxRetries, env, 0, None) == Run(Err(RetriesExhausted(cfg.maxRetries, None)), 0, [])
  {
  }

  /** The loop tells failures apart only by whether they happened: two worlds
      that agree on the context and on which requests succeed (and with what),
      but fail in different ways (transport, status, decode), make the same
      number of requests and waits, and succeed or fail alike. */
  lemma {:induction false} RetryTreatsFailuresAlike(m: int, env1: seq<Attempt>, env2: seq<Attempt>, k: nat,
                                                    last1: Option<FetchError>, last2: Option<FetchError>)
    requires |env1| > m && |env2| == |env1|
    requires forall i :: 0 <= i < |env1| ==>
      && env1[i].waitInterrupted == env2[i].waitInterrupted
      && env1[i].doneAfter == env2[i].doneAfter
      && (if Failed(env1, i) then Failed(env2, i) else DoFetch(env2[i].exchange) == DoFetch(env1[i].exchange))
    ensures var r1 := Retry(m, env1, k, last1);
      var r2 := Retry(m, env2, k, last2);
      && r1.attempts == r2.attempts
      && r1.waits == r2.waits
      && r1.result.Ok? == r2.result.Ok?
      && (r1.result.Ok? ==> r1.result == r2.result)
      && (r1.result.Err? ==> r2.result.Err? && r1.result.error.ContextDone? == r2.result.error.ContextDone?)
    decreases m + 1 - k
  {
    if k <= m && !(k > 0 && env1[k].waitInterrupted.Some?) {
      match DoFetch(env1[k].exchange)
      case Ok(d) =>
      case Err(e1) =>
        if env1[k].doneAfter.None? {
          var e2 := DoFetch(env2[k].exchange).error;
          RetryTreatsFailuresAlike(m, env1, env2, k + 1, Some(e1), Some(e2));
        }
    }
  }

  // ---------------------------------------------------------------------------
  // Ping.

  /** What the health probe got back: no reply at all, or a status code. */
  datatype PingReply = Unreachable(cause: string) | Replied(status: int)

  /** The health probe succeeds exactly on status 200. */
  function Ping(reply: PingReply): (r: Option<FetchError>)
    ensures r.None? <==> reply.Replied? && reply.status == StatusOK
    ensures reply.Replied? && reply.status != StatusOK ==> r == Some(Unhealthy(reply.status))
    ensures reply.Unreachable? ==> r == Some(RequestFailed(reply.cause))
  {
    match reply
    case Unreachable(cause) => Some(RequestFailed(cause))
    case Replied(status) => if status == StatusOK then None else Some(Unhealthy(status))
  }

  /** Ping and the cost fetch agree on what a healthy reply is: status 200
      and nothing else. */
  lemma PingAgreesWithDoFetch<T>(status: int, body: seq<byte>, v: T)
    ensures Ping(Replied(status)).None? <==> DoFetch(Response(status, body, Ok(v))).Ok?
  {
  }

  // ---------------------------------------------------------------------------
  // The symbols query value of FetchExchangeRates.

  /** The symbols joined by commas, built as the loop in client.go does: a comma
      before every symbol but the first. */
  function JoinSymbols(symbols: seq<string>): (r: string)
    decreases |symbols|
  {
    if |symbols| == 0 then ""
    else if |symbols| == 1 then symbols[0]
    else JoinSymbols(symbols[..|symbols| - 1]) + "," + symbols[|symbols| - 1]
  }

  /** The joined list starts with the first symbol and ends with the last;
      no symbols join to the empty string. */
  lemma {:induction false} JoinSymbolsEnds(symbols: seq<string>)
    ensures |symbols| == 0 ==> JoinSymbols(symbols) == ""
    ensures |symbols| > 0 ==> symbols[0] <= JoinSymbols(symbols)
    ensures |symbols| > 0 ==> var r, x := JoinSymbols(symbols), symbols[|symbols| - 1];
              |x| <= |r| && r[|r| - |x|..] == x
    decreases |symbols|
  {
    if |symbols| > 1 {
      var init := symbols[..|symbols| - 1];
      JoinSymbolsEnds(init);
      assert init[0] == symbols[0];
    }
  }

  /** Index of the last comma of s. */
  function LastComma(s: string): (i: nat)
    requires ',' in s
    ensures i < |s| && s[i] == ','
    ensures ',' !in s[i + 1..]
    decreases |s|
  {
    if s[|s| - 1] == ',' then |s| - 1 else LastComma(s[..|s| - 1])
  }

  /** Splits a comma-separated list; the inverse of JoinSymbols. */
  function SplitSymbols(s: string): (r: seq<string>)
    ensures |r| >= 1
    ensures forall i :: 0 <= i < |r| ==> ',' !in r[i]
    decreases |s|
  {
    if ',' !in s then [s]
    else
      var i := LastComma(s);
      SplitSymbols(s[..i]) + [s[i + 1..]]
  }

  /** Splitting the joined list gives the symbols back, in input order, when
      there is at least one symbol and none contains a comma. */
  lemma {:induction false} SplitJoin(symbols: seq<string>)
    requires |symbols| >= 1
    requires forall i :: 0 <= i < |symbols| ==> ',' !in symbols[i]
    ensures SplitSymbols(JoinSymbols(symbols)) == symbols
    decreases |symbols|
  {
    if |symbols| > 1 {
      var init := symbols[..|symbols| - 1];
      var x := symbols[|symbols| - 1];
      var a := JoinSymbols(init);
      var s := a + "," + x;
      assert JoinSymbols(symbols) == s;
      assert s[|a|] == ',';
      var i := LastComma(s);
      if i < |a| {
        assert false;
      } else if i > |a| {
        assert false;
      }
      assert s[..i] == a;
      assert s[i + 1..] == x;
      SplitJoin(init);
      assert init + [x] == symbols;
    }
  }

  /** Appending a symbol to a non-empty list appends a comma and the symbol
      to the joined string. */
  lemma JoinSnoc(symbols: seq<string>, x: string)
    requires |symbols| >= 1
    ensures JoinSymbols(symbols + [x]) == JoinSymbols(symbols) + "," + x
  {
    var all := symbols + [x];
    assert all[..|all| - 1] == symbols && all[|all| - 1] == x;
  }

  /** Joining the split list gives the string back. */
  lemma {:induction false} JoinSplit(s: string)
    ensures JoinSymbols(SplitSymbols(s)) == s
    decreases |s|
  {
    if ',' in s {
      var i := LastComma(s);
      var parts := SplitSymbols(s[..i]);
      JoinSplit(s[..i]);
      var last := s[i + 1..];
      assert SplitSymbols(s) == parts + [last];
      JoinSnoc(parts, last);
      assert s == s[..i] + "," + last;
    }
  }

  /** The query FetchExchangeRates sends: the base, then the joined symbols
      only when there is at least one symbol. */
  function ExchangeRateQuery(base: string, symbols: seq<string>): (q: seq<(string, string)>)
    ensures |q| >= 1 && q[0] == ("base", base)
    ensures (exists i :: 0 <= i < |q| && q[i].0 == "symbols") <==> |symbols| > 0
    ensures forall i :: 0 <= i < |q| && q[i].0 == "symbols" ==> q[i].1 == JoinSymbols(symbols)
  {
    assert "base" != "symbols" by { assert "base"[0] != "symbols"[0]; }
    if |symbols| > 0 then
      var q := [("base", base), ("symbols", JoinSymbols(symbols))];
      assert q[1].0 == "symbols";
      q
    else
      [("base", base)]
  }

  /** FetchExchangeRates: one request, no retry, classified like a cost fetch. */
  function FetchExchangeRates(base: string, symbols: seq<string>, x: Exchange<ExchangeRateResponse>)
    : (r: (seq<(string, string)>, Result<ExchangeRateResponse, FetchError>))
    ensures r.0 == ExchangeRateQuery(base, symbols)
    ensures r.1.Ok? <==> x.Response? && x.status == StatusOK && x.decoded.Ok?
    ensures r.1.Ok? ==> r.1.value == x.decoded.value
  {
    (ExchangeRateQuery(base, symbols), DoFetch(x))
  }

  // ---------------------------------------------------------------------------
  // Body preview for debug logging.

  const PreviewLimit := 500

  /** Bytes of an ASCII string. */
  function Ascii(s: string): (b: seq<byte>)
    requires forall i :: 0 <= i < |s| ==> s[i] < 128 as char
    ensures |b| == |s|
  {
    seq(|s|, i requires 0 <= i < |s| => s[i] as int as byte)
  }

  const TruncationMarker: seq<byte> := Ascii("... (truncated)")

  /** The body as logged: whole when it has at most 500 bytes, otherwise its
      first 500 bytes followed by the truncation marker. */
  function BodyPreview(body: seq<byte>): (p: seq<byte>)
    ensures |p| <= PreviewLimit + |TruncationMarker|
    ensures |body| <= PreviewLimit ==> p == body
    ensures |body| > PreviewLimit ==>
      |p| == PreviewLimit + |TruncationMarker| && p[..PreviewLimit] == body[..PreviewLimit] && p[PreviewLimit..] == TruncationMarker
    ensures |p| <= PreviewLimit <==> |body| <= PreviewLimit
  {
    if |body| > PreviewLimit then body[..PreviewLimit] + TruncationMarker else body
  }

  /** Previewing a preview changes nothing: a truncated preview is already
      within the limit plus the marker, and its first PreviewLimit bytes are
      the body's. */
  lemma BodyPreviewIdempotent(body: seq<byte>)
    ensures BodyPreview(BodyPreview(body)) == BodyPreview(body)
  {
    var p := BodyPreview(body);
    assert |TruncationMarker| == 15;
    if |body| > PreviewLimit {
      assert p[..PreviewLimit] == body[..PreviewLimit];
    }
  }
}
