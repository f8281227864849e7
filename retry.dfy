/**
 * `retryRequest`: run a request up to `maxRetries` times, backing off exponentially between
 * attempts that failed with an "unavailable" signal, and rethrowing any other failure at once.
 * The request is a script of outcomes (the outcome of its i-th call) and the sleeps become a list
 * of delays.
 */
module Retry {
  import opened Wrappers
  import opened JsText

  /** A thrown value as the catch block sees it: its `status` and `message` properties, if any. */
  datatype Error = Error(status: Option<string>, message: Option<string>)

  /** What one call of the wrapped request does: resolve with a value or reject with an error. */
  datatype Attempt<T> = Resolved(value: T) | Rejected(error: Error)

  /** How the retried request ends: a returned value or a thrown error. */
  datatype Outcome<T> = Returned(value: T) | Thrown(error: Error)

  /** A whole retried request: its outcome, how often the request ran, and each sleep in order. */
  datatype Run<T> = Run(outcome: Outcome<T>, calls: nat, delays: seq<int>)

  const OverloadedMessage := "The model is overloaded. Please try again later."
  const ExhaustedMessage := "Request failed after multiple retries."

  /** `new Error(message)`: an error with a message and no status. */
  function MessageError(message: string): Error
  {
    Error(None, Some(message))
  }

  /** Thrown when the last allowed attempt failed with a retryable error. */
  function Overloaded(): Error
  {
    MessageError(OverloadedMessage)
  }

  /** Thrown when the loop does not run at all. */
  function Exhausted(): Error
  {
    MessageError(ExhaustedMessage)
  }

  /** `err.status === 'UNAVAILABLE' || (err.message && err.message.includes('503'))`. */
  predicate IsRetryable(e: Error)
  {
    e.status == Some("UNAVAILABLE") || (e.message.Some? && Contains(e.message.value, "503"))
  }

  /** `Math.pow(2, i)`. */
  function Pow2(i: nat): (r: nat)
    ensures r >= 1
  {
    if i == 0 then 1 else 2 * Pow2(i - 1)
  }

  /** The backoff schedule of the first `n` sleeps: `delay * 2^0, …, delay * 2^(n-1)`. */
  function Backoff(delay: int, n: nat): (r: seq<int>)
    ensures |r| == n
  {
    seq(n, k requires 0 <= k => delay * Pow2(k))
  }

  /** One more sleep appends `delay * 2^n` to the schedule. */
  lemma BackoffStep(delay: int, n: nat)
    ensures Backoff(delay, n + 1) == Backoff(delay, n) + [delay * Pow2(n)]
  {
    assert forall k :: 0 <= k < n ==> Backoff(delay, n + 1)[k] == Backoff(delay, n)[k];
  }

  /** The schedule is exponential: it starts at `delay` and every sleep doubles the one before. */
  lemma BackoffDoubles(delay: int, n: nat)
    ensures n > 0 ==> Backoff(delay, n)[0] == delay
    ensures forall k :: 0 <= k < n - 1 ==> Backoff(delay, n)[k + 1] == 2 * Backoff(delay, n)[k]
  {
  }

  /** The loop of `retryRequest` from attempt `i` on: what the attempts from `i` do. */
  function RunFrom<T>(request: nat -> Attempt<T>, i: nat, maxRetries: int, delay: int): Run<T>
    decreases maxRetries - i
  {
    if i >= maxRetries then Run(Thrown(Exhausted()), 0, [])
    else match request(i)
      case Resolved(v) => Run(Returned(v), 1, [])
      case Rejected(e) =>
        if !IsRetryable(e) then Run(Thrown(e), 1, [])
        else if i == maxRetries - 1 then Run(Thrown(Overloaded()), 1, [])
        else
          var rest := RunFrom(request, i + 1, maxRetries, delay);
          Run(rest.outcome, rest.calls + 1, [delay * Pow2(i)] + rest.delays)
  }

  /** What `retryRequest(request, maxRetries, delay)` does, as a function of the script. */
  function RetrySpec<T>(request: nat -> Attempt<T>, maxRetries: int, delay: int): Run<T>
  {
    RunFrom(request, 0, maxRetries, delay)
  }

  /** `retryRequest`: the counted loop, returning the outcome, the number of calls and the sleeps. */
  method RetryRequest<T>(request: nat -> Attempt<T>, maxRetries: int, delay: int)
    returns (outcome: Outcome<T>, calls: nat, delays: seq<int>)
    ensures Run(outcome, calls, delays) == RetrySpec(request, maxRetries, delay)
  {
    calls, delays := 0, [];
    var i: nat := 0;
    while i < maxRetries
      invariant calls == i
      invariant var rest := RunFrom(request, i, maxRetries, delay);
        RetrySpec(request, maxRetries, delay) == Run(rest.outcome, i + rest.calls, delays + rest.delays)
    {
      var attempt := request(i);
      calls := calls + 1;
      match attempt {
        case Resolved(v) =>
          outcome := Returned(v);
          return;
        case Rejected(e) =>
          if IsRetryable(e) {
            if i == maxRetries - 1 {
              outcome := Thrown(Overloaded());
              return;
            }
            var backoffDelay := delay * Pow2(i);
            delays := delays + [backoffDelay];
          } else {
            outcome := Thrown(e);
            return;
          }
      }
      i := i + 1;
    }
    outcome := Thrown(Exhausted());
  }

  /** The attempts from `i` up to (not including) `j` all failed with a retryable error. */
  ghost predicate RetryableUpTo<T>(request: nat -> Attempt<T>, i: nat, j: int)
  {
    forall k: nat :: i <= k < j ==> request(k).Rejected? && IsRetryable(request(k).error)
  }

  /** How the last attempt `last` a run makes decides the run's outcome. */
  ghost predicate LastAttemptDecides<T>(request: nat -> Attempt<T>, last: nat, maxRetries: int, o: Outcome<T>)
  {
    match request(last)
    case Resolved(v) => o == Returned(v)
    case Rejected(e) =>
      if IsRetryable(e) then last == maxRetries - 1 && o == Thrown(Overloaded())
      else o == Thrown(e)
  }

  lemma {:induction false} RunFromShape<T>(request: nat -> Attempt<T>, i: nat, maxRetries: int, delay: int)
    requires i < maxRetries
    ensures var r := RunFrom(request, i, maxRetries, delay);
      && 1 <= r.calls <= maxRetries - i
      && RetryableUpTo(request, i, i + r.calls - 1)
      && r.delays == seq(r.calls - 1, k requires 0 <= k => delay * Pow2(i + k))
      && LastAttemptDecides(request, i + r.calls - 1, maxRetries, r.outcome)
    decreases maxRetries - i
  {
    var r := RunFrom(request, i, maxRetries, delay);
    match request(i)
    case Resolved(v) =>
    case Rejected(e) =>
      if IsRetryable(e) && i != maxRetries - 1 {
        RunFromShape(request, i + 1, maxRetries, delay);
        var rest := RunFrom(request, i + 1, maxRetries, delay);
        assert r.delays == [delay * Pow2(i)] + rest.delays;
        forall k | 0 <= k < r.calls - 1
          ensures r.delays[k] == delay * Pow2(i + k)
        {
          if k > 0 { assert r.delays[k] == rest.delays[k - 1]; }
        }
      }
  }

  /**
   * The whole behaviour of `retryRequest` for `maxRetries >= 1`: it calls the request between 1 and
   * `maxRetries` times; every call but the last failed retryably and was followed by the sleep
   * `delay * 2^i`; the last call decides: its value is returned, a non-retryable error is rethrown
   * unchanged, and a retryable error is possible only on attempt `maxRetries - 1` and throws the
   * "overloaded" error without a sleep.
   */
  lemma RetryShape<T>(request: nat -> Attempt<T>, maxRetries: int, delay: int)
    requires maxRetries >= 1
    ensures var r := RetrySpec(request, maxRetries, delay);
      && 1 <= r.calls <= maxRetries
      && RetryableUpTo(request, 0, r.calls - 1)
      && r.delays == Backoff(delay, r.calls - 1)
      && LastAttemptDecides(request, r.calls - 1, maxRetries, r.outcome)
  {
    RunFromShape(request, 0, maxRetries, delay);
    var r := RetrySpec(request, maxRetries, delay);
    assert r.delays == Backoff(delay, r.calls - 1);
  }

  /** With `maxRetries <= 0` no call is made and "Request failed after multiple retries." is thrown. */
  lemma NoAttemptsAllowed<T>(request: nat -> Attempt<T>, maxRetries: int, delay: int)
    requires maxRetries <= 0
    ensures RetrySpec(request, maxRetries, delay) == Run(Thrown(Exhausted()), 0, [])
  {
  }

  /** The attempts from `i` on follow the run that starts at `i`, whatever happened before `i`. */
  lemma {:induction false} RunFromDependsOnLater<T>(
    request: nat -> Attempt<T>, other: nat -> Attempt<T>, i: nat, maxRetries: int, delay: int)
    requires forall k: nat :: i <= k ==> request(k) == other(k)
    ensures RunFrom(request, i, maxRetries, delay) == RunFrom(other, i, maxRetries, delay)
    decreases maxRetries - i
  {
    if i < maxRetries {
      RunFromDependsOnLater(request, other, i + 1, maxRetries, delay);
    }
  }

  /** A request that is unavailable `maxRetries` times throws "overloaded" after exactly that many calls. */
  lemma {:induction false} AlwaysUnavailable<T>(request: nat -> Attempt<T>, maxRetries: int, delay: int)
    requires maxRetries >= 1
    requires RetryableUpTo(request, 0, maxRetries)
    ensures RetrySpec(request, maxRetries, delay)
      == Run(Thrown(Overloaded()), maxRetries, Backoff(delay, maxRetries - 1))
  {
    RetryShape(request, maxRetries, delay);
  }

  /** Unavailable twice and then answering: with the defaults the value comes back after two sleeps. */
  lemma TwoFailuresThenSuccess<T>(request: nat -> Attempt<T>, v: T)
    requires request(0) == Rejected(Error(Some("UNAVAILABLE"), None))
    requires request(1) == Rejected(Error(None, Some("got status 503")))
    requires request(2) == Resolved(v)
    ensures RetrySpec(request, 3, 1000) == Run(Returned(v), 3, [1000, 2000])
  {
    assert Contains("got status 503"[9..], "503");
    assert Contains("got status 503", "503");
  }
}
