/** Retrying a provider request with exponential delays (backend/app/llm/client.py). */
module Retry {
  import opened Values

  /** How one request ends: a parsed response, a provider error, or any other error. */
  datatype Attempt = Success(response: string) | ProviderFailure(retryable: bool) | OtherFailure(error: Error)

  /** The validated settings. */
  datatype Settings = Settings(maxAttempts: nat, baseDelay: real) {
    predicate Valid() {
      1 <= maxAttempts && 0.0 <= baseDelay
    }
  }

  /** What the jitter source returns at its k-th call for a limit; it need not respect the limit. */
  type Jitter = (nat, real) -> real

  /** The delay before jitter: it doubles with every retry. */
  function Backoff(base: real, retry: nat): real {
    if retry == 0 then base else 2.0 * Backoff(base, retry - 1)
  }

  function PowerOfTwo(k: nat): nat {
    if k == 0 then 1 else 2 * PowerOfTwo(k - 1)
  }

  lemma {:induction false} BackoffIsExponential(base: real, retry: nat)
    ensures Backoff(base, retry) == base * (PowerOfTwo(retry) as real)
  {
    if retry > 0 {
      BackoffIsExponential(base, retry - 1);
      var p := PowerOfTwo(retry - 1) as real;
      assert PowerOfTwo(retry) as real == 2.0 * p;
      assert 2.0 * (base * p) == base * (2.0 * p);
    }
  }

  function Bounded(x: real, limit: real): real {
    var atLeast := if x < 0.0 then 0.0 else x;
    if atLeast < limit then atLeast else limit
  }

  function Delay(base: real, jitter: Jitter, retry: nat): real {
    var delay := Backoff(base, retry);
    delay + Bounded(jitter(retry, delay * 0.1), delay * 0.1)
  }

  function TotalDelay(delays: seq<real>): real {
    if delays == [] then 0.0 else TotalDelay(delays[..|delays| - 1]) + Last(delays)
  }

  predicate Transient(a: Attempt) {
    a.ProviderFailure? && a.retryable
  }

  ghost predicate AreDelays(base: real, jitter: Jitter, delays: seq<real>) {
    forall k | 0 <= k < |delays| :: delays[k] == Delay(base, jitter, k)
  }

  /** Whatever the jitter source returns, a delay is at least its base and at most a tenth more. */
  lemma {:induction false} DelayBounds(base: real, jitter: Jitter, retry: nat)
    requires 0.0 <= base
    ensures 0.0 <= Backoff(base, retry) <= Delay(base, jitter, retry) <= 1.1 * Backoff(base, retry)
    ensures 0.0 < base ==> 0.0 < Backoff(base, retry)
  {
    if retry > 0 {
      DelayBounds(base, jitter, retry - 1);
    }
  }

  /** Delays strictly increase, whatever the jitter. */
  lemma {:induction false} DelaysIncrease(base: real, jitter: Jitter, i: nat, j: nat)
    requires 0.0 < base && i < j
    ensures Delay(base, jitter, i) < Delay(base, jitter, j)
  {
    DelayBounds(base, jitter, j - 1);
    DelayBounds(base, jitter, j);
    if i < j - 1 {
      DelaysIncrease(base, jitter, i, j - 1);
    }
  }

  /** The time slept over k retries lies between base * (2^k - 1) and a tenth more than that. */
  lemma {:induction false} TotalBounds(base: real, jitter: Jitter, delays: seq<real>)
    requires 0.0 <= base && AreDelays(base, jitter, delays)
    ensures Backoff(base, |delays|) - base <= TotalDelay(delays) <= 1.1 * (Backoff(base, |delays|) - base)
  {
    if delays != [] {
      var k := |delays| - 1;
      TotalBounds(base, jitter, delays[..k]);
      DelayBounds(base, jitter, k);
    }
  }

  /** What any run of the loop slept, in terms of the settings alone. */
  ghost predicate WellPaced(base: real, delays: seq<real>) {
    && (base > 0.0 ==> forall i, j | 0 <= i < j < |delays| :: delays[i] < delays[j])
    && Backoff(base, |delays|) - base <= TotalDelay(delays) <= 1.1 * (Backoff(base, |delays|) - base)
  }

  lemma {:induction false} Pace(base: real, jitter: Jitter, delays: seq<real>)
    requires 0.0 <= base && AreDelays(base, jitter, delays)
    ensures WellPaced(base, delays)
  {
    if base > 0.0 { AllIncrease(base, jitter, delays); }
    TotalBounds(base, jitter, delays);
  }

  lemma {:induction false} AllIncrease(base: real, jitter: Jitter, delays: seq<real>)
    requires 0.0 < base && AreDelays(base, jitter, delays)
    ensures forall i, j | 0 <= i < j < |delays| :: delays[i] < delays[j]
  {
    forall i, j | 0 <= i < j < |delays| ensures delays[i] < delays[j] {
      DelaysIncrease(base, jitter, i, j);
    }
  }

  /** How far the backoff has grown: the bounds on the time slept are base * (2^k - 1) and a tenth more. */
  lemma {:induction false} BackoffGrowth(base: real, retry: nat)
    ensures Backoff(base, retry) - base == base * (PowerOfTwo(retry) as real - 1.0)
  {
    BackoffIsExponential(base, retry);
    var p := PowerOfTwo(retry) as real;
    assert base * (p - 1.0) == base * p - base;
  }

  /** At most maxAttempts requests, one delay between any two, and the outcome of the last one. Only a provider error that
      says it may be retried is followed by another request. */
  method RequestWithRetry(settings: Settings, attempts: nat -> Attempt, jitter: Jitter)
    returns (outcome: Attempt, requests: nat, slept: seq<real>)
    requires settings.Valid()
    ensures 1 <= requests <= settings.maxAttempts && |slept| == requests - 1
    ensures outcome == attempts(requests - 1)
    ensures outcome == ProviderFailure(true) ==> requests == settings.maxAttempts
    ensures forall k | 0 <= k < requests - 1 :: attempts(k) == ProviderFailure(true)
    ensures AreDelays(settings.baseDelay, jitter, slept) && WellPaced(settings.baseDelay, slept)
  {
    requests, slept := 0, [];
    while requests < settings.maxAttempts
      invariant requests < settings.maxAttempts && |slept| == requests
      invariant forall k | 0 <= k < requests :: Transient(attempts(k))
      invariant AreDelays(settings.baseDelay, jitter, slept)
    {
      outcome := attempts(requests);
      requests := requests + 1;
      if !Transient(outcome) || requests >= settings.maxAttempts {
        Pace(settings.baseDelay, jitter, slept);
        return;
      }
      var delay := RetryDelay(settings, jitter, requests - 1);
      slept := slept + [delay];
    }
    assert false;
  }

  method RetryDelay(settings: Settings, jitter: Jitter, retry: nat) returns (delay: real)
    requires settings.Valid()
    ensures delay == Delay(settings.baseDelay, jitter, retry)
    ensures Backoff(settings.baseDelay, retry) <= delay <= 1.1 * Backoff(settings.baseDelay, retry)
    ensures var base := Backoff(settings.baseDelay, retry);
            var drawn := jitter(retry, base * 0.1);
            && (drawn <= 0.0 ==> delay == base)
            && (0.0 <= drawn <= base * 0.1 ==> delay == base + drawn)
            && (base * 0.1 <= drawn ==> delay == 1.1 * base)
  {
    DelayBounds(settings.baseDelay, jitter, retry);
    var base := Backoff(settings.baseDelay, retry);
    var limit := base * 0.1;
    var drawn := jitter(retry, limit);
    if drawn < 0.0 { drawn := 0.0; }
    if drawn > limit { drawn := limit; }
    delay := base + drawn;
  }
}
