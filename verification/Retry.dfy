/** Retries with exponential backoff (backend-python/app/core/retry.py:45-73). */
module Retry {
  import opened Wrappers

  /** An operation attempt: a value, or an exception that the caller's test calls retryable or not. */
  datatype Attempt<T> = Success(value: T) | Failure(error: string, retryable: bool)

  datatype Raised = Exception(error: string) | AssertionError

  function Power(n: nat): (p: nat)
    ensures p >= 1
  {
    if n == 0 then 1 else 2 * Power(n - 1)
  }

  function Delay(attempt: nat, base: real): real {
    base * Power(attempt) as real
  }

  /** What the random source may return for an attempt: anything from 0 to a quarter of its delay. */
  predicate IsJitter(jitter: real, attempt: nat, base: real) {
    var quarter := 0.25 * Delay(attempt, base);
    0.0 <= jitter <= quarter || quarter <= jitter <= 0.0
  }

  /** How long a sleep lasts; a negative one ends at once. */
  function Slept(delay: real): real {
    if delay < 0.0 then 0.0 else delay
  }

  function Sum(sleeps: seq<real>): real {
    if sleeps == [] then 0.0 else Sum(sleeps[..|sleeps| - 1]) + sleeps[|sleeps| - 1]
  }

  /** Attempt `k` is the one that settles the call: the first that succeeds, is not retryable, or is the last. */
  predicate Settles<T>(attempts: seq<Attempt<T>>, max: nat, k: nat) {
    && k < max <= |attempts|
    && (attempts[k].Success? || !attempts[k].retryable || k == max - 1)
    && forall i :: 0 <= i < k ==> attempts[i].Failure? && attempts[i].retryable
  }

  /** Only one attempt can settle a call. */
  lemma SettlesIsUnique<T>(attempts: seq<Attempt<T>>, max: nat, k: nat, m: nat)
    requires Settles(attempts, max, k) && Settles(attempts, max, m)
    ensures k == m
  {
  }

  lemma OnlySettles<T>(attempts: seq<Attempt<T>>, max: nat, m: nat)
    requires Settles(attempts, max, m)
    ensures forall k: nat :: Settles(attempts, max, k) <==> k == m
  {
    forall k: nat | Settles(attempts, max, k)
      ensures k == m
    {
      SettlesIsUnique(attempts, max, k, m);
    }
  }

  /** The plain delays of the first `n` sleeps add up to base * (2^n - 1). */
  function PlainSum(n: nat, base: real): real {
    if n == 0 then 0.0 else PlainSum(n - 1, base) + Delay(n - 1, base)
  }

  lemma DelayDoubles(n: nat, base: real)
    ensures Delay(n + 1, base) == 2.0 * Delay(n, base)
  {
    var p := Power(n) as real;
    assert Power(n + 1) as real == 2.0 * p;
    assert base * (2.0 * p) == 2.0 * (base * p);
  }

  lemma {:induction false} PlainSumIsGeometric(n: nat, base: real)
    ensures PlainSum(n, base) == Delay(n, base) - base
    ensures PlainSum(n, base) == base * (Power(n) - 1) as real
  {
    if n > 0 {
      PlainSumIsGeometric(n - 1, base);
      DelayDoubles(n - 1, base);
    }
    var p := Power(n) as real;
    assert base * (p - 1.0) == base * p - base;
  }

  /** The sleeps so far lie between the plain sum and a quarter more; with a negative base there is none. */
  ghost predicate Bounded(sleeps: seq<real>, base: real) {
    var plain := PlainSum(|sleeps|, base);
    if base < 0.0 then Sum(sleeps) == 0.0 else plain <= Sum(sleeps) <= 1.25 * plain
  }

  /** In closed form: between base * (2^n - 1) and 1.25 times that after n sleeps. */
  lemma BoundsInClosedForm(sleeps: seq<real>, base: real)
    requires Bounded(sleeps, base) && base >= 0.0
    ensures var plain := base * (Power(|sleeps|) - 1) as real; plain <= Sum(sleeps) <= 1.25 * plain
  {
    PlainSumIsGeometric(|sleeps|, base);
  }

  lemma {:induction false} DelaySign(attempt: nat, base: real)
    ensures base >= 0.0 ==> Delay(attempt, base) >= 0.0
    ensures base < 0.0 ==> Delay(attempt, base) < 0.0
  {
    if attempt > 0 {
      DelaySign(attempt - 1, base);
      DelayDoubles(attempt - 1, base);
    }
  }

  lemma SleepKeepsBounds(sleeps: seq<real>, base: real, jitter: real)
    requires Bounded(sleeps, base) && IsJitter(jitter, |sleeps|, base)
    ensures Bounded(sleeps + [Slept(Delay(|sleeps|, base) + jitter)], base)
  {
    var next := Slept(Delay(|sleeps|, base) + jitter);
    DelaySign(|sleeps|, base);
    assert (sleeps + [next])[..|sleeps|] == sleeps;
  }

  /**
   The call makes attempts up to the one that settles it and returns or raises what that one gave; it
   sleeps once between two attempts. With no attempts allowed, the assertion after the loop fails.
   */
  method RetryAsync<T>(attempts: seq<Attempt<T>>, maxAttempts: int, base: real, jitters: seq<real>)
    returns (r: Result<T, Raised>, made: nat, sleeps: seq<real>)
    requires maxAttempts <= |attempts| && maxAttempts <= |jitters|
    requires forall j :: 0 <= j < |jitters| ==> IsJitter(jitters[j], j, base)
    ensures maxAttempts <= 0 ==> r == Err(AssertionError) && made == 0 && sleeps == []
    ensures maxAttempts > 0 ==>
              && 1 <= made <= maxAttempts
              && (forall k: nat :: Settles(attempts, maxAttempts, k) <==> k == made - 1)
              && r == match attempts[made - 1] {
                        case Success(value) => Ok(value)
                        case Failure(error, _) => Err(Exception(error)) }
              && |sleeps| == made - 1
              && (forall i :: 0 <= i < made - 1 ==> attempts[i].Failure? && attempts[i].retryable)
              && (attempts[made - 1].Success? || !attempts[made - 1].retryable || made == maxAttempts)
    ensures Bounded(sleeps, base)
    ensures forall i :: 0 <= i < |sleeps| ==> sleeps[i] == Slept(Delay(i, base) + jitters[i])
  {
    made, sleeps := 0, [];
    for attempt := 0 to if maxAttempts < 0 then 0 else maxAttempts
      invariant made == attempt && |sleeps| == attempt && Bounded(sleeps, base)
      invariant forall i :: 0 <= i < attempt ==> attempts[i].Failure? && attempts[i].retryable
      invariant maxAttempts > 0 ==> attempt < maxAttempts
      invariant forall i :: 0 <= i < |sleeps| ==> sleeps[i] == Slept(Delay(i, base) + jitters[i])
    {
      made := made + 1;
      match attempts[attempt] {
        case Success(value) =>
          OnlySettles(attempts, maxAttempts, attempt);
          return Ok(value), made, sleeps;
        case Failure(error, retryable) =>
          if attempt >= maxAttempts - 1 || !retryable {
            OnlySettles(attempts, maxAttempts, attempt);
            return Err(Exception(error)), made, sleeps;
          }
      }
      SleepKeepsBounds(sleeps, base, jitters[attempt]);
      sleeps := sleeps + [Slept(Delay(attempt, base) + jitters[attempt])];
    }
    r := Err(AssertionError);
  }
}
