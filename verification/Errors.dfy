/** The error values of the payment system and the arithmetic of its retry strategy
    (internal/errors/errors.go). Durations are whole nanoseconds, as time.Duration is;
    the multiplier, a float64 in the program, is a real. */
module Errors {

  datatype Option<+T> = None | Some(value: T)

  datatype ErrorType = Validation | Database | Payment | Messaging | Internal | Authentication

  /** `PaymentErr` is the program's *PaymentError; `Plain` is any other error value, a wrapped one
      included, because the retry decision looks only at the outermost type. */
  datatype Error =
    | PaymentErr(errType: ErrorType, code: string, orderId: string, retryable: bool)
    | Plain(text: string)

  datatype RetryStrategy = RetryStrategy(
    maxAttempts: int,
    initialInterval: int,
    maxInterval: int,
    multiplier: real)
  {
    /** What a sensible strategy satisfies; the default one does. */
    ghost predicate Sensible() {
      0 < initialInterval <= maxInterval && multiplier >= 1.0
    }
  }

  const SECOND := 1_000_000_000

  const DEFAULT_RETRY_STRATEGY := RetryStrategy(3, 1 * SECOND, 30 * SECOND, 2.0)

  /** Go's conversion of a float to an integer: towards zero. */
  function Truncate(x: real): int {
    if x >= 0.0 then x.Floor else -((-x).Floor)
  }

  function CalculateNextInterval(s: RetryStrategy, attempt: int): int {
    if attempt <= 0 then s.initialInterval
    else
      var interval := s.initialInterval as real * s.multiplier;
      if interval > s.maxInterval as real then s.maxInterval else Truncate(interval)
  }

  predicate ShouldRetry(s: RetryStrategy, attempt: int, err: Error) {
    attempt < s.maxAttempts && err.PaymentErr? && err.retryable
  }

  /** A retryable error of the last attempt allowed is still to be retried, which is why the loop waits once more; one
      of a later attempt is not, nor is any other error. */
  lemma RetriedUpToTheLast(s: RetryStrategy, attempt: int, err: Error)
    ensures attempt >= s.maxAttempts || err.Plain? || !err.retryable ==> !ShouldRetry(s, attempt, err)
    ensures attempt <= s.maxAttempts - 1 && err.PaymentErr? && err.retryable ==> ShouldRetry(s, attempt, err)
  {
  }

  lemma TruncatesTowardsZero(x: real)
    ensures x >= 0.0 ==> 0 <= Truncate(x) && Truncate(x) as real <= x < Truncate(x) as real + 1.0
    ensures x < 0.0 ==> Truncate(x) <= 0 && Truncate(x) as real - 1.0 < x <= Truncate(x) as real
  {
  }

  /** The interval under any strategy, sensible or not: the first is not capped; the others are the product capped, or
      what is left of it without its fraction. */
  lemma IntervalOfAnyStrategy(s: RetryStrategy, n: int)
    ensures n <= 0 ==> CalculateNextInterval(s, n) == s.initialInterval
    ensures var product := s.initialInterval as real * s.multiplier;
            var interval := CalculateNextInterval(s, n);
            n > 0 ==>
              && (product > s.maxInterval as real ==> interval == s.maxInterval)
              && (0.0 <= product <= s.maxInterval as real ==> interval as real <= product < interval as real + 1.0)
              && (product <= s.maxInterval as real && product < 0.0 ==>
                    interval as real - 1.0 < product <= interval as real)
  {
    TruncatesTowardsZero(s.initialInterval as real * s.multiplier);
  }

  // ---------------------------------------------------------------------------------------
  // The schedule against the exponential it is named after
  // ---------------------------------------------------------------------------------------

  /** Initial * Multiplier^n, before capping. */
  ghost function Uncapped(s: RetryStrategy, n: nat): real {
    if n == 0 then s.initialInterval as real else Uncapped(s, n - 1) * s.multiplier
  }

  /** min(x, cap), truncated to whole nanoseconds. */
  ghost function Capped(x: real, cap: int): int {
    if x > cap as real then cap else Truncate(x)
  }

  /** The schedule the package's documentation describes: min(Initial * Multiplier^n, Max). */
  ghost function Exponential(s: RetryStrategy, n: nat): int {
    Capped(Uncapped(s, n), s.maxInterval)
  }

  lemma Product(x: real, y: real)
    requires 0.0 <= x && 0.0 <= y
    ensures 0.0 <= x * y && (0.0 < x && 0.0 < y ==> 0.0 < x * y)
  {
  }

  lemma StepUp(x: real, m: real)
    requires 0.0 <= x && 1.0 <= m
    ensures x <= x * m
  {
    Product(x, m - 1.0);
    assert x * (m - 1.0) == x * m - x;
  }

  lemma CapMonotone(x: real, y: real, cap: int)
    requires 0.0 <= x <= y && 0 <= cap
    ensures 0 <= Capped(x, cap) <= Capped(y, cap) <= cap
  {
  }

  lemma {:induction false} UncappedStartsPositive(s: RetryStrategy, n: nat)
    requires s.Sensible()
    ensures 0.0 < s.initialInterval as real <= Uncapped(s, n)
  {
    if 0 < n {
      UncappedStartsPositive(s, n - 1);
      StepUp(Uncapped(s, n - 1), s.multiplier);
    }
  }

  lemma {:induction false} UncappedGrows(s: RetryStrategy, m: nat, n: nat)
    requires s.Sensible() && m <= n
    ensures Uncapped(s, m) <= Uncapped(s, n)
  {
    if m < n {
      UncappedGrows(s, m, n - 1);
      UncappedStartsPositive(s, n - 1);
      StepUp(Uncapped(s, n - 1), s.multiplier);
    }
  }

  lemma ExponentialGrows(s: RetryStrategy, m: nat, n: nat)
    requires s.Sensible() && m <= n
    ensures s.initialInterval <= Exponential(s, m) <= Exponential(s, n) <= s.maxInterval
  {
    UncappedStartsPositive(s, m);
    UncappedGrows(s, m, n);
    CapMonotone(s.initialInterval as real, Uncapped(s, m), s.maxInterval);
    CapMonotone(Uncapped(s, m), Uncapped(s, n), s.maxInterval);
  }

  /** The code multiplies once, whatever the attempt. */
  lemma IntervalIsOneStep(s: RetryStrategy, n: nat)
    requires s.Sensible()
    ensures CalculateNextInterval(s, n) == Exponential(s, if n == 0 then 0 else 1)
  {
    assert Uncapped(s, 1) == Uncapped(s, 0) * s.multiplier;
  }

  /** The computed schedule never waits longer than the exponential, agrees with it on the first two
      attempts, never decreases, and stands still from the second attempt on. */
  lemma BackoffBelowExponential(s: RetryStrategy, m: nat, n: nat)
    requires s.Sensible() && m <= n
    ensures CalculateNextInterval(s, n) <= Exponential(s, n)
    ensures n <= 1 ==> CalculateNextInterval(s, n) == Exponential(s, n)
    ensures s.initialInterval <= CalculateNextInterval(s, m) <= CalculateNextInterval(s, n) <= s.maxInterval
    ensures m >= 1 ==> CalculateNextInterval(s, m) == CalculateNextInterval(s, n)
  {
    IntervalIsOneStep(s, m);
    IntervalIsOneStep(s, n);
    ExponentialGrows(s, 0, 1);
    if n >= 1 {
      ExponentialGrows(s, 1, n);
    }
  }

  /** The schedule is the exponential one for every attempt exactly when a second multiplication
      would change nothing: the multiplier is one, or one multiplication already reaches the cap. */
  lemma BackoffIsExponentialIff(s: RetryStrategy)
    requires s.Sensible()
    ensures (forall n: nat :: CalculateNextInterval(s, n) == Exponential(s, n))
       <==> (s.multiplier == 1.0 || s.initialInterval as real * s.multiplier >= s.maxInterval as real)
  {
    if s.multiplier == 1.0 || s.initialInterval as real * s.multiplier >= s.maxInterval as real {
      forall n: nat ensures CalculateNextInterval(s, n) == Exponential(s, n) {
        FlatOrCapped(s, n);
      }
    } else {
      var n := ReachesCap(s);
      assert CalculateNextInterval(s, n) < s.maxInterval;
    }
  }

  lemma FlatOrCapped(s: RetryStrategy, n: nat)
    requires s.Sensible()
    requires s.multiplier == 1.0 || s.initialInterval as real * s.multiplier >= s.maxInterval as real
    ensures CalculateNextInterval(s, n) == Exponential(s, n)
  {
    IntervalIsOneStep(s, n);
    if n >= 1 {
      if s.multiplier == 1.0 {
        UncappedFlat(s, n);
        UncappedFlat(s, 1);
      } else {
        assert Uncapped(s, 1) == Uncapped(s, 0) * s.multiplier;
        UncappedGrows(s, 1, n);
        CapMonotone(s.maxInterval as real, Uncapped(s, n), s.maxInterval);
      }
    }
  }

  lemma {:induction false} UncappedFlat(s: RetryStrategy, n: nat)
    requires s.multiplier == 1.0
    ensures Uncapped(s, n) == s.initialInterval as real
  {
    if n > 0 {
      UncappedFlat(s, n - 1);
    }
  }

  /** Each multiplication adds at least what the first one did. */
  lemma {:induction false} LinearGrowth(s: RetryStrategy, gain: real, n: nat)
    requires s.Sensible() && gain == s.initialInterval as real * s.multiplier - s.initialInterval as real
    ensures Uncapped(s, n) >= n as real * gain
  {
    if n > 0 {
      LinearGrowth(s, gain, n - 1);
      UncappedStartsPositive(s, n - 1);
      AtLeastTheFirstGain(s.initialInterval as real, Uncapped(s, n - 1), s.multiplier);
      OneMore(n, gain);
    }
  }

  lemma AtLeastTheFirstGain(x: real, y: real, m: real)
    requires x <= y && 1.0 <= m
    ensures y * m >= y + (x * m - x)
  {
    Product(y - x, m - 1.0);
    assert (y - x) * (m - 1.0) == y * m - y - (x * m - x);
  }

  lemma OneMore(n: nat, gain: real)
    requires n > 0
    ensures n as real * gain == (n - 1) as real * gain + gain
  {
    assert n as real == (n - 1) as real + 1.0;
    assert ((n - 1) as real + 1.0) * gain == (n - 1) as real * gain + gain;
  }

  lemma Quotient(x: real, y: real)
    requires 0.0 <= x && 0.0 < y
    ensures 0.0 <= x / y && x / y * y == x
  {
  }

  /** Enough copies of any positive amount exceed a given one. */
  lemma Archimedes(cap: real, gain: real) returns (n: nat)
    requires 0.0 < gain && 0.0 <= cap
    ensures n >= 1 && n as real * gain >= cap
  {
    var ratio := cap / gain;
    Quotient(cap, gain);
    n := ratio.Floor + 1;
    var surplus := n as real - ratio;
    Product(surplus, gain);
    assert (ratio + surplus) * gain == ratio * gain + surplus * gain;
  }

  /** A growing schedule reaches the cap at some attempt after the first. */
  lemma ReachesCap(s: RetryStrategy) returns (n: nat)
    requires s.Sensible() && s.multiplier > 1.0
    ensures n >= 1 && Exponential(s, n) == s.maxInterval
  {
    var gain := s.initialInterval as real * s.multiplier - s.initialInterval as real;
    Product(s.initialInterval as real, s.multiplier - 1.0);
    assert gain == s.initialInterval as real * (s.multiplier - 1.0);
    n := Archimedes(s.maxInterval as real, gain);
    LinearGrowth(s, gain, n);
    CapMonotone(s.maxInterval as real, Uncapped(s, n), s.maxInterval);
  }

  /** The default strategy, in nanoseconds, is one of those that fall behind: at the third attempt it waits two
      seconds where the exponential waits four, and where that has reached the cap of thirty it still waits two. */
  lemma DefaultFallsBehind()
    ensures CalculateNextInterval(DEFAULT_RETRY_STRATEGY, 0) == 1_000_000_000
    ensures CalculateNextInterval(DEFAULT_RETRY_STRATEGY, 2) == 2_000_000_000
    ensures Exponential(DEFAULT_RETRY_STRATEGY, 2) == 4_000_000_000
    ensures CalculateNextInterval(DEFAULT_RETRY_STRATEGY, 5) == 2_000_000_000
    ensures Exponential(DEFAULT_RETRY_STRATEGY, 5) == 30_000_000_000
  {
    var s := DEFAULT_RETRY_STRATEGY;
    assert Uncapped(s, 0) == SECOND as real;
    assert Uncapped(s, 1) == 2.0 * SECOND as real;
    assert Uncapped(s, 2) == 4.0 * SECOND as real;
    assert Uncapped(s, 3) == 8.0 * SECOND as real;
    assert Uncapped(s, 4) == 16.0 * SECOND as real;
    assert Uncapped(s, 5) == 32.0 * SECOND as real;
  }
}
