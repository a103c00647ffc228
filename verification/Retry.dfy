/** The retry loop (internal/retry/retry.go).

    The operation is a Go closure that changes the database and the broker; here it is a function that
    takes the world as it finds it and the number of the attempt, and gives the world it leaves
    behind with the error it reports. Faults are part of that function. */
module Retry {
  import opened Errors

  /** What the select after a failed attempt sees first: the timer, or the context being done after
      having slept for a while. */
  datatype Wait = Elapsed | Interrupted(after: nat)

  /** A context as one run of the loop observes it: whether it is done when attempt k is about to
      start, how the wait after attempt k ends, and the error it then reports. Since the loop returns
      the first time it sees the context done, every pair of answers is a possible context. */
  datatype Context = Context(done: nat -> bool, wait: nat -> Wait, err: Error)

  /** context.Background(): never done. */
  const BACKGROUND := Context((k: nat) => false, (k: nat) => Elapsed, Plain("never reported"))

  /** How a run ended: the world, the error returned (None for nil), the number of calls made and the
      time slept after each failed call. */
  datatype Outcome<W> = Outcome(world: W, err: Option<Error>, calls: nat, slept: seq<int>)

  function Min(a: int, b: int): int {
    if a <= b then a else b
  }

  /** The loop from a given attempt on, as a recursion. */
  function RetryFrom<W>(op: (W, nat) -> (W, Option<Error>), ctx: Context, s: RetryStrategy,
                        attempt: nat, world: W, lastErr: Option<Error>): Outcome<W>
    decreases s.maxAttempts - attempt
  {
    if attempt >= s.maxAttempts then Outcome(world, lastErr, 0, [])
    else if ctx.done(attempt) then Outcome(world, Some(ctx.err), 0, [])
    else
      var (next, err) := op(world, attempt);
      if err.None? || !ShouldRetry(s, attempt, err.value) then Outcome(next, err, 1, [])
      else
        var interval := CalculateNextInterval(s, attempt);
        match ctx.wait(attempt)
        case Interrupted(t) => Outcome(next, Some(ctx.err), 1, [Min(t, interval)])
        case Elapsed =>
          var rest := RetryFrom(op, ctx, s, attempt + 1, next, err);
          Outcome(rest.world, rest.err, rest.calls + 1, [interval] + rest.slept)
  }

  function Run<W>(op: (W, nat) -> (W, Option<Error>), ctx: Context, s: RetryStrategy, world: W): Outcome<W> {
    RetryFrom(op, ctx, s, 0, world, None)
  }

  /** The loop itself. */
  method WithRetry<W>(op: (W, nat) -> (W, Option<Error>), ctx: Context, s: RetryStrategy, start: W)
    returns (world: W, err: Option<Error>, calls: nat, slept: seq<int>)
    ensures Outcome(world, err, calls, slept) == Run(op, ctx, s, start)
  {
    world, calls, slept := start, 0, [];
    var lastErr: Option<Error> := None;
    var attempt := 0;
    while attempt < s.maxAttempts
      invariant 0 <= attempt && calls == attempt
      invariant var rest := RetryFrom(op, ctx, s, attempt, world, lastErr);
                Run(op, ctx, s, start) == Outcome(rest.world, rest.err, calls + rest.calls, slept + rest.slept)
    {
      if ctx.done(attempt) {
        return world, Some(ctx.err), calls, slept;
      }
      var result := op(world, attempt);
      world, err, calls := result.0, result.1, calls + 1;
      if err == None {
        return;
      }
      lastErr := err;
      if !ShouldRetry(s, attempt, err.value) {
        return;
      }
      var interval := CalculateNextInterval(s, attempt);
      match ctx.wait(attempt) {
        case Interrupted(t) =>
          return world, Some(ctx.err), calls, slept + [Min(t, interval)];
        case Elapsed =>
          ghost var rest := RetryFrom(op, ctx, s, attempt + 1, world, lastErr);
          assert slept + ([interval] + rest.slept) == (slept + [interval]) + rest.slept;
          slept := slept + [interval];
          attempt := attempt + 1;
      }
    }
    err := lastErr;
  }

  // ---------------------------------------------------------------------------------------
  // The declarative specification: the run ends at the first attempt that ends it
  // ---------------------------------------------------------------------------------------

  predicate Retryable(err: Error) {
    err.PaymentErr? && err.retryable
  }

  /** The world when attempt k starts, if nothing has ended the run before. */
  ghost function WorldAt<W>(op: (W, nat) -> (W, Option<Error>), start: W, k: nat): W {
    if k == 0 then start else op(WorldAt(op, start, k - 1), k - 1).0
  }

  ghost function ErrorOf<W>(op: (W, nat) -> (W, Option<Error>), start: W, k: nat): Option<Error> {
    op(WorldAt(op, start, k), k).1
  }

  /** The operation's answer at attempt k lets the loop go on. */
  ghost predicate Undecided<W>(op: (W, nat) -> (W, Option<Error>), start: W, k: nat) {
    ErrorOf(op, start, k).Some? && Retryable(ErrorOf(op, start, k).value)
  }

  ghost predicate PassesAttempt<W>(op: (W, nat) -> (W, Option<Error>), ctx: Context, start: W, k: nat) {
    !ctx.done(k) && Undecided(op, start, k) && ctx.wait(k).Elapsed?
  }

  ghost function Intervals(s: RetryStrategy, n: nat): seq<int> {
    seq(n, k => CalculateNextInterval(s, k))
  }

  /** `r` is what a run returns that passes attempts 0..k-1 and ends at attempt k, or that passes all
      of them when k is the number of attempts allowed. */
  ghost predicate EndsAt<W>(op: (W, nat) -> (W, Option<Error>), ctx: Context, s: RetryStrategy, start: W,
                            r: Outcome<W>, k: nat)
  {
    && (forall j: nat | j < k :: PassesAttempt(op, ctx, start, j))
    && if k >= s.maxAttempts then
         // exhausted: the last error, or nil when no attempt was allowed at all
         && (k > 0 ==> k == s.maxAttempts)
         && r == Outcome(WorldAt(op, start, k), if k == 0 then None else ErrorOf(op, start, k - 1), k, Intervals(s, k))
       else if ctx.done(k) then
         r == Outcome(WorldAt(op, start, k), Some(ctx.err), k, Intervals(s, k))
       else if !Undecided(op, start, k) then
         // success, or an error that is not retried and is returned as it is
         r == Outcome(WorldAt(op, start, k + 1), ErrorOf(op, start, k), k + 1, Intervals(s, k))
       else
         && ctx.wait(k).Interrupted?
         // the wait is cut short, if it had not ended by then
         && var interval := CalculateNextInterval(s, k);
            r == Outcome(WorldAt(op, start, k + 1), Some(ctx.err), k + 1,
                         Intervals(s, k) + [if ctx.wait(k).after < interval then ctx.wait(k).after else interval])
  }

  lemma RetryEndsHere<W>(op: (W, nat) -> (W, Option<Error>), ctx: Context, s: RetryStrategy,
                         start: W, attempt: nat, lastErr: Option<Error>)
    requires forall j: nat | j < attempt :: PassesAttempt(op, ctx, start, j)
    requires lastErr == if attempt == 0 then None else ErrorOf(op, start, attempt - 1)
    requires attempt > 0 ==> attempt <= s.maxAttempts
    requires attempt < s.maxAttempts ==> !PassesAttempt(op, ctx, start, attempt)
    ensures var r := RetryFrom(op, ctx, s, attempt, WorldAt(op, start, attempt), lastErr);
            EndsAt(op, ctx, s, start, Outcome(r.world, r.err, attempt + r.calls, Intervals(s, attempt) + r.slept),
                   attempt)
  {
    assert Intervals(s, attempt) + [] == Intervals(s, attempt);
  }

  lemma RetryPasses<W>(op: (W, nat) -> (W, Option<Error>), ctx: Context, s: RetryStrategy,
                       start: W, attempt: nat, lastErr: Option<Error>)
    requires attempt < s.maxAttempts && PassesAttempt(op, ctx, start, attempt)
    ensures var r := RetryFrom(op, ctx, s, attempt, WorldAt(op, start, attempt), lastErr);
            var rest := RetryFrom(op, ctx, s, attempt + 1, WorldAt(op, start, attempt + 1),
                                  ErrorOf(op, start, attempt));
            && r.world == rest.world && r.err == rest.err && r.calls == rest.calls + 1
            && Intervals(s, attempt) + r.slept == Intervals(s, attempt + 1) + rest.slept
  {
    var rest := RetryFrom(op, ctx, s, attempt + 1, WorldAt(op, start, attempt + 1), ErrorOf(op, start, attempt));
    assert Intervals(s, attempt + 1) + rest.slept
        == Intervals(s, attempt) + ([CalculateNextInterval(s, attempt)] + rest.slept);
  }

  lemma {:induction false} RetryFromEnds<W>(op: (W, nat) -> (W, Option<Error>), ctx: Context, s: RetryStrategy,
                                            start: W, attempt: nat, lastErr: Option<Error>) returns (k: nat)
    requires forall j: nat | j < attempt :: PassesAttempt(op, ctx, start, j)
    requires lastErr == if attempt == 0 then None else ErrorOf(op, start, attempt - 1)
    requires attempt > 0 ==> attempt <= s.maxAttempts
    ensures var r := RetryFrom(op, ctx, s, attempt, WorldAt(op, start, attempt), lastErr);
            EndsAt(op, ctx, s, start, Outcome(r.world, r.err, attempt + r.calls, Intervals(s, attempt) + r.slept), k)
    decreases s.maxAttempts - attempt
  {
    k := attempt;
    if attempt < s.maxAttempts && PassesAttempt(op, ctx, start, attempt) {
      RetryPasses(op, ctx, s, start, attempt, lastErr);
      k := RetryFromEnds(op, ctx, s, start, attempt + 1, ErrorOf(op, start, attempt));
    } else {
      RetryEndsHere(op, ctx, s, start, attempt, lastErr);
    }
  }

  /** The loop meets the declarative specification. */
  lemma RunEndsAtFirstDecision<W>(op: (W, nat) -> (W, Option<Error>), ctx: Context, s: RetryStrategy, start: W)
    returns (k: nat)
    ensures EndsAt(op, ctx, s, start, Run(op, ctx, s, start), k)
  {
    k := RetryFromEnds(op, ctx, s, start, 0, None);
    var r := Run(op, ctx, s, start);
    assert Intervals(s, 0) + r.slept == r.slept;
  }

  lemma EndingIsNotPassing<W>(op: (W, nat) -> (W, Option<Error>), ctx: Context, s: RetryStrategy, start: W,
                              r: Outcome<W>, k: nat)
    requires EndsAt(op, ctx, s, start, r, k)
    ensures k < s.maxAttempts ==> !PassesAttempt(op, ctx, start, k)
    ensures k > 0 ==> k <= s.maxAttempts && PassesAttempt(op, ctx, start, k - 1)
  {
  }

  /** The specification determines the run, so it says everything the loop does. */
  lemma SpecificationIsExact<W>(op: (W, nat) -> (W, Option<Error>), ctx: Context, s: RetryStrategy, start: W,
                                r: Outcome<W>, k: nat)
    requires EndsAt(op, ctx, s, start, r, k)
    ensures r == Run(op, ctx, s, start)
  {
    var m := RunEndsAtFirstDecision(op, ctx, s, start);
    EndingIsNotPassing(op, ctx, s, start, Run(op, ctx, s, start), m);
    EndingIsNotPassing(op, ctx, s, start, r, k);
  }

  /** What a caller can rely on: never more than MaxAttempts calls; every call but the last reported a
      retryable error; and nil comes back exactly when the last call succeeded and nothing else
      ended the run, or when no attempt is allowed. */
  lemma RetryContract<W>(op: (W, nat) -> (W, Option<Error>), ctx: Context, s: RetryStrategy, start: W)
    ensures var r := Run(op, ctx, s, start);
            && (r.calls as int <= s.maxAttempts || r.calls == 0)
            && (forall j: nat | j + 1 < r.calls :: Undecided(op, start, j))
            && r.world == WorldAt(op, start, r.calls)
            && (r.err == None <==> s.maxAttempts <= 0 || (r.calls > 0 && ErrorOf(op, start, r.calls - 1) == None))
            && (r.err.Some? ==> r.err == Some(ctx.err) || (r.calls > 0 && r.err == ErrorOf(op, start, r.calls - 1)))
  {
    var k := RunEndsAtFirstDecision(op, ctx, s, start);
    var r := Run(op, ctx, s, start);
    forall j: nat | j + 1 < r.calls ensures Undecided(op, start, j) {
      assert PassesAttempt(op, ctx, start, j);
    }
    if k > 0 {
      assert PassesAttempt(op, ctx, start, k - 1);
    }
  }

  // ---------------------------------------------------------------------------------------
  // Runs that are known attempt by attempt, never interrupted
  // ---------------------------------------------------------------------------------------

  /** Attempt j finds the world at(j), reports a retryable error and leaves at(j + 1). */
  ghost predicate Fails<W>(op: (W, nat) -> (W, Option<Error>), at: nat -> W, j: nat) {
    var (next, err) := op(at(j), j);
    next == at(j + 1) && err.Some? && Retryable(err.value)
  }

  lemma {:induction false} FailuresPass<W>(op: (W, nat) -> (W, Option<Error>), start: W, at: nat -> W, k: nat)
    requires at(0) == start && forall j: nat | j < k :: Fails(op, at, j)
    ensures WorldAt(op, start, k) == at(k)
    ensures forall j: nat | j < k :: WorldAt(op, start, j) == at(j) && PassesAttempt(op, BACKGROUND, start, j)
  {
    if k > 0 {
      FailuresPass(op, start, at, k - 1);
      assert Fails(op, at, k - 1);
    }
  }

  /** After k failures, an answer that is not retried ends the run. */
  lemma EndsAfterFailures<W>(op: (W, nat) -> (W, Option<Error>), s: RetryStrategy, start: W, at: nat -> W, k: nat)
    requires at(0) == start && (forall j: nat | j < k :: Fails(op, at, j)) && k < s.maxAttempts
    requires op(at(k), k).1.None? || !Retryable(op(at(k), k).1.value)
    ensures Run(op, BACKGROUND, s, start) == Outcome(op(at(k), k).0, op(at(k), k).1, k + 1, Intervals(s, k))
  {
    FailuresPass(op, start, at, k);
    SpecificationIsExact(op, BACKGROUND, s, start, Outcome(op(at(k), k).0, op(at(k), k).1, k + 1, Intervals(s, k)), k);
  }

  /** And if every attempt allowed fails, the last error is returned. */
  lemma FailuresExhaust<W>(op: (W, nat) -> (W, Option<Error>), s: RetryStrategy, start: W, at: nat -> W, k: nat)
    requires at(0) == start && (forall j: nat | j < k :: Fails(op, at, j)) && k == s.maxAttempts && k >= 1
    ensures Run(op, BACKGROUND, s, start) == Outcome(at(k), op(at(k - 1), k - 1).1, k, Intervals(s, k))
  {
    FailuresPass(op, start, at, k);
    SpecificationIsExact(op, BACKGROUND, s, start, Outcome(at(k), op(at(k - 1), k - 1).1, k, Intervals(s, k)), k);
  }

  /** What the first call's answer decides: nil and every error but a retryable *PaymentError come back at once; after
      one of those there is a second call, and if it succeeds nil comes back, one initial interval later. */
  lemma OneRetry<W>(op: (W, nat) -> (W, Option<Error>), s: RetryStrategy, start: W)
    requires s.maxAttempts >= 2
    ensures var (v, first) := op(start, 0);
            var (u, second) := op(v, 1);
            var r := Run(op, BACKGROUND, s, start);
            if first.Some? && first.value.PaymentErr? && first.value.retryable then
              && r.calls >= 2 && |r.slept| >= 1 && r.slept[0] == s.initialInterval
              && (second == None ==> r == Outcome(u, None, 2, [s.initialInterval]))
            else r == Outcome(v, first, 1, [])
  {
    var (v, first) := op(start, 0);
    var at := (j: nat) => if j == 0 then start else v;
    if first.Some? && Retryable(first.value) {
      assert Fails(op, at, 0);
      FailuresPass(op, start, at, 1);
      var k := RunEndsAtFirstDecision(op, BACKGROUND, s, start);
      EndingIsNotPassing(op, BACKGROUND, s, start, Run(op, BACKGROUND, s, start), k);
      assert Intervals(s, k)[0] == s.initialInterval;
      if op(v, 1).1 == None {
        EndsAfterFailures(op, s, start, at, 1);
        assert Intervals(s, 1) == [s.initialInterval];
      }
    } else {
      EndsAfterFailures(op, s, start, at, 0);
    }
  }

  // ---------------------------------------------------------------------------------------
  // Time slept
  // ---------------------------------------------------------------------------------------

  function Total(times: seq<int>): int {
    if |times| == 0 then 0 else Total(times[..|times| - 1]) + times[|times| - 1]
  }

  lemma {:induction false} TotalOfIntervals(s: RetryStrategy, n: nat)
    requires s.Sensible() && n >= 1
    ensures Total(Intervals(s, n)) == s.initialInterval + (n - 1) * CalculateNextInterval(s, 1)
  {
    assert Intervals(s, n)[..n - 1] == Intervals(s, n - 1);
    if n > 1 {
      TotalOfIntervals(s, n - 1);
      BackoffBelowExponential(s, 1, n - 1);
      assert (n - 2) * CalculateNextInterval(s, 1) + CalculateNextInterval(s, 1)
          == (n - 1) * CalculateNextInterval(s, 1);
    }
  }

  lemma {:induction false} TotalGrows(s: RetryStrategy, m: nat, n: nat)
    requires s.Sensible() && m <= n
    ensures 0 <= Total(Intervals(s, m)) <= Total(Intervals(s, n))
  {
    if n > 0 {
      assert Intervals(s, n)[..n - 1] == Intervals(s, n - 1);
      BackoffBelowExponential(s, 0, n - 1);
      if m == n {
        TotalGrows(s, n - 1, n - 1);
      } else {
        TotalGrows(s, m, n - 1);
      }
    }
  }

  /** No run sleeps longer than one that goes through every attempt. */
  lemma SleptWithinSchedule<W>(op: (W, nat) -> (W, Option<Error>), ctx: Context, s: RetryStrategy, start: W)
    requires s.Sensible() && s.maxAttempts >= 1
    ensures var r := Run(op, ctx, s, start);
            && Total(r.slept) <= Total(Intervals(s, s.maxAttempts))
            && ((forall k: nat | k < s.maxAttempts :: PassesAttempt(op, ctx, start, k)) ==>
                  r.calls == s.maxAttempts && r.slept == Intervals(s, s.maxAttempts))
  {
    var k := RunEndsAtFirstDecision(op, ctx, s, start);
    var r := Run(op, ctx, s, start);
    EndingIsNotPassing(op, ctx, s, start, r, k);
    TotalGrows(s, k, s.maxAttempts);
    if |r.slept| == k + 1 {
      assert r.slept[..k] == Intervals(s, k);
      assert Intervals(s, k + 1)[..k] == Intervals(s, k);
      TotalGrows(s, k + 1, s.maxAttempts);
    }
  }

  /** When every attempt fails retryably and the context is never done, the loop sleeps after every
      attempt, the last one included, and the total is Initial + (MaxAttempts-1) times the second
      interval. Nothing can make a run sleep longer. */
  lemma DelayBound<W>(op: (W, nat) -> (W, Option<Error>), ctx: Context, s: RetryStrategy, start: W)
    requires s.Sensible() && s.maxAttempts >= 1
    ensures var r := Run(op, ctx, s, start);
            var longest := s.initialInterval + (s.maxAttempts - 1) * CalculateNextInterval(s, 1);
            && Total(r.slept) <= longest
            && ((forall k: nat | k < s.maxAttempts :: PassesAttempt(op, ctx, start, k)) ==>
                  |r.slept| == s.maxAttempts && Total(r.slept) == longest)
  {
    SleptWithinSchedule(op, ctx, s, start);
    TotalOfIntervals(s, s.maxAttempts);
  }

  /** The default strategy: three failing calls cost five seconds, two of them after the last call. */
  lemma DefaultDelay<W>(op: (W, nat) -> (W, Option<Error>), ctx: Context, start: W)
    requires forall k: nat | k < 3 :: PassesAttempt(op, ctx, start, k)
    ensures var r := Run(op, ctx, DEFAULT_RETRY_STRATEGY, start);
            && r.calls == 3
            && r.slept == [1_000_000_000, 2_000_000_000, 2_000_000_000] && Total(r.slept) == 5_000_000_000
  {
    var s := DEFAULT_RETRY_STRATEGY;
    SleptWithinSchedule(op, ctx, s, start);
    DefaultFallsBehind();
    BackoffBelowExponential(s, 1, 2);
    TotalOfIntervals(s, 3);
    assert Intervals(s, 3) == [1 * SECOND, 2 * SECOND, 2 * SECOND];
  }
}
