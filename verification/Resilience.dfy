/**
 * The bounded retry loop around provider calls (`adapters/resilience.py`): how often it calls, how long
 * it waits, and what it ends with, for every sequence of outcomes.
 */
module Resilience {
  import opened Wrappers

  datatype OutcomeClass = Success | RetryableFailure | NonRetryableFailure

  datatype RetryPolicy = RetryPolicy(timeoutSeconds: real, maxAttempts: int, backoffBase: real, backoffCap: real)

  // ---- Provider errors ----

  /** What `float(...)` makes of a header's text. */
  datatype HeaderValue = Malformed | NotANumber | Infinite(positive: bool) | Number(value: real)

  datatype Headers = Headers(retryAfterMs: Option<HeaderValue>, retryAfter: Option<HeaderValue>)

  datatype ProviderError =
    | Timeout | ApiTimeout | ApiConnection | InternalServer
    | RateLimit(headers: Option<Headers>)
    | OtherError

  /** `classify_openai_error` */
  function Classify(e: ProviderError): OutcomeClass {
    if e.OtherError? then NonRetryableFailure else RetryableFailure
  }

  /** A server delay; `float` accepts an infinite one. */
  datatype ServerDelay = Seconds(value: real) | Unbounded

  function NonNegative(h: HeaderValue, scale: real): Option<ServerDelay>
    requires scale > 0.0
  {
    match h
    case Malformed => None
    case NotANumber => None
    case Infinite(positive) => if positive then Some(Unbounded) else None
    case Number(value) => if value / scale >= 0.0 then Some(Seconds(value / scale)) else None
  }

  /** `extract_retry_after_seconds` */
  function ExtractRetryAfter(e: ProviderError): Option<ServerDelay> {
    if !e.RateLimit? || e.headers == None then None
    else if e.headers.value.retryAfterMs.Some? then NonNegative(e.headers.value.retryAfterMs.value, 1000.0)
    else if e.headers.value.retryAfter.Some? then NonNegative(e.headers.value.retryAfter.value, 1.0)
    else None
  }

  // ---- Waits ----

  function Pow2(n: nat): real {
    if n == 0 then 1.0 else 2.0 * Pow2(n - 1)
  }

  function MinReal(a: real, b: real): real {
    if b < a then b else a
  }

  /** `compute_backoff`; `draw` is the jitter. */
  function ComputeBackoff(attempt: nat, policy: RetryPolicy, draw: real): real
    requires attempt >= 1
  {
    draw * MinReal(policy.backoffBase * Pow2(attempt - 1), policy.backoffCap)
  }

  datatype DelaySource = RetryAfter | Computed

  datatype Wait = Wait(seconds: real, source: DelaySource)

  type DelayReader<!E> = Option<E -> Option<ServerDelay>>

  /** `_resolve_delay` */
  function ResolveDelay<E>(e: E, attempt: nat, policy: RetryPolicy, retryAfter: DelayReader<E>, draw: real): Wait
    requires attempt >= 1
  {
    if retryAfter.Some? && retryAfter.value(e).Some? then
      match retryAfter.value(e).value
      case Seconds(value) => Wait(MinReal(value, policy.backoffCap), RetryAfter)
      case Unbounded => Wait(policy.backoffCap, RetryAfter)
    else Wait(ComputeBackoff(attempt, policy, draw), Computed)
  }

  // ---- The loop ----

  /** What one call came to, how long it took, and the jitter drawn if a wait followed. */
  datatype Attempt<+T, +E> =
    | Returned(value: T, seconds: real)
    | Failed(error: E, seconds: real, draw: real)

  /** Attempt `a`, counting from one. */
  type Attempts<!T, !E> = nat -> Attempt<T, E>

  datatype Ending<+T, +E> = Value(value: T) | Reraised(error: E) | NeverCalled

  datatype Trace<+T, +E> = Trace(ending: Ending<T, E>, calls: nat, sleeps: seq<real>)

  predicate Retryable<T, E>(attempt: Attempt<T, E>, classify: E -> OutcomeClass) {
    attempt.Failed? && classify(attempt.error) != NonRetryableFailure
  }

  /** The loop stops at the first attempt that is not a retryable failure, or at the last one allowed. */
  ghost predicate StopsAfter<T, E>(attempts: Attempts<T, E>, policy: RetryPolicy, classify: E -> OutcomeClass, calls: nat) {
    && 1 <= calls <= policy.maxAttempts
    && (forall a: nat :: 1 <= a < calls ==> Retryable(attempts(a), classify))
    && (calls < policy.maxAttempts ==> !Retryable(attempts(calls), classify))
  }

  /** After each retryable failure but the last, the loop slept what that failure called for. */
  ghost predicate SleptBetween<T, E>(
    attempts: Attempts<T, E>, policy: RetryPolicy, retryAfter: DelayReader<E>, calls: nat, sleeps: seq<real>)
  {
    && calls >= 1 && |sleeps| == calls - 1
    && (forall a: nat :: 1 <= a < calls ==>
          attempts(a).Failed?
          && sleeps[a - 1] == ResolveDelay(attempts(a).error, a, policy, retryAfter, attempts(a).draw).seconds)
  }

  function EndingOf<T, E>(attempt: Attempt<T, E>): Ending<T, E> {
    match attempt
    case Returned(value, _) => Value(value)
    case Failed(error, _, _) => Reraised(error)
  }

  /** What a run must look like. */
  ghost predicate Bounded<T, E>(
    attempts: Attempts<T, E>, policy: RetryPolicy, classify: E -> OutcomeClass, retryAfter: DelayReader<E>, t: Trace<T, E>)
  {
    if policy.maxAttempts <= 0 then t == Trace(NeverCalled, 0, [])
    else
      && StopsAfter(attempts, policy, classify, t.calls)
      && SleptBetween(attempts, policy, retryAfter, t.calls, t.sleeps)
      && t.ending == EndingOf(attempts(t.calls))
  }

  /** `run_with_retries`; with no attempt allowed the loop ends in its assertion. */
  method RunWithRetries<T, E(==)>(
    attempts: Attempts<T, E>, policy: RetryPolicy, classify: E -> OutcomeClass, retryAfter: DelayReader<E>)
    returns (t: Trace<T, E>)
    ensures Bounded(attempts, policy, classify, retryAfter, t)
  {
    var lastError: Option<E> := None;
    var sleeps: seq<real> := [];
    var attempt := 1;
    while attempt <= policy.maxAttempts
      invariant attempt >= 1
      invariant policy.maxAttempts > 0 ==> attempt <= policy.maxAttempts + 1
      invariant forall a: nat :: 1 <= a < attempt ==> Retryable(attempts(a), classify)
      invariant attempt <= policy.maxAttempts ==> SleptBetween(attempts, policy, retryAfter, attempt, sleeps)
      invariant 1 < attempt == policy.maxAttempts + 1 ==> SleptBetween(attempts, policy, retryAfter, attempt - 1, sleeps)
      invariant attempt == 1 ==> lastError == None
      invariant attempt > 1 ==> lastError.Some? && EndingOf(attempts(attempt - 1)) == Reraised(lastError.value)
      invariant policy.maxAttempts <= 0 ==> attempt == 1 && sleeps == []
    {
      var outcome := attempts(attempt);
      if outcome.Returned? {
        return Trace(Value(outcome.value), attempt, sleeps);
      }
      if classify(outcome.error) == NonRetryableFailure {
        return Trace(Reraised(outcome.error), attempt, sleeps);
      }
      lastError := Some(outcome.error);
      if attempt < policy.maxAttempts {
        var delay := ResolveDelay(outcome.error, attempt, policy, retryAfter, outcome.draw);
        sleeps := sleeps + [delay.seconds];
      }
      attempt := attempt + 1;
    }
    if lastError == None {
      return Trace(NeverCalled, 0, []);
    }
    return Trace(Reraised(lastError.value), policy.maxAttempts, sleeps);
  }

  // ---- Bounds ----

  ghost predicate FairPolicy(policy: RetryPolicy) {
    policy.timeoutSeconds >= 0.0 && policy.backoffBase >= 0.0 && policy.backoffCap >= 0.0
  }

  /** Calls keep to their budget, jitter is a draw from [0, 1), and server delays are not negative. */
  ghost predicate FairAttempts<T, E>(attempts: Attempts<T, E>, policy: RetryPolicy, retryAfter: DelayReader<E>) {
    forall a: nat :: a >= 1 ==>
      && 0.0 <= attempts(a).seconds <= policy.timeoutSeconds
      && (attempts(a).Failed? ==> 0.0 <= attempts(a).draw < 1.0 && FairReading(retryAfter, attempts(a).error))
  }

  predicate FairReading<E>(retryAfter: DelayReader<E>, e: E) {
    retryAfter.Some? && retryAfter.value(e).Some? && retryAfter.value(e).value.Seconds? ==>
      retryAfter.value(e).value.value >= 0.0
  }

  /** The extractor used for the provider never reads a negative delay, and only a rate limit carries one. */
  lemma ExtractedIsFair(e: ProviderError)
    ensures FairReading(Some(ExtractRetryAfter), e)
    ensures ExtractRetryAfter(e).Some? ==> e.RateLimit? && e.headers.Some? && Classify(e) == RetryableFailure
  {
  }

  /** A header that says how long to wait: a number not below zero, or infinity. */
  predicate Usable(h: HeaderValue) {
    (h.Number? && h.value >= 0.0) || (h.Infinite? && h.positive)
  }

  /**
   * Any millisecond header, malformed included, hides the seconds header; and whichever of the two counts
   * gives a delay exactly when it is usable.
   */
  lemma MillisecondsHideSeconds(ms: HeaderValue, a: Option<HeaderValue>, b: Option<HeaderValue>)
    ensures ExtractRetryAfter(RateLimit(Some(Headers(Some(ms), a)))) == ExtractRetryAfter(RateLimit(Some(Headers(Some(ms), b))))
    ensures ExtractRetryAfter(RateLimit(Some(Headers(Some(ms), a)))).Some? <==> Usable(ms)
    ensures ExtractRetryAfter(RateLimit(Some(Headers(None, a)))).Some? <==> a.Some? && Usable(a.value)
    ensures ms.Number? && Usable(ms) ==> ExtractRetryAfter(RateLimit(Some(Headers(Some(ms), a)))) == Some(Seconds(ms.value / 1000.0))
    ensures ms.Number? && Usable(ms) ==> ExtractRetryAfter(RateLimit(Some(Headers(None, Some(ms))))) == Some(Seconds(ms.value))
    ensures ms == Infinite(true) ==>
              ExtractRetryAfter(RateLimit(Some(Headers(Some(ms), a)))) == ExtractRetryAfter(RateLimit(Some(Headers(None, Some(ms))))) == Some(Unbounded)
  {
  }

  lemma {:induction false} Pow2Positive(n: nat)
    ensures Pow2(n) >= 1.0
  {
    if n > 0 {
      Pow2Positive(n - 1);
    }
  }

  lemma ScaledWithin(draw: real, x: real)
    requires 0.0 <= draw <= 1.0 && x >= 0.0
    ensures 0.0 <= draw * x <= x
  {
    assert (1.0 - draw) * x >= 0.0;
  }

  lemma ProductNotNegative(a: real, b: real)
    requires a >= 0.0 && b >= 0.0
    ensures a * b >= 0.0
  {
  }

  /** A computed wait is within the cap and within the exponential envelope. */
  lemma BackoffWithin(attempt: nat, policy: RetryPolicy, draw: real)
    requires attempt >= 1 && FairPolicy(policy) && 0.0 <= draw < 1.0
    ensures 0.0 <= ComputeBackoff(attempt, policy, draw) <= policy.backoffCap
    ensures ComputeBackoff(attempt, policy, draw) <= policy.backoffBase * Pow2(attempt - 1)
  {
    Pow2Positive(attempt - 1);
    var exponential := policy.backoffBase * Pow2(attempt - 1);
    ProductNotNegative(policy.backoffBase, Pow2(attempt - 1));
    var capped := MinReal(exponential, policy.backoffCap);
    ScaledWithin(draw, capped);
    assert ComputeBackoff(attempt, policy, draw) == draw * capped;
  }

  /** Whichever source it comes from, a wait lies in [0, cap]. */
  lemma WaitWithin<E>(e: E, attempt: nat, policy: RetryPolicy, retryAfter: DelayReader<E>, draw: real)
    requires attempt >= 1 && FairPolicy(policy) && 0.0 <= draw < 1.0 && FairReading(retryAfter, e)
    ensures 0.0 <= ResolveDelay(e, attempt, policy, retryAfter, draw).seconds <= policy.backoffCap
  {
    BackoffWithin(attempt, policy, draw);
  }

  // ---- Which wait ----

  /** The smaller of two. */
  predicate Lesser(x: real, a: real, b: real) {
    x <= a && x <= b && (x == a || x == b)
  }

  function ServerSays<E>(retryAfter: DelayReader<E>, e: E): Option<ServerDelay> {
    if retryAfter.Some? then retryAfter.value(e) else None
  }

  /**
   * The server's delay cut at the cap when it gave one, the cap when it gave an unbounded one, and
   * otherwise the drawn share of the doubling backoff cut at the cap.
   */
  predicate WaitFor(wait: real, server: Option<ServerDelay>, attempt: nat, policy: RetryPolicy, draw: real)
    requires attempt >= 1
  {
    match server
    case Some(Seconds(value)) => Lesser(wait, value, policy.backoffCap)
    case Some(Unbounded) => wait == policy.backoffCap
    case None =>
      var doubled := policy.backoffBase * Pow2(attempt - 1);
      wait == draw * if doubled <= policy.backoffCap then doubled else policy.backoffCap
  }

  lemma DelayIs<E>(e: E, attempt: nat, policy: RetryPolicy, retryAfter: DelayReader<E>, draw: real)
    requires attempt >= 1
    ensures WaitFor(ResolveDelay(e, attempt, policy, retryAfter, draw).seconds, ServerSays(retryAfter, e), attempt, policy, draw)
  {
  }

  /** Every wait of a run is the one its own failed attempt calls for. */
  lemma WaitsAre<T, E>(
    attempts: Attempts<T, E>, policy: RetryPolicy, classify: E -> OutcomeClass, retryAfter: DelayReader<E>, t: Trace<T, E>)
    requires Bounded(attempts, policy, classify, retryAfter, t)
    ensures forall a: nat :: 1 <= a <= |t.sleeps| ==>
              attempts(a).Failed? && WaitFor(t.sleeps[a - 1], ServerSays(retryAfter, attempts(a).error), a, policy, attempts(a).draw)
  {
    forall a: nat | 1 <= a <= |t.sleeps|
      ensures attempts(a).Failed? && WaitFor(t.sleeps[a - 1], ServerSays(retryAfter, attempts(a).error), a, policy, attempts(a).draw)
    {
      DelayIs(attempts(a).error, a, policy, retryAfter, attempts(a).draw);
    }
  }

  /** The backoff starts at one base and doubles. */
  lemma BackoffDoubles(n: nat)
    ensures Pow2(0) == 1.0 && Pow2(n + 1) == Pow2(n) + Pow2(n)
  {
  }

  /** Time-outs, connection errors, server errors and rate limits are tried again, and nothing else. */
  lemma RetriedErrors(e: ProviderError)
    ensures Retryable<(), ProviderError>(Failed(e, 0.0, 0.0), Classify)
        <==> e == Timeout || e == ApiTimeout || e == ApiConnection || e == InternalServer || e.RateLimit?
  {
  }

  function Sum(xs: seq<real>): real {
    if xs == [] then 0.0 else Sum(xs[..|xs| - 1]) + xs[|xs| - 1]
  }

  lemma {:induction false} SumWithin(xs: seq<real>, most: real)
    requires forall i :: 0 <= i < |xs| ==> 0.0 <= xs[i] <= most
    ensures 0.0 <= Sum(xs) <= most * (|xs| as real)
  {
    if xs != [] {
      SumWithin(xs[..|xs| - 1], most);
      Distribute(most, |xs| - 1);
    }
  }

  lemma Distribute(most: real, n: nat)
    ensures most * ((n + 1) as real) == most * (n as real) + most
  {
  }

  function Durations<T, E>(attempts: Attempts<T, E>, calls: nat): (ds: seq<real>)
    ensures |ds| == calls
    ensures forall i :: 0 <= i < calls ==> ds[i] == attempts(i + 1).seconds
  {
    seq(calls, i requires 0 <= i < calls => attempts(i + 1).seconds)
  }

  /** Wall time: the calls and the waits between them. */
  function TotalTime<T, E>(attempts: Attempts<T, E>, t: Trace<T, E>): real {
    Sum(Durations(attempts, t.calls)) + Sum(t.sleeps)
  }

  lemma WaitsWithin<T, E>(
    attempts: Attempts<T, E>, policy: RetryPolicy, retryAfter: DelayReader<E>, calls: nat, sleeps: seq<real>)
    requires FairPolicy(policy) && FairAttempts(attempts, policy, retryAfter)
    requires SleptBetween(attempts, policy, retryAfter, calls, sleeps)
    ensures forall i :: 0 <= i < |sleeps| ==> 0.0 <= sleeps[i] <= policy.backoffCap
  {
    forall i | 0 <= i < |sleeps| ensures 0.0 <= sleeps[i] <= policy.backoffCap {
      var a: nat := i + 1;
      var failed := attempts(a);
      WaitWithin(failed.error, a, policy, retryAfter, failed.draw);
    }
  }

  lemma Monotone(x: real, m: nat, n: nat)
    requires x >= 0.0 && m <= n
    ensures x * (m as real) <= x * (n as real)
  {
    ProductNotNegative(x, (n - m) as real);
    assert x * (n as real) == x * (m as real) + x * ((n - m) as real);
  }

  /** Every wait is within [0, cap], there is one fewer than calls, and the whole takes no longer than promised. */
  lemma TimeIsBounded<T, E>(
    attempts: Attempts<T, E>, policy: RetryPolicy, classify: E -> OutcomeClass, retryAfter: DelayReader<E>, t: Trace<T, E>)
    requires FairPolicy(policy) && FairAttempts(attempts, policy, retryAfter) && policy.maxAttempts >= 1
    requires Bounded(attempts, policy, classify, retryAfter, t)
    ensures 1 <= t.calls <= policy.maxAttempts && |t.sleeps| == t.calls - 1
    ensures forall i :: 0 <= i < |t.sleeps| ==> 0.0 <= t.sleeps[i] <= policy.backoffCap
    ensures TotalTime(attempts, t)
         <= policy.timeoutSeconds * (policy.maxAttempts as real) + policy.backoffCap * ((policy.maxAttempts - 1) as real)
  {
    WaitsWithin(attempts, policy, retryAfter, t.calls, t.sleeps);
    var calls := policy.timeoutSeconds * (policy.maxAttempts as real);
    var waits := policy.backoffCap * ((policy.maxAttempts - 1) as real);
    assert Sum(t.sleeps) <= waits by {
      SumBound(t.sleeps, policy.backoffCap, policy.maxAttempts - 1);
    }
    assert Sum(Durations(attempts, t.calls)) <= calls by {
      CallsTime(attempts, policy, retryAfter, t.calls);
    }
  }

  lemma CallsTime<T, E>(attempts: Attempts<T, E>, policy: RetryPolicy, retryAfter: DelayReader<E>, calls: nat)
    requires FairPolicy(policy) && FairAttempts(attempts, policy, retryAfter) && calls <= policy.maxAttempts
    ensures Sum(Durations(attempts, calls)) <= policy.timeoutSeconds * (policy.maxAttempts as real)
  {
    var ds := Durations(attempts, calls);
    forall i | 0 <= i < |ds| ensures 0.0 <= ds[i] <= policy.timeoutSeconds {
      var a: nat := i + 1;
      assert 0.0 <= attempts(a).seconds <= policy.timeoutSeconds;
    }
    SumBound(ds, policy.timeoutSeconds, policy.maxAttempts);
  }

  lemma SumBound(xs: seq<real>, most: real, n: nat)
    requires |xs| <= n && most >= 0.0 && forall i :: 0 <= i < |xs| ==> 0.0 <= xs[i] <= most
    ensures Sum(xs) <= most * (n as real)
  {
    var p, q := most * (|xs| as real), most * (n as real);
    assert p <= q by {
      Monotone(most, |xs|, n);
    }
    assert Sum(xs) <= p by {
      SumWithin(xs, most);
    }
  }

  /** The outcomes and draws decide the run: there is only one trace for them. */
  lemma OneTrace<T, E>(
    attempts: Attempts<T, E>, policy: RetryPolicy, classify: E -> OutcomeClass, retryAfter: DelayReader<E>,
    s: Trace<T, E>, t: Trace<T, E>)
    requires Bounded(attempts, policy, classify, retryAfter, s) && Bounded(attempts, policy, classify, retryAfter, t)
    ensures s == t
  {
    if policy.maxAttempts > 0 {
      assert s.calls < t.calls ==> Retryable(attempts(s.calls), classify);
      assert t.calls < s.calls ==> Retryable(attempts(t.calls), classify);
      assert s.calls == t.calls;
      forall i | 0 <= i < |s.sleeps| ensures s.sleeps[i] == t.sleeps[i] {
        var a: nat := i + 1;
        assert attempts(a).Failed? && s.sleeps[a - 1] == t.sleeps[a - 1];
      }
    }
  }

  /**
   * The run returns a value exactly when some allowed attempt returned one with only retryable failures
   * before it; otherwise the error raised is the last call's own, and calls were exhausted if it was retryable.
   */
  lemma EndsAsItShould<T, E>(
    attempts: Attempts<T, E>, policy: RetryPolicy, classify: E -> OutcomeClass, retryAfter: DelayReader<E>, t: Trace<T, E>)
    requires Bounded(attempts, policy, classify, retryAfter, t) && policy.maxAttempts >= 1
    ensures t.ending.Value? <==>
              exists a: nat :: 1 <= a <= policy.maxAttempts && attempts(a).Returned?
                               && forall b: nat :: 1 <= b < a ==> Retryable(attempts(b), classify)
    ensures t.ending.Reraised? ==>
              && attempts(t.calls).Failed? && t.ending.error == attempts(t.calls).error
              && (classify(t.ending.error) != NonRetryableFailure ==> t.calls == policy.maxAttempts)
  {
    if t.ending.Value? {
      assert attempts(t.calls).Returned?;
    }
    if exists a: nat :: 1 <= a <= policy.maxAttempts && attempts(a).Returned?
                        && forall b: nat :: 1 <= b < a ==> Retryable(attempts(b), classify) {
      var a: nat :| 1 <= a <= policy.maxAttempts && attempts(a).Returned?
                    && forall b: nat :: 1 <= b < a ==> Retryable(attempts(b), classify);
      assert a < t.calls ==> Retryable(attempts(a), classify);
      assert t.calls < a ==> Retryable(attempts(t.calls), classify);
    }
  }
}
