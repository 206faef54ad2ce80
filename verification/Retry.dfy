/** The retry policy under every table and blob call: `withRetry`, its backoff, and the
    wrapper that re-classifies the final error. */
module Retry {
  import opened Wrappers

  /** What a driver throws; `code` is absent when it is not a string. */
  datatype RawError = RawError(code: Option<string>, message: string)

  datatype Policy = Policy(maxAttempts: nat, baseDelayMs: nat, maxDelayMs: nat, maxElapsedMs: nat)

  /** One draw of `Math.random()`. */
  type Draw = r: real | 0.0 <= r < 1.0 witness 0.0

  /** What the environment has in store for one call: how it ends, how long it takes, and the random
      number drawn if a delay follows. */
  datatype Trial<T> = Trial(outcome: Result<T, RawError>, durationMs: nat, jitter: Draw)

  /** The environment's answer to each call of an operation; calls are numbered from 1. */
  type Plan<T> = nat -> Trial<T>

  /** How `withRetry` ends. It throws `None` only when it never called the operation. */
  datatype Ending<T> = Returned(value: T) | Threw(error: Option<RawError>)

  function Min(a: int, b: int): int {
    if a <= b then a else b
  }

  function Pow2(n: nat): (p: nat)
    ensures p >= 1
  {
    if n == 0 then 1 else 2 * Pow2(n - 1)
  }

  // ---------- backoff ----------

  function CappedDelay(attempt: nat, policy: Policy): nat
    requires attempt >= 1
  {
    Min(policy.baseDelayMs * Pow2(attempt - 1), policy.maxDelayMs)
  }

  /** `Math.round`. */
  function Round(x: real): int {
    (x + 0.5).Floor
  }

  /** The first delay is the base, and each one doubles the last; both are cut off at the maximum. */
  lemma CappedDelayDoubles(attempt: nat, policy: Policy)
    requires attempt >= 1
    ensures CappedDelay(1, policy) == Min(policy.baseDelayMs, policy.maxDelayMs)
    ensures CappedDelay(attempt + 1, policy) == Min(2 * CappedDelay(attempt, policy), policy.maxDelayMs)
  {
    var p := Pow2(attempt - 1);
    assert Pow2(attempt) == 2 * p;
    assert policy.baseDelayMs * (2 * p) == 2 * (policy.baseDelayMs * p);
  }

  /** The delay is the nearest millisecond to a share of the capped delay, from one half of it for the smallest draw to
      all of it for the largest; so it lies between half of the capped delay and the whole of it. */
  function BackoffDelay(attempt: nat, policy: Policy, jitter: Draw): (delay: nat)
    requires attempt >= 1
    ensures var share := CappedDelay(attempt, policy) as real * (1.0 + jitter) / 2.0;
            share - 0.5 < delay as real <= share + 0.5
    ensures CappedDelay(attempt, policy) <= 2 * delay
    ensures delay <= CappedDelay(attempt, policy) <= policy.maxDelayMs
  {
    var capped := CappedDelay(attempt, policy);
    var factor := 0.5 + jitter * 0.5;
    JitteredWithinCap(capped, factor);
    Round(capped as real * factor)
  }

  lemma JitteredWithinCap(capped: nat, factor: real)
    requires 0.5 <= factor < 1.0
    ensures 0 <= Round(capped as real * factor) <= capped <= 2 * Round(capped as real * factor)
  {
    var c, x := capped as real, capped as real * factor;
    ProductNonNegative(c, factor - 0.5);
    ProductNonNegative(c, 1.0 - factor);
    assert c * 0.5 <= x <= c;
  }

  lemma ProductNonNegative(a: real, b: real)
    requires a >= 0.0 && b >= 0.0
    ensures a * b >= 0.0
  {
  }

  // ---------- the timetable of an operation ----------

  /** When call `n` starts, in milliseconds after the operation started, if every earlier call was retried. */
  function StartOf<T>(plan: Plan<T>, policy: Policy, n: nat): nat
    requires n >= 1
    decreases n, 0
  {
    if n == 1 then 0
    else EndOf(plan, policy, n - 1) + BackoffDelay(n - 1, policy, plan(n - 1).jitter)
  }

  /** When call `n` ends. */
  function EndOf<T>(plan: Plan<T>, policy: Policy, n: nat): nat
    requires n >= 1
    decreases n, 1
  {
    StartOf(plan, policy, n) + plan(n).durationMs
  }

  predicate Transient<T>(trial: Trial<T>, isRetryable: RawError -> bool) {
    trial.outcome.Err? && isRetryable(trial.outcome.error)
  }

  predicate BudgetSpent<T>(plan: Plan<T>, policy: Policy, n: nat)
    requires n >= 1
  {
    n >= policy.maxAttempts || EndOf(plan, policy, n) >= policy.maxElapsedMs
  }

  /** Nothing follows call `n`: it succeeded, failed for good, or used up the attempts or the time. */
  predicate StopsAt<T>(plan: Plan<T>, policy: Policy, isRetryable: RawError -> bool, n: nat)
    requires n >= 1
  {
    !Transient(plan(n), isRetryable) || BudgetSpent(plan, policy, n)
  }

  /** `n` is the number of calls the operation makes: the first at which it stops. */
  ghost predicate IsCallCount<T>(plan: Plan<T>, policy: Policy, isRetryable: RawError -> bool, n: nat) {
    && n >= 1
    && StopsAt(plan, policy, isRetryable, n)
    && forall m :: 1 <= m < n ==> !StopsAt(plan, policy, isRetryable, m)
  }

  function EndingOf<T>(trial: Trial<T>): Ending<T> {
    match trial.outcome
    case Ok(v) => Returned(v)
    case Err(e) => Threw(Some(e))
  }

  /** The number of calls is determined, and never exceeds the allowed attempts. */
  lemma CallCountUnique<T>(plan: Plan<T>, policy: Policy, isRetryable: RawError -> bool, m: nat, n: nat)
    requires policy.maxAttempts >= 1
    requires IsCallCount(plan, policy, isRetryable, m) && IsCallCount(plan, policy, isRetryable, n)
    ensures m == n <= policy.maxAttempts
  {
    assert StopsAt(plan, policy, isRetryable, policy.maxAttempts);
  }

  /** Each call before call `n` failed with a retryable error and ended in time. */
  ghost predicate RetriedThrough<T>(plan: Plan<T>, policy: Policy, isRetryable: RawError -> bool, n: nat) {
    forall m :: 1 <= m < n ==>
      && plan(m).outcome.Err? && isRetryable(plan(m).outcome.error)
      && EndOf(plan, policy, m) < policy.maxElapsedMs
  }

  /** After `n` calls there is a reason to stop: a success, an error that is not retryable, the last allowed attempt, or
      the end of the time. */
  ghost predicate HasReasonToStop<T>(plan: Plan<T>, policy: Policy, isRetryable: RawError -> bool, n: nat)
    requires n >= 1
  {
    || plan(n).outcome.Ok?
    || !isRetryable(plan(n).outcome.error)
    || n == policy.maxAttempts
    || EndOf(plan, policy, n) >= policy.maxElapsedMs
  }

  /** Calls are made as long as they are retried through and allowed, and not beyond a reason to stop. */
  lemma CallCountMeaning<T>(plan: Plan<T>, policy: Policy, isRetryable: RawError -> bool, n: nat)
    requires policy.maxAttempts >= 1
    ensures IsCallCount(plan, policy, isRetryable, n)
            <==> && 1 <= n <= policy.maxAttempts && RetriedThrough(plan, policy, isRetryable, n)
                 && HasReasonToStop(plan, policy, isRetryable, n)
  {
    hide EndOf;
    if IsCallCount(plan, policy, isRetryable, n) {
      CallCountUnique(plan, policy, isRetryable, n, n);
      forall m | 1 <= m < n
        ensures plan(m).outcome.Err? && isRetryable(plan(m).outcome.error)
        ensures EndOf(plan, policy, m) < policy.maxElapsedMs
      {
        assert !StopsAt(plan, policy, isRetryable, m);
      }
    }
  }

  /** It never gives up early: if call `k` is allowed and reached, it is made; and if it succeeds, it is the last. */
  lemma NeverGivesUpEarly<T>(plan: Plan<T>, policy: Policy, isRetryable: RawError -> bool, n: nat, k: nat)
    requires policy.maxAttempts >= 1 && IsCallCount(plan, policy, isRetryable, n)
    requires 1 <= k <= policy.maxAttempts && RetriedThrough(plan, policy, isRetryable, k)
    ensures k <= n && (plan(k).outcome.Ok? ==> k == n)
  {
    CallCountMeaning(plan, policy, isRetryable, n);
  }

  // ---------- metrics ----------

  /** The two retry counters, with the history they summarise. */
  class Metrics {
    var retryAttempts: nat
    var retryExhausted: nat
    ghost var operations: nat
    ghost var calls: nat

    constructor ()
      ensures Conserved() && operations == 0
    {
      retryAttempts, retryExhausted := 0, 0;
      operations, calls := 0, 0;
    }

    /** Each retry is a call beyond an operation's first; each exhaustion an operation that failed after more than
        one call. */
    ghost predicate Conserved()
      reads this
    {
      retryAttempts + operations == calls
    }
  }

  /** Runs an operation under the policy. `clock` is the time since it started; the environment is `plan`. */
  method WithRetry<T>(plan: Plan<T>, policy: Policy, isRetryable: RawError -> bool, metrics: Metrics)
    returns (ending: Ending<T>, calls: nat, clock: nat)
    modifies metrics
    ensures policy.maxAttempts == 0 ==> ending == Threw(None) && calls == 0 && clock == 0
    ensures policy.maxAttempts >= 1 ==>
              && IsCallCount(plan, policy, isRetryable, calls) && ending == EndingOf(plan(calls))
              && clock == EndOf(plan, policy, calls)
    ensures policy.maxAttempts >= 1 ==>
              && 1 <= calls <= policy.maxAttempts && RetriedThrough(plan, policy, isRetryable, calls)
              && HasReasonToStop(plan, policy, isRetryable, calls)
    ensures policy.maxAttempts >= 1 ==>
              match plan(calls).outcome
              case Ok(value) => ending == Returned(value)
              case Err(error) => ending == Threw(Some(error))
    ensures metrics.retryAttempts == old(metrics.retryAttempts) + (if calls == 0 then 0 else calls - 1)
    ensures metrics.retryExhausted == old(metrics.retryExhausted) + (if ending.Threw? && calls > 1 then 1 else 0)
    ensures metrics.operations == old(metrics.operations) + 1 && metrics.calls == old(metrics.calls) + calls
    ensures old(metrics.Conserved()) && policy.maxAttempts >= 1 ==> metrics.Conserved()
  {
    var attempt := 0;
    var lastError := None;
    clock := 0;
    metrics.operations := metrics.operations + 1;
    while attempt < policy.maxAttempts
      invariant 0 <= attempt <= policy.maxAttempts
      invariant attempt == 0 ==> clock == 0
      invariant forall m :: 1 <= m <= attempt ==> !StopsAt(plan, policy, isRetryable, m)
      invariant attempt >= 1 ==> attempt < policy.maxAttempts
      invariant clock == StartOf(plan, policy, attempt + 1)
      invariant lastError == None <==> attempt == 0
      invariant metrics.retryAttempts == old(metrics.retryAttempts) + attempt
      invariant metrics.retryExhausted == old(metrics.retryExhausted)
      invariant metrics.operations == old(metrics.operations) + 1
      invariant metrics.calls == old(metrics.calls) + attempt
    {
      attempt := attempt + 1;
      var trial := plan(attempt);
      metrics.calls := metrics.calls + 1;
      clock := clock + trial.durationMs;
      match trial.outcome
      case Ok(value) =>
        CallCountMeaning(plan, policy, isRetryable, attempt);
        return Returned(value), attempt, clock;
      case Err(error) =>
        lastError := Some(error);
        var attemptsRemain := attempt < policy.maxAttempts;
        var timeRemains := clock < policy.maxElapsedMs;
        if !isRetryable(error) || !attemptsRemain || !timeRemains {
          if attempt > 1 {
            metrics.retryExhausted := metrics.retryExhausted + 1;
          }
          CallCountMeaning(plan, policy, isRetryable, attempt);
          return Threw(Some(error)), attempt, clock;
        }
        metrics.retryAttempts := metrics.retryAttempts + 1;
        clock := clock + BackoffDelay(attempt, policy, trial.jitter);
    }
    return Threw(lastError), attempt, clock;
  }

  // ---------- bounds ----------

  /** Every call starts before the time budget plus one maximal delay; when both are zero there is one call, at time
      zero. */
  lemma CallsStartInTime<T>(plan: Plan<T>, policy: Policy, isRetryable: RawError -> bool, n: nat, m: nat)
    requires IsCallCount(plan, policy, isRetryable, n) && 1 <= m <= n
    ensures StartOf(plan, policy, m) < policy.maxElapsedMs + policy.maxDelayMs
            || (n == 1 && policy.maxElapsedMs == policy.maxDelayMs == 0)
  {
    if m > 1 {
      assert !StopsAt(plan, policy, isRetryable, m - 1);
    } else if n > 1 {
      assert !StopsAt(plan, policy, isRetryable, 1);
    }
  }

  /** The time slept before call `n`. */
  function Slept<T>(plan: Plan<T>, policy: Policy, n: nat): nat
    requires n >= 1
  {
    if n == 1 then 0 else Slept(plan, policy, n - 1) + BackoffDelay(n - 1, policy, plan(n - 1).jitter)
  }

  function CallTime<T>(plan: Plan<T>, n: nat): nat {
    if n == 0 then 0 else CallTime(plan, n - 1) + plan(n).durationMs
  }

  function CappedSum(policy: Policy, n: nat): nat
    requires n >= 1
  {
    if n == 1 then 0 else CappedSum(policy, n - 1) + CappedDelay(n - 1, policy)
  }

  /** Elapsed time is time in calls plus time asleep; with `n` calls the sleep is bounded on both sides. */
  lemma {:induction false} SleepBounds<T>(plan: Plan<T>, policy: Policy, n: nat)
    requires n >= 1
    ensures EndOf(plan, policy, n) == CallTime(plan, n) + Slept(plan, policy, n)
    ensures Slept(plan, policy, n) <= (n - 1) * policy.maxDelayMs
    ensures Slept(plan, policy, n) <= policy.baseDelayMs * (Pow2(n - 1) - 1)
    ensures CappedSum(policy, n) <= 2 * Slept(plan, policy, n)
  {
    if n == 1 {
      assert CallTime(plan, 1) == plan(1).durationMs;
    } else {
      SleepBounds(plan, policy, n - 1);
      DoublingSum(policy.baseDelayMs, Pow2(n - 2));
      Multiples(n - 1, policy.maxDelayMs);
      var delay := BackoffDelay(n - 1, policy, plan(n - 1).jitter);
      assert delay <= policy.baseDelayMs * Pow2(n - 2);
      assert Pow2(n - 1) == 2 * Pow2(n - 2);
    }
  }

  lemma DoublingSum(base: int, p: int)
    ensures base * (p - 1) + base * p == base * (2 * p - 1)
  {
  }

  lemma Multiples(k: int, d: int)
    ensures (k - 1) * d + d == k * d
  {
  }

  // ---------- classification and wrapping ----------

  const RETRYABLE_POSTGRES_SQLSTATES: set<string> :=
    {"40001", "40P01", "53300", "55P03", "57P03", "08000", "08003", "08006", "08001", "08004"}
  const RETRYABLE_NETWORK_CODES: set<string> :=
    {"ECONNREFUSED", "ECONNRESET", "ETIMEDOUT", "EPIPE", "EAI_AGAIN"}
  const RETRYABLE_FS_CODES: set<string> :=
    {"EBUSY", "EAGAIN", "EMFILE", "ENFILE", "EIO"}

  datatype Resource = Database | Storage

  predicate IsRetryable(resource: Resource, error: RawError) {
    error.code.Some? &&
    match resource
    case Database => error.code.value in RETRYABLE_POSTGRES_SQLSTATES || error.code.value in RETRYABLE_NETWORK_CODES
    case Storage => error.code.value in RETRYABLE_FS_CODES
  }

  /** A database error is worth a retry exactly for these SQLSTATEs and network codes, a storage error exactly for these
      file codes; and no error is worth one for both. */
  lemma TransientCodes(error: RawError)
    ensures IsRetryable(Database, error)
            <==> error.code.Some?
                 && error.code.value in ["40001", "40P01", "53300", "55P03", "57P03",
                                         "08000", "08001", "08003", "08004", "08006",
                                         "ECONNREFUSED", "ECONNRESET", "ETIMEDOUT", "EPIPE", "EAI_AGAIN"]
    ensures IsRetryable(Storage, error)
            <==> error.code.Some? && error.code.value in ["EBUSY", "EAGAIN", "EMFILE", "ENFILE", "EIO"]
    ensures !(IsRetryable(Database, error) && IsRetryable(Storage, error))
  {
  }

  function Classifier(resource: Resource): RawError -> bool {
    e => IsRetryable(resource, e)
  }

  datatype AppError =
    | RetryExhaustedError(cause: RawError)
    | DatabaseError(cause: RawError)
    | StorageError(cause: RawError)

  /** `wrapDatabaseError` and `wrapStorageError`. */
  function WrapError(resource: Resource, cause: RawError): AppError {
    if IsRetryable(resource, cause) then RetryExhaustedError(cause)
    else match resource
      case Database => DatabaseError(cause)
      case Storage => StorageError(cause)
  }

  /** The class of the final error says why the loop stopped. */
  ghost predicate ClassExplainsStop<T>(resource: Resource, plan: Plan<T>, policy: Policy, calls: nat, error: AppError)
    requires calls >= 1
  {
    && plan(calls).outcome == Err(error.cause)
    && (error.RetryExhaustedError? <==> IsRetryable(resource, error.cause))
    && (error.RetryExhaustedError? ==>
          calls == policy.maxAttempts || EndOf(plan, policy, calls) >= policy.maxElapsedMs)
    && (error.DatabaseError? ==> resource == Database)
    && (error.StorageError? ==> resource == Storage)
  }

  /** One method of a wrapped repository or blob store. */
  method Resilient<T>(resource: Resource, plan: Plan<T>, policy: Policy, metrics: Metrics)
    returns (result: Result<T, AppError>, calls: nat)
    requires policy.maxAttempts >= 1
    modifies metrics
    ensures IsCallCount(plan, policy, Classifier(resource), calls)
    ensures 1 <= calls <= policy.maxAttempts && RetriedThrough(plan, policy, Classifier(resource), calls)
    ensures forall k: nat :: 1 <= k <= policy.maxAttempts && RetriedThrough(plan, policy, Classifier(resource), k) ==>
              k <= calls && (plan(k).outcome.Ok? ==> k == calls && result == Ok(plan(k).outcome.value))
    ensures result.Ok? ==> plan(calls).outcome == Ok(result.value)
    ensures result.Err? ==> ClassExplainsStop(resource, plan, policy, calls, result.error)
    ensures metrics.retryAttempts == old(metrics.retryAttempts) + calls - 1
    ensures metrics.retryExhausted == old(metrics.retryExhausted) + (if result.Err? && calls > 1 then 1 else 0)
    ensures metrics.operations == old(metrics.operations) + 1 && metrics.calls == old(metrics.calls) + calls
    ensures old(metrics.Conserved()) ==> metrics.Conserved()
  {
    var isRetryable := Classifier(resource);
    var ending, n, _ := WithRetry(plan, policy, isRetryable, metrics);
    calls := n;
    CallCountMeaning(plan, policy, isRetryable, n);
    forall k: nat | 1 <= k <= policy.maxAttempts && RetriedThrough(plan, policy, isRetryable, k)
      ensures k <= n && (plan(k).outcome.Ok? ==> k == n)
    {
      NeverGivesUpEarly(plan, policy, isRetryable, n, k);
    }
    result := match ending case Returned(value) => Ok(value) case Threw(error) => Err(WrapError(resource, error.value));
  }
}
