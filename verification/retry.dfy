/** `withRetry`: a bounded attempt loop with a non-retryable short-circuit, an
    `onRetry` observer and exponential delays. The operation is given by the
    outcome of each invocation; the delays are recorded instead of slept. */
module Retry {
  import opened Base

  /** `error instanceof Error ? error : new Error(String(error))`. */
  function Normalize(t: Thrown): (e: Error)
    ensures t.ThrownError? ==> e == t.error
    ensures !t.ThrownError? ==> e.kind == PlainError && e.cause == None
    ensures t.ThrownValue? ==> e == NewError(t.text)
    ensures t.ThrownUndefined? ==> e == NewError("undefined")
  {
    match t
    case ThrownError(e) => e
    case ThrownValue(text) => NewError(text)
    case ThrownUndefined => NewError("undefined")
  }

  /** `!(options?.shouldRetry && !options.shouldRetry(error))`: with no
      predicate every error may be retried. */
  predicate MayRetry(shouldRetry: Option<Error -> bool>, e: Error) {
    shouldRetry.None? || shouldRetry.value(e)
  }

  function Pow(b: nat, e: nat): nat {
    if e == 0 then 1 else b * Pow(b, e - 1)
  }

  /** `delayMs * backoffFactor ^ (attempt - 1)`, the wait after failed attempt `attempt`. */
  function Backoff(delayMs: int, backoffFactor: nat, attempt: nat): int
    requires attempt >= 1
  {
    delayMs * Pow(backoffFactor, attempt - 1)
  }

  /** With `backoffFactor = 1` every wait is `delayMs`. */
  lemma {:induction false} UnitFactorIsConstant(delayMs: int, attempt: nat)
    requires attempt >= 1
    ensures Backoff(delayMs, 1, attempt) == delayMs
  {
    UnitPow(attempt - 1);
  }

  lemma {:induction false} UnitPow(e: nat)
    ensures Pow(1, e) == 1
  {
    if e > 0 {
      UnitPow(e - 1);
    }
  }

  /** With a factor of at least 1 the waits never shrink from one attempt to the next. */
  lemma {:induction false} BackoffGrows(delayMs: nat, backoffFactor: nat, attempt: nat)
    requires attempt >= 1 && backoffFactor >= 1
    ensures Backoff(delayMs, backoffFactor, attempt) <= Backoff(delayMs, backoffFactor, attempt + 1)
  {
    var p := Pow(backoffFactor, attempt - 1);
    assert Pow(backoffFactor, attempt) == backoffFactor * p;
    assert p <= backoffFactor * p;
  }

  /** `withRetry(operation, { maxAttempts, delayMs, backoffFactor }, { shouldRetry, onRetry })`.
      `op(k)` is how invocation k (from 1) settles. Returns how the call
      settles, how many times the operation was invoked, the `(error, attempt)`
      pairs `onRetry` receives, and the delays waited, in order. */
  method WithRetry<T>(op: nat -> Outcome<T>, maxAttempts: int, delayMs: int, backoffFactor: nat,
                      shouldRetry: Option<Error -> bool>)
    returns (result: Outcome<T>, invocations: nat, retries: seq<(Error, nat)>, delays: seq<int>)
    ensures maxAttempts < 1 ==> invocations == 0 && result == Fail(ThrownUndefined)
    ensures maxAttempts >= 1 ==> 1 <= invocations <= maxAttempts
    // every invocation before the last failed with an error that may be retried
    ensures forall k :: 1 <= k < invocations ==> op(k).Fail? && MayRetry(shouldRetry, Normalize(op(k).thrown))
    // the first success is returned as it is
    ensures result.Ok? <==> invocations >= 1 && op(invocations).Ok?
    ensures result.Ok? ==> result == op(invocations)
    // a failure is the normalised error of the last invocation, thrown either
    // because it may not be retried or because the attempts are used up
    ensures invocations >= 1 && result.Fail? ==>
      && result == Fail(ThrownError(Normalize(op(invocations).thrown)))
      && (invocations == maxAttempts || !MayRetry(shouldRetry, Normalize(op(invocations).thrown)))
    // onRetry and the delay happen once per failed attempt that is followed by another
    ensures |retries| == |delays| == if invocations == 0 then 0 else invocations - 1
    ensures forall k :: 1 <= k < invocations ==>
      retries[k - 1] == (Normalize(op(k).thrown), k) && delays[k - 1] == Backoff(delayMs, backoffFactor, k)
  {
    invocations, retries, delays := 0, [], [];
    var attempt := 1;
    while attempt <= maxAttempts
      invariant 1 <= attempt && invocations == attempt - 1
      invariant attempt == 1 || attempt <= maxAttempts
      invariant forall k :: 1 <= k < attempt ==> op(k).Fail? && MayRetry(shouldRetry, Normalize(op(k).thrown))
      invariant |retries| == |delays| == attempt - 1
      invariant forall k :: 1 <= k < attempt ==>
        retries[k - 1] == (Normalize(op(k).thrown), k) && delays[k - 1] == Backoff(delayMs, backoffFactor, k)
    {
      invocations := attempt;
      var settled := op(attempt);
      if settled.Ok? {
        return settled, invocations, retries, delays;
      }
      var e := Normalize(settled.thrown);
      if !MayRetry(shouldRetry, e) {
        return Fail(ThrownError(e)), invocations, retries, delays;
      }
      if attempt == maxAttempts {
        return Fail(ThrownError(e)), invocations, retries, delays;
      }
      retries := retries + [(e, attempt)];
      delays := delays + [Backoff(delayMs, backoffFactor, attempt)];
      attempt := attempt + 1;
    }
    // the loop only falls through when it never ran, so `lastError` is still undefined
    result := Fail(ThrownUndefined);
  }

  /** The policy { maxAttempts: 3, delayMs: 1000, backoffFactor: 1 } against an
      operation that fails twice and then succeeds: three invocations, two
      `onRetry` calls and 2000 ms of waiting in all. */
  method TwoFailuresThenSuccess() returns (invocations: nat, observed: nat, waited: int)
    ensures invocations == 3 && observed == 2 && waited == 2000
  {
    var failure: Outcome<()> := Fail(ThrownError(NewError("transient")));
    var op := (k: nat) => if k <= 2 then failure else Ok(());
    var result, retries, delays;
    result, invocations, retries, delays := WithRetry(op, 3, 1000, 1, None);
    assert op(1).Fail? && op(2).Fail? && op(3).Ok?;
    assert invocations == 3;
    UnitFactorIsConstant(1000, 1);
    UnitFactorIsConstant(1000, 2);
    observed := |retries|;
    waited := delays[0] + delays[1];
  }
}
