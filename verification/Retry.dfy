/** The bounded retry loop used inside a dispatch, with exponential delays between tries. */
module Retry {
  import opened Numbers

  // How one call of the wrapped function ends.
  datatype Attempt<T> = Succeeds(result: T) | Throws(error: string, retryable: bool)

  datatype Outcome<T> = Returned(result: T) | Threw(error: string) | NeverCalled

  // The try the loop stops at, of `max`: the first that succeeds or may not be retried, else the last.
  ghost predicate StopsAt<T>(attempts: seq<Attempt<T>>, max: nat, k: nat) {
    && 1 <= k <= |attempts| && k <= max
    && (forall i | 0 <= i < k - 1 :: MayRetry(attempts[i]))
    && (k == max || !MayRetry(attempts[k - 1]))
  }

  predicate MayRetry<T>(attempt: Attempt<T>) {
    attempt.Throws? && attempt.retryable
  }

  /** `attempts[i]` is what try i + 1 would do; `calls` and `waited` are what the loop did. */
  method RetryWithBackoff<T>(attempts: seq<Attempt<T>>, baseDelayMs: nat)
    returns (outcome: Outcome<T>, calls: nat, waited: nat)
    ensures attempts == [] <==> outcome.NeverCalled?
    ensures attempts != [] ==>
      && StopsAt(attempts, |attempts|, calls)
      && outcome == (match attempts[calls - 1]
                     case Succeeds(result) => Returned(result)
                     case Throws(error, _) => Threw(error))
      && waited == baseDelayMs * (Pow2(calls - 1) - 1)
  {
    outcome, calls, waited := NeverCalled, 0, 0;
    var maxAttempts := |attempts|;
    var attempt := 1;
    while attempt <= maxAttempts
      invariant 1 <= attempt <= maxAttempts + 1 && calls == attempt - 1
      invariant forall i | 0 <= i < calls :: attempts[i].Throws? && attempts[i].retryable
      invariant calls > 0 ==> outcome == Threw(attempts[calls - 1].error)
      invariant calls == 0 ==> outcome.NeverCalled?
      invariant waited == baseDelayMs * (Pow2(if calls == maxAttempts && calls > 0 then calls - 1 else calls) - 1)
    {
      calls := attempt;
      match attempts[attempt - 1] {
        case Succeeds(result) => return Returned(result), calls, waited;
        case Throws(error, retryable) =>
          outcome := Threw(error);
          if !retryable {
            return;
          }
      }
      if attempt < maxAttempts {
        assert Pow2(attempt) == 2 * Pow2(attempt - 1);
        waited := waited + baseDelayMs * Pow2(attempt - 1);
      }
      attempt := attempt + 1;
    }
  }
}
