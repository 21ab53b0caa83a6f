// The retry decorator: call the wrapped function up to max_attempts times,
// retrying only on the configured exception classes, sleeping between
// attempts, and raising RetryError with the last exception when every
// attempt failed.
module Retry {
  import opened Wrappers
  import opened Text

  /** An exception, with the names of its class and of every class it inherits from. */
  datatype Exception = Exception(classes: set<string>, message: string)

  /** `isinstance(e, exceptions)`. */
  predicate Matches(exceptions: set<string>, e: Exception)
  {
    exists c :: c in exceptions && c in e.classes
  }

  /** What one call of the wrapped function does. */
  datatype Outcome = Returned(value: string) | Raised(error: Exception)

  /** What the wrapper does: return the value, let a non-matching exception through, or raise RetryError carrying the last exception (and, for the async wrapper, chained from it). */
  datatype RetryResult =
    | Success(value: string)
    | Propagated(error: Exception)
    | RetryFailed(message: string, lastException: Option<Exception>, cause: Option<Exception>)

  /** The two wrappers; their loops are the same, the async one awaits and chains the RetryError to the last exception. */
  datatype Wrapper = SyncWrapper | AsyncWrapper

  /** `asyncio.iscoroutinefunction(func)` picks the async wrapper. */
  function ChooseWrapper(isCoroutineFunction: bool): (w: Wrapper)
    ensures w.AsyncWrapper? <==> isCoroutineFunction
  {
    if isCoroutineFunction then AsyncWrapper else SyncWrapper
  }

  function FailureMessage(name: string, maxAttempts: int): string
  {
    "Function " + name + " failed after " + IntToString(maxAttempts) + " attempts"
  }

  function Exhausted(w: Wrapper, name: string, maxAttempts: int, last: Option<Exception>): RetryResult
  {
    RetryFailed(FailureMessage(name, maxAttempts), last, if w.AsyncWrapper? then last else None)
  }

  /** The result of a run of the wrapper, with how many calls it made and how many times it slept. */
  datatype Trace = Trace(result: RetryResult, calls: nat, sleeps: nat)

  /** The loop from attempt `attempt` on, where attempt k sees the outcome `outcomes(first + k)` and `last` is the last exception caught. */
  function RetryFrom(w: Wrapper, outcomes: nat -> Outcome, first: nat, attempt: nat, maxAttempts: int,
                     exceptions: set<string>, name: string, last: Option<Exception>): Trace
    decreases if maxAttempts > attempt then maxAttempts - attempt else 0
  {
    if attempt >= maxAttempts then Trace(Exhausted(w, name, maxAttempts, last), 0, 0)
    else match outcomes(first + attempt)
      case Returned(v) => Trace(Success(v), 1, 0)
      case Raised(e) =>
        if !Matches(exceptions, e) then Trace(Propagated(e), 1, 0)
        else if attempt == maxAttempts - 1 then Trace(Exhausted(w, name, maxAttempts, Some(e)), 1, 0)
        else
          var rest := RetryFrom(w, outcomes, first, attempt + 1, maxAttempts, exceptions, name, Some(e));
          Trace(rest.result, rest.calls + 1, rest.sleeps + 1)
  }

  /** A whole run of the wrapper, starting with no exception caught. */
  function RunRetry(w: Wrapper, outcomes: nat -> Outcome, first: nat, maxAttempts: int, exceptions: set<string>, name: string): Trace
  {
    RetryFrom(w, outcomes, first, 0, maxAttempts, exceptions, name, None)
  }

  /** The wrapper picked for a coroutine function makes the same calls and sleeps and ends the same way; only its RetryError is chained to the last exception. */
  lemma {:induction false} AsyncDiffersOnlyInChaining(outcomes: nat -> Outcome, first: nat, attempt: nat, maxAttempts: int,
                                                      exceptions: set<string>, name: string, last: Option<Exception>)
    ensures var s := RetryFrom(ChooseWrapper(false), outcomes, first, attempt, maxAttempts, exceptions, name, last);
      var a := RetryFrom(ChooseWrapper(true), outcomes, first, attempt, maxAttempts, exceptions, name, last);
      && s.calls == a.calls && s.sleeps == a.sleeps
      && (s.result.RetryFailed? ==> a.result == s.result.(cause := s.result.lastException))
      && (!s.result.RetryFailed? ==> a.result == s.result)
    decreases if maxAttempts > attempt then maxAttempts - attempt else 0
  {
    if attempt < maxAttempts - 1 {
      match outcomes(first + attempt)
      case Returned(_) =>
      case Raised(e) => AsyncDiffersOnlyInChaining(outcomes, first, attempt + 1, maxAttempts, exceptions, name, Some(e));
    }
  }

  /** The wrapped function: `outcome(n)` is what its n-th call does. */
  class Callee {
    const outcome: nat -> Outcome
    var calls: nat

    constructor (outcome: nat -> Outcome)
      ensures this.outcome == outcome && calls == 0
    {
      this.outcome := outcome;
      calls := 0;
    }

    method Call() returns (o: Outcome)
      modifies this
      ensures calls == old(calls) + 1 && o == outcome(old(calls))
    {
      o := outcome(calls);
      calls := calls + 1;
    }
  }

  /** `time.sleep` / `asyncio.sleep`: records the attempt after which it slept; the delay itself is not modelled. */
  class Sleeper {
    var slept: seq<nat>

    constructor ()
      ensures slept == []
    {
      slept := [];
    }

    method Sleep(attempt: nat)
      modifies this
      ensures slept == old(slept) + [attempt]
    {
      slept := slept + [attempt];
    }
  }

  /** The attempts 0 to n - 1, in order. */
  function Upto(n: nat): (r: seq<nat>)
    ensures |r| == n && forall k :: 0 <= k < n ==> r[k] == k
  {
    if n == 0 then [] else Upto(n - 1) + [n - 1]
  }

  /** `sync_wrapper` / `async_wrapper`: the attempt loop. */
  method Wrapped(w: Wrapper, f: Callee, sleeper: Sleeper, maxAttempts: int, exceptions: set<string>, name: string)
    returns (r: RetryResult)
    modifies f, sleeper
    ensures var t := RunRetry(w, f.outcome, old(f.calls), maxAttempts, exceptions, name);
      && r == t.result
      && f.calls == old(f.calls) + t.calls
      && sleeper.slept == old(sleeper.slept) + Upto(t.sleeps)
  {
    ghost var first := f.calls;
    ghost var slept0 := sleeper.slept;
    ghost var t0 := RunRetry(w, f.outcome, first, maxAttempts, exceptions, name);
    var last: Option<Exception> := None;
    var attempt: nat := 0;
    while attempt < maxAttempts
      invariant attempt as int <= (if maxAttempts < 0 then 0 else maxAttempts)
      invariant f.calls == first + attempt
      invariant sleeper.slept == slept0 + Upto(attempt)
      invariant attempt == 0 ==> last.None?
      invariant t0 == Shift(RetryFrom(w, f.outcome, first, attempt, maxAttempts, exceptions, name, last), attempt)
      decreases maxAttempts - attempt
    {
      var done, result, next := Attempt(w, f, sleeper, maxAttempts, exceptions, name, attempt, last, first);
      if done {
        return result;
      }
      assert sleeper.slept == slept0 + Upto(attempt + 1) by {
        assert Upto(attempt + 1) == Upto(attempt) + [attempt];
        assert slept0 + Upto(attempt) + [attempt] == slept0 + (Upto(attempt) + [attempt]);
      }
      last := next;
      attempt := attempt + 1;
    }
    r := Exhausted(w, name, maxAttempts, last);
  }

  /** One pass of the attempt loop: call, then return, re-raise, give up after the last attempt, or sleep before the next one. */
  method Attempt(w: Wrapper, f: Callee, sleeper: Sleeper, maxAttempts: int, exceptions: set<string>, name: string,
                 attempt: nat, last: Option<Exception>, ghost first: nat)
    returns (done: bool, r: RetryResult, next: Option<Exception>)
    requires attempt < maxAttempts && f.calls == first + attempt
    modifies f, sleeper
    ensures f.calls == first + attempt + 1
    ensures done ==> sleeper.slept == old(sleeper.slept)
    ensures done ==> RetryFrom(w, f.outcome, first, attempt, maxAttempts, exceptions, name, last) == Trace(r, 1, 0)
    ensures !done ==> next.Some? && attempt < maxAttempts - 1 && sleeper.slept == old(sleeper.slept) + [attempt]
    ensures !done ==> Shift(RetryFrom(w, f.outcome, first, attempt, maxAttempts, exceptions, name, last), attempt)
                      == Shift(RetryFrom(w, f.outcome, first, attempt + 1, maxAttempts, exceptions, name, next), attempt + 1)
  {
    var o := f.Call();
    match o {
      case Returned(v) => return true, Success(v), last;
      case Raised(e) =>
        if !Matches(exceptions, e) {
          return true, Propagated(e), last;
        }
        if attempt == maxAttempts - 1 {
          return true, Exhausted(w, name, maxAttempts, Some(e)), Some(e);
        }
        RetryStep(w, f.outcome, first, attempt, maxAttempts, exceptions, name, last, e);
        sleeper.Sleep(attempt);
        return false, Success(""), Some(e);
    }
  }

  /** A trace with k more calls and sleeps in front. */
  function Shift(t: Trace, k: nat): Trace
  {
    Trace(t.result, t.calls + k, t.sleeps + k)
  }

  /** One more attempt after a matching exception that was not the last: one more call and one more sleep. */
  lemma RetryStep(w: Wrapper, outcomes: nat -> Outcome, first: nat, attempt: nat, maxAttempts: int,
                  exceptions: set<string>, name: string, prev: Option<Exception>, e: Exception)
    requires attempt < maxAttempts - 1
    requires outcomes(first + attempt) == Raised(e) && Matches(exceptions, e)
    ensures Shift(RetryFrom(w, outcomes, first, attempt, maxAttempts, exceptions, name, prev), attempt)
         == Shift(RetryFrom(w, outcomes, first, attempt + 1, maxAttempts, exceptions, name, Some(e)), attempt + 1)
  {
  }

  /** The wrapper never calls more than max_attempts times, and sleeps once between each two calls and never after the last. */
  lemma {:induction false} CallsAndSleeps(w: Wrapper, outcomes: nat -> Outcome, first: nat, attempt: nat, maxAttempts: int,
                                          exceptions: set<string>, name: string, last: Option<Exception>)
    ensures var t := RetryFrom(w, outcomes, first, attempt, maxAttempts, exceptions, name, last);
      && (attempt < maxAttempts ==> t.calls <= maxAttempts - attempt && t.calls >= 1 && t.sleeps == t.calls - 1)
      && (attempt >= maxAttempts ==> t.calls == 0 && t.sleeps == 0)
    decreases if maxAttempts > attempt then maxAttempts - attempt else 0
  {
    if attempt < maxAttempts - 1 {
      match outcomes(first + attempt)
      case Returned(_) =>
      case Raised(e) => CallsAndSleeps(w, outcomes, first, attempt + 1, maxAttempts, exceptions, name, Some(e));
    }
  }

  /** The first call that returns gives the result, when every call before it raised a matching exception. */
  lemma {:induction false} FirstSuccessReturned(w: Wrapper, outcomes: nat -> Outcome, first: nat, attempt: nat, k: nat, maxAttempts: int,
                                                exceptions: set<string>, name: string, last: Option<Exception>)
    requires attempt <= k < maxAttempts && outcomes(first + k).Returned?
    requires forall i: nat :: first + attempt <= i < first + k ==> outcomes(i).Raised? && Matches(exceptions, outcomes(i).error)
    ensures RetryFrom(w, outcomes, first, attempt, maxAttempts, exceptions, name, last) == Trace(Success(outcomes(first + k).value), k - attempt + 1, k - attempt)
    decreases k - attempt
  {
    if attempt < k {
      assert outcomes(first + attempt).Raised?;
      FirstSuccessReturned(w, outcomes, first, attempt + 1, k, maxAttempts, exceptions, name, Some(outcomes(first + attempt).error));
    }
  }

  /** An exception of a class not retried on goes straight out, and no further call is made. */
  lemma {:induction false} OtherExceptionPropagates(w: Wrapper, outcomes: nat -> Outcome, first: nat, attempt: nat, k: nat, maxAttempts: int,
                                                    exceptions: set<string>, name: string, last: Option<Exception>)
    requires attempt <= k < maxAttempts && outcomes(first + k).Raised? && !Matches(exceptions, outcomes(first + k).error)
    requires forall i: nat :: first + attempt <= i < first + k ==> outcomes(i).Raised? && Matches(exceptions, outcomes(i).error)
    ensures RetryFrom(w, outcomes, first, attempt, maxAttempts, exceptions, name, last) == Trace(Propagated(outcomes(first + k).error), k - attempt + 1, k - attempt)
    decreases k - attempt
  {
    if attempt < k {
      assert outcomes(first + attempt).Raised?;
      OtherExceptionPropagates(w, outcomes, first, attempt + 1, k, maxAttempts, exceptions, name, Some(outcomes(first + attempt).error));
    }
  }

  /** When every attempt raises a matching exception, all max_attempts calls are made with a sleep between each two, and RetryError carries the last exception. */
  lemma {:induction false} AllAttemptsFail(w: Wrapper, outcomes: nat -> Outcome, first: nat, attempt: nat, maxAttempts: int,
                                           exceptions: set<string>, name: string, last: Option<Exception>)
    requires attempt < maxAttempts
    requires forall i: nat :: first + attempt <= i < first + maxAttempts ==> outcomes(i).Raised? && Matches(exceptions, outcomes(i).error)
    ensures var e := outcomes(first + (maxAttempts - 1)).error;
      RetryFrom(w, outcomes, first, attempt, maxAttempts, exceptions, name, last)
      == Trace(Exhausted(w, name, maxAttempts, Some(e)), maxAttempts - attempt, maxAttempts - attempt - 1)
    decreases maxAttempts - attempt
  {
    assert outcomes(first + attempt).Raised?;
    if attempt < maxAttempts - 1 {
      AllAttemptsFail(w, outcomes, first, attempt + 1, maxAttempts, exceptions, name, Some(outcomes(first + attempt).error));
    }
  }

  /** With max_attempts of zero or less nothing is called and RetryError carries no exception. */
  lemma NoAttempts(w: Wrapper, outcomes: nat -> Outcome, first: nat, maxAttempts: int, exceptions: set<string>, name: string)
    requires maxAttempts <= 0
    ensures RunRetry(w, outcomes, first, maxAttempts, exceptions, name) == Trace(RetryFailed(FailureMessage(name, maxAttempts), None, None), 0, 0)
  {
  }

  /** The sync wrapper raises RetryError unchained; the async one chains it to the last exception. */
  lemma ChainedOnlyWhenAsync(w: Wrapper, outcomes: nat -> Outcome, first: nat, maxAttempts: int, exceptions: set<string>, name: string)
    ensures var r := RunRetry(w, outcomes, first, maxAttempts, exceptions, name).result;
      r.RetryFailed? ==> r.cause == (if w.AsyncWrapper? then r.lastException else None)
  {
    ExhaustedShape(w, outcomes, first, 0, maxAttempts, exceptions, name, None);
  }

  lemma {:induction false} ExhaustedShape(w: Wrapper, outcomes: nat -> Outcome, first: nat, attempt: nat, maxAttempts: int,
                                          exceptions: set<string>, name: string, last: Option<Exception>)
    ensures var r := RetryFrom(w, outcomes, first, attempt, maxAttempts, exceptions, name, last).result;
      r.RetryFailed? ==> r.message == FailureMessage(name, maxAttempts) && r.cause == (if w.AsyncWrapper? then r.lastException else None)
    decreases if maxAttempts > attempt then maxAttempts - attempt else 0
  {
    if attempt < maxAttempts - 1 {
      match outcomes(first + attempt)
      case Returned(_) =>
      case Raised(e) => ExhaustedShape(w, outcomes, first, attempt + 1, maxAttempts, exceptions, name, Some(e));
    }
  }

  // ------------------------------------------------------------ presets

  /** The arguments of `retry` that the model keeps: the attempt count and the exception classes. */
  datatype RetryPolicy = RetryPolicy(maxAttempts: int, exceptions: set<string>)

  /** `retry()` with its defaults: three attempts, any Exception. */
  const DefaultPolicy := RetryPolicy(3, {"Exception"})

  /** `retry_db_operation`: the sqlite3 error classes. */
  function DbPolicy(maxAttempts: int): (p: RetryPolicy)
    ensures p.maxAttempts == maxAttempts
    ensures p.exceptions == {"sqlite3.Error", "sqlite3.OperationalError", "sqlite3.DatabaseError"}
  {
    RetryPolicy(maxAttempts, {"sqlite3.Error", "sqlite3.OperationalError", "sqlite3.DatabaseError"})
  }

  /** `retry_network_operation`: the HTTP client, connection and timeout error classes. */
  function NetworkPolicy(maxAttempts: int): (p: RetryPolicy)
    ensures p.maxAttempts == maxAttempts && |p.exceptions| == 8
    ensures "TimeoutError" in p.exceptions && "ConnectionError" in p.exceptions
  {
    RetryPolicy(maxAttempts, {"aiohttp.ClientError", "aiohttp.ClientConnectionError", "requests.RequestException",
                              "httpx.RequestError", "httpx.ConnectError", "httpx.HTTPStatusError",
                              "ConnectionError", "TimeoutError"})
  }

  /** Under the database preset, an exception that is not an sqlite3 error is never retried. */
  lemma DbPolicyIgnoresOthers(maxAttempts: int, e: Exception)
    requires forall c :: c in e.classes ==> !StartsWith(c, "sqlite3.")
    ensures !Matches(DbPolicy(maxAttempts).exceptions, e)
  {
    forall c | c in DbPolicy(maxAttempts).exceptions
      ensures StartsWith(c, "sqlite3.")
    {
    }
  }
}
