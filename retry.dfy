/**
 * The retry helper: call an operation up to `retries` times, pausing with linear
 * backoff between failures, telling an optional handler about each failure, and
 * raising a chosen error class once every attempt has failed.
 *
 * The operation is the oracle `func(k)`, the outcome of the k-th call (0-based), so a
 * flaky operation is one whose outcomes change from call to call; pauses are recorded
 * rather than slept.
 */
module Retry {
  import opened Wrappers
  import opened Errors
  import PyText

  /** What one run did: the calls made, the pauses taken, and the handler's (error, attempt) calls. */
  datatype Trace = Trace(calls: nat, pauses: seq<real>, handled: seq<(Exc, nat)>)

  /** The pauses after the first `n` failures: `delay * 1, delay * 2, ...`. */
  function LinearPauses(delay: real, n: nat): (ps: seq<real>)
    ensures |ps| == n
  {
    seq(n, k requires 0 <= k < n => delay * ((k + 1) as real))
  }

  lemma {:induction false} LinearPausesSnoc(delay: real, n: nat)
    ensures LinearPauses(delay, n + 1) == LinearPauses(delay, n) + [delay * ((n + 1) as real)]
  {
    var a, b := LinearPauses(delay, n + 1), LinearPauses(delay, n) + [delay * ((n + 1) as real)];
    assert |a| == |b|;
    forall k | 0 <= k < |a|
      ensures a[k] == b[k]
    {
      if k < n {
        assert b[k] == LinearPauses(delay, n)[k];
      }
    }
  }

  /** The handler calls for the first `n` attempts, all of which failed. */
  function Handled<T>(func: nat -> Result<T, Exc>, n: nat): (hs: seq<(Exc, nat)>)
    requires forall k :: 0 <= k < n ==> func(k).Failure?
    ensures |hs| == n
  {
    seq(n, k requires 0 <= k < n => (func(k).error, k))
  }

  /** The message raised after the last failure. */
  function ExhaustedMessage(name: string, retries: int, e: Exc): string {
    "Operation " + name + " failed after " + PyText.IntToString(retries) + " attempts: " + e.msg
  }

  /** `getattr(func, "__name__", "unknown_function")`. */
  function OperationName(funcName: Option<string>): string {
    funcName.GetOr("unknown_function")
  }

  /**
   * `retry(func, retries, delay, error_handler, error_type)`. The call stops at the first
   * success and returns its value; after failure k (0-based) it pauses `delay * (k + 1)`
   * unless k is the last attempt, which raises `error_type`; the handler sees every
   * failure with its 0-based attempt, and whatever the handler raises is swallowed (its
   * outcome is not used). With no attempts at all the result is `None`.
   */
  method Retry<T>(func: nat -> Result<T, Exc>, retries: int, delay: real,
                  handler: Option<(Exc, nat) -> Option<Exc>>, errorType: ErrClass, funcName: Option<string>)
    returns (r: Result<Option<T>, Exc>, trace: Trace)
    ensures retries <= 0 ==> r == Success(None) && trace == Trace(0, [], [])
    ensures retries > 0 ==> 1 <= trace.calls <= retries && r != Success(None)
    ensures forall k :: 0 <= k < trace.calls - 1 ==> func(k).Failure?
    ensures r.Success? && r.value.Some? ==>
              trace.calls >= 1 && func(trace.calls - 1) == Success(r.value.value)
    ensures r.Failure? ==>
              retries > 0 && trace.calls == retries && func(retries - 1).Failure? &&
              r.error == Exc(errorType, ExhaustedMessage(OperationName(funcName), retries, func(retries - 1).error))
    ensures trace.pauses == LinearPauses(delay, if trace.calls == 0 then 0 else trace.calls - 1)
    ensures handler.None? ==> trace.handled == []
    ensures handler.Some? && r.Failure? ==> trace.handled == Handled(func, trace.calls)
    ensures handler.Some? && r.Success? && trace.calls >= 1 ==> trace.handled == Handled(func, trace.calls - 1)
  {
    var name := OperationName(funcName);
    trace := Trace(0, [], []);
    var attempt: nat := 0;
    while attempt < retries
      invariant retries > 0 ==> attempt < retries
      invariant retries <= 0 ==> attempt == 0
      invariant trace.calls == attempt
      invariant forall k :: 0 <= k < attempt ==> func(k).Failure?
      invariant trace.pauses == LinearPauses(delay, attempt)
      invariant handler.None? ==> trace.handled == []
      invariant handler.Some? ==> trace.handled == Handled(func, attempt)
      decreases retries - attempt
    {
      var outcome := func(attempt);
      trace := trace.(calls := trace.calls + 1);
      if outcome.Success? {
        r := Success(Some(outcome.value));
        return;
      }
      var e := outcome.error;
      if handler.Some? {
        var _ := handler.value(e, attempt);
        trace := trace.(handled := trace.handled + [(e, attempt)]);
        assert trace.handled == Handled(func, attempt + 1);
      }
      if attempt < retries - 1 {
        LinearPausesSnoc(delay, attempt);
        trace := trace.(pauses := trace.pauses + [delay * ((attempt + 1) as real)]);
      } else {
        r := Failure(Exc(errorType, ExhaustedMessage(name, retries, e)));
        return;
      }
      attempt := attempt + 1;
    }
    r := Success(None);
  }

  /** Linear backoff: the pauses grow by `delay` each time (`delay = 2` gives 2, 4, ...). */
  lemma {:induction false} LinearPausesGrow(delay: real, n: nat)
    ensures forall k :: 0 <= k < n ==> LinearPauses(delay, n)[k] == delay * ((k + 1) as real)
    ensures forall k :: 0 < k < n ==> LinearPauses(delay, n)[k] - LinearPauses(delay, n)[k - 1] == delay
    ensures n == 2 ==> LinearPauses(2.0, n) == [2.0, 4.0]
  {
  }
}
