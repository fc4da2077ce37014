/** internal/task/retry.go: the retry budget and the exponential backoff. */
module Retry {
  import opened Basics
  import opened Statuses

  datatype FailureDecision = FailureDecision(status: Status, retryCount: int, nextRetryAt: Option<int>)

  // 1 << n
  function Pow2(n: nat): (p: int)
    ensures p >= 1
  {
    if n == 0 then 1 else 2 * Pow2(n - 1)
  }

  function BackoffDelay(retryCount: int): (delay: int)
    ensures SECOND <= delay <= 32 * SECOND
  {
    var n := if retryCount < 1 then 1 else if retryCount > 6 then 6 else retryCount;
    assert Pow2(0) == 1 && Pow2(1) == 2 && Pow2(2) == 4;
    assert Pow2(3) == 8 && Pow2(4) == 16 && Pow2(5) == 32;
    Pow2(n - 1) * SECOND
  }

  function DecideFailure(now: int, retryCount: int, maxRetries: int): (d: FailureDecision)
  {
    var next := retryCount + 1;
    if next > maxRetries then
      FailureDecision(Dead, maxRetries, None)
    else
      FailureDecision(Retrying, next, Some(now + BackoffDelay(next)))
  }

  lemma BackoffIsMonotone(a: int, b: int)
    requires a <= b
    ensures BackoffDelay(a) <= BackoffDelay(b)
  {
    assert Pow2(0) == 1 && Pow2(1) == 2 && Pow2(2) == 4;
    assert Pow2(3) == 8 && Pow2(4) == 16 && Pow2(5) == 32;
  }

  /** The waits of the first n retries together. */
  function TotalBackoff(n: nat): int {
    if n == 0 then 0 else TotalBackoff(n - 1) + BackoffDelay(n)
  }

  /** Doubling from one second, then a constant 32 seconds from the sixth retry on. */
  lemma {:induction false} TotalBackoffClosedForm(n: nat)
    ensures n <= 6 ==> TotalBackoff(n) == (Pow2(n) - 1) * SECOND
    ensures n >= 6 ==> TotalBackoff(n) == (63 + 32 * (n - 6)) * SECOND
  {
    if n > 0 {
      TotalBackoffClosedForm(n - 1);
      assert Pow2(3) == 8 && Pow2(5) == 32 && Pow2(6) == 64;
    }
  }

  /** The sum of the waits that the decisions taken at times[0], times[1], ... hand out, the
      retry count being fed from each decision into the next. */
  function WaitsHandedOut(times: seq<int>, retryCount: int, maxRetries: int): Option<int>
  {
    if times == [] then Some(0)
    else
      var d := DecideFailure(times[0], retryCount, maxRetries);
      match d.nextRetryAt
      case None => None
      case Some(at) =>
        match WaitsHandedOut(times[1..], d.retryCount, maxRetries)
        case None => None
        case Some(rest) => Some(at - times[0] + rest)
  }

  /** A chain of failures gets retries exactly as long as the budget lasts, and the waits it is
      handed are the consecutive terms of the backoff series, whenever the failures happen. */
  lemma {:induction false} ChainOfRetries(times: seq<int>, retryCount: nat, maxRetries: nat)
    requires retryCount <= maxRetries
    ensures WaitsHandedOut(times, retryCount, maxRetries) ==
            if retryCount + |times| <= maxRetries
            then Some(TotalBackoff(retryCount + |times|) - TotalBackoff(retryCount))
            else None
    decreases |times|
  {
    if times != [] && retryCount + 1 <= maxRetries {
      ChainOfRetries(times[1..], retryCount + 1, maxRetries);
    }
  }
}
