/** The Fibonacci back-off of the retry rule, in the 64-bit arithmetic the code runs in. */
module Backoff {
  import opened GoInt

  const SECOND: int := 1_000_000_000
  const MILLISECOND: int := 1_000_000

  const MAX_DELAY: Int64 := 10 * SECOND

  /** The largest retry number whose delay is computed without overflow. */
  const LAST_EXACT_RETRY: Int64 := 49

  /** The code's recursion: every addition wraps, and numbers up to 1 are returned as they are. */
  function Fibonacci(n: Int64): Int64 {
    if n <= 1 then n else Wrap64(Fibonacci(n - 1) + Fibonacci(n - 2))
  }

  /** The mathematical sequence. */
  ghost function Fib(n: nat): nat {
    if n <= 1 then n else Fib(n - 1) + Fib(n - 2)
  }

  /** The wait before retry number `retryCount`: the Fibonacci number in seconds, capped at ten. */
  function RetryInterval(retryCount: Int64): Int64 {
    var delay := Wrap64(Fibonacci(retryCount) * SECOND);
    if delay > MAX_DELAY then MAX_DELAY else delay
  }

  /** The delays of retries 1 to `retries` added up. */
  ghost function TotalBackoff(retries: nat): int
    requires retries <= LAST_EXACT_RETRY
  {
    if retries == 0 then 0 else TotalBackoff(retries - 1) + RetryInterval(retries)
  }

  lemma FibAt50()
    ensures Fib(49) == 7778742049 && Fib(50) == 12586269025
  {
    assert Fib(10) == 55 && Fib(11) == 89;
    assert Fib(20) == 6765 && Fib(21) == 10946;
    assert Fib(30) == 832040 && Fib(31) == 1346269;
    assert Fib(40) == 102334155 && Fib(41) == 165580141;
  }

  lemma {:induction false} FibMonotone(m: nat, n: nat)
    requires m <= n
    ensures Fib(m) <= Fib(n)
    decreases n
  {
    if m < n {
      FibMonotone(m, n - 1);
    }
  }

  /** Up to the fiftieth number no addition overflows. */
  lemma {:induction false} FibonacciExact(n: nat)
    requires n <= 50
    ensures Fibonacci(n) == Fib(n)
  {
    if n > 1 {
      FibonacciExact(n - 1);
      FibonacciExact(n - 2);
      FibMonotone(n, 50);
      FibAt50();
    }
  }

  /** For retries 1 to 49 the wrapped product is the true one, so the delay is min(F(k), 10) seconds. */
  lemma IntervalExact(k: nat)
    requires 1 <= k <= LAST_EXACT_RETRY
    ensures RetryInterval(k) == Min(Fib(k), 10) * SECOND
    ensures 1 * SECOND <= RetryInterval(k) <= MAX_DELAY
  {
    hide Fibonacci;
    FibonacciExact(k);
    FibMonotone(1, k);
    FibMonotone(k, 49);
    FibAt50();
  }

  lemma IntervalMonotone(j: nat, k: nat)
    requires 1 <= j <= k <= LAST_EXACT_RETRY
    ensures RetryInterval(j) <= RetryInterval(k)
  {
    IntervalExact(j);
    IntervalExact(k);
    FibMonotone(j, k);
  }

  lemma NanosecondsWrap(k: Int64)
    requires Fibonacci(k) == 12586269025
    ensures RetryInterval(k) < 0
  {
  }

  lemma FibonacciAt50(k: Int64)
    requires k == 50
    ensures Fibonacci(k) == 12586269025
  {
    hide Fibonacci, Fib;
    FibonacciExact(k);
    FibAt50();
  }

  /** 49 is tight: the product for retry 50 wraps to a negative duration. */
  lemma IntervalWrapsAt50(k: Int64)
    requires k == LAST_EXACT_RETRY + 1
    ensures RetryInterval(k) < 0
  {
    hide Fibonacci;
    FibonacciAt50(k);
    NanosecondsWrap(k);
  }

  /** A retry number from 1 on that gets no positive delay is past the exact range. */
  lemma NoDelayMeansOverflow(k: Int64)
    requires 1 <= k && RetryInterval(k) <= 0
    ensures k > LAST_EXACT_RETRY
  {
    if k <= LAST_EXACT_RETRY {
      IntervalExact(k);
    }
  }

  /** The sum of the delays of a run of `retries` retries in closed form. */
  lemma {:induction false} TotalBackoffClosedForm(retries: nat)
    requires retries <= LAST_EXACT_RETRY
    ensures retries <= 6 ==> TotalBackoff(retries) == (Fib(retries + 2) - 1) * SECOND
    ensures retries > 6 ==> TotalBackoff(retries) == (20 + 10 * (retries - 6)) * SECOND
  {
    hide Fibonacci;
    assert Fib(7) == 13 && Fib(8) == 21;
    if retries > 0 {
      TotalBackoffClosedForm(retries - 1);
      IntervalExact(retries);
      if retries <= 6 {
        FibMonotone(retries, 6);
      } else {
        FibMonotone(7, retries);
      }
    }
  }
}
