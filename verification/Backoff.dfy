/** The waiting time between two attempts of a step, on 64-bit nanosecond counts (internal/engine/executor.go). */
module Backoff {
  import opened Prelude
  import opened Model

  const SECOND: Int64 := 1_000_000_000
  const FIVE_MINUTES: Int64 := 300 * 1_000_000_000

  /** time.ParseDuration, which is not part of this model. */
  type DurationParser = string -> Option<Int64>

  function ParseDuration(parse: DurationParser, s: string, fallback: Int64): Int64 {
    if s == "" then fallback
    else
      match parse(s)
      case None => fallback
      case Some(d) => d
  }

  function BaseWait(parse: DurationParser, retry: RetryPolicy): Int64 {
    ParseDuration(parse, retry.initialWait, SECOND)
  }

  function MaxWait(parse: DurationParser, retry: RetryPolicy): Int64 {
    ParseDuration(parse, retry.maxWait, FIVE_MINUTES)
  }

  function CappedWait(d: Int64, cap: Int64): Int64 {
    if d > cap then cap else d
  }

  function BackoffWait(parse: DurationParser, attempt: nat, retry: Option<RetryPolicy>): Int64 {
    if retry.None? then SECOND
    else
      var base := BaseWait(parse, retry.value);
      if retry.value.backoff == "exponential" then
        CappedWait(Wrap64(base * Pow2(attempt)), MaxWait(parse, retry.value))
      else if retry.value.backoff == "linear" then Wrap64(base * attempt)
      else base
  }

  /** The multiply loop overflows silently; it still computes the wrapped product. */
  method CalculateBackoff(parse: DurationParser, attempt: nat, retry: Option<RetryPolicy>) returns (wait: Int64)
    ensures wait == BackoffWait(parse, attempt, retry)
  {
    if retry.None? {
      return SECOND;
    }
    var base := ParseDuration(parse, retry.value.initialWait, SECOND);
    if retry.value.backoff == "exponential" {
      var mult: Int64 := 1;
      for i := 0 to attempt
        invariant mult == Wrap64(Pow2(i))
      {
        WrapProduct(2, Pow2(i));
        mult := Wrap64(mult * 2);
      }
      WrapProduct(base, Pow2(attempt));
      var d := Wrap64(base * mult);
      var max := ParseDuration(parse, retry.value.maxWait, FIVE_MINUTES);
      if d > max {
        return max;
      }
      return d;
    } else if retry.value.backoff == "linear" {
      return Wrap64(base * attempt);
    } else {
      return base;
    }
  }

  lemma {:induction false} WrapPlusMultiple(x: int, k: int)
    ensures Wrap64(x + k * 0x1_0000_0000_0000_0000) == Wrap64(x)
  {
  }

  lemma {:induction false} WrapProduct(a: int, b: int)
    ensures Wrap64(a * Wrap64(b)) == Wrap64(a * b)
  {
    var m := 0x1_0000_0000_0000_0000;
    var k := (b - INT64_MIN) / m;
    assert Wrap64(b) == b - k * m;
    assert a * (b - k * m) == a * b + (-(a * k)) * m;
    WrapPlusMultiple(a * b, -(a * k));
  }

  /** What exponential backoff is meant to be. */
  function IdealWait(base: int, attempt: nat, cap: int): int {
    if base * Pow2(attempt) > cap then cap else base * Pow2(attempt)
  }

  /** It is that as long as the product fits, and beyond only when the wrapped product still reaches the cap. */
  lemma {:induction false} ExponentialWait(base: Int64, attempt: nat, cap: Int64)
    requires base > 0 && cap > 0
    ensures CappedWait(Wrap64(base * Pow2(attempt)), cap) == IdealWait(base, attempt, cap)
       <==> base * Pow2(attempt) <= INT64_MAX || Wrap64(base * Pow2(attempt)) >= cap
  {
    assert base * Pow2(attempt) > 0 by {
      PositiveProduct(base, Pow2(attempt));
    }
  }

  lemma PositiveProduct(a: int, b: int)
    requires a > 0 && b > 0
    ensures a * b > 0
  {
  }

  lemma {:induction false} ProductGrows(a: int, n: nat, m: nat)
    requires a > 0 && n <= m
    ensures 0 < a * Pow2(n) <= a * Pow2(m)
    decreases m - n
  {
    PositiveProduct(a, Pow2(n));
    if n < m {
      ProductGrows(a, n, m - 1);
      assert a * Pow2(m) == 2 * (a * Pow2(m - 1));
    }
  }

  /** With the defaults, one second and five minutes, attempt 34 overflows to a negative wait: no wait at all. */
  lemma {:induction false} DefaultsOverflowAt34()
    ensures CappedWait(Wrap64(SECOND * Pow2(34)), FIVE_MINUTES) < 0
    ensures SECOND * Pow2(33) <= INT64_MAX
  {
    assert Pow2(4) == 16;
    Pow2Sum(4, 4);
    Pow2Sum(8, 8);
    Pow2Sum(16, 16);
    assert Pow2(32) == 0x1_0000_0000;
    assert Pow2(33) == 2 * Pow2(32);
    assert Pow2(34) == 2 * Pow2(33);
  }

  lemma {:induction false} Pow2Sum(m: nat, n: nat)
    ensures Pow2(m + n) == Pow2(m) * Pow2(n)
  {
    if n > 0 {
      Pow2Sum(m, n - 1);
      assert Pow2(m) * (2 * Pow2(n - 1)) == 2 * (Pow2(m) * Pow2(n - 1));
    }
  }

  /** The policy waits exponentially with positive times, and no product up to this attempt overflows. */
  predicate InRange(parse: DurationParser, retry: RetryPolicy, attempt: nat) {
    && retry.backoff == "exponential"
    && BaseWait(parse, retry) > 0 && MaxWait(parse, retry) > 0
    && BaseWait(parse, retry) * Pow2(attempt) <= INT64_MAX
  }

  /** In range, a wait is the ideal one, and later waits are never shorter. */
  lemma {:induction false} WaitsAreMonotone(parse: DurationParser, retry: RetryPolicy, i: nat, j: nat)
    requires i <= j && InRange(parse, retry, j)
    ensures BackoffWait(parse, i, Some(retry)) == IdealWait(BaseWait(parse, retry), i, MaxWait(parse, retry))
    ensures 0 < BackoffWait(parse, i, Some(retry)) <= BackoffWait(parse, j, Some(retry)) <= MaxWait(parse, retry)
  {
    var base, cap := BaseWait(parse, retry), MaxWait(parse, retry);
    ProductGrows(base, i, j);
    ExponentialWait(base, i, cap);
    ExponentialWait(base, j, cap);
  }
}
