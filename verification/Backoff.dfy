/** `commons/backoff`: exponential delays on 64-bit nanoseconds, and the range of full jitter. */
module Backoff {
  const MAX_INT64 := 0x7FFF_FFFF_FFFF_FFFF
  const MAX_SHIFT := 62
  const SECOND := 1_000_000_000

  function Pow2(n: nat): (p: nat)
    ensures p >= 1
  {
    if n == 0 then 1 else 2 * Pow2(n - 1)
  }

  function Clamp(attempt: int): nat {
    if attempt < 0 then 0 else if attempt > MAX_SHIFT then MAX_SHIFT else attempt
  }

  /** `Exponential`, with its overflow guard by division. */
  function Exponential(base: int, attempt: int): int {
    if base <= 0 then 0
    else
      var multiplier := Pow2(Clamp(attempt));
      if base > MAX_INT64 / multiplier then MAX_INT64 else base * multiplier
  }

  lemma QuotientGuard(base: int, m: int, limit: int)
    requires m > 0
    ensures base > limit / m <==> base * m > limit
  {
    var q, r := limit / m, limit % m;
    assert limit == m * q + r;
    if base > q {
      assert base * m >= (q + 1) * m;
      assert (q + 1) * m == q * m + m;
    } else {
      assert base * m <= q * m;
    }
  }

  /** The guard is exact: the delay is the true product, saturated at the largest duration. */
  lemma ExponentialSaturates(base: int, attempt: int)
    requires base > 0
    ensures Exponential(base, attempt)
         == if base * Pow2(Clamp(attempt)) > MAX_INT64 then MAX_INT64 else base * Pow2(Clamp(attempt))
  {
    QuotientGuard(base, Pow2(Clamp(attempt)), MAX_INT64);
  }

  lemma {:induction false} Pow2Adds(a: nat, b: nat)
    ensures Pow2(a + b) == Pow2(a) * Pow2(b)
  {
    if b > 0 {
      Pow2Adds(a, b - 1);
      assert Pow2(a + b) == 2 * (Pow2(a) * Pow2(b - 1)) == Pow2(a) * (2 * Pow2(b - 1));
    }
  }

  lemma Pow2Of16()
    ensures Pow2(16) == 0x1_0000
  {
    assert Pow2(4) == 16 by { assert Pow2(2) == 4; }
    Pow2Adds(4, 4);
    Pow2Adds(8, 8);
  }

  lemma Pow2Of64()
    ensures Pow2(64) == 0x1_0000_0000_0000_0000
  {
    hide Pow2;
    Pow2Of16();
    Pow2Adds(16, 16);
    Pow2Adds(32, 32);
  }

  lemma Pow2Of62()
    ensures Pow2(62) == 0x4000_0000_0000_0000
  {
    Pow2Of64();
    assert Pow2(64) == 2 * Pow2(63) == 4 * Pow2(62);
  }

  lemma {:induction false} Pow2Monotone(a: nat, b: nat)
    requires a <= b
    ensures Pow2(a) <= Pow2(b)
    decreases b - a
  {
    if a < b {
      Pow2Monotone(a, b - 1);
    }
  }

  /** Later attempts never wait less, and no delay overflows or drops below the base. */
  lemma ExponentialMonotone(base: int, a: int, b: int)
    requires 0 < base <= MAX_INT64 && a <= b
    ensures base <= Exponential(base, a) <= Exponential(base, b) <= MAX_INT64
  {
    ExponentialSaturates(base, a);
    ExponentialSaturates(base, b);
    Pow2Monotone(Clamp(a), Clamp(b));
    MulMonotone(base, 1, Pow2(Clamp(a)));
    MulMonotone(base, Pow2(Clamp(a)), Pow2(Clamp(b)));
  }

  lemma MulMonotone(x: int, a: int, b: int)
    requires x >= 0 && a <= b
    ensures x * a <= x * b
  {
  }

  function Saturated(delay: int): int { if delay > MAX_INT64 then MAX_INT64 else delay }

  /** The delay is the doubled base, saturated, for every attempt and base but one: a base of one nanosecond stops doubling
      after 62 attempts, short of the largest duration. */
  lemma ExponentialExactly(base: int, attempt: nat)
    requires base > 0
    ensures Exponential(base, attempt) == Saturated(base * Pow2(attempt)) <==> attempt <= 62 || base > 1
  {
    ExponentialSaturates(base, attempt);
    Pow2Of62();
    if attempt > 62 {
      Pow2Monotone(63, attempt);
      MulMonotone(base, Pow2(63), Pow2(attempt));
      if base > 1 {
        ProductsAtLeast(base, 2, Pow2(62));
      }
    }
  }

  lemma ProductsAtLeast(x: int, y: int, m: int)
    requires x >= y && m >= 0
    ensures x * m >= y * m
  {
  }

  /** What `FullJitter(delay)` may return. */
  predicate Jitter(delay: int, d: int) {
    if delay <= 0 then d == 0 else 0 <= d < delay
  }

  const RETRY_BASE := 30 * SECOND
  const MIN_RETRY := 5 * SECOND

  /** The dead-letter queue's `backoffDuration`, given the jitter drawn. */
  function BackoffDuration(jitter: int): int {
    if jitter > MIN_RETRY then jitter else MIN_RETRY
  }

  /** The longest delay after the n-th failure. */
  function RetryCap(n: int): int {
    var product := RETRY_BASE * Pow2(Clamp(n));
    if product > MAX_INT64 then MAX_INT64 else product
  }

  lemma BackoffRange(n: int, jitter: int)
    requires Jitter(Exponential(RETRY_BASE, n), jitter)
    ensures MIN_RETRY <= BackoffDuration(jitter) <= (if RetryCap(n) > MIN_RETRY then RetryCap(n) else MIN_RETRY)
    ensures jitter >= MIN_RETRY ==> BackoffDuration(jitter) == jitter
  {
    ExponentialSaturates(RETRY_BASE, n);
  }
}
