/** The fixed-width integer operations the program uses for attempts and retry delays. */
module Arithmetic {
  import opened Types

  function Pow2(n: nat): (p: nat)
    ensures p >= 1
  {
    if n == 0 then 1 else 2 * Pow2(n - 1)
  }

  lemma {:induction false} Pow2Monotone(a: nat, b: nat)
    requires a <= b
    ensures Pow2(a) <= Pow2(b)
  {
    if a < b {
      Pow2Monotone(a, b - 1);
    }
  }

  lemma Pow2Plus8(n: nat)
    ensures Pow2(n + 8) == 0x100 * Pow2(n)
  {
    assert Pow2(n + 2) == 4 * Pow2(n);
    assert Pow2(n + 4) == 4 * Pow2(n + 2);
    assert Pow2(n + 6) == 4 * Pow2(n + 4);
  }

  lemma Pow2Plus48(n: nat)
    ensures Pow2(n + 48) == 0x1_0000_0000_0000 * Pow2(n)
  {
    Pow2Plus8(n);
    Pow2Plus8(n + 8);
    Pow2Plus8(n + 16);
    Pow2Plus8(n + 24);
    Pow2Plus8(n + 32);
    Pow2Plus8(n + 40);
  }

  lemma Pow2Fits(n: nat)
    requires n <= 62
    ensures Pow2(n) <= 0x4000_0000_0000_0000
  {
    var high := if n >= 48 then n - 48 else 0;
    Pow2Monotone(n, high + 48);
    Pow2Plus48(high);
    Pow2Monotone(high, 14);
    assert Pow2(14) == 0x4000;
  }

  /** `1i64.checked_shl(n)`: no value from 64 on, the sign bit at 63. */
  function CheckedShlOne(n: nat): Option<I64> {
    if n >= 64 then None
    else if n == 63 then Some(I64_MIN)
    else
      Pow2Fits(n);
      Some(Pow2(n))
  }

  function SaturatingSubOne(x: U64): U64 {
    if x == 0 then 0 else x - 1
  }

  function SaturatingMul(a: I64, b: I64): I64 {
    var p := a * b;
    if p > I64_MAX then I64_MAX else if p < I64_MIN then I64_MIN else p
  }

  /** Two's-complement addition: the release profile leaves overflow checks off. */
  function WrappingAdd(a: I64, b: I64): I64 {
    var s := a + b;
    if s > I64_MAX then s - 0x1_0000_0000_0000_0000
    else if s < I64_MIN then s + 0x1_0000_0000_0000_0000
    else s
  }

  function NextAttempt(attempts: U8): U8 {
    if attempts == 255 then 255 else attempts + 1
  }

  function Multiplier(attempts: U8): I64 {
    match CheckedShlOne(if attempts == 0 then 0 else attempts - 1)
    case Some(m) => m
    case None => I64_MAX
  }

  function Backoff(retryAfter: I64, attempts: U8): I64 {
    SaturatingMul(retryAfter, Multiplier(attempts))
  }

  function Min(a: int, b: int): int {
    if a <= b then a else b
  }

  function Max(a: int, b: int): int {
    if a >= b then a else b
  }

  /** For every attempt number a retry can have, the multiplier is the exact power of two: neither
      the fallback nor the sign bit is reached. Any base delay, of either sign, is doubled per
      attempt up to the ends of the range. */
  lemma BackoffExact(retryAfter: I64, attempts: U8)
    requires 1 <= attempts <= 63
    ensures Multiplier(attempts) == Pow2(attempts - 1)
    ensures attempts <= 9 ==> Multiplier(attempts) <= 256
    ensures Backoff(retryAfter, attempts) == Max(I64_MIN, Min(retryAfter * Pow2(attempts - 1), I64_MAX))
  {
    if attempts <= 9 {
      Pow2Monotone(attempts - 1, 8);
      assert Pow2(8) == 256;
    }
  }

  lemma ProductSign(a: int, p: nat)
    requires p >= 1
    ensures a * p >= 0 <==> a >= 0
  {
  }

  lemma BackoffSign(retryAfter: I64, attempts: U8)
    requires 1 <= attempts <= 63
    ensures Backoff(retryAfter, attempts) >= 0 <==> retryAfter >= 0
  {
    BackoffExact(retryAfter, attempts);
    ProductSign(retryAfter, Pow2(attempts - 1));
  }

  /** A retry's due time is the exact sum precisely when the sum fits. It is not in the past
      precisely when the delay is not negative and the sum does not wrap at the top, or when a
      negative sum wraps at the bottom. */
  lemma RetryTimeExact(now: I64, backoff: I64)
    ensures WrappingAdd(now, backoff) == now + backoff <==> I64_MIN <= now + backoff <= I64_MAX
    ensures WrappingAdd(now, backoff) >= now <==>
      (backoff >= 0 && now + backoff <= I64_MAX) || now + backoff < I64_MIN
    ensures now + backoff > I64_MAX ==> WrappingAdd(now, backoff) < 0
  {
  }

  /** Addition modulo 2^64: the one representable value that differs from the sum by a multiple. */
  lemma WrapsModulo(a: I64, b: I64)
    ensures a + b > I64_MAX ==> WrappingAdd(a, b) == a + b - 0x1_0000_0000_0000_0000
    ensures a + b < I64_MIN ==> WrappingAdd(a, b) == a + b + 0x1_0000_0000_0000_0000
    ensures I64_MIN <= a + b <= I64_MAX ==> WrappingAdd(a, b) == a + b
  {
  }

  /** The multiplier for every attempt count there is, also those no retry reaches: the sign bit at
      64, the fallback beyond. */
  lemma MultiplierEverywhere(attempts: U8)
    ensures attempts == 0 ==> Multiplier(attempts) == 1
    ensures 1 <= attempts <= 63 ==> Multiplier(attempts) == Pow2(attempts - 1)
    ensures attempts == 64 ==> Multiplier(attempts) == I64_MIN
    ensures attempts > 64 ==> Multiplier(attempts) == I64_MAX
  {
  }

  lemma SaturationPoints(count: U64, attempts: U8)
    ensures SaturatingSubOne(count) == Max(count - 1, 0)
    ensures NextAttempt(attempts) == Min(attempts + 1, 255)
  {
  }
}
