/** The 64-bit arithmetic of backoffDelay, compared with the delay it is meant to give. */
module Backoff {
  const TWO63 := 0x8000_0000_0000_0000
  const TWO64 := 0x1_0000_0000_0000_0000

  /** time.Millisecond, in the nanoseconds of a time.Duration. */
  const MILLISECOND := 1_000_000

  /** The largest whole number of milliseconds a time.Duration can hold. */
  const MAX_MS := 9_223_372_036_854

  /** Two's-complement wrap-around of Go's int and int64. */
  function Wrap64(x: int): (r: int)
    ensures -TWO63 <= r < TWO63
    ensures (x - r) % TWO64 == 0
    ensures -TWO63 <= x < TWO63 ==> r == x
  {
    var r := x % TWO64;
    if r < TWO63 then r else r - TWO64
  }

  function Pow2(n: nat): nat {
    if n == 0 then 1 else 2 * Pow2(n - 1)
  }

  /** The delay in nanoseconds; every product wraps as Go's does. */
  function BackoffDelay(attempt: int, maxMs: int): int {
    var a := if attempt < 1 then 1 else attempt;
    var shift := if a - 1 > 62 then 62 else a - 1;
    var ms := Wrap64(10_000 * Pow2(shift));
    var capped := if maxMs > 0 && ms > maxMs then maxMs else ms;
    Wrap64(capped * MILLISECOND)
  }

  /** min(10000 * 2^(attempt - 1), cap) milliseconds, with no cap when maxMs <= 0. */
  function IntendedDelay(attempt: int, maxMs: int): int {
    var ms := 10_000 * Pow2(if attempt < 1 then 0 else attempt - 1);
    (if maxMs > 0 && ms > maxMs then maxMs else ms) * MILLISECOND
  }

  lemma {:induction false} Pow2Monotone(m: nat, n: nat)
    requires m <= n
    ensures Pow2(m) <= Pow2(n)
    decreases n
  {
    if m < n {
      Pow2Monotone(m, n - 1);
    }
  }

  lemma Pow2Landmarks()
    ensures Pow2(29) == 0x2000_0000
    ensures Pow2(30) == 0x4000_0000
    ensures Pow2(49) == 0x2_0000_0000_0000
    ensures Pow2(50) == 0x4_0000_0000_0000
  {
    assert Pow2(10) == 0x400;
    assert Pow2(20) == 0x10_0000;
    assert Pow2(40) == 0x100_0000_0000 by {
      assert Pow2(30) == 0x4000_0000;
    }
    assert Pow2(50) == 0x4_0000_0000_0000;
  }

  lemma Pow2High()
    ensures Pow2(51) == 0x8_0000_0000_0000 && Pow2(52) == 0x10_0000_0000_0000
    ensures Pow2(53) == 0x20_0000_0000_0000 && Pow2(54) == 0x40_0000_0000_0000
    ensures Pow2(55) == 0x80_0000_0000_0000 && Pow2(56) == 0x100_0000_0000_0000
    ensures Pow2(57) == 0x200_0000_0000_0000 && Pow2(58) == 0x400_0000_0000_0000
    ensures Pow2(59) == 0x800_0000_0000_0000 && Pow2(60) == 0x1000_0000_0000_0000
    ensures Pow2(61) == 0x2000_0000_0000_0000 && Pow2(62) == 0x4000_0000_0000_0000
  {
    Pow2Landmarks();
  }

  /** The attempts for which the wrapped product still ends at the capped value. */
  predicate AttemptInRange(attempt: int) {
    attempt <= 50 || attempt in {52, 53, 57, 58, 59}
  }

  /** The code meets the bound for exactly these attempts and caps. */
  lemma BackoffExact(attempt: int, maxMs: int)
    ensures BackoffDelay(attempt, maxMs) == IntendedDelay(attempt, maxMs)
            <==> attempt <= 30 || (0 < maxMs <= MAX_MS && AttemptInRange(attempt))
  {
    var e: nat := if attempt < 1 then 0 else attempt - 1;
    Pow2Landmarks();
    if attempt <= 30 {
      Pow2Monotone(e, 29);
    } else if attempt <= 50 {
      Pow2Monotone(e, 49);
      Pow2Monotone(30, e);
    } else {
      Pow2Monotone(50, e);
      if 0 < maxMs <= MAX_MS {
        BackoffHigh(attempt, maxMs);
      }
    }
  }

  lemma WrapIs(x: int, q: int, r: int)
    requires x == q * TWO64 + r && -TWO63 <= r < TWO63
    ensures Wrap64(x) == r
  {
    if r >= 0 {
      assert x % TWO64 == r;
    } else {
      assert x == (q - 1) * TWO64 + (r + TWO64);
      assert x % TWO64 == r + TWO64;
    }
  }

  /** How often 10000 * 2^shift wraps around, and what is left of it. */
  function Wraps(shift: nat): (int, int)
    requires 50 <= shift <= 62
  {
    if shift == 50 then (1, -7187745005283311616)
    else if shift == 51 then (1, 4071254063142928384)
    else if shift == 52 then (2, 8142508126285856768)
    else if shift == 53 then (5, -2161727821137838080)
    else if shift == 54 then (10, -4323455642275676160)
    else if shift == 55 then (20, -8646911284551352320)
    else if shift == 56 then (39, 1152921504606846976)
    else if shift == 57 then (78, 2305843009213693952)
    else if shift == 58 then (156, 4611686018427387904)
    else if shift == 59 then (313, -9223372036854775808)
    else (if shift == 60 then 625 else if shift == 61 then 1250 else 2500, 0)
  }

  /** The wrapped product in milliseconds for the shifts at which 10000 * 2^shift leaves 63 bits. */
  lemma WrappedProduct(shift: nat)
    requires 50 <= shift <= 62
    ensures Wrap64(10_000 * Pow2(shift)) == Wraps(shift).1
  {
    Pow2Landmarks();
    Pow2High();
    WrapIs(10_000 * Pow2(shift), Wraps(shift).0, Wraps(shift).1);
  }

  /** None of the non-positive products comes back positive when turned into nanoseconds. */
  lemma WrappedNanoseconds(ms: int)
    requires ms in {-7187745005283311616, -2161727821137838080, -4323455642275676160, -8646911284551352320, -TWO63, 0}
    ensures Wrap64(ms * MILLISECOND) <= 0
  {
    assert Wrap64(-7187745005283311616 * MILLISECOND) == -8070450532247928832;
    assert Wrap64(-2161727821137838080 * MILLISECOND) == -TWO63;
    assert Wrap64(-4323455642275676160 * MILLISECOND) == 0;
    assert Wrap64(-8646911284551352320 * MILLISECOND) == 0;
    assert Wrap64(-TWO63 * MILLISECOND) == 0;
  }

  /** Above attempt 50 a capped delay is the cap or is not positive, so the retry fires at once. */
  lemma BackoffHigh(attempt: int, maxMs: int)
    requires attempt > 50 && 0 < maxMs <= MAX_MS
    ensures AttemptInRange(attempt) ==> BackoffDelay(attempt, maxMs) == maxMs * MILLISECOND
    ensures !AttemptInRange(attempt) ==> BackoffDelay(attempt, maxMs) <= 0
    ensures attempt >= 61 ==> BackoffDelay(attempt, maxMs) == 0
  {
    var shift: nat := if attempt > 62 then 62 else attempt - 1;
    var ms := Wrap64(10_000 * Pow2(shift));
    WrappedProduct(shift);
    if AttemptInRange(attempt) {
      assert BackoffDelay(attempt, maxMs) == Wrap64(maxMs * MILLISECOND);
    } else {
      assert BackoffDelay(attempt, maxMs) == Wrap64(ms * MILLISECOND);
      WrappedNanoseconds(ms);
    }
  }

  /** Where the code meets the bound, waiting never gets shorter as attempts go up. */
  lemma BackoffMonotone(a: int, b: int, maxMs: int)
    requires a <= b <= 50 && 0 < maxMs <= MAX_MS
    ensures 0 < BackoffDelay(a, maxMs) <= BackoffDelay(b, maxMs) <= maxMs * MILLISECOND
  {
    BackoffExact(a, maxMs);
    BackoffExact(b, maxMs);
    Pow2Monotone(0, if a < 1 then 0 else a - 1);
    Pow2Monotone(if a < 1 then 0 else a - 1, if b < 1 then 0 else b - 1);
  }
}
