/** The delay of the exponential limiter: base times two to the number of failures, capped. */
module Backoff {

  function Pow2(n: nat): (p: nat)
    ensures p > 0
  {
    if n == 0 then 1 else 2 * Pow2(n - 1)
  }

  /** math.MaxInt64 as a float64 rounds up to this. */
  const LIMIT := 0x8000_0000_0000_0000

  /** Two to this power is infinite as a float64. */
  const INFINITE_EXPONENT := 1024

  /** What the platform makes of floats that do not fit the integer they are converted to. */
  datatype Conversion = Conversion(atLimit: int, tooLow: int, notANumber: int)

  /**
    The delay after `n` failures. `base` is the float64 that the base delay converts to: the delay itself below
    2^53, and the float next to it above. Its product with a power of two is exact. An infinite product lies on the
    same side of the limits as the exact one, except that zero times infinity is not a number and passes the test.
   */
  function Delay(base: int, maxDelay: int, n: nat, conv: Conversion): int {
    var backoff := base * Pow2(n);
    if backoff > LIMIT then maxDelay
    else
      var calculated :=
        if base == 0 && n >= INFINITE_EXPONENT then conv.notANumber
        else if backoff == LIMIT then conv.atLimit
        else if backoff < -LIMIT then conv.tooLow
        else backoff;
      if calculated > maxDelay then maxDelay else calculated
  }

  function Min(a: int, b: int): int {
    if a < b then a else b
  }

  ghost predicate PowerOfTwo(base: int) {
    exists m: nat :: base == Pow2(m)
  }

  lemma LimitIsPow2()
    ensures Pow2(63) == LIMIT
  {
    assert Pow2(8) == 256;
    assert Pow2(16) == 65536;
    assert Pow2(24) == 0x100_0000;
    assert Pow2(32) == 0x1_0000_0000;
    assert Pow2(40) == 0x100_0000_0000;
    assert Pow2(48) == 0x1_0000_0000_0000;
    assert Pow2(56) == 0x100_0000_0000_0000;
  }

  lemma {:induction false} Pow2Adds(m: nat, n: nat)
    ensures Pow2(m) * Pow2(n) == Pow2(m + n)
  {
    if m > 0 {
      Pow2Adds(m - 1, n);
    }
  }

  lemma {:induction false} Pow2Grows(m: nat, n: nat)
    requires m <= n
    ensures Pow2(m) <= Pow2(n)
  {
    if m < n {
      Pow2Grows(m, n - 1);
    }
  }

  /** A divisor of a power of two by a power of two is one itself. */
  lemma {:induction false} Cancel(base: int, m: nat, n: nat)
    requires base * Pow2(n) == Pow2(m)
    ensures PowerOfTwo(base)
  {
    if n == 0 {
      assert base == Pow2(m);
    } else {
      assert 2 * (base * Pow2(n - 1)) == Pow2(m);
      assert m > 0;
      Cancel(base, m - 1, n - 1);
    }
  }

  /** The base, the maximum and the platform go together. */
  ghost predicate Fits(base: int, maxDelay: int, conv: Conversion) {
    if base < 0 then false
    else if base == 0 then conv.notANumber == 0 || maxDelay <= Min(0, conv.notANumber)
    else !PowerOfTwo(base) || maxDelay <= conv.atLimit
  }

  lemma FitsAt(base: int, maxDelay: int, conv: Conversion, n: nat, backoff: int)
    requires base <= LIMIT && maxDelay < LIMIT && Fits(base, maxDelay, conv) && backoff == base * Pow2(n)
    ensures Delay(base, maxDelay, n, conv) == Min(backoff, maxDelay)
  {
    if backoff == LIMIT {
      LimitIsPow2();
      Cancel(base, 63, n);
    }
  }

  /** A negative base leaves the range of the integers for good. */
  lemma {:induction false} FallsBelow(base: int, bound: int) returns (n: nat)
    requires base < 0
    ensures base * Pow2(n) < bound
    decreases if bound < 0 then -bound else 0
  {
    if bound >= 0 {
      n := 0;
    } else {
      n := FallsBelow(base, bound + 1);
      n := n + 1;
    }
  }

  lemma NegativeFails(base: int, maxDelay: int, conv: Conversion)
    requires base < 0
    ensures exists n: nat :: Delay(base, maxDelay, n, conv) != Min(base * Pow2(n), maxDelay)
  {
    var low := Min(Min(-LIMIT, maxDelay), Min(conv.tooLow, maxDelay));
    var n := FallsBelow(base, low);
    assert Delay(base, maxDelay, n, conv) != Min(base * Pow2(n), maxDelay);
  }

  lemma PowerFails(base: int, maxDelay: int, conv: Conversion)
    requires 0 < base <= LIMIT && maxDelay < LIMIT && PowerOfTwo(base) && conv.atLimit < maxDelay
    ensures exists n: nat :: Delay(base, maxDelay, n, conv) != Min(base * Pow2(n), maxDelay)
  {
    var m: nat :| base == Pow2(m);
    LimitIsPow2();
    assert m <= 63 by {
      if m > 63 {
        Pow2Grows(64, m);
      }
    }
    Pow2Adds(m, 63 - m);
    assert Delay(base, maxDelay, 63 - m, conv) != Min(base * Pow2(63 - m), maxDelay);
  }

  /**
    The limiter answers with the smaller of base·2^n and the maximum, for every n, exactly when base is positive
    and no power of two, or the platform converts the floats that slip through to suitable integers; a negative
    base never does.
   */
  lemma DelayExactlyCapped(base: int, maxDelay: int, conv: Conversion)
    requires base <= LIMIT && maxDelay < LIMIT
    ensures (forall n: nat :: Delay(base, maxDelay, n, conv) == Min(base * Pow2(n), maxDelay)) <==> Fits(base, maxDelay, conv)
  {
    if Fits(base, maxDelay, conv) {
      forall n: nat
        ensures Delay(base, maxDelay, n, conv) == Min(base * Pow2(n), maxDelay)
      {
        FitsAt(base, maxDelay, conv, n, base * Pow2(n));
      }
    } else if base < 0 {
      NegativeFails(base, maxDelay, conv);
    } else if base == 0 {
      assert Delay(base, maxDelay, INFINITE_EXPONENT, conv) != Min(base * Pow2(INFINITE_EXPONENT), maxDelay);
    } else {
      PowerFails(base, maxDelay, conv);
    }
  }

  lemma TimesGrows(base: int, a: int, b: int)
    requires 0 <= base && a <= b
    ensures base * a <= base * b
  {
  }

  lemma Doubles(base: int, p: int)
    ensures base * (2 * p - 1) == base * (p - 1) + base * p
  {
  }

  /** Each failure waits at least as long as the one before. */
  lemma DelayMonotone(base: int, maxDelay: int, conv: Conversion, m: nat, n: nat)
    requires base <= LIMIT && maxDelay < LIMIT && Fits(base, maxDelay, conv) && m <= n
    ensures Delay(base, maxDelay, m, conv) <= Delay(base, maxDelay, n, conv)
  {
    var a, b := base * Pow2(m), base * Pow2(n);
    Pow2Grows(m, n);
    TimesGrows(base, Pow2(m), Pow2(n));
    FitsAt(base, maxDelay, conv, m, a);
    FitsAt(base, maxDelay, conv, n, b);
  }

  ghost function TotalDelay(base: int, maxDelay: int, conv: Conversion, k: nat): int {
    if k == 0 then 0 else TotalDelay(base, maxDelay, conv, k - 1) + Delay(base, maxDelay, k - 1, conv)
  }

  /** The first k delays together stay under base·(2^k - 1). */
  lemma {:induction false} TotalDelayBounded(base: int, maxDelay: int, conv: Conversion, k: nat)
    requires base <= LIMIT && maxDelay < LIMIT && Fits(base, maxDelay, conv)
    ensures TotalDelay(base, maxDelay, conv, k) <= base * (Pow2(k) - 1)
  {
    if k > 0 {
      TotalDelayBounded(base, maxDelay, conv, k - 1);
      var p, backoff := Pow2(k - 1), base * Pow2(k - 1);
      FitsAt(base, maxDelay, conv, k - 1, backoff);
      Doubles(base, p);
    }
  }
}
