/** Exact decimal arithmetic with explicit settlement rounding.

    Money is an exact `real`; the only rounding the trading core performs is the
    explicit settlement of fill values at 12 decimal places, ties to even. */
module Decimals {

  /** The largest error one settlement rounding can make: half a unit in the 12th place. */
  const HALF_ULP: real := 0.0000000000005

  /** `n` half-units of the 12th decimal place. */
  function HalfUlps(n: real): real { n * 0.0000000000005 }

  function Max(a: real, b: real): real { if a >= b then a else b }

  function Min(a: real, b: real): real { if a <= b then a else b }

  lemma MulMonotone(c: real, x: real, y: real)
    requires c >= 0.0 && x <= y
    ensures c * x <= c * y
  {
    assert c * (y - x) >= 0.0;
  }

  lemma DivMonotone(x: real, y: real, d: real)
    requires d > 0.0 && x <= y
    ensures x / d <= y / d
  {
    assert x / d * d == x && y / d * d == y;
  }

  lemma MulPositive(x: real, y: real)
    requires x > 0.0 && y > 0.0
    ensures x * y > 0.0
  {}

  lemma PositiveQuotient(x: real, y: real)
    requires x > 0.0 && y > 0.0
    ensures x / y > 0.0
  {}

  lemma Distribute(a: real, b: real, k: real)
    ensures (a + b) * k == a * k + b * k
  {}

  function RoundHalfEven(x: real): int {
    var lower := x.Floor;
    var rest := x - lower as real;
    if rest < 0.5 then lower
    else if rest > 0.5 then lower + 1
    else if lower % 2 == 0 then lower
    else lower + 1
  }

  /** A tie goes to the even neighbour. */
  lemma TiesGoToEven(k: int)
    ensures RoundHalfEven(k as real + 0.5) % 2 == 0
    ensures k <= RoundHalfEven(k as real + 0.5) <= k + 1
  {
    var x := k as real + 0.5;
    assert x.Floor == k;
  }

  /** A value in units of the 12th decimal place. */
  function Units(x: real): real { x * 1000000000000.0 }

  /** Settlement at 12 decimal places. */
  function Round12(x: real): real {
    RoundHalfEven(Units(x)) as real / 1000000000000.0
  }

  /** `x` has at most 12 decimal places. */
  predicate OnGrid(x: real) {
    Units(x).Floor as real == Units(x)
  }

  lemma RoundMonotone(x: real, y: real)
    requires x <= y
    ensures Round12(x) <= Round12(y)
  {
    assert RoundHalfEven(Units(x)) <= RoundHalfEven(Units(y));
  }

  lemma RoundError(x: real)
    ensures x - HALF_ULP <= Round12(x) <= x + HALF_ULP
  {
    assert Units(x) - 0.5 <= RoundHalfEven(Units(x)) as real <= Units(x) + 0.5;
  }

  lemma RoundOnGrid(x: real)
    ensures OnGrid(Round12(x))
  {
    assert Units(Round12(x)) == RoundHalfEven(Units(x)) as real;
  }

  lemma RoundIdentity(x: real)
    requires OnGrid(x)
    ensures Round12(x) == x
  {
    assert RoundHalfEven(Units(x)) == Units(x).Floor;
  }

  lemma GridClosed(x: real, y: real)
    requires OnGrid(x) && OnGrid(y)
    ensures OnGrid(x + y) && OnGrid(x - y)
  {
    var m, n := Units(x).Floor, Units(y).Floor;
    assert Units(x + y) == (m + n) as real;
    assert Units(x - y) == (m - n) as real;
  }

  lemma RoundNonNegative(x: real)
    requires x >= 0.0
    ensures Round12(x) >= 0.0
  {
    assert Units(x).Floor >= 0;
  }

  /** A non-negative value settles to something positive exactly when it exceeds half a unit
      (the tie at half a unit goes to the even neighbour, zero). */
  lemma RoundPositive(x: real)
    requires x >= 0.0
    ensures Round12(x) > 0.0 <==> x > HALF_ULP
  {
    assert x > HALF_ULP <==> Units(x) > 0.5;
    assert RoundHalfEven(Units(x)) > 0 <==> Units(x) > 0.5;
  }

  /** Settling at most doubles a non-negative value. */
  lemma RoundAtMostDoubles(x: real)
    requires x >= 0.0
    ensures Round12(x) <= 2.0 * x
  {
    assert RoundHalfEven(Units(x)) as real <= 2.0 * Units(x);
  }

  /** Settling a non-negative value keeps it non-negative, puts it on the grid, and moves it by at
      most half a unit of the 12th place. */
  lemma Settled(x: real)
    requires x >= 0.0
    ensures Round12(x) >= 0.0 && OnGrid(Round12(x))
    ensures x - HALF_ULP <= Round12(x) <= x + HALF_ULP
  {
    RoundNonNegative(x);
    RoundOnGrid(x);
    RoundError(x);
  }

  lemma ScaledError(q: real, d: real)
    requires q >= 0.0 && -HALF_ULP <= d <= HALF_ULP
    ensures -HalfUlps(q) <= q * d <= HalfUlps(q)
  {
    assert q * (0.0000000000005 - d) >= 0.0 && q * (d + 0.0000000000005) >= 0.0;
    assert q * (0.0000000000005 - d) == HalfUlps(q) - q * d;
    assert q * (d + 0.0000000000005) == q * d + HalfUlps(q);
  }
}
