/** The rounding that the engine's arithmetic relies on.
    Numbers are modelled as exact reals; JavaScript's `Math.round(x)` rounds half
    up, that is, it is `floor(x + 1/2)`. `Round1` is the idiom
    `Math.round(x * 10) / 10` used throughout the engine to keep one decimal. */
module JsMath {

  /** `Math.round`: the integer nearest to x, halves going up. */
  function Round(x: real): (n: int)
    ensures x - 0.5 < n as real <= x + 0.5
  {
    (x + 0.5).Floor
  }

  /** `Math.round(x * 10) / 10`: x rounded to one decimal place. */
  function Round1(x: real): (r: real)
    ensures x - 0.05 < r <= x + 0.05
    ensures IsOneDecimal(r)
  {
    RoundOfInteger(Round(10.0 * x));
    Round(10.0 * x) as real / 10.0
  }

  /** x already has at most one decimal, so that rounding it again changes nothing. */
  predicate IsOneDecimal(x: real)
  {
    (10.0 * x).Floor as real == 10.0 * x
  }

  /** x is a whole multiple of 5. */
  predicate MultipleOf5(x: real)
  {
    (x / 5.0).Floor as real == x / 5.0
  }

  function Min(a: real, b: real): (r: real)
    ensures r <= a && r <= b && (r == a || r == b)
  {
    if a <= b then a else b
  }

  function Max(a: real, b: real): (r: real)
    ensures r >= a && r >= b && (r == a || r == b)
  {
    if a >= b then a else b
  }

  lemma RoundOfInteger(n: int)
    ensures Round(n as real) == n
  {
  }

  /** Adding a whole number commutes with rounding. */
  lemma RoundShift(x: real, n: int)
    ensures Round(x + n as real) == Round(x) + n
  {
  }

  lemma RoundMonotone(x: real, y: real)
    requires x <= y
    ensures Round(x) <= Round(y)
  {
  }

  lemma Round1Monotone(x: real, y: real)
    requires x <= y
    ensures Round1(x) <= Round1(y)
  {
    RoundMonotone(10.0 * x, 10.0 * y);
  }

  lemma Round1NonNegative(x: real)
    ensures x >= 0.0 ==> Round1(x) >= 0.0
  {
    if x >= 0.0 {
      Round1Monotone(0.0, x);
    }
  }

  /** A value with one decimal is a fixed point of `Round1`. */
  lemma Round1OfOneDecimal(x: real)
    requires IsOneDecimal(x)
    ensures Round1(x) == x
  {
    RoundOfInteger((10.0 * x).Floor);
  }

  /** Sums of one-decimal values keep one decimal, so re-rounding them is exact. */
  lemma OneDecimalSum(a: real, b: real)
    requires IsOneDecimal(a) && IsOneDecimal(b)
    ensures IsOneDecimal(a + b)
    ensures Round1(a + b) == a + b
  {
    var m, n := (10.0 * a).Floor, (10.0 * b).Floor;
    assert 10.0 * (a + b) == (m + n) as real;
    Round1OfOneDecimal(a + b);
  }

  /** Anything of at least 0.05 shows as at least 0.1 after rounding to one decimal. */
  lemma Round1AtLeastTenth(x: real)
    requires x >= 0.05
    ensures Round1(x) >= 0.1
  {
    Round1Monotone(0.05, x);
    assert Round(10.0 * 0.05) == 1;
  }
}
