/** `Math.round` of an exact quotient. JavaScript's `Math.round(x)` is
    `floor(x + 1/2)`: halves round towards positive infinity. */
module Rounding {

  /** `Math.round(a / b)` for a positive divisor, computed exactly:
      floor((2a + b) / 2b). Dafny's `/` floors when the divisor is positive. */
  function RoundDiv(a: int, b: int): (r: int)
    requires b > 0
    ensures 2 * b * r - b <= 2 * a < 2 * b * r + b
  {
    (2 * a + b) / (2 * b)
  }

  /** Multiplying by a positive factor keeps a strict order. */
  lemma MulStrict(b: int, x: int, y: int)
    requires b > 0
    ensures x < y ==> b * x < b * y
  {
    if x < y {
      assert b * y - b * x == b * (y - x);
    }
  }

  /** The rounded quotient is unique: any integer within half a unit of
      a / b is the rounded one. */
  lemma RoundDivUnique(a: int, b: int, r: int)
    requires b > 0
    requires 2 * b * r - b <= 2 * a < 2 * b * r + b
    ensures RoundDiv(a, b) == r
  {
    var q := RoundDiv(a, b);
    MulStrict(b, 2 * q - 1, 2 * r + 1);
    MulStrict(b, 2 * r - 1, 2 * q + 1);
    assert b * (2 * q - 1) <= 2 * a < b * (2 * r + 1);
    assert b * (2 * r - 1) <= 2 * a < b * (2 * q + 1);
  }

  /** Rounding a quotient that lies between two integers stays between
      them. */
  lemma RoundDivBetween(a: int, b: int, lo: int, hi: int)
    requires b > 0
    requires lo * b <= a <= hi * b
    ensures lo <= RoundDiv(a, b) <= hi
  {
    var r := RoundDiv(a, b);
    MulStrict(b, 2 * hi, 2 * r - 1);
    MulStrict(b, 2 * r + 1, 2 * lo);
    assert b * (2 * r - 1) <= 2 * a < b * (2 * r + 1);
    assert b * (2 * lo) <= 2 * a <= b * (2 * hi);
  }

  /** Rounding keeps the sign of the quotient. */
  lemma RoundDivSign(a: int, b: int)
    requires b > 0
    ensures a >= 0 ==> RoundDiv(a, b) >= 0
    ensures a <= 0 ==> RoundDiv(a, b) <= 0
  {
    var r := RoundDiv(a, b);
    if r < -1 {
      MulStrict(b, r, -1);
    }
    if r > 1 {
      MulStrict(b, 1, r);
    }
  }
}
