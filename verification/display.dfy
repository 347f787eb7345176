/**
 Yen display: amounts are shown as whole yen after Python's int(), which
 drops the fractional part toward zero (not toward minus infinity).
 */
module Display {

  /** The whole-yen part of an amount, truncated toward zero. */
  function TruncateYen(x: real): (n: int)
    ensures 0.0 <= x ==> 0 <= n && n as real <= x < n as real + 1.0
    ensures x < 0.0 ==> n <= 0 && n as real - 1.0 < x <= n as real
  {
    if 0.0 <= x then x.Floor else -((-x).Floor)
  }

  /** Truncation is symmetric about zero: a loss shows as the negated
      display of the same gain, unlike flooring. */
  lemma TruncateIsOdd(x: real)
    ensures TruncateYen(-x) == -TruncateYen(x)
  {
    if x < 0.0 {
      assert TruncateYen(x) == -((-x).Floor);
    }
  }

  /** Whole amounts are shown unchanged. */
  lemma TruncateKeepsWholeYen(n: int)
    ensures TruncateYen(n as real) == n
  {
    if n < 0 {
      assert (-(n as real)).Floor == -n;
    }
  }
}
