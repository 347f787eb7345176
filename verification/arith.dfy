/**
 Small facts of real arithmetic that the solver does not find on its own
 once products of unknowns appear in a larger proof.
 */
module RealArith {

  lemma ProductNonNegative(x: real, y: real)
    requires 0.0 <= x && 0.0 <= y
    ensures 0.0 <= x * y
  {
  }

  lemma ProductPositive(x: real, y: real)
    requires 0.0 < x && 0.0 < y
    ensures 0.0 < x * y
  {
  }

  /** Dividing by a product and multiplying back by one factor divides by
      the other factor. */
  lemma DivRescale(x: real, a: real, b: real)
    requires 0.0 < a && 0.0 < b
    ensures x / (a * b) * b == x / a
  {
  }

  /** A factor common to numerator and denominator cancels. */
  lemma CommonFactor(s: real, n: real, d: real)
    requires 0.0 < n && 0.0 < d
    ensures (d * s) / (n * d) == s / n
  {
  }

  /** Bounds on a numerator relative to a positive denominator bound the
      quotient. */
  lemma QuotientBetween(s: real, n: real, lo: real, hi: real)
    requires 0.0 < n && lo * n <= s <= hi * n
    ensures lo <= s / n <= hi
  {
  }

  /** Dividing a non-negative amount by a larger positive number gives less. */
  lemma DivideByMore(x: real, p1: real, p2: real)
    requires 0.0 <= x && 0.0 < p1 <= p2
    ensures x / p2 <= x / p1
  {
    var q1 := x / p1;
    var q2 := x / p2;
    assert q1 * p1 == x && q2 * p2 == x;
    ProductNonNegative(q1, p2 - p1);
    assert q1 * p2 >= q1 * p1;
    if q2 > q1 {
      ProductPositive(q2 - q1, p2);
    }
  }
}
