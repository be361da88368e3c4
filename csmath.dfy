/**
 * C#'s integer `/` and `%`, which truncate toward zero, unlike Dafny's
 * Euclidean operators; they differ whenever an operand is negative.
 */
module CsMath {

  /** Euclidean division on non-negative operands leaves a remainder in [0, d). */
  lemma QuotientBound(n: int, d: int, q: int)
    requires n >= 0 && d > 0 && q == n / d
    ensures 0 <= n - q * d < d
  {
  }

  lemma NegateFactor(x: int, y: int)
    ensures (-x) * y == x * (-y) == -(x * y)
  {
  }

  /** C#'s `/` on int: the quotient truncated toward zero. */
  function CsDiv(a: int, b: int): (q: int)
    requires b != 0
    ensures var r := a - q * b;
      && (a >= 0 ==> r >= 0) && (a <= 0 ==> r <= 0)
      && (if b > 0 then r < b && -r < b else r < -b && -r < -b)
  {
    if a >= 0 && b > 0 then
      var q0 := a / b;
      QuotientBound(a, b, q0);
      q0
    else if a >= 0 then
      var q0 := a / -b;
      QuotientBound(a, -b, q0);
      NegateFactor(q0, b);
      -q0
    else if b > 0 then
      var q0 := (-a) / b;
      QuotientBound(-a, b, q0);
      NegateFactor(q0, b);
      -q0
    else
      var q0 := (-a) / (-b);
      QuotientBound(-a, -b, q0);
      NegateFactor(q0, b);
      q0
  }

  /** C#'s `%` on int: the remainder of the truncated quotient, with the dividend's sign. */
  function CsRem(a: int, b: int): (r: int)
    requires b != 0
    ensures a == CsDiv(a, b) * b + r
    ensures (a >= 0 ==> r >= 0) && (a <= 0 ==> r <= 0)
    ensures if b > 0 then -b < r < b else b < r < -b
  {
    a - CsDiv(a, b) * b
  }

  /** On operands that are not negative, the C# and Dafny operators agree. */
  lemma AgreeOnNatural(a: int, b: int)
    requires a >= 0 && b > 0
    ensures CsDiv(a, b) == a / b && CsRem(a, b) == a % b
  {
  }
}
