/** Facts about real products, quotients and square roots that the solver needs spelled out. Products are passed to the
    lemmas by name: the solver loses track of the sign of an anonymous product, but not of a named one. */
module Reals {
  function Abs(x: real): real { if x < 0.0 then -x else x }

  function Max(x: real, y: real): real { if x < y then y else x }

  function Min(x: real, y: real): real { if y < x then y else x }

  /** What the model assumes of std::sqrt. */
  ghost predicate IsSqrt(sqrt: real -> real) {
    forall x :: x >= 0.0 ==> sqrt(x) >= 0.0 && sqrt(x) * sqrt(x) == x
  }

  lemma SqrtSquared(sqrt: real -> real, x: real)
    requires IsSqrt(sqrt) && x >= 0.0
    ensures sqrt(x) >= 0.0 && sqrt(x) * sqrt(x) == x
  {
  }

  lemma ProductPositive(a: real, b: real, p: real)
    requires p == a * b
    ensures a > 0.0 && b > 0.0 ==> p > 0.0
    ensures a >= 0.0 && b >= 0.0 ==> p >= 0.0
    ensures a > 0.0 && b < 0.0 ==> p < 0.0
    ensures a < 0.0 && b < 0.0 ==> p > 0.0
  {
  }

  lemma SquareSign(e: real, s: real)
    requires s == e * e
    ensures s >= 0.0
    ensures e != 0.0 ==> s > 0.0
    ensures e == 0.0 ==> s == 0.0
  {
    ProductPositive(e, e, s);
  }

  lemma FactorSign(a: real, d: real, p: real)
    requires a > 0.0 && p == a * d
    ensures p > 0.0 <==> d > 0.0
    ensures p < 0.0 <==> d < 0.0
    ensures p == 0.0 <==> d == 0.0
  {
  }

  lemma MulMonotone(a: real, b: real, c: real)
    requires a <= b && c >= 0.0
    ensures c * a <= c * b
  {
  }

  /** Squaring reflects the order of non-negative numbers. */
  lemma SquareOrder(x: real, y: real)
    requires x >= 0.0 && y >= 0.0
    ensures x < y <==> x * x < y * y
    ensures x == y <==> x * x == y * y
  {
    ProductPositive(y - x, y + x, y * y - x * x);
    if x > y { ProductPositive(x - y, y + x, x * x - y * y); }
  }

  lemma SquareOrderOf(x: real, y: real, xx: real, yy: real)
    requires x >= 0.0 && y >= 0.0 && xx == x * x && yy == y * y
    ensures x < y <==> xx < yy
    ensures x == y <==> xx == yy
  {
    SquareOrder(x, y);
  }

  lemma DivSign(a: real, b: real)
    requires b > 0.0
    ensures a > 0.0 <==> a / b > 0.0
    ensures a < 0.0 <==> a / b < 0.0
    ensures a / b * b == a
  {
  }
}
