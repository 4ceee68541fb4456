// Order and cancellation in the reals, one product or quotient at a time.
module Reals {

  function Max(x: real, y: real): real { if x < y then y else x }
  function Min(x: real, y: real): real { if y < x then y else x }
  function Abs(x: real): real { if x < 0.0 then -x else x }
  function Squared(x: real): real { x * x }

  lemma ProductOrder(a: real, b: real, c: real)
    requires a <= b && c >= 0.0
    ensures a * c <= b * c
  {}

  lemma PositiveProduct(x: real, y: real, z: real)
    requires x > 0.0 && y > 0.0 && z == x * y
    ensures z > 0.0
  {}

  lemma NegativeProduct(x: real, y: real, z: real)
    requires x < 0.0 && y < 0.0 && z == x * y
    ensures z > 0.0
  {}

  lemma ZeroTimes(x: real, y: real)
    requires x == 0.0
    ensures x * y == 0.0
  {}

  lemma Distribute(c: real, x: real, y: real)
    ensures c * (x + y) == c * x + c * y
  {}

  lemma SignOfFactor(y: real, d: real, z: real)
    requires z == y * d && d > 0.0
    ensures (z >= 0.0 ==> y >= 0.0) && (z > 0.0 ==> y > 0.0)
  {}

  lemma SameSign(x: real, c: real)
    requires c > 0.0
    ensures x * c >= 0.0 <==> x >= 0.0
    ensures x * c == 0.0 <==> x == 0.0
  {}

  lemma SelfQuotient(x: real)
    requires x != 0.0
    ensures x / x == 1.0
  {}

  lemma QuotientIs(x: real, d: real, y: real)
    requires x * d == y && d != 0.0
    ensures x == y / d
  {}

  lemma ZeroFactor(x: real, d: real)
    requires x * d == 0.0 && d != 0.0
    ensures x == 0.0
  {}

  lemma SumQuotient(x: real, y: real, c: real)
    requires c != 0.0
    ensures (x + y) / c == x / c + y / c
  {}

  lemma FactorOrder(k: real, x: real, y: real, z: real)
    requires z == x * y && y >= 0.0
    ensures (x <= k ==> z <= k * y) && (x >= k ==> z >= k * y)
  {}

  lemma NonNegativeProduct(x: real, y: real)
    requires x >= 0.0 && y >= 0.0
    ensures x * y >= 0.0
  {}

  lemma ProductLess(x: real, y: real, c: real)
    requires x <= y && c > 0.0
    ensures x * c <= y * c && (x < y ==> x * c < y * c)
  {}

  lemma SquareSign(x: real)
    ensures Squared(x) >= 0.0 && (x != 0.0 ==> Squared(x) > 0.0)
  {
    if x > 0.0 {
      PositiveProduct(x, x, Squared(x));
    } else if x < 0.0 {
      NegativeProduct(x, x, Squared(x));
    } else {
      ZeroTimes(x, x);
    }
  }

  lemma QuotientOrder(x: real, y: real, d: real)
    requires d > 0.0
    ensures x / d <= y / d <==> x <= y
    ensures x / d == y / d <==> x == y
  {
    assert x / d * d == x && y / d * d == y;
    assert (y / d - x / d) * d == y - x;
    SameSign(y / d - x / d, d);
  }
}
