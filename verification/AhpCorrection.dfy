// One step of the auto-correction of
// backend/src/protection_optimizer/protection_optimizer.cpp, for any weights and
// any entry: what it keeps and what it does to the consistency ratio.
module AhpCorrection {
  import opened Reals
  import opened AhpSums
  import opened AhpConsistency

  function Clamp(x: real): real {
    if x < NINTH then NINTH else if x > 9.0 then 9.0 else x
  }

  function StepRatio(configured: real): real {
    if configured < 0.01 then 0.15 else configured
  }

  // Entry (p, q) set to x, then its mirror image to 1/x.
  function WithPair(a: Matrix, p: nat, q: nat, x: real): (b: Matrix)
    requires Square(a) && p < |a| && q < |a| && x != 0.0
    ensures Square(b) && |b| == |a|
    ensures forall i, j :: 0 <= i < |a| && 0 <= j < |a| ==>
      b[i][j] == if i == q && j == p then 1.0 / x else if i == p && j == q then x else a[i][j]
  {
    var c := a[p := a[p][q := x]];
    c[q := c[q][p := 1.0 / x]]
  }

  function Delta(actual: real, ideal: real, s: real): real {
    (ideal - actual) * s
  }

  function NewEntry(actual: real, ideal: real, s: real): (x: real)
    ensures NINTH <= x <= 9.0
  {
    Clamp(actual + Delta(actual, ideal, s))
  }

  function Corrected(a: Matrix, w: Vector, p: nat, q: nat, s: real): (b: Matrix)
    requires Square(a) && |w| == |a| && p < |a| && q < |a| && w[q] > 0.0
    ensures Square(b) && |b| == |a|
  {
    WithPair(a, p, q, NewEntry(a[p][q], w[p] / w[q], s))
  }

  lemma ReciprocalOfEntry(x: real)
    requires NINTH <= x <= 9.0
    ensures Inverse(x, 1.0 / x) && NINTH <= 1.0 / x <= 9.0
  {
    assert x * (1.0 / x) == 1.0;
    InverseBounds(x, 1.0 / x);
  }

  lemma InverseBounds(x: real, y: real)
    requires NINTH <= x <= 9.0 && x * y == 1.0
    ensures NINTH <= y <= 9.0
  {
    SignOfFactor(y, x, 1.0);
    FactorOrder(9.0, x, y, 1.0);
    FactorOrder(1.0 / 9.0, x, y, 1.0);
  }

  // On the diagonal the step puts 1 back.
  lemma DiagonalEntry(w: real, s: real)
    requires w > 0.0
    ensures NewEntry(1.0, w / w, s) == 1.0
  {
    SelfQuotient(w);
    ZeroTimes(w / w - 1.0, s);
  }

  // Whatever the step ratio, the mirrored entries stay inverse to each other.
  lemma CorrectedReciprocal(a: Matrix, w: Vector, p: nat, q: nat, s: real)
    requires Reciprocal(a) && |w| == |a| && p < |a| && q < |a| && w[q] > 0.0
    ensures Reciprocal(Corrected(a, w, p, q, s))
    ensures Bounded(a) ==> Bounded(Corrected(a, w, p, q, s))
    ensures p == q ==> Corrected(a, w, p, q, s) == a
  {
    var x := NewEntry(a[p][q], w[p] / w[q], s);
    ReciprocalOfEntry(x);
    var b := Corrected(a, w, p, q, s);
    if p == q {
      DiagonalEntry(w[q], s);
      assert forall i :: 0 <= i < |a| ==> b[i] == a[i];
      assert b == a;
    } else {
      forall i, j | 0 <= i < |a| && 0 <= j < |a| ensures Inverse(b[i][j], b[j][i]) && b[i][i] == 1.0 {
        assert Inverse(a[i][j], a[j][i]);
        MirrorInverse(x);
      }
    }
  }

  lemma CorrectedKeeps(a: Matrix, w: Vector, p: nat, q: nat, s: real)
    requires PositiveMatrix(a) && |w| == |a| && p < |a| && q < |a| && w[q] > 0.0
    ensures PositiveMatrix(Corrected(a, w, p, q, s))
    ensures Reciprocal(a) ==> Reciprocal(Corrected(a, w, p, q, s))
    ensures Pairwise(a) ==> Pairwise(Corrected(a, w, p, q, s))
  {
    ReciprocalOfEntry(NewEntry(a[p][q], w[p] / w[q], s));
    if Reciprocal(a) { CorrectedReciprocal(a, w, p, q, s); }
  }

  lemma MirrorInverse(x: real)
    requires NINTH <= x <= 9.0
    ensures Inverse(x, 1.0 / x) && Inverse(1.0 / x, x)
  {
    ReciprocalOfEntry(x);
  }

  // ---------- one step and the ratio ----------

  // Negative exactly when changing the pair (y, 1/y) to (x, 1/x) lowers the
  // principal value for weights of ratio c, zero exactly when it stays.
  function Rise(x: real, y: real, c: real): real {
    (x - y) * (x * y - c * c)
  }

  lemma PairRise(x: real, y: real, c: real)
    requires x > 0.0 && y > 0.0 && c > 0.0
    ensures x / c > 0.0 && y / c > 0.0
    ensures (x / c + c / x) - (y / c + c / y) <= 0.0 <==> Rise(x, y, c) <= 0.0
    ensures (x / c + c / x) - (y / c + c / y) == 0.0 <==> Rise(x, y, c) == 0.0
  {
    var u, u', v, v' := x / c, c / x, y / c, c / y;
    assert u * c == x && v * c == y && u' * x == c && v' * y == c;
    var d := x * y * c;
    PositiveProduct(x, y, x * y);
    PositiveProduct(x * y, c, d);
    Expand(x, y, c, u, d);
    Expand(y, x, c, v, d);
    ExpandInverse(x, y, c, u', d);
    ExpandInverse(y, x, c, v', d);
    var t := (u + u') - (v + v');
    assert t * d == u * d + u' * d - v * d - v' * d;
    RiseExpanded(x, y, c);
    assert t * d == Rise(x, y, c);
    SignOfFactor(t, d, t * d);
    SignOfFactor(-t, d, -t * d);
    if t == 0.0 { ZeroTimes(t, d); }
    SignOfFactor(u, c, x);
    SignOfFactor(v, c, y);
  }

  lemma Expand(x: real, y: real, c: real, u: real, d: real)
    requires u * c == x && d == x * y * c
    ensures u * d == x * (x * y)
  {
    assert u * d == u * c * (x * y);
  }

  lemma ExpandInverse(x: real, y: real, c: real, u: real, d: real)
    requires u * x == c && d == x * y * c
    ensures u * d == c * (y * c)
  {
    assert u * d == u * x * (y * c);
  }

  lemma RiseExpanded(x: real, y: real, c: real)
    ensures Rise(x, y, c) == x * (x * y) + c * (y * c) - y * (y * x) - c * (x * c)
  {
    assert (x - y) * (x * y) == x * (x * y) - y * (x * y);
    assert (x - y) * (c * c) == x * (c * c) - y * (c * c);
  }

  // The entry the step writes never raises the pair for any ratio up to 10/9:
  // beyond that it can overshoot the weights' own ratio.
  lemma NewEntryFalls(y: real, c: real, s: real)
    requires NINTH <= y <= 9.0 && c > 0.0 && 0.0 < s <= 10.0 / 9.0
    ensures Rise(NewEntry(y, c, s), y, c) <= 0.0
  {
    NewEntryBetween(y, c, s);
    BetweenFalls(NewEntry(y, c, s), y, c);
  }

  lemma BetweenFalls(x: real, y: real, c: real)
    requires NINTH <= x && NINTH <= y <= 9.0 && c > 0.0
    requires c >= y ==> y <= x <= (10.0 * c - y) / 9.0 || x == y
    requires c <= y ==> (10.0 * c - y) / 9.0 <= x <= y
    ensures Rise(x, y, c) <= 0.0
  {
    var z := x * y - c * c;
    if x == y {
      ZeroTimes(x - y, z);
    } else if c > y {
      OvershootUp(x, y, c);
      OppositeSigns(x - y, z);
    } else {
      OvershootDown(x, y, c);
      OppositeSigns(z, x - y);
    }
  }

  lemma NewEntryBetween(y: real, c: real, s: real)
    requires NINTH <= y <= 9.0 && 0.0 < s <= 10.0 / 9.0
    ensures var x := NewEntry(y, c, s);
            && (c >= y ==> y <= x <= (10.0 * c - y) / 9.0 || x == y)
            && (c <= y ==> (10.0 * c - y) / 9.0 <= x <= y)
  {
    StepBetween(c - y, s, (c - y) * s);
  }

  lemma StepBetween(g: real, s: real, d: real)
    requires 0.0 < s <= 10.0 / 9.0 && d == g * s
    ensures g >= 0.0 ==> 0.0 <= d <= 10.0 * g / 9.0
    ensures g <= 0.0 ==> 10.0 * g / 9.0 <= d <= 0.0
  {
    if g >= 0.0 { ProductOrder(s, 10.0 / 9.0, g); } else { ProductOrder(s, 10.0 / 9.0, -g); }
  }

  lemma OppositeSigns(d: real, z: real)
    requires d >= 0.0 && z <= 0.0
    ensures d * z <= 0.0
  {}

  lemma OvershootUp(x: real, y: real, c: real)
    requires c > y > 0.0 && (x <= (10.0 * c - y) / 9.0)
    ensures x * y <= c * c
  {
    var bound := (10.0 * c - y) / 9.0;
    ProductOrder(x, bound, y);
    assert 9.0 * (bound * y) == 10.0 * (c * y) - y * y;
    NonNegativeProduct(c - y, 9.0 * c - y);
    assert (c - y) * (9.0 * c - y) == 9.0 * (c * c) - 10.0 * (c * y) + y * y;
  }

  lemma OvershootDown(x: real, y: real, c: real)
    requires 0.0 < c < y <= 9.0 && x >= NINTH && x >= (10.0 * c - y) / 9.0
    ensures x * y >= c * c
  {
    if y <= 9.0 * c {
      var bound := (10.0 * c - y) / 9.0;
      ProductOrder(bound, x, y);
      assert 9.0 * (bound * y) == 10.0 * (c * y) - y * y;
      NonNegativeProduct(y - c, 9.0 * c - y);
      assert (y - c) * (9.0 * c - y) == 10.0 * (c * y) - 9.0 * (c * c) - y * y;
    } else {
      FloorHolds(x, y, c);
    }
  }

  lemma FloorHolds(x: real, y: real, c: real)
    requires 0.0 < 9.0 * c < y <= 9.0 && x >= NINTH
    ensures x * y >= c * c
  {
    FactorOrder(1.0 / 9.0, x, y, x * y);
    FactorOrder(1.0, c, c, c * c);
  }

  // Replacing one mirrored pair moves the ratio exactly as the pair's rise says.
  lemma RatioMoves(a: Matrix, w: Vector, p: nat, q: nat, x: real)
    requires Reciprocal(a) && |a| > 2 && |w| == |a| && AboveGuard(w)
    requires p < |a| && q < |a| && p != q && NINTH <= x <= 9.0
    ensures var b := WithPair(a, p, q, x);
            && (ConsistencyRatio(b, w) <= ConsistencyRatio(a, w) <==> Rise(x, a[p][q], w[p] / w[q]) <= 0.0)
            && (ConsistencyRatio(b, w) == ConsistencyRatio(a, w) <==> Rise(x, a[p][q], w[p] / w[q]) == 0.0)
  {
    var b, n := WithPair(a, p, q, x), |a|;
    var sa, sb := Scaled(a, w), Scaled(b, w);
    var r := Rise(x, a[p][q], w[p] / w[q]);
    ScaledRise(a, w, p, q, x);
    LambdaIsBlock(a, w);
    LambdaIsBlock(b, w);
    if r <= 0.0 { BlockOrder(sb, sa, n); }
    if r >= 0.0 { BlockOrder(sa, sb, n); }
    if r != 0.0 { assert Pair(sa, p, q) != Pair(sb, p, q); }
    RatioOrder(a, b, w);
  }

  // Ratios for the same weights compare as the principal sums do.
  lemma RatioOrder(a: Matrix, b: Matrix, w: Vector)
    requires Square(a) && Square(b) && |a| == |b| == |w| && |a| > 2
    ensures ConsistencyRatio(b, w) <= ConsistencyRatio(a, w) <==> LambdaSum(b, w, |a|) <= LambdaSum(a, w, |a|)
    ensures ConsistencyRatio(b, w) == ConsistencyRatio(a, w) <==> LambdaSum(b, w, |a|) == LambdaSum(a, w, |a|)
  {
    var n := |a|;
    RatioIs(a, w);
    RatioIs(b, w);
    RatioFromOrder(LambdaSum(a, w, n), LambdaSum(b, w, n), n as real, (n - 1) as real, RandomIndex(n));
  }

  lemma RatioFromOrder(s: real, t: real, n: real, m: real, ri: real)
    requires n > 0.0 && m > 0.0 && ri > 0.0
    ensures RatioFrom(t, n, m, ri) <= RatioFrom(s, n, m, ri) <==> t <= s
    ensures RatioFrom(t, n, m, ri) == RatioFrom(s, n, m, ri) <==> t == s
  {
    QuotientOrder(t, s, n);
    QuotientOrder(t / n - n, s / n - n, m);
    QuotientOrder((t / n - n) / m, (s / n - n) / m, ri);
  }

  // The scaled matrices agree off the pair, and on it differ by its rise.
  lemma ScaledRise(a: Matrix, w: Vector, p: nat, q: nat, x: real)
    requires Reciprocal(a) && |w| == |a| && Positive(w)
    requires p < |a| && q < |a| && p != q && NINTH <= x <= 9.0
    ensures var sa, sb, r := Scaled(a, w), Scaled(WithPair(a, p, q, x), w), Rise(x, a[p][q], w[p] / w[q]);
            && (r <= 0.0 ==> PairsBelow(sb, sa, |a|))
            && (r >= 0.0 ==> PairsBelow(sa, sb, |a|))
            && (r == 0.0 <==> Pair(sa, p, q) == Pair(sb, p, q))
  {
    var sa, sb, r := Scaled(a, w), Scaled(WithPair(a, p, q, x), w), Rise(x, a[p][q], w[p] / w[q]);
    ScaledPair(a, w, p, q, x);
    forall i: nat, j: nat | i < |a| && j < |a|
      ensures r <= 0.0 ==> Pair(sb, i, j) <= Pair(sa, i, j)
      ensures r >= 0.0 ==> Pair(sa, i, j) <= Pair(sb, i, j)
    {
      if (i == p && j == q) || (i == q && j == p) {
      } else {
        ScaledSame(a, WithPair(a, p, q, x), w, i, j);
        ScaledSame(a, WithPair(a, p, q, x), w, j, i);
      }
    }
  }

  lemma ScaledPair(a: Matrix, w: Vector, p: nat, q: nat, x: real)
    requires Reciprocal(a) && |w| == |a| && Positive(w)
    requires p < |a| && q < |a| && p != q && NINTH <= x <= 9.0
    ensures var sa, sb, r := Scaled(a, w), Scaled(WithPair(a, p, q, x), w), Rise(x, a[p][q], w[p] / w[q]);
            && (Pair(sb, p, q) - Pair(sa, p, q) <= 0.0 <==> r <= 0.0)
            && (Pair(sb, p, q) - Pair(sa, p, q) == 0.0 <==> r == 0.0)
  {
    RatioInverse(w[p], w[q]);
    assert Inverse(a[p][q], a[q][p]);
    PairRise(x, a[p][q], w[p] / w[q]);
    ScaledAt(a, w, p, q);
    ReciprocalOfEntry(x);
    ScaledAt(WithPair(a, p, q, x), w, p, q);
  }

  lemma ScaledAt(a: Matrix, w: Vector, p: nat, q: nat)
    requires Square(a) && |w| == |a| && Positive(w) && p < |a| && q < |a| && Inverse(a[p][q], a[q][p])
    ensures w[p] / w[q] > 0.0
    ensures Scaled(a, w)[p][q] == a[p][q] / (w[p] / w[q]) && Scaled(a, w)[q][p] == w[p] / w[q] / a[p][q]
  {
    ScaledEntry(a[p][q], a[q][p], w[p], w[q]);
  }

  lemma ScaledSame(a: Matrix, b: Matrix, w: Vector, i: nat, j: nat)
    requires Square(a) && Square(b) && |b| == |a| == |w| && Positive(w)
    requires i < |a| && j < |a| && a[i][j] == b[i][j]
    ensures Scaled(a, w)[i][j] == Scaled(b, w)[i][j]
  {}

  lemma ScaledEntry(y: real, y': real, u: real, v: real)
    requires Inverse(y, y') && u > 0.0 && v > 0.0
    ensures u / v > 0.0 && y * v / u == y / (u / v) && y' * u / v == u / v / y
  {
    var c := u / v;
    assert c * v == u;
    SignOfFactor(c, v, u);
    assert y * v / u * c == y * v / u * (u / v);
    assert y' * c * y == c;
    QuotientIs(y' * c, y, c);
    var z := y * v / u;
    assert z * u == y * v;
    assert z * c * v == y * v;
    assert (z * c - y) * v == 0.0;
    ZeroFactor(z * c - y, v);
    QuotientIs(z, c, y);
  }

  // One correction step with a ratio up to 10/9 never raises the consistency
  // ratio measured with the weights it used.
  lemma StepNeverRaises(a: Matrix, w: Vector, p: nat, q: nat, s: real)
    requires Pairwise(a) && |a| > 2 && |w| == |a| && AboveGuard(w) && p < |a| && q < |a|
    requires 0.0 < s <= 10.0 / 9.0
    ensures ConsistencyRatio(Corrected(a, w, p, q, s), w) <= ConsistencyRatio(a, w)
  {
    if p == q {
      CorrectedReciprocal(a, w, p, q, s);
    } else {
      var c := w[p] / w[q];
      RatioInverse(w[p], w[q]);
      assert NINTH <= a[p][q] <= 9.0;
      NewEntryFalls(a[p][q], c, s);
      RatioMoves(a, w, p, q, NewEntry(a[p][q], c, s));
    }
  }

  // With a ratio up to 1 every step that changes the matrix lowers the ratio.
  lemma StepLowers(a: Matrix, w: Vector, p: nat, q: nat, s: real)
    requires Pairwise(a) && |a| > 2 && |w| == |a| && AboveGuard(w) && p < |a| && q < |a|
    requires 0.0 < s <= 1.0
    ensures Corrected(a, w, p, q, s) == a || ConsistencyRatio(Corrected(a, w, p, q, s), w) < ConsistencyRatio(a, w)
  {
    StepNeverRaises(a, w, p, q, s);
    CorrectedReciprocal(a, w, p, q, s);
    if p != q {
      var y, c := a[p][q], w[p] / w[q];
      var x := NewEntry(y, c, s);
      RatioInverse(w[p], w[q]);
      RatioMoves(a, w, p, q, x);
      assert NINTH <= y <= 9.0;
      if Rise(x, y, c) == 0.0 {
        FlatOnlyStill(x, y, c, s);
        assert Inverse(a[p][q], a[q][p]);
        QuotientIs(a[q][p], x, 1.0);
        SameMatrix(a, WithPair(a, p, q, x));
      }
    }
  }

  lemma SameMatrix(a: Matrix, b: Matrix)
    requires Square(a) && Square(b) && |a| == |b|
    requires forall i, j :: 0 <= i < |a| && 0 <= j < |a| ==> a[i][j] == b[i][j]
    ensures a == b
  {
    assert forall i :: 0 <= i < |a| ==> a[i] == b[i];
  }

  lemma FlatOnlyStill(x: real, y: real, c: real, s: real)
    requires NINTH <= y <= 9.0 && c > 0.0 && 0.0 < s <= 1.0 && x == NewEntry(y, c, s)
    requires Rise(x, y, c) == 0.0
    ensures x == y
  {
    WithinIdeal(c - y, s, (c - y) * s);
    if x > y {
      SmallerFactors(y, x, c, x * y, c * c);
      NonZeroProduct(x - y, x * y - c * c);
    } else if x < y {
      LargerFactors(y, x, c, x * y, c * c);
      NonZeroProduct(x - y, x * y - c * c);
    }
  }

  lemma SmallerFactors(x: real, y: real, c: real, xy: real, cc: real)
    requires 0.0 < x < c && 0.0 < y <= c && xy == x * y && cc == c * c
    ensures xy < cc
  {
    ProductLess(y, c, x);
    ProductLess(x, c, c);
  }

  lemma LargerFactors(x: real, y: real, c: real, xy: real, cc: real)
    requires 0.0 < c < x && c <= y && xy == x * y && cc == c * c
    ensures xy > cc
  {
    ProductLess(c, y, x);
    ProductLess(c, x, c);
  }

  lemma WithinIdeal(g: real, s: real, d: real)
    requires 0.0 < s <= 1.0 && d == g * s
    ensures g >= 0.0 ==> 0.0 <= d <= g
    ensures g <= 0.0 ==> g <= d <= 0.0
  {
    if g >= 0.0 { ProductOrder(s, 1.0, g); } else { ProductOrder(s, 1.0, -g); }
  }

  lemma NonZeroProduct(x: real, y: real)
    requires x != 0.0 && y != 0.0
    ensures x * y != 0.0
  {}
}
