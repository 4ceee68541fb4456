// Judgements the auto-correction loop of
// backend/src/protection_optimizer/protection_optimizer.cpp cannot repair: the
// first of four alternatives is judged 9 against two equal ones, each of those
// 9 against the last, and the scale ends at 9 for the first against the last.
module AhpCapped {
  import opened Reals
  import opened AhpSums
  import opened AhpConsistency
  import opened AhpOptimizer
  import opened AhpLimits

  function Capped(): (a: Matrix)
    ensures Square(a) && |a| == 4
  {
    [[1.0, 9.0, 9.0, 9.0],
     [1.0 / 9.0, 1.0, 1.0, 9.0],
     [1.0 / 9.0, 1.0, 1.0, 9.0],
     [1.0 / 9.0, 1.0 / 9.0, 1.0 / 9.0, 1.0]]
  }

  lemma CappedPairwise()
    ensures Pairwise(Capped())
  {}

  lemma Dot4(r: Vector, w: Vector)
    requires |r| == |w| == 4
    ensures Dot(r, w, 4) == r[0] * w[0] + r[1] * w[1] + r[2] * w[2] + r[3] * w[3]
  {
    assert Dot(r, w, 1) == r[0] * w[0];
    assert Dot(r, w, 2) == Dot(r, w, 1) + r[1] * w[1];
    assert Dot(r, w, 3) == Dot(r, w, 2) + r[2] * w[2];
  }

  lemma Total4(w: Vector)
    requires |w| == 4
    ensures Total(w, 4) == w[0] + w[1] + w[2] + w[3]
  {
    assert Total(w, 1) == w[0];
    assert Total(w, 2) == Total(w, 1) + w[1];
    assert Total(w, 3) == Total(w, 2) + w[2];
  }

  // The first, a middle and the last weight after k rounds: three rounds
  // exactly, then a range that no round leaves.
  predicate Profile(k: nat, h: real, m: real, l: real) {
    && m > 0.0
    && (k == 0 ==> h == m && l == m)
    && (k == 1 ==> 25.0 * h == 63.0 * m && 25.0 * l == 3.0 * m)
    && (k == 2 ==> 7.0 * h == 45.0 * m && 27.0 * l == 5.0 * m)
    && (k == 3 ==> 23.0 * h == 137.0 * m && 207.0 * l == 53.0 * m)
    && (k >= 4 ==> 5.2 * m <= h <= 5.7 * m && 0.215 * m <= l <= 0.235 * m)
  }

  predicate Stage(k: nat, w: Vector) {
    |w| == 4 && w[1] == w[2] && Profile(k, w[0], w[1], w[3])
  }

  lemma ProfileStep(k: nat, h: real, m: real, l: real)
    requires Profile(k, h, m, l)
    ensures Profile(k + 1, h + 18.0 * m + 9.0 * l, h / 9.0 + 2.0 * m + 9.0 * l, h / 9.0 + 2.0 / 9.0 * m + l)
  {}

  lemma ScaledLink(p: real, x: real, q: real, y: real, t: real, x': real, y': real)
    requires t > 0.0 && x' == x * t && y' == y * t
    ensures p * x <= q * y ==> p * x' <= q * y'
    ensures p * x == q * y ==> p * x' == q * y'
  {
    assert p * (x * t) == p * x * t && q * (y * t) == q * y * t;
    if p * x <= q * y { ProductOrder(p * x, q * y, t); }
  }

  lemma ProfileScaled(k: nat, h: real, m: real, l: real, t: real, h': real, m': real, l': real)
    requires Profile(k, h, m, l) && t > 0.0 && h' == h * t && m' == m * t && l' == l * t
    ensures Profile(k, h', m', l')
  {
    PositiveProduct(m, t, m');
    if k < 4 {
      ScaledLink(25.0, h, 63.0, m, t, h', m');
      ScaledLink(25.0, l, 3.0, m, t, l', m');
      ScaledLink(7.0, h, 45.0, m, t, h', m');
      ScaledLink(27.0, l, 5.0, m, t, l', m');
      ScaledLink(23.0, h, 137.0, m, t, h', m');
      ScaledLink(207.0, l, 53.0, m, t, l', m');
    } else {
      ScaledLink(5.2, m, 1.0, h, t, m', h');
      ScaledLink(1.0, h, 5.7, m, t, h', m');
      ScaledLink(0.215, m, 1.0, l, t, m', l');
      ScaledLink(1.0, l, 0.235, m, t, l', m');
    }
  }

  lemma CappedRows(w: Vector)
    requires |w| == 4 && w[1] == w[2]
    ensures var u, h, m, l := Multiply(Capped(), w), w[0], w[1], w[3];
            && u[0] == h + 18.0 * m + 9.0 * l && u[1] == u[2] == h / 9.0 + 2.0 * m + 9.0 * l
            && u[3] == h / 9.0 + 2.0 / 9.0 * m + l
  {
    Dot4(Capped()[0], w);
    Dot4(Capped()[1], w);
    Dot4(Capped()[2], w);
    Dot4(Capped()[3], w);
  }

  lemma StageStep(k: nat, w: Vector)
    requires Stage(k, w)
    ensures Stage(k + 1, PowerStep(Capped(), w)) && Total(PowerStep(Capped(), w), 4) == 1.0
  {
    CappedRows(w);
    ProfileStep(k, w[0], w[1], w[3]);
    StageNormalized(k + 1, Multiply(Capped(), w));
  }

  lemma StageNormalized(k: nat, u: Vector)
    requires Stage(k, u)
    ensures Stage(k, Normalize(u)) && Total(Normalize(u), 4) == 1.0
  {
    Total4(u);
    StagePositive(k, u);
    NormalizeTotal(u);
    var v, norm := Normalize(u), Total(u, 4);
    PositiveQuotient(norm);
    QuotientAsProduct(u[0], norm);
    QuotientAsProduct(u[1], norm);
    QuotientAsProduct(u[3], norm);
    ProfileScaled(k, u[0], u[1], u[3], 1.0 / norm, v[0], v[1], v[3]);
  }

  lemma QuotientAsProduct(x: real, d: real)
    requires d != 0.0
    ensures x / d == x * (1.0 / d)
  {}

  lemma PositiveQuotient(x: real)
    requires x > 0.0
    ensures 1.0 / x > 0.0
  {
    assert 1.0 / x * x == 1.0;
    SignOfFactor(1.0 / x, x, 1.0);
  }

  lemma StagePositive(k: nat, w: Vector)
    requires Stage(k, w)
    ensures Positive(w)
  {}

  // The second weight moves in each of the first three rounds.
  lemma StageMoves(k: nat, w: Vector, v: Vector)
    requires k < 3 && Stage(k, w) && Stage(k + 1, v) && Total(w, 4) == Total(v, 4) == 1.0
    ensures Diff(v, w, 4) >= CONVERGED
  {
    Total4(w);
    Total4(v);
    assert Abs(v[1] - w[1]) >= 0.005;
    DiffAtLeast(v, w, 4, 1);
  }

  lemma {:induction false} DiffAtLeast(v: Vector, w: Vector, k: nat, i: nat)
    requires i < k <= |v| && |w| == |v|
    ensures Diff(v, w, k) >= Abs(v[i] - w[i])
  {
    DiffPositive(v, w, k - 1);
    if i < k - 1 { DiffAtLeast(v, w, k - 1, i); }
  }

  lemma {:induction false} DiffPositive(v: Vector, w: Vector, k: nat)
    requires k <= |v| && |w| == |v|
    ensures Diff(v, w, k) >= 0.0
  {
    if k > 0 { DiffPositive(v, w, k - 1); }
  }

  // Power iteration passes the first three stages and stops in the last one.
  lemma {:induction false} StageReached(k: nat, w: Vector, iterations: nat)
    requires Stage(k, w) && Total(w, 4) == 1.0 && iterations > 0 && k + iterations >= 4
    ensures Stage(4, Power(Capped(), w, iterations))
    decreases iterations
  {
    var v := PowerStep(Capped(), w);
    StageStep(k, w);
    if k < 3 { StageMoves(k, w, v); }
    if Diff(v, w, 4) >= CONVERGED && iterations > 1 { StageReached(k + 1, v, iterations - 1); }
  }

  lemma CappedWeights()
    ensures Stage(4, Eigenvector(Capped()))
  {
    UniformTotal(4, 4);
    StageReached(0, Uniform(4), MAX_ITER);
  }

  // ---------- the worst entry and the ratio ----------

  lemma DeviationIs(a: Matrix, w: Vector, i: nat, j: nat)
    requires Square(a) && |w| == |a| && Positive(w) && i < |a| && j < |a|
    ensures Deviation(a, w, i, j) * w[i] == Abs(a[i][j] * w[j] - w[i])
  {
    DeviationScaled(a[i][j], w[i], w[j]);
  }

  lemma DeviationScaled(y: real, u: real, v: real)
    requires u > 0.0 && v > 0.0
    ensures u / v > 0.0 && Abs(y - u / v) / (u / v) * u == Abs(y * v - u)
  {
    var c := u / v;
    RatioInverse(u, v);
    var d := Abs(y - c) / c;
    assert d * c == Abs(y - c) && c * v == u;
    assert d * u == d * c * v;
    assert (y - c) * v == y * v - u;
    AbsScaled(y - c, v);
  }

  lemma AbsScaled(x: real, v: real)
    requires v > 0.0
    ensures Abs(x) * v == Abs(x * v)
  {
    if x >= 0.0 { NonNegativeProduct(x, v); } else { PositiveProduct(-x, v, -x * v); }
  }

  lemma DeviationOrder(d: real, u: real, g: real, bound: real)
    requires u > 0.0 && d * u == g
    ensures g < bound * u ==> d < bound
    ensures g >= bound * u ==> d >= bound
  {
    assert (d - bound) * u == g - bound * u;
    SameSign(d - bound, u);
    SameSign(bound - d, u);
  }

  lemma CappedWorst(w: Vector)
    requires Stage(4, w) && AboveGuard(w)
    ensures WorstEntry(Capped(), w).row == 3 && WorstEntry(Capped(), w).col == 0
  {
    var r := WorstEntry(Capped(), w);
    forall i: nat, j: nat | i < 4 && j < 4
      ensures if i == 3 && j == 0 then Deviation(Capped(), w, i, j) >= 1.3 else Deviation(Capped(), w, i, j) < 1.3
    {
      CappedDeviation(w, i, j);
    }
    assert Considered(w, 3, 0);
  }

  lemma CappedDeviation(w: Vector, i: nat, j: nat)
    requires Stage(4, w) && Positive(w) && i < 4 && j < 4
    ensures var d := Deviation(Capped(), w, i, j);
            if i == 3 && j == 0 then d >= 1.3 else d < 1.3
  {
    DeviationIs(Capped(), w, i, j);
    CappedGap(w, i, j);
    DeviationOrder(Deviation(Capped(), w, i, j), w[i], Abs(Capped()[i][j] * w[j] - w[i]), 1.3);
  }

  lemma CappedGap(w: Vector, i: nat, j: nat)
    requires Stage(4, w) && i < 4 && j < 4
    ensures var g := Abs(Capped()[i][j] * w[j] - w[i]);
            if i == 3 && j == 0 then g >= 1.3 * w[i] else g < 1.3 * w[i]
  {}

  lemma LastBelowNinth(w: Vector)
    requires Stage(4, w)
    ensures w[0] > 0.0 && w[3] / w[0] < NINTH
  {
    QuotientAsProduct(w[3], w[0]);
    assert w[3] / w[0] * w[0] == w[3];
    DeviationOrder(w[3] / w[0], w[0], w[3], 1.0 / 9.0);
  }

  lemma CappedStuck()
    ensures Pairwise(Capped()) && Stuck(Capped()) && Ratio(Capped()) > 0.15
  {
    var a := Capped();
    CappedPairwise();
    CappedWeights();
    EigenvectorWeights(a);
    CappedWorst(Eigenvector(a));
    LastBelowNinth(Eigenvector(a));
    CappedRatio(Eigenvector(a));
  }

  lemma QuotientAtLeast(x: real, d: real, k: real)
    requires d > 0.0 && x >= k * d
    ensures x / d >= k
  {
    assert x / d * d == x;
    DeviationOrder(x / d, d, x, k);
  }

  lemma CappedRatio(w: Vector)
    requires Stage(4, w) && AboveGuard(w)
    ensures ConsistencyRatio(Capped(), w) > 0.15
  {
    var a := Capped();
    Dot4(a[0], w);
    Dot4(a[1], w);
    Dot4(a[2], w);
    Dot4(a[3], w);
    QuotientAtLeast(Dot(a[0], w, 4), w[0], 4.49);
    QuotientAtLeast(Dot(a[1], w, 4), w[1], 4.51);
    QuotientAtLeast(Dot(a[2], w, 4), w[2], 4.51);
    QuotientAtLeast(Dot(a[3], w, 4), w[3], 4.4);
    LambdaOfFour(a, w);
    assert RandomIndex(4) == 0.9;
  }

  lemma LambdaOfFour(a: Matrix, w: Vector)
    requires Square(a) && |a| == |w| == 4 && AboveGuard(w)
    ensures LambdaSum(a, w, 4) == Dot(a[0], w, 4) / w[0] + Dot(a[1], w, 4) / w[1]
                                  + Dot(a[2], w, 4) / w[2] + Dot(a[3], w, 4) / w[3]
  {
    assert LambdaSum(a, w, 1) == Dot(a[0], w, 4) / w[0];
    assert LambdaSum(a, w, 2) == LambdaSum(a, w, 1) + Dot(a[1], w, 4) / w[1];
    assert LambdaSum(a, w, 3) == LambdaSum(a, w, 2) + Dot(a[2], w, 4) / w[2];
  }

  // Auto-correction returns these judgements unchanged and reports failure for
  // every target up to 0.1, every step ratio and every iteration limit.
  lemma CappedFails(target: real, s: real, iterations: nat)
    requires target <= 0.1 && s > 0.0
    ensures Pairwise(Capped()) && Stuck(Capped())
    ensures Correct(Capped(), target, s, iterations) == Outcome(Capped(), false)
  {
    CappedStuck();
    StuckForGood(Capped(), target, s, iterations);
  }
}
