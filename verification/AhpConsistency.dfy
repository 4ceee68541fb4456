// Pairwise comparison matrices: power iteration and the consistency ratio of
// backend/src/protection_optimizer/protection_optimizer.cpp, as functions of a
// matrix, and what holds of them.
module AhpConsistency {
  import opened Reals
  import opened AhpSums

  const GUARD: real := 0.000000000001
  const CONVERGED: real := 0.00000001
  const MAX_ITER: nat := 100
  const INT_MAX: nat := 0x7FFF_FFFF
  const NINTH: real := 1.0 / 9.0

  const RI_SAATY: seq<real> := [0.00, 0.00, 0.58, 0.90, 1.12, 1.24, 1.32, 1.41, 1.45, 1.49,
                                1.51, 1.48, 1.56, 1.57, 1.59]

  predicate Inverse(x: real, y: real) {
    x > 0.0 && y > 0.0 && x * y == 1.0
  }

  ghost predicate PositiveMatrix(a: Matrix) {
    Square(a) && forall i, j :: 0 <= i < |a| && 0 <= j < |a| ==> a[i][j] > 0.0
  }

  // Positive, unit diagonal, mirrored entries inverse to each other.
  ghost predicate Reciprocal(a: Matrix) {
    PositiveMatrix(a) && forall i, j :: 0 <= i < |a| && 0 <= j < |a| ==>
      Inverse(a[i][j], a[j][i]) && a[i][i] == 1.0
  }

  ghost predicate Bounded(a: Matrix) {
    Square(a) && forall i, j :: 0 <= i < |a| && 0 <= j < |a| ==> NINTH <= a[i][j] <= 9.0
  }

  ghost predicate Pairwise(a: Matrix) {
    Reciprocal(a) && Bounded(a)
  }

  predicate Positive(w: Vector) {
    forall i :: 0 <= i < |w| ==> w[i] > 0.0
  }

  ghost predicate AboveGuard(w: Vector) {
    forall i :: 0 <= i < |w| ==> w[i] > GUARD
  }

  // The matrix agrees with the ratios of the weights.
  ghost predicate ConsistentWith(a: Matrix, w: Vector)
    requires Square(a) && |w| == |a| && Positive(w)
  {
    forall i, j :: 0 <= i < |a| && 0 <= j < |a| ==> a[i][j] == w[i] / w[j]
  }

  // ---------- power iteration ----------

  function Multiply(a: Matrix, w: Vector): (u: Vector)
    requires Square(a) && |w| == |a|
    ensures |u| == |a|
  {
    seq(|a|, i requires 0 <= i < |a| && Square(a) && |w| == |a| => Dot(a[i], w, |a|))
  }

  function Normalize(u: Vector): (v: Vector)
    ensures |v| == |u|
  {
    var norm := Total(u, |u|);
    if norm > 0.0 then seq(|u|, i requires 0 <= i < |u| && norm > 0.0 => u[i] / norm) else u
  }

  function Diff(u: Vector, w: Vector, k: nat): real
    requires k <= |u| && k <= |w|
  {
    if k == 0 then 0.0 else Diff(u, w, k - 1) + Abs(u[k - 1] - w[k - 1])
  }

  function PowerStep(a: Matrix, w: Vector): (v: Vector)
    requires Square(a) && |w| == |a|
    ensures |v| == |a|
  {
    Normalize(Multiply(a, w))
  }

  function Power(a: Matrix, w: Vector, iterations: nat): (v: Vector)
    requires Square(a) && |w| == |a|
    ensures |v| == |a|
    decreases iterations
  {
    if iterations == 0 then w
    else
      var v := PowerStep(a, w);
      if Diff(v, w, |a|) < CONVERGED then v else Power(a, v, iterations - 1)
  }

  function Uniform(n: nat): (w: Vector)
    ensures |w| == n
  {
    seq(n, i requires 0 <= i < n => 1.0 / n as real)
  }

  function Eigenvector(a: Matrix): (w: Vector)
    requires Square(a)
    ensures |w| == |a|
  {
    Power(a, Uniform(|a|), MAX_ITER)
  }

  // The k-th round from equal weights.
  function Iterate(a: Matrix, k: nat): (w: Vector)
    requires Square(a)
    ensures |w| == |a|
  {
    if k == 0 then Uniform(|a|) else PowerStep(a, Iterate(a, k - 1))
  }

  // How far round k moves the weights.
  function Moved(a: Matrix, k: nat): real
    requires Square(a) && k > 0
  {
    Diff(Iterate(a, k), Iterate(a, k - 1), |a|)
  }

  // w is the result of round k, the first that moves less than 1e-8 or else the
  // hundredth.
  ghost predicate StopsAt(a: Matrix, w: Vector, k: nat)
    requires Square(a)
  {
    && 1 <= k <= 100 && w == Iterate(a, k) && (k == 100 || Moved(a, k) < 0.00000001)
    && forall j :: 1 <= j < k ==> Moved(a, j) >= 0.00000001
  }

  lemma {:induction false} PowerStops(a: Matrix, k: nat, iterations: nat) returns (last: nat)
    requires Square(a) && k + iterations == 100 && iterations > 0
    requires forall j :: 1 <= j <= k ==> Moved(a, j) >= 0.00000001
    ensures StopsAt(a, Power(a, Iterate(a, k), iterations), last)
    decreases iterations
  {
    if Moved(a, k + 1) < 0.00000001 || iterations == 1 {
      last := k + 1;
    } else {
      last := PowerStops(a, k + 1, iterations - 1);
    }
  }

  // Power iteration returns the weights of the first round that moves them by
  // less than 1e-8, or of the hundredth round, for every square matrix.
  lemma EigenvectorStops(a: Matrix)
    requires Square(a)
    ensures exists k :: StopsAt(a, Eigenvector(a), k)
  {
    RoundsStop(a, Eigenvector(a), MAX_ITER);
  }

  lemma RoundsStop(a: Matrix, w: Vector, rounds: nat)
    requires Square(a) && rounds == 100 && w == Power(a, Uniform(|a|), rounds)
    ensures exists k :: StopsAt(a, w, k)
  {
    var k := PowerStops(a, 0, rounds);
  }

  // Every weight at least 1/(81 n), total 1.
  ghost predicate Weights(w: Vector) {
    Total(w, |w|) == 1.0 && forall i :: 0 <= i < |w| ==> 81.0 * |w| as real * w[i] >= 1.0
  }

  lemma WeightsPositive(w: Vector)
    requires Weights(w)
    ensures Positive(w)
    ensures |w| <= INT_MAX ==> AboveGuard(w)
  {
    forall i | 0 <= i < |w| ensures w[i] > 0.0 && (|w| <= INT_MAX ==> w[i] > GUARD) {
      var c := 81.0 * |w| as real;
      LowerBound(c, w[i]);
      if |w| <= INT_MAX { LowerBoundGuard(c, w[i]); }
    }
  }

  lemma LowerBound(c: real, x: real)
    requires c * x >= 1.0 && c >= 0.0
    ensures x > 0.0
  {}

  lemma LowerBoundGuard(c: real, x: real)
    requires c * x >= 1.0 && 0.0 <= c <= 173946175407.0 && x > 0.0
    ensures x > GUARD
  {
    ProductOrder(c, 173946175407.0, x);
    assert c * x <= 173946175407.0 * x;
  }

  lemma MultiplyBounds(a: Matrix, w: Vector)
    requires Bounded(a) && |w| == |a| && Positive(w) && Total(w, |w|) == 1.0
    ensures forall i :: 0 <= i < |a| ==> NINTH <= Multiply(a, w)[i] <= 9.0
  {
    forall i | 0 <= i < |a| ensures NINTH <= Multiply(a, w)[i] <= 9.0 {
      DotBounds(a[i], w, |a|, NINTH, 9.0);
    }
  }

  lemma UniformTotal(n: nat, k: nat)
    requires k <= n && n > 0
    ensures Total(Uniform(n), k) == k as real / n as real
  {
    if k > 0 { UniformTotal(n, k - 1); }
  }

  // From positive weights of total 1, one step gives weights of total exactly 1
  // that are bounded away from 0.
  lemma PowerStepWeights(a: Matrix, w: Vector)
    requires Bounded(a) && |a| > 0 && |w| == |a| && Positive(w) && Total(w, |w|) == 1.0
    ensures Weights(PowerStep(a, w))
  {
    MultiplyBounds(a, w);
    NormalizedWeights(Multiply(a, w));
  }

  lemma NormalizedWeights(u: Vector)
    requires |u| > 0 && forall i :: 0 <= i < |u| ==> NINTH <= u[i] <= 9.0
    ensures Weights(Normalize(u))
  {
    var n := |u|;
    TotalBounds(u, n, NINTH, 9.0);
    var norm := Total(u, n);
    assert norm > 0.0 by { assert NINTH * n as real > 0.0; }
    NormalizeTotal(u);
    forall i | 0 <= i < n ensures 81.0 * n as real * Normalize(u)[i] >= 1.0 {
      QuotientBound(u[i], norm, n as real);
    }
  }

  lemma NormalizeTotal(u: Vector)
    requires Total(u, |u|) > 0.0
    ensures Total(Normalize(u), |u|) == 1.0
  {
    var t := Total(u, |u|);
    TotalScaled(u, Normalize(u), |u|, t);
    SelfQuotient(t);
  }

  lemma QuotientBound(x: real, norm: real, n: real)
    requires x >= NINTH && 0.0 < norm <= 9.0 * n && n > 0.0
    ensures 81.0 * n * (x / norm) >= 1.0
  {
    var y := x / norm;
    assert y * norm == x;
    assert y > 0.0;
    ProductOrder(norm, 9.0 * n, y);
    assert 9.0 * n * y >= NINTH;
  }

  lemma {:induction false} PowerWeights(a: Matrix, w: Vector, iterations: nat)
    requires Bounded(a) && |a| > 0 && |w| == |a| && iterations > 0
    requires Positive(w) && Total(w, |w|) == 1.0
    ensures Weights(Power(a, w, iterations))
    decreases iterations
  {
    var v := PowerStep(a, w);
    PowerStepWeights(a, w);
    WeightsPositive(v);
    if Diff(v, w, |a|) >= CONVERGED && iterations > 1 { PowerWeights(a, v, iterations - 1); }
  }

  // What power iteration returns for a matrix with entries in [1/9, 9]: total
  // exactly 1, every weight at least 1/(81 n), so above the 1e-12 guards for
  // every n an int can hold.
  lemma EigenvectorWeights(a: Matrix)
    requires Bounded(a) && |a| > 0
    ensures Weights(Eigenvector(a)) && Positive(Eigenvector(a))
    ensures |a| <= INT_MAX ==> AboveGuard(Eigenvector(a))
  {
    UniformTotal(|a|, |a|);
    PowerWeights(a, Uniform(|a|), MAX_ITER);
    WeightsPositive(Eigenvector(a));
  }

  // ---------- the consistency ratio ----------

  function LambdaSum(a: Matrix, w: Vector, k: nat): real
    requires Square(a) && |w| == |a| && k <= |a|
  {
    if k == 0 then 0.0
    else LambdaSum(a, w, k - 1) + if w[k - 1] > GUARD then Dot(a[k - 1], w, |a|) / w[k - 1] else 0.0
  }

  function RandomIndex(n: nat): (ri: real)
    requires n > 0
    ensures n > 2 ==> ri > 0.5
  {
    if n <= 15 then RI_SAATY[n - 1] else 1.59
  }

  function LambdaMax(a: Matrix, w: Vector): real
    requires Square(a) && |w| == |a| && |a| > 0
  {
    LambdaSum(a, w, |a|) / |a| as real
  }

  function ConsistencyRatio(a: Matrix, w: Vector): real
    requires Square(a) && |w| == |a|
  {
    var n := |a|;
    if n <= 2 then 0.0
    else
      var ci := (LambdaMax(a, w) - n as real) / (n - 1) as real;
      if RandomIndex(n) < GUARD then 0.0 else ci / RandomIndex(n)
  }

  function ScaledRow(row: Vector, w: Vector, c: real): (b: Vector)
    requires |row| == |w| && c != 0.0
    ensures |b| == |w|
  {
    seq(|w|, j requires 0 <= j < |w| && |row| == |w| && c != 0.0 => row[j] * w[j] / c)
  }

  // Entries scaled by the weights: all 1 exactly for a consistent matrix.
  function Scaled(a: Matrix, w: Vector): (b: Matrix)
    requires Square(a) && |w| == |a| && forall i :: 0 <= i < |w| ==> w[i] > 0.0
    ensures Square(b) && |b| == |a|
    ensures forall i :: 0 <= i < |a| ==> b[i] == ScaledRow(a[i], w, w[i])
  {
    seq(|a|, i requires 0 <= i < |a| && Square(a) && |w| == |a| && w[i] > 0.0 => ScaledRow(a[i], w, w[i]))
  }

  lemma {:induction false} DotScaled(row: Vector, w: Vector, k: nat, c: real)
    requires |row| == |w| && k <= |w| && c != 0.0
    ensures Dot(row, w, k) / c == Total(ScaledRow(row, w, c), k)
  {
    if k > 0 {
      DotScaled(row, w, k - 1, c);
      SumQuotient(Dot(row, w, k - 1), row[k - 1] * w[k - 1], c);
    }
  }

  lemma {:induction false} LambdaSumIsTotal(a: Matrix, w: Vector, b: Matrix, k: nat)
    requires Square(a) && |w| == |a| && k <= |a| && AboveGuard(w) && Square(b) && |b| == |a|
    requires forall i :: 0 <= i < |a| ==> Dot(a[i], w, |a|) / w[i] == Total(b[i], |a|)
    ensures LambdaSum(a, w, k) == RowsTotal(b, k, |a|)
  {
    if k > 0 { LambdaSumIsTotal(a, w, b, k - 1); }
  }

  // b and its inverse sum to at least 2, to 2 only at 1.
  lemma InversePair(b: real, c: real)
    requires Inverse(b, c)
    ensures b + c >= 2.0 && (b + c == 2.0 ==> b == 1.0)
  {
    assert (b + c - 2.0) * b == (b - 1.0) * (b - 1.0);
    FromSquare(b - 1.0, b + c - 2.0, b);
  }

  lemma FromSquare(x: real, y: real, d: real)
    requires y * d == x * x && d > 0.0
    ensures y >= 0.0 && (x != 0.0 ==> y > 0.0)
  {
    var z := Squared(x);
    SquareSign(x);
    SignOfFactor(y, d, z);
  }

  lemma ScaledInverse(a: Matrix, w: Vector, i: nat, j: nat)
    requires Reciprocal(a) && |w| == |a| && Positive(w) && i < |a| && j < |a|
    ensures Inverse(Scaled(a, w)[i][j], Scaled(a, w)[j][i])
    ensures Scaled(a, w)[i][j] == 1.0 <==> a[i][j] == w[i] / w[j]
  {
    InverseRatios(a[i][j], a[j][i], w[i], w[j]);
  }

  lemma InverseRatio(p: real, q: real)
    requires p > 0.0 && q > 0.0
    ensures q / p * (p / q) == 1.0 && q / p > 0.0
  {
    var r, t := q / p, p / q;
    assert r * p == q && t * q == p;
    assert r * t * q == r * (t * q);
    assert (r * t - 1.0) * q == 0.0;
    ZeroFactor(r * t - 1.0, q);
  }

  lemma InverseRatios(x: real, y: real, p: real, q: real)
    requires Inverse(x, y) && p > 0.0 && q > 0.0
    ensures Inverse(x * q / p, y * p / q)
    ensures x * q / p == 1.0 <==> x == p / q
  {
    var r := q / p;
    InverseRatio(p, q);
    assert x * q / p == x * r && y * p / q == y * (p / q);
    assert (x * r) * (y * (p / q)) == (x * y) * (r * (p / q));
    if x * r == 1.0 { assert x * (r * (p / q)) == p / q; }
    if x == p / q { assert x * r == 1.0; }
  }

  lemma ScaledPairs(a: Matrix, w: Vector)
    requires Reciprocal(a) && |w| == |a| && Positive(w)
    ensures PairsBelow(Ones(|a|), Scaled(a, w), |a|)
    ensures PairsEqual(Ones(|a|), Scaled(a, w), |a|) <==> ConsistentWith(a, w)
  {
    var b, n := Scaled(a, w), |a|;
    forall i: nat, j: nat | i < n && j < n
      ensures Pair(Ones(n), i, j) <= Pair(b, i, j)
      ensures Pair(Ones(n), i, j) == Pair(b, i, j) ==> a[i][j] == w[i] / w[j]
      ensures a[i][j] == w[i] / w[j] && a[j][i] == w[j] / w[i] ==> Pair(Ones(n), i, j) == Pair(b, i, j)
    {
      ScaledInverse(a, w, i, j);
      ScaledInverse(a, w, j, i);
      InversePair(b[i][j], b[j][i]);
    }
  }

  lemma RowScaled(a: Matrix, w: Vector, i: nat)
    requires Square(a) && |w| == |a| && Positive(w) && i < |a|
    ensures Dot(a[i], w, |a|) / w[i] == Total(Scaled(a, w)[i], |a|)
  {
    DotScaled(a[i], w, |a|, w[i]);
  }

  lemma LambdaIsBlock(a: Matrix, w: Vector)
    requires Square(a) && |w| == |a| && AboveGuard(w) && Positive(w)
    ensures LambdaSum(a, w, |a|) == Block(Scaled(a, w), |a|)
  {
    var b, n := Scaled(a, w), |a|;
    forall i: nat | i < n ensures Dot(a[i], w, n) / w[i] == Total(b[i], n) {
      RowScaled(a, w, i);
    }
    LambdaSumIsTotal(a, w, b, n);
    RowsTotalIsBlock(b, n);
  }

  lemma LambdaAtLeast(a: Matrix, w: Vector)
    requires Reciprocal(a) && |w| == |a| && AboveGuard(w) && |a| > 0
    ensures LambdaSum(a, w, |a|) >= (|a| * |a|) as real
    ensures LambdaSum(a, w, |a|) == (|a| * |a|) as real <==> ConsistentWith(a, w)
  {
    var b, n := Scaled(a, w), |a|;
    LambdaIsBlock(a, w);
    OnesBlock(n, n);
    ScaledPairs(a, w);
    BlockOrder(Ones(n), b, n);
    if PairsEqual(Ones(n), b, n) {
      assert PairsBelow(b, Ones(n), n);
      BlockOrder(b, Ones(n), n);
    }
  }

  function RatioFrom(s: real, n: real, m: real, ri: real): real
    requires n > 0.0 && m > 0.0 && ri > 0.0
  {
    (s / n - n) / m / ri
  }

  lemma RatioIs(a: Matrix, w: Vector)
    requires Square(a) && |a| == |w| && |a| > 2
    ensures ConsistencyRatio(a, w)
            == RatioFrom(LambdaSum(a, w, |a|), |a| as real, (|a| - 1) as real, RandomIndex(|a|))
  {}

  lemma RatioFromSign(s: real, n: real, m: real, ri: real, square: real)
    requires n > 0.0 && m > 0.0 && ri > 0.0 && square == n * n
    ensures RatioFrom(s, n, m, ri) >= 0.0 <==> s >= square
    ensures RatioFrom(s, n, m, ri) == 0.0 <==> s == square
  {
    AboveSquare(s, n, square);
    QuotientSign(s / n - n, m);
    QuotientSign((s / n - n) / m, ri);
  }

  lemma AboveSquare(s: real, n: real, square: real)
    requires n > 0.0 && square == n * n
    ensures s / n - n >= 0.0 <==> s >= square
    ensures s / n - n == 0.0 <==> s == square
  {
    assert (s / n - n) * n == s - square;
    SameSign(s / n - n, n);
  }

  lemma QuotientSign(x: real, d: real)
    requires d > 0.0
    ensures (x / d >= 0.0 <==> x >= 0.0) && (x / d == 0.0 <==> x == 0.0)
  {
    assert x / d * d == x;
    SameSign(x / d, d);
  }

  // The ratio against the squared size.
  lemma RatioSign(a: Matrix, w: Vector)
    requires Square(a) && |w| == |a| && |a| > 2
    ensures ConsistencyRatio(a, w) >= 0.0 <==> LambdaSum(a, w, |a|) >= (|a| * |a|) as real
    ensures ConsistencyRatio(a, w) == 0.0 <==> LambdaSum(a, w, |a|) == (|a| * |a|) as real
  {
    RatioIs(a, w);
    RatioOfSumSign(LambdaSum(a, w, |a|), |a|, RandomIndex(|a|));
  }

  lemma RatioOfSumSign(s: real, n: nat, ri: real)
    requires n > 2 && ri > 0.5
    ensures RatioFrom(s, n as real, (n - 1) as real, ri) >= 0.0 <==> s >= (n * n) as real
    ensures RatioFrom(s, n as real, (n - 1) as real, ri) == 0.0 <==> s == (n * n) as real
  {
    SquareAsReal(n);
    RatioFromSign(s, n as real, (n - 1) as real, ri, (n * n) as real);
  }

  lemma SquareAsReal(n: nat)
    ensures (n * n) as real == n as real * n as real
  {}

  // With every weight above the guard the principal value is at least n, the
  // ratio is never negative, and zero exactly for the ratios of the weights.
  lemma RatioNonNegative(a: Matrix, w: Vector)
    requires Reciprocal(a) && |w| == |a| && |a| > 0 && AboveGuard(w)
    ensures LambdaMax(a, w) >= |a| as real
    ensures ConsistencyRatio(a, w) >= 0.0
    ensures ConsistencyRatio(a, w) == 0.0 <==> |a| <= 2 || ConsistentWith(a, w)
  {
    LambdaAtLeast(a, w);
    SquareAsReal(|a|);
    AboveSquare(LambdaSum(a, w, |a|), |a| as real, (|a| * |a|) as real);
    if |a| > 2 { RatioSign(a, w); }
  }

  function FromWeights(w: Vector): (a: Matrix)
    requires forall i :: 0 <= i < |w| ==> w[i] > 0.0
    ensures Square(a) && |a| == |w|
    ensures forall i, j :: 0 <= i < |w| && 0 <= j < |w| ==> a[i][j] == w[i] / w[j]
  {
    seq(|w|, i requires 0 <= i < |w| =>
      seq(|w|, j requires 0 <= j < |w| && 0 <= i < |w| && w[j] > 0.0 => w[i] / w[j]))
  }

  lemma FromWeightsReciprocal(w: Vector)
    requires Positive(w)
    ensures Reciprocal(FromWeights(w)) && ConsistentWith(FromWeights(w), w)
  {
    forall i, j | 0 <= i < |w| && 0 <= j < |w|
      ensures Inverse(w[i] / w[j], w[j] / w[i]) && w[i] / w[i] == 1.0
    {
      RatioInverse(w[i], w[j]);
    }
  }

  lemma RatioInverse(p: real, q: real)
    requires p > 0.0 && q > 0.0
    ensures Inverse(p / q, q / p) && p / p == 1.0
  {
    InverseRatios(1.0, 1.0, q, p);
  }

  lemma {:induction false} DotFromWeights(row: Vector, w: Vector, p: real, k: nat)
    requires k <= |row| && k <= |w| && forall j :: 0 <= j < k ==> w[j] > 0.0 && row[j] == p / w[j]
    ensures Dot(row, w, k) == p * k as real
  {
    if k > 0 {
      DotFromWeights(row, w, p, k - 1);
      assert p / w[k - 1] * w[k - 1] == p;
      assert p * k as real == p * (k - 1) as real + p;
    }
  }

  // On the ratios of the weights each weight above the guard adds n to the sum
  // and a skipped one nothing.
  lemma {:induction false} SkippedTerms(a: Matrix, w: Vector, k: nat, skipped: nat)
    requires Square(a) && |w| == |a| && k <= |w| && skipped < |w| && w[skipped] <= GUARD
    requires forall i :: 0 <= i < |a| && w[i] > GUARD ==> Dot(a[i], w, |a|) / w[i] == |a| as real
    ensures LambdaSum(a, w, k) <= (|w| * if skipped < k then k - 1 else k) as real
  {
    if k > 0 {
      SkippedTerms(a, w, k - 1, skipped);
      OneMore(|w|, k);
      OneMore(|w|, k - 1);
    }
  }

  lemma OneMore(n: int, k: int)
    ensures n * k == n * (k - 1) + n
  {}

  lemma RatioTerm(a: Matrix, w: Vector, i: nat)
    requires Square(a) && |a| == |w| && Positive(w) && ConsistentWith(a, w) && i < |w|
    ensures Dot(a[i], w, |w|) / w[i] == |w| as real
  {
    RowOfRatios(a[i], w, w[i], Dot(a[i], w, |w|));
  }

  lemma RowOfRatios(row: Vector, w: Vector, p: real, y: real)
    requires |row| == |w| && p > 0.0 && y == Dot(row, w, |w|)
    requires forall j :: 0 <= j < |w| ==> w[j] > 0.0 && row[j] == p / w[j]
    ensures y / p == |w| as real
  {
    DotFromWeights(row, w, p, |w|);
    TimesQuotient(p, |w| as real, y);
  }

  lemma TimesQuotient(p: real, n: real, y: real)
    requires y == p * n && p > 0.0
    ensures y / p == n
  {
    QuotientIs(n, p, y);
  }

  lemma BelowSquare(n: nat)
    requires n > 0
    ensures (n * (n - 1)) as real < (n * n) as real
  {
    assert n * (n - 1) == n * n - n;
  }

  lemma SkippedWeight(w: Vector, k: nat)
    requires Positive(w) && |w| > 2 && k < |w| && w[k] <= GUARD
    ensures ConsistencyRatio(FromWeights(w), w) < 0.0
  {
    var a := FromWeights(w);
    FromWeightsReciprocal(w);
    forall i | 0 <= i < |a| && w[i] > GUARD ensures Dot(a[i], w, |a|) / w[i] == |a| as real { RatioTerm(a, w, i); }
    SkippedTerms(a, w, |w|, k);
    BelowSquare(|w|);
    RatioSign(a, w);
  }

  // Positive weights keep every ratio of every reciprocal matrix from going
  // negative exactly when none of them is caught by the 1e-12 guard.
  lemma RatioSignExact(w: Vector)
    requires Positive(w) && |w| > 2
    ensures AboveGuard(w) <==>
      forall a: Matrix :: Reciprocal(a) && |a| == |w| ==> ConsistencyRatio(a, w) >= 0.0
  {
    if AboveGuard(w) {
      forall a: Matrix | Reciprocal(a) && |a| == |w| ensures ConsistencyRatio(a, w) >= 0.0 {
        RatioNonNegative(a, w);
      }
    } else {
      var k :| 0 <= k < |w| && w[k] <= GUARD;
      FromWeightsReciprocal(w);
      SkippedWeight(w, k);
    }
  }

  // ---------- consistent matrices ----------

  predicate Chain(x: real, y: real, z: real) {
    x * y == z
  }

  // a[i][j] a[j][k] = a[i][k]: judgements that never contradict each other.
  ghost predicate Transitive(a: Matrix)
    requires Square(a)
  {
    forall i, j, k :: 0 <= i < |a| && 0 <= j < |a| && 0 <= k < |a| ==> Chain(a[i][j], a[j][k], a[i][k])
  }

  function FirstColumn(a: Matrix): (v: Vector)
    requires Square(a) && |a| > 0
    ensures |v| == |a| && forall i :: 0 <= i < |a| ==> v[i] == a[i][0]
  {
    seq(|a|, i requires 0 <= i < |a| && Square(a) => a[i][0])
  }

  lemma TransitiveIsConsistent(a: Matrix)
    requires Reciprocal(a) && |a| > 0 && Transitive(a)
    ensures Positive(FirstColumn(a)) && ConsistentWith(a, FirstColumn(a))
  {
    var v := FirstColumn(a);
    forall i | 0 <= i < |a| ensures a[i][0] > 0.0 { assert Inverse(a[i][0], a[0][i]); }
    forall i: nat, j: nat | i < |a| && j < |a| ensures a[i][j] == v[i] / v[j] {
      TransitiveRatio(a, i, j);
    }
  }

  lemma TransitiveRatio(a: Matrix, i: nat, j: nat)
    requires Square(a) && Transitive(a) && i < |a| && j < |a| && a[j][0] > 0.0
    ensures a[i][j] == a[i][0] / a[j][0]
  {
    assert Chain(a[i][j], a[j][0], a[i][0]);
    QuotientIs(a[i][j], a[j][0], a[i][0]);
  }

  lemma ConsistentIsTransitive(a: Matrix, w: Vector)
    requires Square(a) && |w| == |a| && Positive(w) && ConsistentWith(a, w)
    ensures Transitive(a)
  {
    forall i, j, k | 0 <= i < |a| && 0 <= j < |a| && 0 <= k < |a| ensures Chain(a[i][j], a[j][k], a[i][k]) {
      RatioProduct(w[i], w[j], w[k], a[i][j], a[j][k], a[i][k]);
    }
  }

  lemma RatioChain(p: real, q: real, r: real)
    requires q > 0.0 && r > 0.0
    ensures p / q * (q / r) == p / r
  {
    assert p / q * (q / r) * r == p / q * q == p;
    QuotientIs(p / q * (q / r), r, p);
  }

  lemma RatioProduct(p: real, q: real, r: real, x: real, y: real, z: real)
    requires q > 0.0 && r > 0.0 && x == p / q && y == q / r && z == p / r
    ensures Chain(x, y, z)
  {
    RatioChain(p, q, r);
  }

  function Quotients(w: Vector, v: Vector): (q: Vector)
    requires |w| == |v| && Positive(w) && Positive(v)
    ensures |q| == |v| && Positive(q) && AreQuotients(q, w, v)
  {
    seq(|v|, j requires 0 <= j < |v| && |w| == |v| && v[j] > 0.0 => w[j] / v[j])
  }

  predicate IsMultiple(y: real, x: real, c: real) {
    y == x * c
  }

  predicate AreMultiples(ys: Vector, xs: Vector, c: real) {
    |ys| == |xs| && forall i :: 0 <= i < |xs| ==> IsMultiple(ys[i], xs[i], c)
  }

  // On a consistent matrix the product with any weights is a multiple of the
  // exact weights.
  lemma ConsistentProduct(a: Matrix, v: Vector, w: Vector) returns (c: real)
    requires Square(a) && |a| > 0 && |v| == |a| == |w| && Positive(v) && Positive(w) && ConsistentWith(a, v)
    ensures c > 0.0 && AreMultiples(Multiply(a, w), v, c)
  {
    var n := |a|;
    var q := Quotients(w, v);
    c := Total(q, n);
    TotalPositive(q, n);
    forall i: nat | i < n ensures IsRatioRow(a[i], v[i], v) { RowOfRatiosOf(a, v, i); }
    ProductOfRows(a, v, w, q, c);
  }

  lemma ProductOfRows(a: Matrix, v: Vector, w: Vector, q: Vector, c: real)
    requires Square(a) && |v| == |a| == |w| && AreQuotients(q, w, v) && c == Total(q, |a|)
    requires forall i: nat :: i < |a| ==> IsRatioRow(a[i], v[i], v)
    ensures AreMultiples(Multiply(a, w), v, c)
  {
    forall i: nat | i < |a| ensures IsMultiple(Multiply(a, w)[i], v[i], c) {
      DotRatios(a[i], w, v, q, v[i], |a|);
    }
  }

  predicate IsRatioRow(row: Vector, p: real, v: Vector) {
    |row| == |v| && forall j :: 0 <= j < |v| ==> v[j] > 0.0 && row[j] == p / v[j]
  }

  lemma RowOfRatiosOf(a: Matrix, v: Vector, i: nat)
    requires Square(a) && |v| == |a| && Positive(v) && ConsistentWith(a, v) && i < |a|
    ensures IsRatioRow(a[i], v[i], v)
  {}

  predicate AreQuotients(q: Vector, w: Vector, v: Vector) {
    |q| == |w| == |v| && forall j :: 0 <= j < |v| ==> v[j] > 0.0 && q[j] == w[j] / v[j]
  }

  lemma NormalizeMultiple(v: Vector, u: Vector, c: real)
    requires |u| == |v| > 0 && Positive(v) && c > 0.0 && AreMultiples(u, v, c)
    ensures Normalize(u) == Normalize(v)
  {
    var n := |v|;
    TotalTimes(v, u, n, c);
    TotalPositive(v, n);
    ProductPositive(Total(v, n), c);
    var t, tc := Total(v, n), Total(u, n);
    assert tc == t * c > 0.0;
    var nu, nv := Normalize(u), Normalize(v);
    forall i: nat | i < n ensures nu[i] == nv[i] { NormalizedEqual(u, v, c, t, tc, i); }
    assert nu == nv;
  }

  lemma NormalizedEqual(u: Vector, v: Vector, c: real, t: real, tc: real, i: nat)
    requires |u| == |v| && i < |v| && t == Total(v, |v|) && tc == Total(u, |u|)
    requires t > 0.0 && tc > 0.0 && tc == t * c && u[i] == v[i] * c
    ensures Normalize(u)[i] == Normalize(v)[i]
  {
    CommonFactor(v[i], t, c, u[i], tc);
  }

  // So one step from any positive weights lands on the exact weights.
  lemma ConsistentStep(a: Matrix, v: Vector, w: Vector)
    requires Square(a) && |a| > 0 && |v| == |a| == |w| && Positive(v) && Positive(w) && ConsistentWith(a, v)
    ensures PowerStep(a, w) == Normalize(v)
  {
    var c := ConsistentProduct(a, v, w);
    NormalizeMultiple(v, Multiply(a, w), c);
  }

  lemma ProductPositive(x: real, y: real)
    requires x > 0.0 && y > 0.0
    ensures x * y > 0.0
  {}

  lemma CommonFactor(x: real, t: real, c: real, xc: real, tc: real)
    requires t > 0.0 && tc > 0.0 && xc == x * c && tc == t * c
    ensures xc / tc == x / t
  {
    assert x / t * (t * c) == x / t * t * c == x * c;
    QuotientIs(x / t, tc, xc);
  }

  lemma {:induction false} TotalPositive(xs: Vector, k: nat)
    requires k <= |xs| && forall i :: 0 <= i < k ==> xs[i] > 0.0
    ensures Total(xs, k) >= 0.0 && (k > 0 ==> Total(xs, k) > 0.0)
  {
    if k > 0 { TotalPositive(xs, k - 1); }
  }

  lemma {:induction false} TotalTimes(xs: Vector, ys: Vector, k: nat, c: real)
    requires k <= |xs| && k <= |ys| && forall i :: 0 <= i < k ==> ys[i] == xs[i] * c
    ensures Total(ys, k) == Total(xs, k) * c
  {
    if k > 0 { TotalTimes(xs, ys, k - 1, c); }
  }

  lemma {:induction false} DotRatios(row: Vector, w: Vector, v: Vector, q: Vector, p: real, k: nat)
    requires IsRatioRow(row, p, v) && AreQuotients(q, w, v) && k <= |v|
    ensures IsMultiple(Dot(row, w, k), p, Total(q, k))
  {
    if k > 0 {
      DotRatios(row, w, v, q, p, k - 1);
      QuotientTimes(p, v[k - 1], w[k - 1]);
      Distribute(p, Total(q, k - 1), q[k - 1]);
    }
  }

  lemma QuotientTimes(p: real, d: real, w: real)
    requires d > 0.0
    ensures p / d * w == p * (w / d)
  {}

  lemma NormalizePositive(v: Vector)
    requires Positive(v) && |v| > 0
    ensures Positive(Normalize(v)) && |Normalize(v)| == |v| && Total(Normalize(v), |v|) == 1.0
  {
    TotalPositive(v, |v|);
    var t := Total(v, |v|);
    forall i | 0 <= i < |v| ensures Normalize(v)[i] > 0.0 { RatioInverse(v[i], t); }
    NormalizeTotal(v);
  }

  lemma {:induction false} DiffSelf(u: Vector, k: nat)
    requires k <= |u|
    ensures Diff(u, u, k) == 0.0
  {
    if k > 0 { DiffSelf(u, k - 1); }
  }

  // Power iteration is exact on a consistent matrix.
  lemma ConsistentEigenvector(a: Matrix, v: Vector)
    requires Square(a) && |a| > 0 && |v| == |a| && Positive(v) && ConsistentWith(a, v)
    ensures Eigenvector(a) == Normalize(v)
  {
    var n := |a|;
    var x := Normalize(v);
    var u := Uniform(n);
    NormalizePositive(v);
    ConsistentStep(a, v, u);
    ConsistentStep(a, v, x);
    DiffSelf(x, n);
    assert PowerStep(a, x) == x && Diff(x, x, n) < CONVERGED;
    assert Power(a, x, MAX_ITER - 1) == x;
    assert Power(a, u, MAX_ITER) == x;
  }

  lemma ConsistentScale(a: Matrix, v: Vector)
    requires Square(a) && |a| > 0 && |v| == |a| && Positive(v) && ConsistentWith(a, v)
    ensures Positive(Normalize(v)) && ConsistentWith(a, Normalize(v))
  {
    NormalizePositive(v);
    TotalPositive(v, |v|);
    var x, t := Normalize(v), Total(v, |v|);
    forall i, j | 0 <= i < |a| && 0 <= j < |a| ensures a[i][j] == x[i] / x[j] {
      CommonDivisor(v[i], v[j], t);
    }
  }

  lemma CommonDivisor(p: real, q: real, t: real)
    requires q > 0.0 && t > 0.0
    ensures q / t > 0.0 && p / t / (q / t) == p / q
  {
    RatioInverse(q, t);
    RatioChain(p, q, t);
    QuotientIs(p / q, q / t, p / t);
  }

  // The ratio the optimizer computes from its own weights is zero exactly for
  // judgements that never contradict each other.
  lemma ZeroRatioMeansTransitive(a: Matrix)
    requires Pairwise(a) && 2 < |a| <= INT_MAX
    ensures ConsistencyRatio(a, Eigenvector(a)) >= 0.0
    ensures ConsistencyRatio(a, Eigenvector(a)) == 0.0 <==> Transitive(a)
  {
    EigenvectorWeights(a);
    var w := Eigenvector(a);
    RatioNonNegative(a, w);
    if ConsistentWith(a, w) { ConsistentIsTransitive(a, w); }
    if Transitive(a) {
      TransitiveIsConsistent(a);
      ConsistentEigenvector(a, FirstColumn(a));
      ConsistentScale(a, FirstColumn(a));
    }
  }
}
