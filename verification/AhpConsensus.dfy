// The consensus index of backend/src/protection_optimizer/protection_optimizer.cpp:
// the average, over pairs of experts, of a similarity of their weights.
module AhpConsensus {
  import opened Reals
  import opened AhpSums
  import opened AhpConsistency
  import opened AhpOptimizer

  ghost predicate IsSqrt(sqrt: real -> real) {
    forall x: real :: x >= 0.0 ==> sqrt(x) >= 0.0 && sqrt(x) * sqrt(x) == x
  }

  lemma NormPositive(sqrt: real -> real, x: real)
    requires IsSqrt(sqrt) && x > 0.0
    ensures sqrt(x) > 0.0
  {
    assert sqrt(x) * sqrt(x) == x;
    if sqrt(x) == 0.0 { ZeroTimes(sqrt(x), sqrt(x)); }
  }

  function CosineFrom(dot: real, ni: real, nj: real, sqrt: real -> real): real
    requires IsSqrt(sqrt) && ni > 0.0 && nj > 0.0
  {
    NormPositive(sqrt, ni);
    NormPositive(sqrt, nj);
    PositiveProduct(sqrt(ni), sqrt(nj), sqrt(ni) * sqrt(nj));
    dot / (sqrt(ni) * sqrt(nj))
  }

  function Cosine(u: Vector, v: Vector, sqrt: real -> real): (c: real)
    requires |u| == |v| && IsSqrt(sqrt)
  {
    var ni, nj := Dot(u, u, |u|), Dot(v, v, |v|);
    if ni > GUARD && nj > GUARD then CosineFrom(Dot(u, v, |u|), ni, nj, sqrt) else 0.0
  }

  function Similarity(u: Vector, v: Vector, sqrt: real -> real): real
    requires |u| == |v| && IsSqrt(sqrt)
  {
    0.5 + 0.5 * Cosine(u, v, sqrt)
  }

  ghost predicate SameLength(vs: seq<Vector>, d: nat) {
    forall i :: 0 <= i < |vs| ==> |vs[i]| == d
  }

  // Pairs of expert i with experts i + 1 .. j - 1.
  function SimilarityRow(vs: seq<Vector>, d: nat, i: nat, j: nat, sqrt: real -> real): real
    requires SameLength(vs, d) && IsSqrt(sqrt) && i < |vs| && j <= |vs|
  {
    if j <= i + 1 then 0.0
    else SimilarityRow(vs, d, i, j - 1, sqrt) + Similarity(vs[i], vs[j - 1], sqrt)
  }

  function SimilarityRows(vs: seq<Vector>, d: nat, i: nat, sqrt: real -> real): real
    requires SameLength(vs, d) && IsSqrt(sqrt) && i <= |vs|
  {
    if i == 0 then 0.0
    else SimilarityRows(vs, d, i - 1, sqrt) + SimilarityRow(vs, d, i - 1, |vs|, sqrt)
  }

  function RowPairs(i: nat, j: nat): nat {
    if j <= i + 1 then 0 else j - i - 1
  }

  function Pairs(n: nat, i: nat): nat
    requires i <= n
  {
    if i == 0 then 0 else Pairs(n, i - 1) + RowPairs(i - 1, n)
  }

  lemma {:induction false} SomePairs(n: nat, i: nat)
    requires 2 <= n && 0 < i <= n
    ensures Pairs(n, i) > 0
  {
    if i > 1 { SomePairs(n, i - 1); }
  }

  function ConsensusIndex(vs: seq<Vector>, d: nat, sqrt: real -> real): real
    requires SameLength(vs, d) && IsSqrt(sqrt)
  {
    if |vs| < 2 then 1.0
    else
      SomePairs(|vs|, |vs|);
      SimilarityRows(vs, d, |vs|, sqrt) / Pairs(|vs|, |vs|) as real
  }

  // ---------- the range of a similarity ----------

  lemma SquareOrder(x: real, y: real)
    requires x >= 0.0 && y > 0.0 && x * x <= y * y
    ensures x <= y
  {
    if x > y {
      ProductOrder(y, x, y);
      PositiveProduct(x - y, x, (x - y) * x);
    }
  }

  lemma SquareOfProduct(a: real, b: real, x: real, y: real, p: real)
    requires a * a == x && b * b == y && p == a * b
    ensures p * p == x * y
  {
    assert p * p == a * b * (a * b);
    assert a * b * (a * b) == a * a * (b * b);
  }

  lemma CosineParts(u: Vector, v: Vector, sqrt: real -> real) returns (p: real)
    requires |u| == |v| && IsSqrt(sqrt) && Dot(u, u, |u|) > GUARD && Dot(v, v, |v|) > GUARD
    ensures p > 0.0 && p * p == Dot(u, u, |u|) * Dot(v, v, |v|)
    ensures Cosine(u, v, sqrt) == Dot(u, v, |u|) / p
  {
    var ni, nj := Dot(u, u, |u|), Dot(v, v, |v|);
    NormPositive(sqrt, ni);
    NormPositive(sqrt, nj);
    p := sqrt(ni) * sqrt(nj);
    PositiveProduct(sqrt(ni), sqrt(nj), p);
    SquareOfProduct(sqrt(ni), sqrt(nj), ni, nj, p);
  }

  lemma CosineRange(u: Vector, v: Vector, sqrt: real -> real)
    requires |u| == |v| && IsSqrt(sqrt) && Positive(u) && Positive(v)
    ensures 0.0 <= Cosine(u, v, sqrt) <= 1.0
  {
    var n := |u|;
    DotPositive(u, v, n);
    if Dot(u, u, n) > GUARD && Dot(v, v, n) > GUARD {
      var p := CosineParts(u, v, sqrt);
      CauchySchwarz(u, v, n);
      SquareOrder(Dot(u, v, n), p);
      UnitQuotient(Dot(u, v, n), p);
    }
  }

  lemma UnitQuotient(x: real, p: real)
    requires 0.0 <= x <= p && p > 0.0
    ensures 0.0 <= x / p <= 1.0 && (x / p == 1.0 <==> x == p)
  {
    var q := x / p;
    assert q * p == x;
    SameSign(q, p);
    assert (1.0 - q) * p == p - x;
    SameSign(1.0 - q, p);
  }

  // ---------- when a similarity is 1 ----------

  function AllOnes(n: nat): (v: Vector)
    ensures |v| == n && forall i :: 0 <= i < n ==> v[i] == 1.0
  {
    seq(n, i => 1.0)
  }

  lemma {:induction false} OnesDot(u: Vector, v: Vector, k: nat)
    requires k <= |u| && k <= |v| && forall i :: 0 <= i < |v| ==> v[i] == 1.0
    ensures Dot(u, v, k) == Total(u, k) && Dot(v, v, k) == k as real
  {
    if k > 0 { OnesDot(u, v, k - 1); }
  }

  // Weights of total 1 are long enough for the cosine's guard.
  lemma NormAboveGuard(u: Vector)
    requires 0 < |u| <= INT_MAX && Total(u, |u|) == 1.0
    ensures Dot(u, u, |u|) > GUARD
  {
    var n := |u|;
    var v := AllOnes(n);
    OnesDot(u, v, n);
    CauchySchwarz(u, v, n);
    var x := Dot(u, u, n);
    assert x * n as real >= 1.0;
    if x <= GUARD { ProductOrder(x, GUARD, n as real); }
  }

  lemma CosineSelf(u: Vector, sqrt: real -> real)
    requires 0 < |u| <= INT_MAX && IsSqrt(sqrt) && Positive(u) && Total(u, |u|) == 1.0
    ensures Cosine(u, u, sqrt) == 1.0
  {
    NormAboveGuard(u);
    var p := Dot(u, u, |u|);
    var s := CosineParts(u, u, sqrt);
    SquareOrder(s, p);
    SquareOrder(p, s);
    SelfQuotient(p);
  }

  predicate Tight(p: real, d: real, q: real) {
    d * d == p * q
  }

  // Cauchy-Schwarz with equality leaves only multiples, and weights of the same
  // total only themselves.
  lemma TightMeansSame(u: Vector, v: Vector)
    requires |u| == |v| && Total(u, |u|) == 1.0 && Total(v, |v|) == 1.0 && Dot(v, v, |v|) > 0.0
    requires Tight(Dot(u, u, |u|), Dot(u, v, |u|), Dot(v, v, |v|))
    ensures u == v
  {
    var t := Dot(u, v, |u|) / Dot(v, v, |v|);
    QuotientIsBest(Dot(u, v, |u|), Dot(v, v, |v|));
    TightGap(u, v, t);
    MultipleSame(u, v, t);
  }

  lemma TightGap(u: Vector, v: Vector, t: real)
    requires |u| == |v| && Dot(v, v, |v|) > 0.0 && IsBest(t, Dot(v, v, |v|), Dot(u, v, |u|))
    requires Tight(Dot(u, u, |u|), Dot(u, v, |u|), Dot(v, v, |v|))
    ensures forall i :: 0 <= i < |u| ==> u[i] - v[i] * t == 0.0
  {
    BestGap(u, v, |u|, t);
    LeftOverSign(Gap(u, v, |u|, t), Dot(u, u, |u|), Dot(u, v, |u|), Dot(v, v, |v|));
    GapSign(u, v, |u|, t);
  }

  lemma MultipleSame(u: Vector, v: Vector, t: real)
    requires |u| == |v| && Total(u, |u|) == 1.0 && Total(v, |v|) == 1.0
    requires forall i :: 0 <= i < |u| ==> u[i] - v[i] * t == 0.0
    ensures u == v
  {
    TotalTimes(v, u, |u|, t);
    assert t == 1.0;
    forall i | 0 <= i < |u| ensures u[i] == v[i] { assert u[i] - v[i] * t == 0.0; }
  }

  lemma CosineOne(u: Vector, v: Vector, sqrt: real -> real)
    requires 0 < |u| == |v| <= INT_MAX && IsSqrt(sqrt) && Positive(u) && Positive(v)
    requires Total(u, |u|) == 1.0 && Total(v, |v|) == 1.0
    ensures Cosine(u, v, sqrt) == 1.0 <==> u == v
  {
    if u == v { CosineSelf(u, sqrt); }
    if Cosine(u, v, sqrt) == 1.0 {
      NormAboveGuard(u);
      NormAboveGuard(v);
      var s := CosineParts(u, v, sqrt);
      QuotientTimesDivisor(Dot(u, v, |u|), s);
      TightMeansSame(u, v);
    }
  }

  lemma QuotientTimesDivisor(x: real, s: real)
    requires s > 0.0 && x / s == 1.0
    ensures x == s
  {}

  // ---------- the range of the index ----------

  ghost predicate WeightVectors(vs: seq<Vector>, d: nat) {
    SameLength(vs, d) && forall i :: 0 <= i < |vs| ==> Positive(vs[i]) && Total(vs[i], d) == 1.0
  }

  lemma {:induction false} RowRange(vs: seq<Vector>, d: nat, i: nat, j: nat, sqrt: real -> real)
    requires WeightVectors(vs, d) && 0 < d <= INT_MAX && IsSqrt(sqrt) && i < |vs| && j <= |vs|
    ensures var s, m := SimilarityRow(vs, d, i, j, sqrt), RowPairs(i, j) as real;
            && 0.5 * m <= s <= m
            && (s == m <==> forall k :: i < k < j ==> vs[k] == vs[i])
  {
    if j > i + 1 {
      RowRange(vs, d, i, j - 1, sqrt);
      CosineRange(vs[i], vs[j - 1], sqrt);
      CosineOne(vs[i], vs[j - 1], sqrt);
    }
  }

  lemma {:induction false} RowsRange(vs: seq<Vector>, d: nat, i: nat, sqrt: real -> real)
    requires WeightVectors(vs, d) && 0 < d <= INT_MAX && IsSqrt(sqrt) && i <= |vs|
    ensures var s, m := SimilarityRows(vs, d, i, sqrt), Pairs(|vs|, i) as real;
            && 0.5 * m <= s <= m
            && (s == m <==> forall h, k :: 0 <= h < i && h < k < |vs| ==> vs[k] == vs[h])
  {
    if i > 0 {
      RowsRange(vs, d, i - 1, sqrt);
      RowRange(vs, d, i - 1, |vs|, sqrt);
    }
  }

  // The index lies in [1/2, 1], and is 1 exactly when all experts' weights agree.
  lemma ConsensusRange(vs: seq<Vector>, d: nat, sqrt: real -> real)
    requires WeightVectors(vs, d) && 0 < d <= INT_MAX && IsSqrt(sqrt)
    ensures 0.5 <= ConsensusIndex(vs, d, sqrt) <= 1.0
    ensures ConsensusIndex(vs, d, sqrt) == 1.0 <==>
      forall h, k :: 0 <= h < k < |vs| ==> vs[k] == vs[h]
  {
    if |vs| >= 2 {
      RowsRange(vs, d, |vs|, sqrt);
      SomePairs(|vs|, |vs|);
      HalfQuotient(SimilarityRows(vs, d, |vs|, sqrt), Pairs(|vs|, |vs|) as real);
    }
  }

  lemma HalfQuotient(x: real, p: real)
    requires 0.5 * p <= x <= p && p > 0.0
    ensures 0.5 <= x / p <= 1.0 && (x / p == 1.0 <==> x == p)
  {
    UnitQuotient(x, p);
    var q := x / p;
    assert (q - 0.5) * p == x - 0.5 * p;
    SameSign(q - 0.5, p);
  }

  // ---------- the loops ----------

  ghost predicate SquareArrays(matrices: seq<array2<real>>, d: nat) {
    forall i :: 0 <= i < |matrices| ==> matrices[i].Length0 == d && matrices[i].Length1 == d
  }

  ghost function Eigenvectors(matrices: seq<array2<real>>, d: nat): (vs: seq<Vector>)
    requires SquareArrays(matrices, d)
    reads matrices
    ensures |vs| == |matrices| && forall i :: 0 <= i < |vs| ==> vs[i] == Eigenvector(Rows(matrices[i]))
    ensures SameLength(vs, d)
  {
    seq(|matrices|, i requires SquareArrays(matrices, d) && 0 <= i < |matrices| reads matrices
      => Eigenvector(Rows(matrices[i])))
  }

  method PairSimilarity(u: Vector, v: Vector, sqrt: real -> real) returns (s: real)
    requires |u| == |v| && IsSqrt(sqrt)
    ensures s == Similarity(u, v, sqrt)
  {
    var dot, ni, nj := 0.0, 0.0, 0.0;
    for k := 0 to |u|
      invariant dot == Dot(u, v, k) && ni == Dot(u, u, k) && nj == Dot(v, v, k)
    {
      dot := dot + u[k] * v[k];
      ni := ni + u[k] * u[k];
      nj := nj + v[k] * v[k];
    }
    var cos := 0.0;
    if ni > 0.000000000001 && nj > 0.000000000001 {
      cos := CosineFrom(dot, ni, nj, sqrt);
    }
    s := 0.5 + 0.5 * cos;
  }

  method CalcConsensusIndex(matrices: seq<array2<real>>, d: nat, sqrt: real -> real) returns (index: real)
    requires IsSqrt(sqrt) && SquareArrays(matrices, d)
    ensures index == ConsensusIndex(Eigenvectors(matrices, d), d, sqrt)
  {
    if |matrices| < 2 { return 1.0; }
    var vectors: seq<Vector> := [];
    for e := 0 to |matrices|
      invariant |vectors| == e && forall i :: 0 <= i < e ==> vectors[i] == Eigenvector(Rows(matrices[i]))
    {
      var w := CalcEigenvector(matrices[e]);
      vectors := vectors + [w];
    }
    assert vectors == Eigenvectors(matrices, d);
    index := AveragePairs(vectors, d, sqrt);
  }

  // Power iteration gives all of them the same weights.
  ghost predicate Agreed(matrices: seq<array2<real>>, d: nat)
    requires SquareArrays(matrices, d)
    reads matrices
  {
    forall h, k :: 0 <= h < k < |matrices| ==>
      Eigenvector(Rows(matrices[k])) == Eigenvector(Rows(matrices[h]))
  }

  ghost predicate AllPairwiseArrays(matrices: seq<array2<real>>, d: nat)
    requires SquareArrays(matrices, d)
    reads matrices
  {
    forall i :: 0 <= i < |matrices| ==> Pairwise(Rows(matrices[i]))
  }

  // Experts with pairwise matrices: the index is in [1/2, 1], and 1 exactly
  // when they agree.
  lemma ExpertsConsensus(matrices: seq<array2<real>>, d: nat, sqrt: real -> real)
    requires IsSqrt(sqrt) && SquareArrays(matrices, d) && 0 < d <= INT_MAX
    requires AllPairwiseArrays(matrices, d)
    ensures var index := ConsensusIndex(Eigenvectors(matrices, d), d, sqrt);
            0.5 <= index <= 1.0 && (index == 1.0 <==> Agreed(matrices, d))
  {
    var vs := Eigenvectors(matrices, d);
    forall i | 0 <= i < |vs| ensures Positive(vs[i]) && Total(vs[i], d) == 1.0 {
      EigenvectorWeights(Rows(matrices[i]));
    }
    ConsensusRange(vs, d, sqrt);
  }

  method AddRow(vectors: seq<Vector>, d: nat, i: nat, sqrt: real -> real, total0: real, pairs0: nat)
    returns (total: real, pairs: nat)
    requires IsSqrt(sqrt) && SameLength(vectors, d) && i < |vectors|
    ensures total == total0 + SimilarityRow(vectors, d, i, |vectors|, sqrt)
    ensures pairs == pairs0 + RowPairs(i, |vectors|)
  {
    total, pairs := total0, pairs0;
    for j := i + 1 to |vectors|
      invariant total == total0 + SimilarityRow(vectors, d, i, j, sqrt) && pairs == pairs0 + RowPairs(i, j)
    {
      var s := PairSimilarity(vectors[i], vectors[j], sqrt);
      total := total + s;
      pairs := pairs + 1;
    }
  }

  method AveragePairs(vectors: seq<Vector>, d: nat, sqrt: real -> real) returns (index: real)
    requires IsSqrt(sqrt) && SameLength(vectors, d) && |vectors| >= 2
    ensures index == ConsensusIndex(vectors, d, sqrt)
  {
    var n := |vectors|;
    var total, pairs := 0.0, 0;
    for i := 0 to n
      invariant total == SimilarityRows(vectors, d, i, sqrt) && pairs == Pairs(n, i)
    {
      total, pairs := AddRow(vectors, d, i, sqrt, total, pairs);
    }
    SomePairs(n, n);
    index := total / pairs as real;
  }
}
