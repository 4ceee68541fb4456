// What one correction step, the consistency ratio and the consensus index of
// backend/src/protection_optimizer/protection_optimizer.cpp are, told without
// the functions that compute them.
module AhpLaws {
  import opened Reals
  import opened AhpSums
  import opened AhpConsistency
  import opened AhpCorrection
  import opened AhpOptimizer
  import opened AhpConsensus

  // ---------- one step of the correction ----------

  // The judgement on i and j is off the ratio of the weights by d, relative to it.
  ghost predicate IsOff(a: Matrix, w: Vector, i: nat, j: nat, d: real)
    requires Square(a) && |w| == |a| && Positive(w) && i < |a| && j < |a|
  {
    var y, c := a[i][j], w[i] / w[j];
    d * c == if y < c then c - y else y - c
  }

  // No judgement is further off than d.
  ghost predicate Furthest(a: Matrix, w: Vector, d: real)
    requires Square(a) && |w| == |a| && Positive(w)
  {
    forall i: nat, j: nat, e: real :: i < |a| && j < |a| && i != j && IsOff(a, w, i, j, e) ==> e <= d
  }

  // x is y moved by the part s of its way to c, cut to a ninth and to nine.
  predicate IsStep(y: real, c: real, s: real, x: real) {
    var z := y + s * (c - y);
    if z < 1.0 / 9.0 then x == 1.0 / 9.0 else if z > 9.0 then x == 9.0 else x == z
  }

  // b is a with the judgement on p and q set to x, and the one across to its inverse.
  ghost predicate Moves(a: Matrix, b: Matrix, p: nat, q: nat, x: real)
    requires Square(a) && Square(b) && |b| == |a|
  {
    && p < |a| && q < |a| && p != q && b[p][q] == x && x * b[q][p] == 1.0
    && forall i, j :: 0 <= i < |a| && 0 <= j < |a| && !(i == p && j == q) && !(i == q && j == p) ==>
         b[i][j] == a[i][j]
  }

  // The judgement that is furthest off, by d, takes a step towards its ratio.
  ghost predicate Steps(a: Matrix, b: Matrix, w: Vector, p: nat, q: nat, s: real, d: real)
    requires Square(a) && Square(b) && |b| == |a| == |w| && Positive(w)
  {
    && p < |a| && q < |a| && IsOff(a, w, p, q, d) && Furthest(a, w, d)
    && Moves(a, b, p, q, b[p][q]) && IsStep(a[p][q], w[p] / w[q], s, b[p][q])
  }

  lemma DeviationIsOff(a: Matrix, w: Vector, i: nat, j: nat, d: real)
    requires Square(a) && |w| == |a| && Positive(w) && i < |a| && j < |a|
    ensures IsOff(a, w, i, j, d) <==> d == Deviation(a, w, i, j)
  {
    RatioInverse(w[i], w[j]);
    QuotientExact(Abs(a[i][j] - w[i] / w[j]), w[i] / w[j], d);
  }

  lemma QuotientExact(x: real, c: real, d: real)
    requires c > 0.0
    ensures d * c == x <==> d == x / c
  {
    assert x / c * c == x;
    if d * c == x { QuotientIs(d, c, x); }
  }

  lemma EntryIsStep(y: real, c: real, s: real)
    ensures IsStep(y, c, s, NewEntry(y, c, s))
  {
    assert Delta(y, c, s) == s * (c - y);
  }

  lemma WorstIsFurthest(a: Matrix, w: Vector, r: Worst)
    requires Square(a) && |a| > 0 && |w| == |a| && AboveGuard(w) && r == WorstEntry(a, w)
    ensures Furthest(a, w, r.deviation)
  {
    forall i: nat, j: nat, e: real | i < |a| && j < |a| && i != j && IsOff(a, w, i, j, e) ensures e <= r.deviation {
      DeviationIsOff(a, w, i, j, e);
      assert Considered(w, i, j);
    }
  }

  lemma PairMoves(a: Matrix, b: Matrix, p: nat, q: nat, x: real)
    requires Square(a) && p < |a| && q < |a| && p != q && NINTH <= x <= 9.0 && b == WithPair(a, p, q, x)
    ensures Moves(a, b, p, q, x)
  {
    ReciprocalOfEntry(x);
  }

  lemma WorstSteps(a: Matrix, b: Matrix, w: Vector, s: real, r: Worst, x: real)
    requires Square(a) && |a| > 0 && |w| == |a| && AboveGuard(w) && r == WorstEntry(a, w) && r.row != r.col
    requires x == NewEntry(a[r.row][r.col], w[r.row] / w[r.col], s) && b == WithPair(a, r.row, r.col, x)
    ensures Steps(a, b, w, r.row, r.col, s, r.deviation)
  {
    WorstIsFurthest(a, w, r);
    DeviationIsOff(a, w, r.row, r.col, r.deviation);
    EntryIsStep(a[r.row][r.col], w[r.row] / w[r.col], s);
    PairMoves(a, b, r.row, r.col, x);
  }

  // An iteration that does not stop moves the judgement that is furthest off; a
  // matrix of which none is off stays.
  lemma NextSteps(a: Matrix, b: Matrix, w: Vector, s: real)
    requires Pairwise(a) && 2 < |a| <= INT_MAX && w == Eigenvector(a) && Positive(w) && b == NextMatrix(a, s)
    ensures (ConsistentWith(a, w) && b == a) || exists p: nat, q: nat, d: real :: Steps(a, b, w, p, q, s, d)
  {
    AboveGuardRun(a);
    var r := WorstEntry(a, w);
    if r.row == r.col {
      NoDeviation(a, w);
      CorrectedReciprocal(a, w, r.row, r.col, s);
    } else {
      WorstSteps(a, b, w, s, r, NewEntry(a[r.row][r.col], w[r.row] / w[r.col], s));
    }
  }

  // ---------- the consistency ratio ----------

  // Saaty's random index of n alternatives.
  predicate IsRandomIndex(n: nat, ri: real) {
    n > 2 && ri == if n > 15 then 1.59
                   else [0.58, 0.90, 1.12, 1.24, 1.32, 1.41, 1.45, 1.49, 1.51, 1.48, 1.56, 1.57, 1.59][n - 3]
  }

  lemma LambdaTerm(x: real, w: real, lambda: real)
    requires w > 0.0 && IsMultiple(x, w, lambda)
    ensures x / w == lambda
  {
    QuotientIs(lambda, w, x);
  }

  lemma {:induction false} LambdaOfEigenvector(a: Matrix, w: Vector, lambda: real, k: nat)
    requires Square(a) && |w| == |a| && AboveGuard(w) && k <= |a|
    requires AreMultiples(Multiply(a, w), w, lambda)
    ensures IsMultiple(LambdaSum(a, w, k), lambda, k as real)
  {
    if k > 0 {
      LambdaOfEigenvector(a, w, lambda, k - 1);
      assert IsMultiple(Multiply(a, w)[k - 1], w[k - 1], lambda);
      LambdaTerm(Dot(a[k - 1], w, |a|), w[k - 1], lambda);
      Distribute(lambda, (k - 1) as real, 1.0);
    } else {
      ZeroTimes(0.0, lambda);
    }
  }

  // ratio times ri times m is the excess.
  predicate RatioGives(ratio: real, ri: real, m: real, excess: real) {
    ratio * ri * m == excess
  }

  // Measured at an eigenvector, the ratio times random index and n - 1 is what
  // the eigenvalue has above n.
  lemma RatioOfEigenvector(a: Matrix, w: Vector, lambda: real, ri: real)
    requires Square(a) && |w| == |a| > 2 && IsRandomIndex(|a|, ri)
    requires (forall i :: 0 <= i < |w| ==> w[i] > 0.000000000001) && AreMultiples(Multiply(a, w), w, lambda)
    ensures RatioGives(ConsistencyRatio(a, w), ri, (|a| - 1) as real, lambda - |a| as real)
  {
    LambdaOfEigenvector(a, w, lambda, |a|);
    RandomIndexIs(|a|, ri);
    RatioIs(a, w);
    RatioOfSum(LambdaSum(a, w, |a|), lambda, |a| as real, (|a| - 1) as real, ri);
  }

  lemma RandomIndexIs(n: nat, ri: real)
    requires IsRandomIndex(n, ri)
    ensures RandomIndex(n) == ri > 0.0
  {}

  lemma RatioOfSum(sum: real, lambda: real, n: real, m: real, ri: real)
    requires n > 0.0 && m > 0.0 && ri > 0.0 && IsMultiple(sum, lambda, n)
    ensures RatioGives(RatioFrom(sum, n, m, ri), ri, m, lambda - n)
  {
    QuotientIs(lambda, n, sum);
    Unquotient(lambda - n, m, ri);
  }

  lemma Unquotient(x: real, m: real, ri: real)
    requires m > 0.0 && ri > 0.0
    ensures x / m / ri * ri * m == x
  {
    assert x / m / ri * ri == x / m;
  }

  // ---------- the consensus index ----------

  // c is the cosine of the angle between vectors of these products.
  predicate IsCosine(c: real, dot: real, uu: real, vv: real) {
    c * c * (uu * vv) == dot * dot && (c >= 0.0 <==> dot >= 0.0)
  }

  // Two experts: the index is half of one plus the cosine of their weights.
  lemma IndexOfPair(u: Vector, v: Vector, sqrt: real -> real, index: real, uu: real, vv: real)
    requires |u| == |v| && IsSqrt(sqrt) && index == ConsensusIndex([u, v], |u|, sqrt)
    requires uu == Dot(u, u, |u|) > 0.000000000001 && vv == Dot(v, v, |v|) > 0.000000000001
    ensures IsCosine(2.0 * index - 1.0, Dot(u, v, |u|), uu, vv)
  {
    PairIndex(u, v, sqrt);
    CosineLaw(u, v, sqrt, Cosine(u, v, sqrt), Dot(u, v, |u|), uu, vv);
  }

  lemma CosineLaw(u: Vector, v: Vector, sqrt: real -> real, c: real, dot: real, uu: real, vv: real)
    requires |u| == |v| && IsSqrt(sqrt) && c == Cosine(u, v, sqrt) && dot == Dot(u, v, |u|)
    requires uu == Dot(u, u, |u|) > GUARD && vv == Dot(v, v, |v|) > GUARD
    ensures IsCosine(c, dot, uu, vv)
  {
    var p := CosineParts(u, v, sqrt);
    CosineOf(c, dot, p, uu, vv);
  }

  lemma CosineOf(c: real, dot: real, p: real, uu: real, vv: real)
    requires p > 0.0 && p * p == uu * vv && c == dot / p
    ensures IsCosine(c, dot, uu, vv)
  {
    assert c * p == dot;
    assert c * c * (p * p) == c * p * (c * p);
    SameSign(c, p);
  }

  lemma PairIndex(u: Vector, v: Vector, sqrt: real -> real)
    requires |u| == |v| && IsSqrt(sqrt)
    ensures ConsensusIndex([u, v], |u|, sqrt) == Similarity(u, v, sqrt)
  {
    var vs := [u, v];
    assert SimilarityRow(vs, |u|, 0, 1, sqrt) == 0.0;
    assert SimilarityRow(vs, |u|, 0, 2, sqrt) == Similarity(u, v, sqrt);
    assert SimilarityRow(vs, |u|, 1, 2, sqrt) == 0.0;
    assert SimilarityRows(vs, |u|, 1, sqrt) == Similarity(u, v, sqrt);
    assert Pairs(2, 1) == 1 && Pairs(2, 2) == 1;
  }

  // The sum of the indices v has with the first k of the others, one at a time.
  function WithEach(vs: seq<Vector>, v: Vector, d: nat, k: nat, sqrt: real -> real): real
    requires SameLength(vs, d) && |v| == d && IsSqrt(sqrt) && k <= |vs|
  {
    if k == 0 then 0.0 else WithEach(vs, v, d, k - 1, sqrt) + ConsensusIndex([vs[k - 1], v], d, sqrt)
  }

  lemma {:induction false} SameRow(vs: seq<Vector>, v: Vector, d: nat, i: nat, j: nat, sqrt: real -> real)
    requires SameLength(vs, d) && |v| == d && IsSqrt(sqrt) && i < |vs| && j <= |vs|
    ensures SimilarityRow(vs + [v], d, i, j, sqrt) == SimilarityRow(vs, d, i, j, sqrt)
  {
    if j > i + 1 { SameRow(vs, v, d, i, j - 1, sqrt); }
  }

  lemma LongerRow(vs: seq<Vector>, v: Vector, d: nat, i: nat, sqrt: real -> real)
    requires SameLength(vs, d) && |v| == d && IsSqrt(sqrt) && i < |vs|
    ensures SimilarityRow(vs + [v], d, i, |vs| + 1, sqrt)
            == SimilarityRow(vs, d, i, |vs|, sqrt) + ConsensusIndex([vs[i], v], d, sqrt)
  {
    SameRow(vs, v, d, i, |vs|, sqrt);
    PairIndex(vs[i], v, sqrt);
  }

  lemma {:induction false} LongerRows(vs: seq<Vector>, v: Vector, d: nat, i: nat, sqrt: real -> real)
    requires SameLength(vs, d) && |v| == d && IsSqrt(sqrt) && i <= |vs|
    ensures SimilarityRows(vs + [v], d, i, sqrt) == SimilarityRows(vs, d, i, sqrt) + WithEach(vs, v, d, i, sqrt)
  {
    if i > 0 {
      LongerRows(vs, v, d, i - 1, sqrt);
      LongerRow(vs, v, d, i - 1, sqrt);
    }
  }

  lemma {:induction false} PairCount(n: nat, i: nat)
    requires i <= n
    ensures 2 * Pairs(n, i) == if i == n then n * (n - 1) else i * (2 * n - i - 1)
  {
    if i > 0 {
      PairCount(n, i - 1);
      assert (i - 1) * (2 * n - (i - 1) - 1) + 2 * (n - i) == i * (2 * n - i - 1);
    }
  }

  // Twice the sum over the pairs is the index times twice their number.
  predicate Shares(sum: real, index: real, twice: int) {
    sum * 2.0 == index * twice as real
  }

  lemma IndexTimesPairs(vs: seq<Vector>, d: nat, sqrt: real -> real, index: real)
    requires SameLength(vs, d) && IsSqrt(sqrt) && |vs| >= 1 && index == ConsensusIndex(vs, d, sqrt)
    ensures Shares(SimilarityRows(vs, d, |vs|, sqrt), index, |vs| * (|vs| - 1))
  {
    var n := |vs|;
    PairCount(n, n);
    if n == 1 {
      assert SimilarityRow(vs, d, 0, 1, sqrt) == 0.0;
      assert SimilarityRows(vs, d, 1, sqrt) == 0.0;
    } else {
      SomePairs(n, n);
      Averaged(SimilarityRows(vs, d, n, sqrt), Pairs(n, n), n * (n - 1));
    }
  }

  lemma Averaged(sum: real, pairs: nat, twice: int)
    requires pairs > 0 && twice == 2 * pairs
    ensures Shares(sum, sum / pairs as real, twice)
  {
    assert sum / pairs as real * pairs as real == sum;
    assert twice as real == 2.0 * pairs as real;
  }

  // One more expert adds its pairs with all others to the average: n (n + 1) / 2
  // pairs with it, n (n - 1) / 2 without.
  lemma IndexGrows(vs: seq<Vector>, v: Vector, d: nat, sqrt: real -> real, n: nat, before: real, after: real)
    requires SameLength(vs, d) && |v| == d && IsSqrt(sqrt) && n == |vs| >= 1
    requires before == ConsensusIndex(vs, d, sqrt) && after == ConsensusIndex(vs + [v], d, sqrt)
    ensures Grows(before, n * (n - 1), after, (n + 1) * n, WithEach(vs, v, d, n, sqrt))
  {
    LongerRows(vs, v, d, n, sqrt);
    LastRow(vs + [v], d, sqrt);
    IndexTimesPairs(vs, d, sqrt, before);
    IndexTimesPairs(vs + [v], d, sqrt, after);
    SharesGrow(SimilarityRows(vs, d, n, sqrt), WithEach(vs, v, d, n, sqrt), before, n * (n - 1), after, (n + 1) * n);
  }

  predicate Grows(before: real, twiceBefore: int, after: real, twiceAfter: int, added: real) {
    after * twiceAfter as real == before * twiceBefore as real + 2.0 * added
  }

  lemma SharesGrow(sum: real, added: real, before: real, twiceBefore: int, after: real, twiceAfter: int)
    requires Shares(sum, before, twiceBefore) && Shares(sum + added, after, twiceAfter)
    ensures Grows(before, twiceBefore, after, twiceAfter, added)
  {}

  lemma LastRow(vs: seq<Vector>, d: nat, sqrt: real -> real)
    requires SameLength(vs, d) && IsSqrt(sqrt) && |vs| >= 1
    ensures SimilarityRows(vs, d, |vs|, sqrt) == SimilarityRows(vs, d, |vs| - 1, sqrt)
  {
    assert SimilarityRow(vs, d, |vs| - 1, |vs|, sqrt) == 0.0;
  }
}
