// What the auto-correction loop of
// backend/src/protection_optimizer/protection_optimizer.cpp can not do: the
// largest step ratio that never raises the ratio, and the matrices it cannot
// move.
module AhpLimits {
  import opened Reals
  import opened AhpSums
  import opened AhpConsistency
  import opened AhpCorrection
  import opened AhpOptimizer

  // ---------- the largest safe step ratio ----------

  // No step of the loop, from any pairwise matrix, raises the ratio measured
  // with the weights it used.
  ghost predicate NeverRaises(s: real) {
    forall a: Matrix :: Pairwise(a) && 2 < |a| <= INT_MAX ==>
      ConsistencyRatio(NextMatrix(a, s), Eigenvector(a)) <= Ratio(a)
  }

  lemma StepRatioExact(s: real)
    requires s > 0.0
    ensures NeverRaises(s) <==> s <= 10.0 / 9.0
  {
    if s <= 10.0 / 9.0 {
      forall a: Matrix | Pairwise(a) && 2 < |a| <= INT_MAX
        ensures ConsistencyRatio(NextMatrix(a, s), Eigenvector(a)) <= Ratio(a)
      {
        EigenvectorWeights(a);
        var worst := WorstEntry(a, Eigenvector(a));
        StepNeverRaises(a, Eigenvector(a), worst.row, worst.col, s);
      }
    } else {
      var t := 1.0 / (s - 1.0);
      assert t * (s - 1.0) == 1.0;
      BelowNine(t, s - 1.0);
      RingRises((t + 9.0) / 2.0, s);
    }
  }

  lemma BelowNine(t: real, d: real)
    requires t * d == 1.0 && d > 1.0 / 9.0
    ensures 0.0 < t < 9.0 && (t + 9.0) / 2.0 * d > 1.0
  {
    SignOfFactor(t, d, 1.0);
    if t >= 9.0 { ProductOrder(9.0, t, d); }
    ProductLess(t, (t + 9.0) / 2.0, d);
  }

  // Three alternatives, each y times better than the next around a ring: the
  // weights are equal, and the step takes y past the inverse of its distance.
  function Ring(y: real): (a: Matrix)
    requires y > 0.0
    ensures Square(a) && |a| == 3
  {
    [[1.0, y, 1.0 / y], [1.0 / y, 1.0, y], [y, 1.0 / y, 1.0]]
  }

  lemma RingPairwise(y: real)
    requires 1.0 < y < 9.0
    ensures Pairwise(Ring(y))
  {
    ReciprocalOfEntry(y);
  }

  lemma Dot3(r: Vector, w: Vector)
    requires |r| == |w| == 3
    ensures Dot(r, w, 3) == r[0] * w[0] + r[1] * w[1] + r[2] * w[2]
  {
    assert Dot(r, w, 1) == r[0] * w[0];
    assert Dot(r, w, 2) == Dot(r, w, 1) + r[1] * w[1];
  }

  lemma Total3(w: Vector)
    requires |w| == 3
    ensures Total(w, 3) == w[0] + w[1] + w[2]
  {
    assert Total(w, 1) == w[0];
    assert Total(w, 2) == Total(w, 1) + w[1];
  }

  lemma RingRows(y: real, w: Vector)
    requires 1.0 < y < 9.0 && w == [1.0 / 3.0, 1.0 / 3.0, 1.0 / 3.0]
    ensures forall i :: 0 <= i < 3 ==> Dot(Ring(y)[i], w, 3) == (1.0 + y + 1.0 / y) / 3.0
  {
    Dot3(Ring(y)[0], w);
    Dot3(Ring(y)[1], w);
    Dot3(Ring(y)[2], w);
  }

  lemma RingWeights(y: real)
    requires 1.0 < y < 9.0
    ensures Eigenvector(Ring(y)) == [1.0 / 3.0, 1.0 / 3.0, 1.0 / 3.0]
  {
    var w: Vector := [1.0 / 3.0, 1.0 / 3.0, 1.0 / 3.0];
    assert Uniform(3) == w;
    RingRows(y, w);
    var u := Multiply(Ring(y), w);
    Total3(u);
    ReciprocalOfEntry(y);
    ThirdOf(u[0], Total(u, 3));
    assert PowerStep(Ring(y), w) == w;
    SameDistance(w, 3);
  }

  lemma ThirdOf(x: real, total: real)
    requires x > 0.0 && total == 3.0 * x
    ensures x / total == 1.0 / 3.0
  {
    QuotientIs(1.0 / 3.0, total, x);
  }

  lemma {:induction false} SameDistance(w: Vector, k: nat)
    requires k <= |w|
    ensures Diff(w, w, k) == 0.0
  {
    if k > 0 { SameDistance(w, k - 1); }
  }

  lemma RingDeviations(y: real, w: Vector)
    requires 1.0 < y < 9.0 && w == [1.0 / 3.0, 1.0 / 3.0, 1.0 / 3.0]
    ensures forall i: nat, j: nat :: i < 3 && j < 3 ==> Deviation(Ring(y), w, i, j) == Abs(Ring(y)[i][j] - 1.0)
  {
    SelfQuotient(1.0 / 3.0);
  }

  lemma RingWorst(y: real, w: Vector)
    requires 1.0 < y < 9.0 && w == [1.0 / 3.0, 1.0 / 3.0, 1.0 / 3.0]
    ensures WorstEntry(Ring(y), w).row == 0 && WorstEntry(Ring(y), w).col == 1
  {
    var a := Ring(y);
    var r := WorstEntry(a, w);
    RingDeviations(y, w);
    ReciprocalOfEntry(y);
    RingGap(y, 1.0 / y);
    assert Considered(w, 0, 1) && Deviation(a, w, 0, 1) == y - 1.0;
    assert Considered(w, 0, 2) && Deviation(a, w, 0, 2) < y - 1.0;
    assert Considered(w, 1, 0) && Deviation(a, w, 1, 0) < y - 1.0;
    assert Considered(w, 2, 1) && Deviation(a, w, 2, 1) < y - 1.0;
    assert r.deviation >= y - 1.0;
  }

  lemma RingGap(y: real, z: real)
    requires y > 1.0 && y * z == 1.0
    ensures 0.0 < z < 1.0 && 1.0 - z < y - 1.0
  {
    SignOfFactor(z, y, 1.0);
    if z >= 1.0 { ProductLess(1.0, y, z); }
    SquareSign(y - 1.0);
    assert (y - 1.0) * (y - 1.0) == y * (y + z - 2.0);
    SignOfFactor(y + z - 2.0, y, Squared(y - 1.0));
  }

  lemma RingRises(y: real, s: real)
    requires 1.0 < y < 9.0 && s > 10.0 / 9.0 && y * (s - 1.0) > 1.0
    ensures !NeverRaises(s)
  {
    var a := Ring(y);
    RingPairwise(y);
    RingWeights(y);
    var w := Eigenvector(a);
    RingWorst(y, w);
    var x := NewEntry(y, 1.0, s);
    SelfQuotient(1.0 / 3.0);
    assert NextMatrix(a, s) == WithPair(a, 0, 1, x);
    RingOvershoots(y, s, x);
    RatioMoves(a, w, 0, 1, x);
  }

  lemma RingOvershoots(y: real, s: real, x: real)
    requires 1.0 < y < 9.0 && s > 10.0 / 9.0 && y * (s - 1.0) > 1.0 && x == NewEntry(y, 1.0, s)
    ensures Rise(x, y, 1.0) > 0.0
  {
    var d, xy := (y - 1.0) * s, x * y;
    RingEntry(y, s, x, d);
    if x == NINTH {
      FactorOrder(1.0 / 9.0, x, y, xy);
    } else {
      BelowInverse(y, s, y * (s - 1.0), d, x, xy);
    }
    NegativeProduct(x - y, xy - 1.0, (x - y) * (xy - 1.0));
  }

  lemma RingEntry(y: real, s: real, x: real, d: real)
    requires 1.0 < y < 9.0 && s > 0.0 && x == NewEntry(y, 1.0, s) && d == (y - 1.0) * s
    ensures x < y && (x == NINTH || x == y - d)
  {
    PositiveProduct(y - 1.0, s, d);
    assert Delta(y, 1.0, s) == -d;
  }

  lemma BelowInverse(y: real, s: real, k: real, d: real, x: real, xy: real)
    requires y > 1.0 && k == y * (s - 1.0) && k > 1.0 && d == (y - 1.0) * s && x == y - d && xy == x * y
    ensures xy < 1.0
  {
    var p := (y - 1.0) * (k - 1.0);
    PositiveProduct(y - 1.0, k - 1.0, p);
    var sy := s * y;
    assert k == sy - y && d == sy - s;
    InverseGap(y, k, s, p);
    assert xy == (s - k) * y;
  }

  lemma InverseGap(y: real, k: real, s: real, p: real)
    requires s * y == k + y && p == (y - 1.0) * (k - 1.0)
    ensures (s - k) * y == 1.0 - p
  {
    assert p == y * k - y - k + 1.0;
    assert (s - k) * y == s * y - k * y;
  }

  // ---------- matrices the step cannot move ----------

  lemma StepStill(y: real, c: real, s: real)
    requires NINTH <= y <= 9.0 && c > 0.0 && s > 0.0
    ensures NewEntry(y, c, s) == y <==> y == c || (y == 9.0 && c > 9.0) || (y == NINTH && c < NINTH)
  {
    var d := (c - y) * s;
    if c > y {
      PositiveProduct(c - y, s, d);
    } else if c < y {
      PositiveProduct(y - c, s, (y - c) * s);
      assert d == -((y - c) * s);
    } else {
      ZeroTimes(c - y, s);
    }
  }

  lemma StillExact(a: Matrix, w: Vector, p: nat, q: nat, s: real)
    requires Pairwise(a) && |w| == |a| && Positive(w) && p < |a| && q < |a| && s > 0.0
    ensures var y, c := a[p][q], w[p] / w[q];
            Corrected(a, w, p, q, s) == a <==> y == c || (y == 9.0 && c > 9.0) || (y == NINTH && c < NINTH)
  {
    var y, c := a[p][q], w[p] / w[q];
    RatioInverse(w[p], w[q]);
    CorrectedReciprocal(a, w, p, q, s);
    assert NINTH <= y <= 9.0 && Inverse(a[p][q], a[q][p]);
    StepStill(y, c, s);
    if p == q {
      assert y == 1.0;
      SelfQuotient(w[p]);
    } else if NewEntry(y, c, s) == y {
      QuotientIs(a[q][p], y, 1.0);
      SameMatrix(a, Corrected(a, w, p, q, s));
    }
  }

  // The worst entry agrees with the weights only if all entries do.
  lemma WorstAgrees(a: Matrix, w: Vector)
    requires Pairwise(a) && |a| > 2 && |w| == |a| && AboveGuard(w)
    ensures var r := WorstEntry(a, w); a[r.row][r.col] == w[r.row] / w[r.col] <==> ConsistentWith(a, w)
  {
    var r := WorstEntry(a, w);
    NoDeviation(a, w);
    RatioInverse(w[r.row], w[r.col]);
    DeviationSign(a[r.row][r.col], w[r.row] / w[r.col]);
  }

  // An entry at 9 below the weights' ratio is not the worst: its mirror image
  // deviates more.
  lemma WorstNotNine(a: Matrix, w: Vector)
    requires Pairwise(a) && |a| > 2 && |w| == |a| && AboveGuard(w)
    ensures var r := WorstEntry(a, w); !(a[r.row][r.col] == 9.0 && w[r.row] / w[r.col] > 9.0)
  {
    var r := WorstEntry(a, w);
    if a[r.row][r.col] == 9.0 && w[r.row] / w[r.col] > 9.0 {
      MirrorDeviates(a, w, r.row, r.col);
      assert false;
    }
  }

  lemma MirrorDeviates(a: Matrix, w: Vector, p: nat, q: nat)
    requires Pairwise(a) && |w| == |a| && AboveGuard(w) && Positive(w) && p < |a| && q < |a|
    requires a[p][q] == 9.0 && w[p] / w[q] > 9.0
    ensures Considered(w, p, q) && Considered(w, q, p) && Deviation(a, w, q, p) > Deviation(a, w, p, q)
  {
    assert Inverse(a[p][q], a[q][p]);
    InverseRatio(w[q], w[p]);
    MirrorWorse(w[p] / w[q], w[q] / w[p]);
  }

  lemma MirrorWorse(c: real, c': real)
    requires c > 9.0 && c' > 0.0 && c * c' == 1.0
    ensures Abs(1.0 / 9.0 - c') / c' > Abs(9.0 - c) / c
  {
    ScaledGap(c, c', c / 9.0, 9.0 * c');
    QuotientIs(c / 9.0 - 1.0, c', 1.0 / 9.0 - c');
    QuotientIs(1.0 - 9.0 * c', c, c - 9.0);
  }

  lemma ScaledGap(c: real, c': real, k: real, k': real)
    requires c > 9.0 && c * c' == 1.0 && 9.0 * k == c && k' == 9.0 * c'
    ensures k' < 1.0 && 1.0 - k' < k - 1.0
  {
    RingGap(k, k');
  }

  // The worst entry is at the lower bound and the weights ask for less.
  ghost predicate Stuck(a: Matrix)
    requires Pairwise(a) && 2 < |a| <= INT_MAX
  {
    EigenvectorPositive(a);
    var w := Eigenvector(a);
    var worst := WorstEntry(a, w);
    a[worst.row][worst.col] == NINTH && w[worst.row] / w[worst.col] < NINTH
  }

  // The step changes a matrix unless its ratio is 0 or it is stuck, whatever
  // the step ratio.
  lemma StuckExact(a: Matrix, s: real)
    requires Pairwise(a) && 2 < |a| <= INT_MAX && s > 0.0
    ensures NextMatrix(a, s) == a <==> Ratio(a) == 0.0 || Stuck(a)
  {
    EigenvectorWeights(a);
    var w := Eigenvector(a);
    var worst := WorstEntry(a, w);
    StillExact(a, w, worst.row, worst.col, s);
    WorstAgrees(a, w);
    WorstNotNine(a, w);
    RatioNonNegative(a, w);
  }

  // A stuck matrix above the target stays as it is for every iteration limit.
  lemma {:induction false} StuckForGood(a: Matrix, target: real, s: real, iterations: nat)
    requires Pairwise(a) && 2 < |a| <= INT_MAX && s > 0.0 && Stuck(a) && Ratio(a) > target
    ensures Correct(a, target, s, iterations) == Outcome(a, Ratio(a) <= target * 1.5)
    decreases iterations
  {
    if iterations > 0 {
      StuckExact(a, s);
      StuckForGood(a, target, s, iterations - 1);
    }
  }
}
