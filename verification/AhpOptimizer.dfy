// The in-place matrix algorithms of
// backend/src/protection_optimizer/protection_optimizer.cpp and the laws of
// whole runs of the auto-correction loop.
module AhpOptimizer {
  import opened Reals
  import opened AhpSums
  import opened AhpConsistency
  import opened AhpCorrection

  // ---------- weights of any positive matrix ----------

  lemma PowerStepPositive(a: Matrix, w: Vector)
    requires PositiveMatrix(a) && |a| > 0 && |w| == |a| && Positive(w)
    ensures Positive(PowerStep(a, w))
  {
    var u := Multiply(a, w);
    forall i | 0 <= i < |a| ensures u[i] > 0.0 {
      DotPositive(a[i], w, |a|);
    }
    NormalizePositive(u);
  }

  lemma {:induction false} PowerPositive(a: Matrix, w: Vector, iterations: nat)
    requires PositiveMatrix(a) && |a| > 0 && |w| == |a| && Positive(w)
    ensures Positive(Power(a, w, iterations))
    decreases iterations
  {
    if iterations > 0 {
      PowerStepPositive(a, w);
      PowerPositive(a, PowerStep(a, w), iterations - 1);
    }
  }

  lemma EigenvectorPositive(a: Matrix)
    requires PositiveMatrix(a) && |a| > 0
    ensures Positive(Eigenvector(a))
  {
    PowerPositive(a, Uniform(|a|), MAX_ITER);
  }

  // ---------- the worst entry ----------

  datatype Worst = Worst(deviation: real, row: nat, col: nat)

  predicate Considered(w: Vector, i: nat, j: nat)
    requires i < |w| && j < |w|
  {
    i != j && w[j] >= GUARD
  }

  function Deviation(a: Matrix, w: Vector, i: nat, j: nat): (d: real)
    requires Square(a) && |w| == |a| && Positive(w) && i < |a| && j < |a|
  {
    RatioInverse(w[i], w[j]);
    Abs(a[i][j] - w[i] / w[j]) / (w[i] / w[j])
  }

  function Consider(a: Matrix, w: Vector, i: nat, j: nat, best: Worst): Worst
    requires Square(a) && |w| == |a| && Positive(w) && i < |a| && j < |a|
  {
    if Considered(w, i, j) && Deviation(a, w, i, j) > best.deviation
    then Worst(Deviation(a, w, i, j), i, j) else best
  }

  function ScanRow(a: Matrix, w: Vector, i: nat, k: nat, best: Worst): (r: Worst)
    requires Square(a) && |w| == |a| && Positive(w) && i < |a| && k <= |a|
  {
    if k == 0 then best else Consider(a, w, i, k - 1, ScanRow(a, w, i, k - 1, best))
  }

  function ScanRows(a: Matrix, w: Vector, k: nat): (r: Worst)
    requires Square(a) && |w| == |a| && Positive(w) && k <= |a|
  {
    if k == 0 then Worst(0.0, 0, 0) else ScanRow(a, w, k - 1, |a|, ScanRows(a, w, k - 1))
  }

  // r is the first, in row-major order, of the largest deviations among the
  // entries before (row, col); (0, 0) when none deviates.
  ghost predicate FirstWorst(a: Matrix, w: Vector, row: nat, col: nat, r: Worst)
    requires Square(a) && |w| == |a| && Positive(w) && row <= |a| && col <= |a|
  {
    && (r == Worst(0.0, 0, 0)
        || (&& r.row < |a| && r.col < |a| && Considered(w, r.row, r.col)
            && r.deviation == Deviation(a, w, r.row, r.col) > 0.0
            && (r.row < row || (r.row == row && r.col < col))))
    && forall i: nat, j: nat :: i < |a| && j < |a| && Considered(w, i, j) && (i < row || (i == row && j < col)) ==>
        && Deviation(a, w, i, j) <= r.deviation
        && (i < r.row || (i == r.row && j < r.col) ==> Deviation(a, w, i, j) < r.deviation)
  }

  lemma {:induction false} ScanRowFinds(a: Matrix, w: Vector, i: nat, k: nat, best: Worst)
    requires Square(a) && |w| == |a| && Positive(w) && i < |a| && k <= |a| && FirstWorst(a, w, i, 0, best)
    ensures FirstWorst(a, w, i, k, ScanRow(a, w, i, k, best))
  {
    if k > 0 { ScanRowFinds(a, w, i, k - 1, best); }
  }

  lemma {:induction false} ScanFinds(a: Matrix, w: Vector, k: nat)
    requires Square(a) && |w| == |a| && Positive(w) && k <= |a|
    ensures FirstWorst(a, w, k, 0, ScanRows(a, w, k))
  {
    if k > 0 {
      ScanFinds(a, w, k - 1);
      ScanRowFinds(a, w, k - 1, |a|, ScanRows(a, w, k - 1));
    }
  }

  function WorstEntry(a: Matrix, w: Vector): (r: Worst)
    requires Square(a) && |a| > 0 && |w| == |a| && Positive(w)
    ensures FirstWorst(a, w, |a|, 0, r)
    ensures r.row < |a| && r.col < |a|
  {
    ScanFinds(a, w, |a|);
    ScanRows(a, w, |a|)
  }

  // With all weights above the guard nothing deviates exactly for a matrix
  // that is the ratios of the weights.
  lemma NoDeviation(a: Matrix, w: Vector)
    requires Reciprocal(a) && |a| > 0 && |w| == |a| && AboveGuard(w)
    ensures WorstEntry(a, w).deviation == 0.0 <==> ConsistentWith(a, w)
  {
    var r := WorstEntry(a, w);
    forall i: nat, j: nat | i < |a| && j < |a|
      ensures Deviation(a, w, i, j) >= 0.0 && (Deviation(a, w, i, j) == 0.0 <==> a[i][j] == w[i] / w[j])
      ensures a[i][i] == w[i] / w[i]
    {
      RatioInverse(w[i], w[j]);
      DeviationSign(a[i][j], w[i] / w[j]);
      SelfQuotient(w[i]);
      assert Inverse(a[i][i], a[i][i]);
    }
    if r.deviation == 0.0 {
      forall i: nat, j: nat | i < |a| && j < |a| ensures a[i][j] == w[i] / w[j] {
        if i != j { assert Considered(w, i, j); }
      }
    }
  }

  lemma DeviationSign(y: real, c: real)
    requires c > 0.0
    ensures Abs(y - c) / c >= 0.0 && (Abs(y - c) / c == 0.0 <==> y == c)
  {
    var d := Abs(y - c) / c;
    assert d * c == Abs(y - c);
    SameSign(d, c);
  }

  // ---------- runs of the loop ----------

  datatype Outcome = Outcome(matrix: Matrix, passed: bool)

  function Ratio(a: Matrix): real
    requires Square(a)
  {
    ConsistencyRatio(a, Eigenvector(a))
  }

  function NextMatrix(a: Matrix, s: real): (b: Matrix)
    requires PositiveMatrix(a) && |a| > 2
    ensures PositiveMatrix(b) && |b| == |a| && (Reciprocal(a) ==> Reciprocal(b)) && (Pairwise(a) ==> Pairwise(b))
  {
    EigenvectorPositive(a);
    var w := Eigenvector(a);
    var worst := WorstEntry(a, w);
    CorrectedKeeps(a, w, worst.row, worst.col, s);
    Corrected(a, w, worst.row, worst.col, s)
  }

  predicate Blocked(a: Matrix)
    requires PositiveMatrix(a) && |a| > 2
  {
    EigenvectorPositive(a);
    Eigenvector(a)[WorstEntry(a, Eigenvector(a)).col] < GUARD
  }

  function Correct(a: Matrix, target: real, s: real, iterations: nat): (r: Outcome)
    requires PositiveMatrix(a) && |a| > 2
    ensures PositiveMatrix(r.matrix) && |r.matrix| == |a|
    ensures (Reciprocal(a) ==> Reciprocal(r.matrix)) && (Pairwise(a) ==> Pairwise(r.matrix))
    decreases iterations
  {
    if iterations > 0 && Ratio(a) <= target then Outcome(a, true)
    else if iterations == 0 || Blocked(a) then Outcome(a, Ratio(a) <= target * 1.5)
    else Correct(NextMatrix(a, s), target, s, iterations - 1)
  }

  // The matrices a run goes through.
  function Trace(a: Matrix, target: real, s: real, iterations: nat): (t: seq<Matrix>)
    requires PositiveMatrix(a) && |a| > 2
    ensures |t| > 0 && t[0] == a
    decreases iterations
  {
    if iterations == 0 || Ratio(a) <= target || Blocked(a) then [a]
    else [a] + Trace(NextMatrix(a, s), target, s, iterations - 1)
  }

  lemma AboveGuardRun(a: Matrix)
    requires Pairwise(a) && 2 < |a| <= INT_MAX
    ensures AboveGuard(Eigenvector(a)) && Ratio(a) >= 0.0 && !Blocked(a)
  {
    EigenvectorWeights(a);
    RatioNonNegative(a, Eigenvector(a));
  }

  // The verdict is the ratio of the matrix the run ends with, against one and
  // a half times the target.
  lemma {:induction false} VerdictExact(a: Matrix, target: real, s: real, iterations: nat)
    requires Pairwise(a) && 2 < |a| <= INT_MAX
    ensures var r := Correct(a, target, s, iterations);
            Pairwise(r.matrix) && (r.passed <==> Ratio(r.matrix) <= target * 1.5)
    decreases iterations
  {
    AboveGuardRun(a);
    if iterations > 0 {
      CorrectRound(a, target, s, iterations);
      if Ratio(a) > target {
        VerdictExact(NextMatrix(a, s), target, s, iterations - 1);
      } else {
        BelowTarget(Ratio(a), target);
      }
    }
  }

  lemma BelowTarget(r: real, target: real)
    requires 0.0 <= r <= target
    ensures r <= target * 1.5
  {}

  lemma CorrectRound(a: Matrix, target: real, s: real, iterations: nat)
    requires PositiveMatrix(a) && |a| > 2 && iterations > 0
    ensures Ratio(a) <= target ==> Correct(a, target, s, iterations) == Outcome(a, true)
    ensures Ratio(a) > target && Blocked(a) ==>
      Correct(a, target, s, iterations) == Outcome(a, Ratio(a) <= target * 1.5)
    ensures Ratio(a) > target && !Blocked(a) ==>
      Correct(a, target, s, iterations) == Correct(NextMatrix(a, s), target, s, iterations - 1)
  {}

  // One link of a run: the ratio was above the target, and measured with the
  // weights of that iteration the step did not raise it.
  ghost predicate Improves(a: Matrix, b: Matrix, target: real, s: real)
    requires PositiveMatrix(a) && Square(b) && 2 < |a| == |b|
  {
    && b == NextMatrix(a, s) && Ratio(a) > target
    && ConsistencyRatio(b, Eigenvector(a)) <= Ratio(a)
    && (s <= 1.0 && b != a ==> ConsistencyRatio(b, Eigenvector(a)) < Ratio(a))
  }

  lemma NextImproves(a: Matrix, target: real, s: real)
    requires Pairwise(a) && 2 < |a| <= INT_MAX && 0.0 < s <= 10.0 / 9.0 && Ratio(a) > target
    ensures Improves(a, NextMatrix(a, s), target, s)
  {
    EigenvectorWeights(a);
    var w := Eigenvector(a);
    var worst := WorstEntry(a, w);
    StepNeverRaises(a, w, worst.row, worst.col, s);
    if s <= 1.0 { StepLowers(a, w, worst.row, worst.col, s); }
  }

  ghost predicate AllPairwise(t: seq<Matrix>, n: nat) {
    forall k :: 0 <= k < |t| ==> Pairwise(t[k]) && |t[k]| == n
  }

  ghost predicate Descends(t: seq<Matrix>, n: nat, target: real, s: real)
    requires n > 2 && AllPairwise(t, n)
  {
    forall k :: 0 <= k < |t| - 1 ==> Improves(t[k], t[k + 1], target, s)
  }

  // Every run, however long: each matrix stays pairwise, each step leaves its
  // ratio no higher, and the run stops early only at the target.
  lemma {:induction false} RunDescends(a: Matrix, target: real, s: real, iterations: nat)
    requires Pairwise(a) && 2 < |a| <= INT_MAX && 0.0 < s <= 10.0 / 9.0
    ensures var t := Trace(a, target, s, iterations);
            && AllPairwise(t, |a|) && Descends(t, |a|, target, s)
            && t[|t| - 1] == Correct(a, target, s, iterations).matrix
            && |t| <= iterations + 1
            && (|t| <= iterations ==> Ratio(t[|t| - 1]) <= target && Correct(a, target, s, iterations).passed)
    decreases iterations
  {
    AboveGuardRun(a);
    if iterations > 0 && Ratio(a) > target {
      var b := NextMatrix(a, s);
      RunDescends(b, target, s, iterations - 1);
      NextImproves(a, target, s);
      Prepend(a, Trace(b, target, s, iterations - 1), target, s);
    }
  }

  lemma Prepend(a: Matrix, t: seq<Matrix>, target: real, s: real)
    requires Pairwise(a) && |a| > 2 && |t| > 0 && AllPairwise(t, |a|) && Descends(t, |a|, target, s)
    requires Improves(a, t[0], target, s)
    ensures AllPairwise([a] + t, |a|) && Descends([a] + t, |a|, target, s)
  {
    var u := [a] + t;
    forall k | 0 <= k < |u| - 1 ensures Improves(u[k], u[k + 1], target, s) {
      if k > 0 { assert u[k] == t[k - 1] && u[k + 1] == t[k]; }
    }
  }

  // ---------- the loops ----------

  ghost function Rows(m: array2<real>): (a: Matrix)
    reads m
    ensures |a| == m.Length0 && forall i :: 0 <= i < m.Length0 ==> |a[i]| == m.Length1
    ensures forall i, j :: 0 <= i < m.Length0 && 0 <= j < m.Length1 ==> a[i][j] == m[i, j]
  {
    seq(m.Length0, i requires 0 <= i < m.Length0 reads m =>
      seq(m.Length1, j requires 0 <= i < m.Length0 && 0 <= j < m.Length1 reads m => m[i, j]))
  }

  method MultiplyInto(m: array2<real>, w: array<real>, wNew: array<real>)
    requires m.Length0 == m.Length1 == w.Length == wNew.Length && w != wNew
    modifies wNew
    ensures wNew[..] == Multiply(Rows(m), w[..])
  {
    ghost var a, v := Rows(m), w[..];
    var n := m.Length0;
    for i := 0 to n
      invariant forall k :: 0 <= k < i ==> wNew[k] == Dot(a[k], v, n)
    {
      var sum := 0.0;
      for j := 0 to n
        invariant sum == Dot(a[i], v, j)
      {
        sum := sum + m[i, j] * w[j];
      }
      wNew[i] := sum;
    }
  }

  method NormalizeInPlace(u: array<real>)
    modifies u
    ensures u[..] == Normalize(old(u[..]))
  {
    ghost var v := u[..];
    var norm := 0.0;
    for k := 0 to u.Length
      invariant norm == Total(v, k) && u[..] == v
    {
      norm := norm + u[k];
    }
    if norm > 0.0 {
      for k := 0 to u.Length
        invariant forall i :: 0 <= i < k ==> u[i] == v[i] / norm
        invariant forall i :: k <= i < u.Length ==> u[i] == v[i]
      {
        u[k] := u[k] / norm;
      }
    }
  }

  method Distance(u: array<real>, w: array<real>) returns (diff: real)
    requires u.Length == w.Length
    ensures diff == Diff(u[..], w[..], u.Length)
  {
    diff := 0.0;
    for i := 0 to u.Length
      invariant diff == Diff(u[..], w[..], i)
    {
      diff := diff + Abs(u[i] - w[i]);
    }
  }

  method PowerRound(m: array2<real>, w: array<real>, wNew: array<real>) returns (diff: real)
    requires m.Length0 == m.Length1 == w.Length == wNew.Length && w != wNew
    modifies wNew
    ensures wNew[..] == PowerStep(Rows(m), w[..])
    ensures diff == Diff(wNew[..], w[..], w.Length)
  {
    MultiplyInto(m, w, wNew);
    NormalizeInPlace(wNew);
    diff := Distance(wNew, w);
  }

  method CalcEigenvector(m: array2<real>) returns (weights: Vector)
    requires m.Length0 == m.Length1
    ensures weights == Eigenvector(Rows(m))
    ensures exists k :: StopsAt(Rows(m), weights, k)
  {
    EigenvectorStops(Rows(m));
    if m.Length0 == 0 { return []; }
    weights := IterateRounds(m);
  }

  method IterateRounds(m: array2<real>) returns (weights: Vector)
    requires m.Length0 == m.Length1 > 0
    ensures weights == Eigenvector(Rows(m))
  {
    var n := m.Length0;
    var w := new real[n](_ => 1.0 / n as real);
    var wNew := new real[n];
    assert w[..] == Uniform(n);
    var iter := 0;
    while iter < 100
      invariant 0 <= iter <= 100 && w.Length == wNew.Length == n && w != wNew && fresh(w) && fresh(wNew)
      invariant Power(Rows(m), w[..], 100 - iter) == Eigenvector(Rows(m))
    {
      var diff := PowerRound(m, w, wNew);
      w, wNew := wNew, w;
      if diff < 0.00000001 { break; }
      iter := iter + 1;
    }
    weights := w[..];
  }

  method WeightedRows(m: array2<real>, weights: Vector) returns (aw: array<real>)
    requires m.Length0 == m.Length1 == |weights|
    ensures fresh(aw) && aw.Length == |weights|
    ensures forall k :: 0 <= k < |weights| ==> aw[k] == Dot(Rows(m)[k], weights, |weights|)
  {
    ghost var a := Rows(m);
    var n := m.Length0;
    aw := new real[n](_ => 0.0);
    for i := 0 to n
      invariant forall k :: 0 <= k < i ==> aw[k] == Dot(a[k], weights, n)
      invariant forall k :: i <= k < n ==> aw[k] == 0.0
    {
      for j := 0 to n
        invariant aw[i] == Dot(a[i], weights, j)
        invariant forall k :: 0 <= k < i ==> aw[k] == Dot(a[k], weights, n)
        invariant forall k :: i < k < n ==> aw[k] == 0.0
      {
        aw[i] := aw[i] + m[i, j] * weights[j];
      }
    }
  }

  method CalcConsistencyRatio(m: array2<real>, weights: Vector) returns (cr: real)
    requires m.Length0 == m.Length1 == |weights|
    ensures cr == ConsistencyRatio(Rows(m), weights)
  {
    var n := m.Length0;
    if n <= 2 { return 0.0; }
    var aw := WeightedRows(m, weights);
    var lambda := 0.0;
    for i := 0 to n
      invariant lambda == LambdaSum(Rows(m), weights, i)
    {
      if weights[i] > 0.000000000001 { lambda := lambda + aw[i] / weights[i]; }
    }
    lambda := lambda / n as real;
    var ci := (lambda - n as real) / (n - 1) as real;
    var ri := if n <= 15 then RI_SAATY[n - 1] else 1.59;
    cr := if ri < 0.000000000001 then 0.0 else ci / ri;
  }

  method FindWorst(m: array2<real>, weights: Vector) returns (worstRow: nat, worstCol: nat)
    requires m.Length0 == m.Length1 == |weights| > 0 && Positive(weights)
    ensures worstRow == WorstEntry(Rows(m), weights).row && worstCol == WorstEntry(Rows(m), weights).col
  {
    ghost var a := Rows(m);
    var n := m.Length0;
    worstRow, worstCol := 0, 0;
    var worst := 0.0;
    for i := 0 to n
      invariant Worst(worst, worstRow, worstCol) == ScanRows(a, weights, i)
    {
      for j := 0 to n
        invariant Worst(worst, worstRow, worstCol) == ScanRow(a, weights, i, j, ScanRows(a, weights, i))
      {
        if i == j { continue; }
        if weights[j] < 0.000000000001 { continue; }
        var ideal := weights[i] / weights[j];
        RatioInverse(weights[i], weights[j]);
        var actual := m[i, j];
        var deviation := Abs(actual - ideal) / ideal;
        if deviation > worst {
          worst := deviation;
          worstRow := i;
          worstCol := j;
        }
      }
    }
  }

  method CorrectEntry(m: array2<real>, weights: Vector, p: nat, q: nat, s: real)
    requires m.Length0 == m.Length1 == |weights| && Positive(weights) && p < m.Length0 && q < m.Length0
    modifies m
    ensures Rows(m) == Corrected(old(Rows(m)), weights, p, q, s)
  {
    ghost var a := Rows(m);
    var ideal := weights[p] / weights[q];
    var actual := m[p, q];
    var entry := actual + Delta(actual, ideal, s);
    if entry < 1.0 / 9.0 { entry := 1.0 / 9.0; }
    if entry > 9.0 { entry := 9.0; }
    assert entry == NewEntry(actual, ideal, s);
    m[p, q] := entry;
    m[q, p] := 1.0 / entry;
    SameMatrix(Rows(m), WithPair(a, p, q, entry));
  }

  // One iteration: stop at the target, stop at a weight below the guard, or
  // correct the worst entry in place.
  method CorrectionRound(m: array2<real>, targetCr: real, s: real) returns (reached: bool, blocked: bool)
    requires m.Length0 == m.Length1 > 2 && PositiveMatrix(Rows(m))
    modifies m
    ensures reached <==> Ratio(old(Rows(m))) <= targetCr
    ensures !reached ==> (blocked <==> Blocked(old(Rows(m))))
    ensures Rows(m) == if reached || blocked then old(Rows(m)) else NextMatrix(old(Rows(m)), s)
  {
    EigenvectorPositive(Rows(m));
    var weights := CalcEigenvector(m);
    var cr := CalcConsistencyRatio(m, weights);
    if cr <= targetCr { return true, false; }
    var worstRow, worstCol := FindWorst(m, weights);
    if weights[worstCol] < 0.000000000001 { return false, true; }
    CorrectEntry(m, weights, worstRow, worstCol, s);
    return false, false;
  }

  method CorrectionLoop(m: array2<real>, targetCr: real, maxIter: int, s: real) returns (reached: bool)
    requires m.Length0 == m.Length1 > 2 && PositiveMatrix(Rows(m))
    modifies m
    ensures Correct(old(Rows(m)), targetCr, s, if maxIter < 0 then 0 else maxIter)
            == Outcome(Rows(m), reached || Ratio(Rows(m)) <= targetCr * 1.5)
  {
    var iter := 0;
    ghost var left: nat := if maxIter < 0 then 0 else maxIter;
    ghost var a, outcome := Rows(m), Correct(Rows(m), targetCr, s, left);
    while iter < maxIter
      invariant a == Rows(m) && PositiveMatrix(a) && left == if maxIter < iter then 0 else maxIter - iter
      invariant Correct(a, targetCr, s, left) == outcome
    {
      var blocked;
      reached, blocked := CorrectionRound(m, targetCr, s);
      CorrectRound(a, targetCr, s, left);
      if reached { return; }
      if blocked { break; }
      a, left := Rows(m), left - 1;
      iter := iter + 1;
    }
    reached := false;
  }

  method ApplyAutoCorrection(m: array2<real>, targetCr: real, maxIter: int, configuredStep: real)
    returns (passed: bool)
    requires m.Length0 == m.Length1 && PositiveMatrix(Rows(m))
    modifies m
    ensures m.Length0 <= 2 ==> passed && Rows(m) == old(Rows(m))
    ensures m.Length0 > 2 ==>
      Outcome(Rows(m), passed)
      == Correct(old(Rows(m)), targetCr, if configuredStep < 0.01 then 0.15 else configuredStep,
                 if maxIter < 0 then 0 else maxIter)
  {
    if m.Length0 <= 2 { return true; }
    var stepRatio := configuredStep;
    if stepRatio < 0.01 { stepRatio := 0.15; }
    passed := CorrectionLoop(m, targetCr, maxIter, stepRatio);
    if !passed { passed := FinalTest(m, targetCr); }
  }

  method FinalTest(m: array2<real>, targetCr: real) returns (passed: bool)
    requires m.Length0 == m.Length1
    ensures passed <==> Ratio(Rows(m)) <= targetCr * 1.5
  {
    var weights := CalcEigenvector(m);
    var cr := CalcConsistencyRatio(m, weights);
    passed := cr <= targetCr * 1.5;
  }
}
