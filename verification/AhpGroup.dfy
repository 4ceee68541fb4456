// The generated expert matrices of
// backend/src/protection_optimizer/protection_optimizer.cpp and the group's
// decision in one: aggregation, correction, weights, ratio and consensus. The
// drawn factors, log, exp and sqrt are parameters.
module AhpGroup {
  import opened AhpSums
  import opened AhpConsistency
  import opened AhpCorrection
  import opened AhpOptimizer
  import opened AhpConsensus
  import opened AhpAggregation

  // ---------- generated experts ----------

  type Factors = (nat, nat) -> real

  function Perturbed(y: real, factor: real): (x: real)
    ensures NINTH <= x <= 9.0
  {
    Clamp(y * factor)
  }

  // Columns r + 1 .. c of row r, and their mirror images.
  function PerturbRow(a: Matrix, f: Factors, r: nat, c: nat): (b: Matrix)
    requires Square(a) && r < |a| && c <= |a|
    ensures Square(b) && |b| == |a|
  {
    if c <= r + 1 then a
    else
      var b := PerturbRow(a, f, r, c - 1);
      WithPair(b, r, c - 1, Perturbed(b[r][c - 1], f(r, c - 1)))
  }

  function PerturbRows(a: Matrix, f: Factors, r: nat): (b: Matrix)
    requires Square(a) && r <= |a|
    ensures Square(b) && |b| == |a|
  {
    if r == 0 then a else PerturbRow(PerturbRows(a, f, r - 1), f, r - 1, |a|)
  }

  ghost predicate UnitDiagonal(a: Matrix)
    requires Square(a)
  {
    forall i :: 0 <= i < |a| ==> a[i][i] == 1.0
  }

  ghost predicate PositiveDiagonal(a: Matrix)
    requires Square(a)
  {
    forall i :: 0 <= i < |a| ==> a[i][i] > 0.0
  }

  predicate Paired(x: real, y: real) {
    Inverse(x, y) && NINTH <= x <= 9.0 && NINTH <= y <= 9.0
  }

  // All pairs whose smaller index is below r, or is r with the other below c.
  ghost predicate PairedUpTo(a: Matrix, r: nat, c: nat)
    requires Square(a)
  {
    forall i: nat, j: nat :: i < j < |a| && (i < r || (i == r && j < c)) ==> Paired(a[i][j], a[j][i])
  }

  lemma {:induction false} PerturbRowPairs(a: Matrix, f: Factors, r: nat, c: nat)
    requires Square(a) && r < |a| && c <= |a| && PairedUpTo(a, r, r + 1)
    ensures PairedUpTo(PerturbRow(a, f, r, c), r, if c <= r + 1 then r + 1 else c)
    ensures SameDiagonal(a, PerturbRow(a, f, r, c))
  {
    if c > r + 1 {
      PerturbRowPairs(a, f, r, c - 1);
      var b := PerturbRow(a, f, r, c - 1);
      ReciprocalOfEntry(Perturbed(b[r][c - 1], f(r, c - 1)));
    }
  }

  ghost predicate SameDiagonal(a: Matrix, b: Matrix)
    requires Square(a) && Square(b) && |a| == |b|
  {
    forall i :: 0 <= i < |a| ==> b[i][i] == a[i][i]
  }

  lemma {:induction false} PerturbRowsPairs(a: Matrix, f: Factors, r: nat)
    requires Square(a) && r <= |a|
    ensures PairedUpTo(PerturbRows(a, f, r), r, 0) && SameDiagonal(a, PerturbRows(a, f, r))
  {
    if r > 0 {
      PerturbRowsPairs(a, f, r - 1);
      PerturbRowPairs(PerturbRows(a, f, r - 1), f, r - 1, |a|);
    }
  }

  // Any square reference with a unit diagonal gives a pairwise matrix, whatever
  // its other entries and whatever the drawn factors.
  lemma GeneratedPairwise(a: Matrix, f: Factors)
    requires Square(a) && UnitDiagonal(a)
    ensures Pairwise(PerturbRows(a, f, |a|))
  {
    PerturbRowsPairs(a, f, |a|);
    AllPaired(PerturbRows(a, f, |a|));
  }

  // x is z, cut to a ninth below and to nine above.
  predicate IsCut(z: real, x: real) {
    if z < 1.0 / 9.0 then x == 1.0 / 9.0 else if z > 9.0 then x == 9.0 else x == z
  }

  // x is y times the factor within these bounds, and mirrored is its inverse.
  predicate Drawn(y: real, factor: real, x: real, mirrored: real) {
    IsCut(y * factor, x) && x * mirrored == 1.0
  }

  // Entry (i, j) of b, on or above the diagonal: drawn from a when it is above
  // and before (r, c), else that of a.
  predicate DrawnAt(a: Matrix, b: Matrix, f: Factors, i: nat, j: nat, r: nat, c: nat)
    requires Square(a) && Square(b) && |a| == |b| && i < |a| && j < |a|
  {
    if i < j && (i < r || (i == r && j < c)) then Drawn(a[i][j], f(i, j), b[i][j], b[j][i]) else b[i][j] == a[i][j]
  }

  ghost predicate DrawnUpTo(a: Matrix, b: Matrix, f: Factors, r: nat, c: nat)
    requires Square(a) && Square(b) && |a| == |b|
  {
    forall i: nat, j: nat :: i <= j < |a| ==> DrawnAt(a, b, f, i, j, r, c)
  }

  lemma DrawnPair(y: real, factor: real)
    ensures Drawn(y, factor, Perturbed(y, factor), 1.0 / Perturbed(y, factor))
  {
    var x := Perturbed(y, factor);
    assert x * (1.0 / x) == 1.0;
  }

  lemma EntryDrawn(a: Matrix, before: Matrix, b: Matrix, f: Factors, r: nat, c: nat)
    requires Square(a) && Square(before) && |a| == |before| && r < c < |a| && DrawnUpTo(a, before, f, r, c)
    requires b == WithPair(before, r, c, Perturbed(before[r][c], f(r, c)))
    ensures DrawnUpTo(a, b, f, r, c + 1)
  {
    assert DrawnAt(a, before, f, r, c, r, c);
    DrawnPair(a[r][c], f(r, c));
    var next := c + 1;
    forall i: nat, j: nat | i <= j < |a| ensures DrawnAt(a, b, f, i, j, r, next) {
      assert DrawnAt(a, before, f, i, j, r, c);
    }
  }

  lemma {:induction false} RowDrawn(a: Matrix, b: Matrix, f: Factors, r: nat, c: nat)
    requires Square(a) && Square(b) && |a| == |b| && r < c <= |a| && DrawnUpTo(a, b, f, r, r + 1)
    ensures DrawnUpTo(a, PerturbRow(b, f, r, c), f, r, c)
  {
    if c > r + 1 {
      RowDrawn(a, b, f, r, c - 1);
      EntryDrawn(a, PerturbRow(b, f, r, c - 1), PerturbRow(b, f, r, c), f, r, c - 1);
    }
  }

  lemma RowEnds(a: Matrix, b: Matrix, f: Factors, r: nat)
    requires Square(a) && Square(b) && |a| == |b| && 0 < r && DrawnUpTo(a, b, f, r - 1, |a|)
    ensures DrawnUpTo(a, b, f, r, r + 1)
  {
    var next := r + 1;
    forall i: nat, j: nat | i <= j < |a| ensures DrawnAt(a, b, f, i, j, r, next) {
      assert DrawnAt(a, b, f, i, j, r - 1, |a|);
    }
  }

  // After r rows every entry above the diagonal in them is the reference entry
  // times the factor drawn for it, cut to [1/9, 9], the one across is its inverse,
  // and the diagonal and the later rows are those of the reference.
  lemma {:induction false} GeneratedEntries(a: Matrix, f: Factors, r: nat)
    requires Square(a) && r <= |a|
    ensures DrawnUpTo(a, PerturbRows(a, f, r), f, r, r + 1)
  {
    if r > 0 {
      GeneratedEntries(a, f, r - 1);
      RowDrawn(a, PerturbRows(a, f, r - 1), f, r - 1, |a|);
      RowEnds(a, PerturbRows(a, f, r), f, r);
    }
  }

  // Without the unit diagonal the entries are still positive.
  lemma GeneratedPositive(a: Matrix, f: Factors)
    requires Square(a) && PositiveDiagonal(a)
    ensures PositiveMatrix(PerturbRows(a, f, |a|))
  {
    var b := PerturbRows(a, f, |a|);
    PerturbRowsPairs(a, f, |a|);
    forall i, j | 0 <= i < |b| && 0 <= j < |b| ensures b[i][j] > 0.0 { PositiveAt(b, i, j); }
  }

  lemma PositiveAt(b: Matrix, i: nat, j: nat)
    requires Square(b) && PositiveDiagonal(b) && PairedUpTo(b, |b|, 0) && i < |b| && j < |b|
    ensures b[i][j] > 0.0
  {
    if i < j {
      assert Paired(b[i][j], b[j][i]);
    } else if j < i {
      assert Paired(b[j][i], b[i][j]);
    }
  }

  lemma AllPaired(b: Matrix)
    requires Square(b) && UnitDiagonal(b) && PairedUpTo(b, |b|, 0)
    ensures Pairwise(b)
  {
    forall i, j | 0 <= i < |b| && 0 <= j < |b| ensures Inverse(b[i][j], b[j][i]) { PairAt(b, i, j); }
    forall i, j | 0 <= i < |b| && 0 <= j < |b| ensures NINTH <= b[i][j] <= 9.0 { PairAt(b, i, j); }
  }

  lemma PairAt(b: Matrix, i: nat, j: nat)
    requires Square(b) && UnitDiagonal(b) && PairedUpTo(b, |b|, 0) && i < |b| && j < |b|
    ensures Inverse(b[i][j], b[j][i]) && NINTH <= b[i][j] <= 9.0
  {
    if i < j {
      assert Paired(b[i][j], b[j][i]);
    } else if j < i {
      Mirrored(b[j][i], b[i][j]);
    }
  }

  lemma Mirrored(x: real, y: real)
    requires Paired(x, y)
    ensures Paired(y, x)
  {}

  method PerturbPair(m: array2<real>, r: nat, c: nat, factor: real)
    requires m.Length0 == m.Length1 && r < c < m.Length0
    modifies m
    ensures Rows(m) == WithPair(old(Rows(m)), r, c, Perturbed(old(Rows(m))[r][c], factor))
  {
    ghost var a := Rows(m);
    m[r, c] := m[r, c] * factor;
    if m[r, c] < 1.0 / 9.0 { m[r, c] := 1.0 / 9.0; }
    if m[r, c] > 9.0 { m[r, c] := 9.0; }
    assert m[r, c] == Perturbed(a[r][c], factor);
    m[c, r] := 1.0 / m[r, c];
    SameMatrix(Rows(m), WithPair(a, r, c, Perturbed(a[r][c], factor)));
  }

  method Perturb(m: array2<real>, f: Factors)
    requires m.Length0 == m.Length1
    modifies m
    ensures Rows(m) == PerturbRows(old(Rows(m)), f, m.Length0)
  {
    ghost var a := Rows(m);
    var n := m.Length0;
    for r := 0 to n
      invariant Rows(m) == PerturbRows(a, f, r)
    {
      ghost var b := Rows(m);
      for c := r + 1 to n
        invariant Rows(m) == PerturbRow(b, f, r, c)
      {
        PerturbPair(m, r, c, f(r, c));
      }
    }
  }

  datatype Consistency = Consistency(autoCorrection: bool, target: real, maxIterations: int, stepRatio: real,
                                     threshold: real)

  function Limit(config: Consistency): nat {
    if config.maxIterations < 0 then 0 else config.maxIterations
  }

  // What correction makes of a matrix; one of at most two criteria stays.
  function Refined(a: Matrix, config: Consistency): (b: Matrix)
    requires PositiveMatrix(a)
    ensures PositiveMatrix(b) && |b| == |a| && (Pairwise(a) ==> Pairwise(b))
  {
    if |a| <= 2 then a else Correct(a, config.target, StepRatio(config.stepRatio), Limit(config)).matrix
  }

  lemma RefinedVerdict(a: Matrix, config: Consistency)
    requires Pairwise(a) && |a| <= INT_MAX
    ensures Ratio(Refined(a, config)) >= 0.0
    ensures |a| > 2 ==>
      (Correct(a, config.target, StepRatio(config.stepRatio), Limit(config)).passed
       <==> Ratio(Refined(a, config)) <= config.target * 1.5)
  {
    if |a| > 2 {
      VerdictExact(a, config.target, StepRatio(config.stepRatio), Limit(config));
      AboveGuardRun(Refined(a, config));
    }
  }

  method Copy(reference: array2<real>) returns (m: array2<real>)
    requires reference.Length0 == reference.Length1
    ensures fresh(m) && m.Length0 == m.Length1 == reference.Length0 && Rows(m) == Rows(reference)
  {
    var n := reference.Length0;
    m := new real[n, n]((i, j) requires 0 <= i < n && 0 <= j < n reads reference => reference[i, j]);
    SameMatrix(Rows(m), Rows(reference));
  }

  function Accepted(a: Matrix, config: Consistency): bool
    requires PositiveMatrix(a)
  {
    if !config.autoCorrection then Ratio(a) <= config.threshold
    else |a| <= 2 || Correct(a, config.target, StepRatio(config.stepRatio), Limit(config)).passed
  }

  // One expert: a copy of the reference, perturbed, then corrected or tested.
  // From a reference with a unit diagonal the expert's matrix is pairwise and
  // the verdict is the reported ratio against the configured bound.
  method GenerateExpert(reference: array2<real>, f: Factors, config: Consistency)
    returns (m: array2<real>, passed: bool, ratio: real)
    requires reference.Length0 == reference.Length1 <= INT_MAX && PositiveDiagonal(Rows(reference))
    ensures fresh(m) && m.Length0 == m.Length1 == reference.Length0
    ensures PositiveMatrix(PerturbRows(Rows(reference), f, reference.Length0)) && ratio == Ratio(Rows(m))
    ensures var drawn := PerturbRows(Rows(reference), f, reference.Length0);
            Rows(m) == (if config.autoCorrection then Refined(drawn, config) else drawn)
            && (passed <==> Accepted(drawn, config))
    ensures UnitDiagonal(Rows(reference)) ==>
      && Pairwise(Rows(m)) && ratio >= 0.0
      && (passed <==> if config.autoCorrection then m.Length0 <= 2 || ratio <= config.target * 1.5
                      else ratio <= config.threshold)
  {
    m := Copy(reference);
    Perturb(m, f);
    ghost var drawn := Rows(m);
    GeneratedPositive(Rows(reference), f);
    if config.autoCorrection {
      passed := ApplyAutoCorrection(m, config.target, config.maxIterations, config.stepRatio);
    } else {
      var w := CalcEigenvector(m);
      var cr := CalcConsistencyRatio(m, w);
      passed := cr <= config.threshold;
    }
    var w := CalcEigenvector(m);
    ratio := CalcConsistencyRatio(m, w);
    if UnitDiagonal(Rows(reference)) { ExpertLaws(Rows(reference), f, config, drawn, Rows(m)); }
  }

  lemma ExpertLaws(reference: Matrix, f: Factors, config: Consistency, drawn: Matrix, a: Matrix)
    requires Square(reference) && UnitDiagonal(reference) && |reference| <= INT_MAX
    requires drawn == PerturbRows(reference, f, |reference|) && PositiveMatrix(drawn)
    requires a == if config.autoCorrection then Refined(drawn, config) else drawn
    ensures Pairwise(a) && Ratio(a) >= 0.0
    ensures Accepted(drawn, config) <==> if config.autoCorrection then |a| <= 2 || Ratio(a) <= config.target * 1.5
                                         else Ratio(a) <= config.threshold
  {
    GeneratedPairwise(reference, f);
    RefinedVerdict(drawn, config);
    if |a| > 2 { AboveGuardRun(a); }
  }

  // ---------- the group's decision ----------

  method Aggregated(experts: seq<Expert>, ghost os: seq<Opinion>, n: nat, config: Consistency, log: real -> real,
                    exp: real -> real)
    returns (m: array2<real>, ghost group: Matrix)
    requires |experts| > 0 && SquareExperts(experts, n) && os == View(experts, n)
    requires PairwiseOpinions(os, n) && LogExp(log, exp)
    ensures fresh(m) && m.Length0 == m.Length1 == n
    ensures Aggregates(group, os, n, log, exp) && Pairwise(group)
    ensures Rows(m) == Refined(group, config)
  {
    m := WeightedGeometricAggregation(experts, log, exp);
    group := Rows(m);
    AggregatePairwise(group, os, n, log, exp);
    var _ := ApplyAutoCorrection(m, config.target, config.maxIterations, config.stepRatio);
  }

  function MatricesOf(experts: seq<Expert>): (ms: seq<array2<real>>)
    ensures |ms| == |experts| && forall k :: 0 <= k < |ms| ==> ms[k] == experts[k].matrix
  {
    seq(|experts|, k requires 0 <= k < |experts| => experts[k].matrix)
  }

  lemma ExpertsPairwise(experts: seq<Expert>, n: nat)
    requires SquareExperts(experts, n) && PairwiseOpinions(View(experts, n), n)
    ensures SquareArrays(MatricesOf(experts), n) && AllPairwiseArrays(MatricesOf(experts), n)
  {
    forall k | 0 <= k < |experts| ensures Pairwise(Rows(experts[k].matrix)) {
      assert View(experts, n)[k].matrix == Rows(experts[k].matrix);
    }
  }

  method Consensus(matrices: seq<array2<real>>, n: nat, sqrt: real -> real) returns (index: real)
    requires SquareArrays(matrices, n) && AllPairwiseArrays(matrices, n) && 0 < n <= INT_MAX && IsSqrt(sqrt)
    ensures 0.5 <= index <= 1.0 && (index == 1.0 <==> Agreed(matrices, n))
  {
    index := CalcConsensusIndex(matrices, n, sqrt);
    ExpertsConsensus(matrices, n, sqrt);
  }

  method Assess(m: array2<real>, ghost a: Matrix) returns (weights: Vector, ratio: real)
    requires m.Length0 == m.Length1 && a == Rows(m) && Pairwise(a) && 0 < |a| <= INT_MAX
    ensures weights == Eigenvector(a) && Weights(weights) && ratio == Ratio(a) && ratio >= 0.0
  {
    weights := CalcEigenvector(m);
    ratio := CalcConsistencyRatio(m, weights);
    EigenvectorWeights(a);
    RatioNonNegative(a, weights);
  }

  // Aggregation, correction, weights, ratio and consensus in one: from pairwise
  // experts everything that is divided by is away from 0 and everything that is
  // reported is in its range.
  method DecideGroup(experts: seq<Expert>, ghost os: seq<Opinion>, n: nat, config: Consistency, log: real -> real,
                     exp: real -> real, sqrt: real -> real)
    returns (weights: Vector, groupCr: real, consensus: real, ghost group: Matrix)
    requires |experts| > 0 && SquareExperts(experts, n) && 0 < n <= INT_MAX && os == View(experts, n)
    requires PairwiseOpinions(os, n) && LogExp(log, exp) && IsSqrt(sqrt)
    ensures Aggregates(group, os, n, log, exp) && Pairwise(group)
    ensures weights == Eigenvector(Refined(group, config)) && Weights(weights)
    ensures groupCr == Ratio(Refined(group, config)) && groupCr >= 0.0
    ensures 0.5 <= consensus <= 1.0 && (consensus == 1.0 <==> Agreed(MatricesOf(experts), n))
  {
    var m: array2<real>;
    m, group := Aggregated(experts, os, n, config, log, exp);
    weights, groupCr := Assess(m, Refined(group, config));
    ExpertsPairwise(experts, n);
    consensus := Consensus(MatricesOf(experts), n, sqrt);
  }
}
