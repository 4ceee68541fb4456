// The weighted geometric aggregation of
// backend/src/protection_optimizer/protection_optimizer.cpp. log and exp are
// parameters with the laws each result uses.
module AhpAggregation {
  import opened Reals
  import opened AhpSums
  import opened AhpConsistency
  import opened AhpCorrection
  import opened AhpOptimizer

  const FLOOR: real := 0.000000001

  predicate Below(x: real, y: real) { x <= y }
  predicate Adds(x: real, y: real, z: real) { x + y == z }

  // exp is positive, increasing and turns opposites into inverses; log is
  // increasing, turns inverses into opposites, and exp undoes it.
  // The laws apply where a proof mentions one of these two predicates, a
  // Chain or an Inverse.
  ghost predicate LogExp(log: real -> real, exp: real -> real) {
    && (forall x: real :: exp(x) > 0.0)
    && (forall x: real, y: real {:trigger Below(x, y)} :: Below(x, y) ==> exp(x) <= exp(y))
    && (forall x: real, y: real {:trigger Adds(x, y, 0.0)} :: Adds(x, y, 0.0) ==> Inverse(exp(x), exp(y)))
    && (forall x: real :: x > 0.0 ==> exp(log(x)) == x)
    && (forall x: real, y: real {:trigger Below(x, y)} :: 0.0 < x && Below(x, y) ==> log(x) <= log(y))
    && (forall x: real, y: real {:trigger Inverse(x, y)} :: Inverse(x, y) ==> log(x) + log(y) == 0.0)
  }

  // log turns products into sums and exp sums into products.
  ghost predicate Homomorphic(log: real -> real, exp: real -> real) {
    && (forall x: real, y: real, z: real {:trigger Adds(x, y, z)} :: Adds(x, y, z) ==> Chain(exp(x), exp(y), exp(z)))
    && (forall x: real, y: real, z: real {:trigger Chain(x, y, z)} ::
          x > 0.0 && y > 0.0 && Chain(x, y, z) ==> log(x) + log(y) == log(z))
  }

  datatype Opinion = Opinion(authority: real, matrix: Matrix)

  ghost predicate Opinions(os: seq<Opinion>, n: nat) {
    forall k :: 0 <= k < |os| ==> Square(os[k].matrix) && |os[k].matrix| == n
  }

  ghost predicate PairwiseOpinions(os: seq<Opinion>, n: nat) {
    Opinions(os, n) && forall k :: 0 <= k < |os| ==> Pairwise(os[k].matrix) && os[k].authority > 0.0
  }

  function Authority(os: seq<Opinion>, k: nat): real
    requires k <= |os|
  {
    if k == 0 then 0.0 else Authority(os, k - 1) + os[k - 1].authority
  }

  function Divisor(os: seq<Opinion>): (t: real)
    ensures t > 0.0
  {
    if Authority(os, |os|) < GUARD then 1.0 else Authority(os, |os|)
  }

  function Floored(y: real): real {
    if y < FLOOR then FLOOR else y
  }

  function Term(share: real, l: real): real { share * l }

  function LogSum(os: seq<Opinion>, n: nat, i: nat, j: nat, k: nat, log: real -> real, t: real): real
    requires Opinions(os, n) && i < n && j < n && k <= |os| && t > 0.0
  {
    if k == 0 then 0.0
    else LogSum(os, n, i, j, k - 1, log, t)
         + Term(os[k - 1].authority / t, log(Floored(os[k - 1].matrix[i][j])))
  }

  function Shares(os: seq<Opinion>, k: nat, t: real): real
    requires k <= |os| && t > 0.0
  {
    if k == 0 then 0.0 else Shares(os, k - 1, t) + os[k - 1].authority / t
  }

  function AggregatedEntry(os: seq<Opinion>, n: nat, i: nat, j: nat, log: real -> real, exp: real -> real): real
    requires Opinions(os, n) && i < n && j < n
  {
    if i == j then 1.0 else exp(LogSum(os, n, i, j, |os|, log, Divisor(os)))
  }

  ghost predicate Aggregates(r: Matrix, os: seq<Opinion>, n: nat, log: real -> real, exp: real -> real)
    requires Opinions(os, n)
  {
    && Square(r) && |r| == n
    && forall i, j :: 0 <= i < n && 0 <= j < n ==> r[i][j] == AggregatedEntry(os, n, i, j, log, exp)
  }

  // ---------- shares ----------

  lemma {:induction false} SharesAre(os: seq<Opinion>, k: nat, t: real)
    requires k <= |os| && t > 0.0
    ensures Shares(os, k, t) == Authority(os, k) / t
  {
    if k > 0 {
      SharesAre(os, k - 1, t);
      SumQuotient(Authority(os, k - 1), os[k - 1].authority, t);
    }
  }

  lemma {:induction false} AuthorityPositive(os: seq<Opinion>, k: nat)
    requires k <= |os| && forall i :: 0 <= i < |os| ==> os[i].authority > 0.0
    ensures Authority(os, k) >= 0.0
  {
    if k > 0 { AuthorityPositive(os, k - 1); }
  }

  // The shares add up to 1, or to less than 1e-12 when the guard divides by 1.
  lemma SharesTotal(os: seq<Opinion>)
    requires forall i :: 0 <= i < |os| ==> os[i].authority > 0.0
    ensures 0.0 <= Shares(os, |os|, Divisor(os)) <= 1.0
    ensures Authority(os, |os|) >= GUARD ==> Shares(os, |os|, Divisor(os)) == 1.0
  {
    SharesAre(os, |os|, Divisor(os));
    AuthorityPositive(os, |os|);
    if Authority(os, |os|) >= GUARD { SelfQuotient(Divisor(os)); }
  }

  // ---------- bounds ----------

  lemma {:induction false} LogSumBounds(os: seq<Opinion>, n: nat, i: nat, j: nat, k: nat,
      log: real -> real, exp: real -> real, t: real, lo: real, hi: real)
    requires Opinions(os, n) && i < n && j < n && k <= |os| && t > 0.0 && LogExp(log, exp) && FLOOR <= lo
    requires forall m :: 0 <= m < |os| ==> os[m].authority > 0.0 && lo <= os[m].matrix[i][j] <= hi
    ensures Term(Shares(os, k, t), log(lo)) <= LogSum(os, n, i, j, k, log, t) <= Term(Shares(os, k, t), log(hi))
  {
    if k > 0 {
      LogSumBounds(os, n, i, j, k - 1, log, exp, t, lo, hi);
      var share, y := os[k - 1].authority / t, os[k - 1].matrix[i][j];
      PositiveQuotient(os[k - 1].authority, t);
      assert Below(lo, y) && Below(y, hi);
      TermOrder(share, log(lo), log(y));
      TermOrder(share, log(y), log(hi));
      TermSum(Shares(os, k - 1, t), share, log(lo));
      TermSum(Shares(os, k - 1, t), share, log(hi));
    } else {
      ZeroTimes(0.0, log(lo));
      ZeroTimes(0.0, log(hi));
    }
  }

  lemma PositiveQuotient(x: real, t: real)
    requires x > 0.0 && t > 0.0
    ensures x / t > 0.0
  {
    SignOfFactor(x / t, t, x);
  }

  lemma TermOrder(share: real, x: real, y: real)
    requires share >= 0.0 && x <= y
    ensures Term(share, x) <= Term(share, y)
  {
    ProductOrder(x, y, share);
  }

  lemma TermSum(s: real, share: real, l: real)
    ensures Term(s + share, l) == Term(s, l) + Term(share, l)
  {}

  // With a total authority past the guard every group entry lies between the
  // smallest and the largest entry of the experts.
  lemma EntryBetween(os: seq<Opinion>, n: nat, i: nat, j: nat, log: real -> real, exp: real -> real,
      lo: real, hi: real)
    requires Opinions(os, n) && i < n && j < n && i != j && LogExp(log, exp) && FLOOR <= lo <= hi
    requires Authority(os, |os|) >= GUARD
    requires forall m :: 0 <= m < |os| ==> os[m].authority > 0.0 && lo <= os[m].matrix[i][j] <= hi
    ensures lo <= AggregatedEntry(os, n, i, j, log, exp) <= hi
  {
    var t := Divisor(os);
    SharesTotal(os);
    LogSumBounds(os, n, i, j, |os|, log, exp, t, lo, hi);
    WholeShare(log(lo));
    WholeShare(log(hi));
    ExpBetween(log, exp, lo, LogSum(os, n, i, j, |os|, log, t), hi);
  }

  lemma WholeShare(l: real)
    ensures Term(1.0, l) == l
  {}

  lemma ExpBetween(log: real -> real, exp: real -> real, lo: real, s: real, hi: real)
    requires LogExp(log, exp) && lo > 0.0 && hi > 0.0 && log(lo) <= s <= log(hi)
    ensures lo <= exp(s) <= hi
  {
    assert Below(log(lo), s) && Below(s, log(hi));
  }

  // Below the guard the entry is pulled towards 1 but stays within the scale.
  lemma EntryWithinScale(os: seq<Opinion>, n: nat, i: nat, j: nat, log: real -> real, exp: real -> real)
    requires PairwiseOpinions(os, n) && i < n && j < n && LogExp(log, exp)
    ensures NINTH <= AggregatedEntry(os, n, i, j, log, exp) <= 9.0
  {
    var s, t := LogSum(os, n, i, j, |os|, log, Divisor(os)), Divisor(os);
    SharesTotal(os);
    LogSumBounds(os, n, i, j, |os|, log, exp, t, NINTH, 9.0);
    assert Inverse(9.0, NINTH);
    assert Below(NINTH, 9.0);
    assert log(9.0) + log(NINTH) == 0.0 && log(NINTH) <= log(9.0);
    ShareAtMostOne(Shares(os, |os|, t), log(9.0));
    ShareAtMostOne(Shares(os, |os|, t), -log(9.0));
    ExpBetween(log, exp, NINTH, s, 9.0);
  }

  lemma ShareAtMostOne(s: real, l: real)
    requires 0.0 <= s <= 1.0
    ensures l >= 0.0 ==> 0.0 <= Term(s, l) <= l
    ensures l <= 0.0 ==> l <= Term(s, l) <= 0.0
  {
    if l >= 0.0 { ProductOrder(s, 1.0, l); } else { ProductOrder(s, 1.0, -l); }
  }

  // ---------- reciprocity ----------

  lemma {:induction false} LogSumMirrors(os: seq<Opinion>, n: nat, i: nat, j: nat, k: nat,
      log: real -> real, exp: real -> real, t: real)
    requires PairwiseOpinions(os, n) && i < n && j < n && k <= |os| && t > 0.0 && LogExp(log, exp)
    ensures LogSum(os, n, i, j, k, log, t) + LogSum(os, n, j, i, k, log, t) == 0.0
  {
    if k > 0 {
      LogSumMirrors(os, n, i, j, k - 1, log, exp, t);
      var a, share := os[k - 1].matrix, os[k - 1].authority / t;
      assert Pairwise(a) && Inverse(a[i][j], a[j][i]);
      OppositeTerms(share, log(a[i][j]), log(a[j][i]));
    }
  }

  lemma OppositeTerms(share: real, x: real, y: real)
    requires x + y == 0.0
    ensures Term(share, x) + Term(share, y) == 0.0
  {
    assert y == -x;
  }

  // The group matrix of pairwise experts is pairwise, for every positive
  // authority, so it meets the precondition of everything computed from it.
  lemma AggregatePairwise(r: Matrix, os: seq<Opinion>, n: nat, log: real -> real, exp: real -> real)
    requires PairwiseOpinions(os, n) && LogExp(log, exp) && Aggregates(r, os, n, log, exp)
    ensures Pairwise(r)
  {
    forall i, j | 0 <= i < |r| && 0 <= j < |r| ensures Inverse(r[i][j], r[j][i]) {
      EntryMirrors(os, n, i, j, log, exp);
    }
    forall i, j | 0 <= i < |r| && 0 <= j < |r| ensures NINTH <= r[i][j] <= 9.0 {
      EntryWithinScale(os, n, i, j, log, exp);
    }
  }

  lemma EntryMirrors(os: seq<Opinion>, n: nat, i: nat, j: nat, log: real -> real, exp: real -> real)
    requires PairwiseOpinions(os, n) && i < n && j < n && LogExp(log, exp)
    ensures Inverse(AggregatedEntry(os, n, i, j, log, exp), AggregatedEntry(os, n, j, i, log, exp))
  {
    if i != j {
      var t := Divisor(os);
      LogSumMirrors(os, n, i, j, |os|, log, exp, t);
      ExpOpposites(log, exp, LogSum(os, n, i, j, |os|, log, t), LogSum(os, n, j, i, |os|, log, t));
    }
  }

  lemma ExpOpposites(log: real -> real, exp: real -> real, x: real, y: real)
    requires LogExp(log, exp) && x + y == 0.0
    ensures Inverse(exp(x), exp(y))
  {
    assert Adds(x, y, 0.0);
  }

  // Experts who agree are reproduced exactly.
  lemma UnanimousAggregate(r: Matrix, os: seq<Opinion>, n: nat, a: Matrix, log: real -> real, exp: real -> real)
    requires PairwiseOpinions(os, n) && LogExp(log, exp) && Aggregates(r, os, n, log, exp)
    requires Authority(os, |os|) >= GUARD && Pairwise(a) && |a| == n
    requires forall m :: 0 <= m < |os| ==> os[m].matrix == a
    ensures r == a
  {
    forall i: nat, j: nat | i < n && j < n ensures r[i][j] == a[i][j] {
      if i != j { EntryBetween(os, n, i, j, log, exp, a[i][j], a[i][j]); }
    }
    SameMatrix(r, a);
  }

  // ---------- authority ----------

  lemma {:induction false} SamePrefix(first: seq<Opinion>, second: seq<Opinion>, n: nat, i: nat, j: nat, k: nat,
      log: real -> real, t: real)
    requires Opinions(first, n) && Opinions(second, n) && i < n && j < n && t > 0.0
    requires k <= |first| && k <= |second| && first[..k] == second[..k]
    ensures LogSum(first, n, i, j, k, log, t) == LogSum(second, n, i, j, k, log, t)
    ensures Authority(first, k) == Authority(second, k)
  {
    if k > 0 {
      assert first[k - 1] == first[..k][k - 1] && second[k - 1] == second[..k][k - 1];
      assert first[..k - 1] == first[..k][..k - 1] && second[..k - 1] == second[..k][..k - 1];
      SamePrefix(first, second, n, i, j, k - 1, log, t);
    }
  }

  lemma SplitTerm(x: real, y: real, t: real, l: real)
    requires t > 0.0
    ensures Term((x + y) / t, l) == Term(x / t, l) + Term(y / t, l)
  {
    SumQuotient(x, y, t);
    TermSum(x / t, y / t, l);
  }

  // Authority is additive: an expert counts as much as two who share the same
  // judgements and divide the authority between them.
  lemma SplitExpert(os: seq<Opinion>, n: nat, a: Matrix, x: real, y: real, i: nat, j: nat,
      log: real -> real, exp: real -> real)
    requires Opinions(os, n) && Square(a) && |a| == n && i < n && j < n
    ensures var one, two := os + [Opinion(x + y, a)], os + [Opinion(x, a), Opinion(y, a)];
            Opinions(one, n) && Opinions(two, n)
            && AggregatedEntry(one, n, i, j, log, exp) == AggregatedEntry(two, n, i, j, log, exp)
  {
    var one, two, k := os + [Opinion(x + y, a)], os + [Opinion(x, a), Opinion(y, a)], |os|;
    assert one[..k] == os && two[..k] == os && two[k] == Opinion(x, a) && two[k + 1] == Opinion(y, a);
    SamePrefix(one, two, n, i, j, k, log, 1.0);
    assert Authority(one, k + 1) == Authority(two, k + 2);
    var t := Divisor(one);
    SamePrefix(one, two, n, i, j, k, log, t);
    SplitTerm(x, y, t, log(Floored(a[i][j])));
    assert LogSum(two, n, i, j, k + 2, log, t)
        == LogSum(two, n, i, j, k, log, t) + Term(x / t, log(Floored(a[i][j]))) + Term(y / t, log(Floored(a[i][j])));
  }

  // ---------- consistent experts ----------

  lemma LogOfOne(log: real -> real, exp: real -> real)
    requires LogExp(log, exp)
    ensures log(1.0) == 0.0
  {
    assert Inverse(1.0, 1.0);
  }

  lemma {:induction false} LogSumDiagonal(os: seq<Opinion>, n: nat, i: nat, k: nat,
      log: real -> real, exp: real -> real, t: real)
    requires PairwiseOpinions(os, n) && i < n && k <= |os| && t > 0.0 && LogExp(log, exp)
    ensures LogSum(os, n, i, i, k, log, t) == 0.0
  {
    if k > 0 {
      LogSumDiagonal(os, n, i, k - 1, log, exp, t);
      LogOfOne(log, exp);
      assert Pairwise(os[k - 1].matrix) && Inverse(os[k - 1].matrix[i][i], os[k - 1].matrix[i][i]);
      OppositeTerms(os[k - 1].authority / t, 0.0, 0.0);
    }
  }

  lemma ProductEntry(os: seq<Opinion>, n: nat, i: nat, j: nat, log: real -> real, exp: real -> real)
    requires PairwiseOpinions(os, n) && i < n && j < n && LogExp(log, exp) && Homomorphic(log, exp)
    ensures AggregatedEntry(os, n, i, j, log, exp) == exp(LogSum(os, n, i, j, |os|, log, Divisor(os)))
  {
    if i == j {
      LogSumDiagonal(os, n, i, |os|, log, exp, Divisor(os));
      ExpOfZero(log, exp);
    }
  }

  lemma ExpOfZero(log: real -> real, exp: real -> real)
    requires LogExp(log, exp)
    ensures exp(0.0) == 1.0
  {
    LogOfOne(log, exp);
    assert exp(log(1.0)) == 1.0;
  }

  lemma {:induction false} LogSumChains(os: seq<Opinion>, n: nat, i: nat, j: nat, m: nat, k: nat,
      log: real -> real, exp: real -> real, t: real)
    requires PairwiseOpinions(os, n) && i < n && j < n && m < n && k <= |os| && t > 0.0 && Homomorphic(log, exp)
    requires forall e :: 0 <= e < |os| ==> Transitive(os[e].matrix)
    ensures LogSum(os, n, i, j, k, log, t) + LogSum(os, n, j, m, k, log, t) == LogSum(os, n, i, m, k, log, t)
  {
    if k > 0 {
      LogSumChains(os, n, i, j, m, k - 1, log, exp, t);
      var a := os[k - 1].matrix;
      assert Pairwise(a) && Transitive(a);
      LogChain(a, i, j, m, log, exp);
      TermChain(os[k - 1].authority / t, log(a[i][j]), log(a[j][m]), log(a[i][m]));
    }
  }

  lemma LogChain(a: Matrix, i: nat, j: nat, m: nat, log: real -> real, exp: real -> real)
    requires Pairwise(a) && Transitive(a) && i < |a| && j < |a| && m < |a| && Homomorphic(log, exp)
    ensures Floored(a[i][j]) == a[i][j] && Floored(a[j][m]) == a[j][m] && Floored(a[i][m]) == a[i][m]
    ensures log(a[i][j]) + log(a[j][m]) == log(a[i][m])
  {
    assert a[i][j] >= NINTH && a[j][m] >= NINTH && a[i][m] >= NINTH;
    assert Chain(a[i][j], a[j][m], a[i][m]);
  }

  lemma TermChain(share: real, x: real, y: real, z: real)
    requires x + y == z
    ensures Term(share, x) + Term(share, y) == Term(share, z)
  {}

  // Experts who never contradict themselves give a group matrix that does not,
  // and so a consistency ratio of exactly 0.
  lemma ConsistentGroup(r: Matrix, os: seq<Opinion>, n: nat, log: real -> real, exp: real -> real)
    requires PairwiseOpinions(os, n) && 2 < n <= INT_MAX && Aggregates(r, os, n, log, exp)
    requires LogExp(log, exp) && Homomorphic(log, exp)
    requires forall e :: 0 <= e < |os| ==> Transitive(os[e].matrix)
    ensures Transitive(r) && Ratio(r) == 0.0
  {
    GroupTransitive(r, os, n, log, exp);
    AggregatePairwise(r, os, n, log, exp);
    ZeroRatioMeansTransitive(r);
  }

  lemma GroupTransitive(r: Matrix, os: seq<Opinion>, n: nat, log: real -> real, exp: real -> real)
    requires PairwiseOpinions(os, n) && Aggregates(r, os, n, log, exp)
    requires LogExp(log, exp) && Homomorphic(log, exp)
    requires forall e :: 0 <= e < |os| ==> Transitive(os[e].matrix)
    ensures Transitive(r)
  {
    forall i, j, m | 0 <= i < |r| && 0 <= j < |r| && 0 <= m < |r| ensures Chain(r[i][j], r[j][m], r[i][m]) {
      GroupChain(os, n, i, j, m, log, exp, Divisor(os));
    }
  }

  lemma GroupChain(os: seq<Opinion>, n: nat, i: nat, j: nat, m: nat, log: real -> real, exp: real -> real, t: real)
    requires PairwiseOpinions(os, n) && i < n && j < n && m < n && LogExp(log, exp) && Homomorphic(log, exp)
    requires t == Divisor(os) && forall e :: 0 <= e < |os| ==> Transitive(os[e].matrix)
    ensures Chain(AggregatedEntry(os, n, i, j, log, exp), AggregatedEntry(os, n, j, m, log, exp),
                  AggregatedEntry(os, n, i, m, log, exp))
  {
    ProductEntry(os, n, i, j, log, exp);
    ProductEntry(os, n, j, m, log, exp);
    ProductEntry(os, n, i, m, log, exp);
    LogSumChains(os, n, i, j, m, |os|, log, exp, t);
    ExpChain(log, exp, LogSum(os, n, i, j, |os|, log, t), LogSum(os, n, j, m, |os|, log, t),
             LogSum(os, n, i, m, |os|, log, t));
  }

  lemma ExpChain(log: real -> real, exp: real -> real, x: real, y: real, z: real)
    requires Homomorphic(log, exp) && x + y == z
    ensures Chain(exp(x), exp(y), exp(z))
  {
    assert Adds(x, y, z);
  }

  // ---------- the loops ----------

  datatype Expert = Expert(authority: real, matrix: array2<real>)

  ghost predicate SquareExperts(experts: seq<Expert>, n: nat) {
    forall k :: 0 <= k < |experts| ==> experts[k].matrix.Length0 == n && experts[k].matrix.Length1 == n
  }

  ghost function View(experts: seq<Expert>, n: nat): (os: seq<Opinion>)
    requires SquareExperts(experts, n)
    reads set k | 0 <= k < |experts| :: experts[k].matrix
    ensures |os| == |experts| && Opinions(os, n)
    ensures forall k :: 0 <= k < |os| ==> os[k] == Opinion(experts[k].authority, Rows(experts[k].matrix))
  {
    seq(|experts|, k requires SquareExperts(experts, n) && 0 <= k < |experts|
                     reads set k | 0 <= k < |experts| :: experts[k].matrix
      => Opinion(experts[k].authority, Rows(experts[k].matrix)))
  }

  method WeightedEntry(experts: seq<Expert>, n: nat, i: nat, j: nat, total: real, log: real -> real)
    returns (logSum: real)
    requires SquareExperts(experts, n) && i < n && j < n && total > 0.0
    ensures logSum == LogSum(View(experts, n), n, i, j, |experts|, log, total)
  {
    ghost var os := View(experts, n);
    logSum := 0.0;
    for k := 0 to |experts|
      invariant logSum == LogSum(os, n, i, j, k, log, total)
    {
      var share := experts[k].authority / total;
      assert os[k].matrix[i][j] == experts[k].matrix[i, j];
      logSum := logSum + Term(share, log(Floored(experts[k].matrix[i, j])));
    }
  }

  method TotalWeight(experts: seq<Expert>, ghost os: seq<Opinion>) returns (total: real)
    requires |os| == |experts| && forall k :: 0 <= k < |os| ==> os[k].authority == experts[k].authority
    ensures total == Divisor(os)
  {
    total := 0.0;
    for k := 0 to |experts|
      invariant total == Authority(os, k)
    {
      total := total + experts[k].authority;
    }
    if total < 0.000000000001 { total := 1.0; }
  }

  method EntryOf(experts: seq<Expert>, n: nat, i: nat, j: nat, total: real, log: real -> real, exp: real -> real,
      ghost os: seq<Opinion>) returns (entry: real)
    requires SquareExperts(experts, n) && i < n && j < n && os == View(experts, n) && total == Divisor(os)
    ensures entry == AggregatedEntry(os, n, i, j, log, exp)
  {
    if i == j { return 1.0; }
    var logSum := WeightedEntry(experts, n, i, j, total, log);
    entry := exp(logSum);
  }

  method FillRow(experts: seq<Expert>, n: nat, i: nat, total: real, log: real -> real, exp: real -> real,
      result: array2<real>, ghost os: seq<Opinion>)
    requires SquareExperts(experts, n) && i < n && result.Length0 == result.Length1 == n
    requires forall k :: 0 <= k < |experts| ==> experts[k].matrix != result
    requires os == View(experts, n) && total == Divisor(os)
    modifies result
    ensures forall h, j :: 0 <= h < n && 0 <= j < n ==>
      result[h, j] == if h == i then AggregatedEntry(os, n, i, j, log, exp) else old(result[h, j])
  {
    for j := 0 to n
      invariant View(experts, n) == os
      invariant forall h, m :: 0 <= h < n && 0 <= m < n && h != i ==> result[h, m] == old(result[h, m])
      invariant forall m :: 0 <= m < j ==> result[i, m] == AggregatedEntry(os, n, i, m, log, exp)
    {
      var entry := EntryOf(experts, n, i, j, total, log, exp, os);
      result[i, j] := entry;
    }
  }

  method FillRows(experts: seq<Expert>, n: nat, total: real, log: real -> real, exp: real -> real,
      result: array2<real>, ghost os: seq<Opinion>)
    requires SquareExperts(experts, n) && result.Length0 == result.Length1 == n
    requires forall k :: 0 <= k < |experts| ==> experts[k].matrix != result
    requires os == View(experts, n) && total == Divisor(os)
    modifies result
    ensures forall h, j :: 0 <= h < n && 0 <= j < n ==> result[h, j] == AggregatedEntry(os, n, h, j, log, exp)
  {
    for i := 0 to n
      invariant View(experts, n) == os
      invariant forall h, j :: 0 <= h < i && 0 <= j < n ==> result[h, j] == AggregatedEntry(os, n, h, j, log, exp)
    {
      FillRow(experts, n, i, total, log, exp, result, os);
    }
  }

  method WeightedGeometricAggregation(experts: seq<Expert>, log: real -> real, exp: real -> real)
    returns (result: array2<real>)
    requires |experts| > 0 ==> SquareExperts(experts, experts[0].matrix.Length0)
    ensures fresh(result)
    ensures |experts| == 0 ==> result.Length0 == result.Length1 == 0
    ensures |experts| > 0 ==>
      var n := experts[0].matrix.Length0;
      result.Length0 == result.Length1 == n && Aggregates(Rows(result), View(experts, n), n, log, exp)
  {
    if |experts| == 0 {
      result := new real[0, 0];
      return;
    }
    var n := experts[0].matrix.Length0;
    ghost var os := View(experts, n);
    var total := TotalWeight(experts, os);
    result := new real[n, n]((i, j) => 1.0);
    FillRows(experts, n, total, log, exp, result, os);
    assert View(experts, n) == os;
  }
}
