// Finite sums over vectors and square matrices of reals.
module AhpSums {
  import opened Reals

  type Vector = seq<real>
  type Matrix = seq<seq<real>>

  predicate Square(a: Matrix) {
    forall i :: 0 <= i < |a| ==> |a[i]| == |a|
  }

  function Total(xs: Vector, k: nat): real
    requires k <= |xs|
  {
    if k == 0 then 0.0 else Total(xs, k - 1) + xs[k - 1]
  }

  function Dot(u: Vector, v: Vector, k: nat): real
    requires k <= |u| && k <= |v|
  {
    if k == 0 then 0.0 else Dot(u, v, k - 1) + u[k - 1] * v[k - 1]
  }

  // Column c, first k rows.
  function ColTotal(b: Matrix, c: nat, k: nat): real
    requires Square(b) && c < |b| && k <= |b|
  {
    if k == 0 then 0.0 else ColTotal(b, c, k - 1) + b[k - 1][c]
  }

  // First k rows, first m columns.
  function RowsTotal(b: Matrix, k: nat, m: nat): real
    requires Square(b) && k <= |b| && m <= |b|
  {
    if k == 0 then 0.0 else RowsTotal(b, k - 1, m) + Total(b[k - 1], m)
  }

  // ---------- vectors ----------

  lemma {:induction false} TotalBounds(xs: Vector, k: nat, lo: real, hi: real)
    requires k <= |xs| && forall i :: 0 <= i < k ==> lo <= xs[i] <= hi
    ensures lo * k as real <= Total(xs, k) <= hi * k as real
  {
    if k > 0 {
      TotalBounds(xs, k - 1, lo, hi);
      assert lo * k as real == lo * (k - 1) as real + lo && hi * k as real == hi * (k - 1) as real + hi;
    }
  }

  lemma {:induction false} TotalScaled(xs: Vector, ys: Vector, k: nat, c: real)
    requires k <= |xs| && k <= |ys| && c != 0.0 && forall i :: 0 <= i < k ==> ys[i] == xs[i] / c
    ensures Total(ys, k) == Total(xs, k) / c
  {
    if k > 0 { TotalScaled(xs, ys, k - 1, c); }
  }

  lemma {:induction false} TotalEqual(xs: Vector, ys: Vector, k: nat)
    requires k <= |xs| && k <= |ys| && forall i :: 0 <= i < k ==> xs[i] == ys[i]
    ensures Total(xs, k) == Total(ys, k)
  {
    if k > 0 { TotalEqual(xs, ys, k - 1); }
  }

  // A weighted sum lies between the bounds of its factors.
  lemma {:induction false} DotBounds(u: Vector, v: Vector, k: nat, lo: real, hi: real)
    requires k <= |u| && k <= |v|
    requires forall i :: 0 <= i < k ==> lo <= u[i] <= hi && v[i] >= 0.0
    ensures lo * Total(v, k) <= Dot(u, v, k) <= hi * Total(v, k)
  {
    if k > 0 {
      DotBounds(u, v, k - 1, lo, hi);
      ProductOrder(lo, u[k - 1], v[k - 1]);
      ProductOrder(u[k - 1], hi, v[k - 1]);
      Distribute(lo, Total(v, k - 1), v[k - 1]);
      Distribute(hi, Total(v, k - 1), v[k - 1]);
    }
  }

  lemma {:induction false} DotPositive(u: Vector, v: Vector, k: nat)
    requires k <= |u| && k <= |v| && forall i :: 0 <= i < k ==> u[i] > 0.0 && v[i] > 0.0
    ensures Dot(u, v, k) >= 0.0 && (k > 0 ==> Dot(u, v, k) > 0.0)
  {
    if k > 0 {
      DotPositive(u, v, k - 1);
      assert u[k - 1] * v[k - 1] > 0.0;
    }
  }

  // The squared length of u - t v.
  function Gap(u: Vector, v: Vector, k: nat, t: real): real
    requires k <= |u| && k <= |v|
  {
    if k == 0 then 0.0 else Gap(u, v, k - 1, t) + Squared(u[k - 1] - v[k - 1] * t)
  }

  lemma {:induction false} GapSign(u: Vector, v: Vector, k: nat, t: real)
    requires k <= |u| && k <= |v|
    ensures Gap(u, v, k, t) >= 0.0
    ensures Gap(u, v, k, t) == 0.0 ==> forall i :: 0 <= i < k ==> u[i] - v[i] * t == 0.0
  {
    if k > 0 {
      GapSign(u, v, k - 1, t);
      SquareSign(u[k - 1] - v[k - 1] * t);
    }
  }

  function Weighted(c: real, u: Vector, v: Vector, k: nat): real
    requires k <= |u| && k <= |v|
  {
    if k == 0 then 0.0 else Weighted(c, u, v, k - 1) + c * (u[k - 1] * v[k - 1])
  }

  lemma {:induction false} WeightedIs(c: real, u: Vector, v: Vector, k: nat)
    requires k <= |u| && k <= |v|
    ensures Weighted(c, u, v, k) == c * Dot(u, v, k)
  {
    if k > 0 {
      WeightedIs(c, u, v, k - 1);
      Distribute(c, Dot(u, v, k - 1), u[k - 1] * v[k - 1]);
    }
  }

  lemma {:induction false} GapExpanded(u: Vector, v: Vector, k: nat, t: real)
    requires k <= |u| && k <= |v|
    ensures Gap(u, v, k, t) == Dot(u, u, k) - 2.0 * Weighted(t, u, v, k) + Weighted(t * t, v, v, k)
  {
    if k > 0 {
      GapExpanded(u, v, k - 1, t);
      SquareExpanded(u[k - 1], v[k - 1], t);
    }
  }

  lemma SquareExpanded(a: real, b: real, t: real)
    ensures Squared(a - b * t) == a * a - 2.0 * (t * (a * b)) + t * t * (b * b)
  {
    var c := b * t;
    assert c * c == t * t * (b * b);
    assert a * c == t * (a * b);
    assert (a - c) * (a - c) == a * a - 2.0 * (a * c) + c * c;
  }

  // u less t times v is at right angles to v.
  predicate IsBest(t: real, q: real, d: real) {
    t * q == d
  }

  lemma QuotientIsBest(d: real, q: real)
    requires q != 0.0
    ensures IsBest(d / q, q, d)
  {}

  predicate LeftOver(g: real, p: real, d: real, q: real) {
    g * q == p * q - d * d
  }

  // The gap at the best multiple, times v's squared length, is what
  // Cauchy-Schwarz leaves over.
  lemma BestGap(u: Vector, v: Vector, k: nat, t: real)
    requires k <= |u| && k <= |v| && IsBest(t, Dot(v, v, k), Dot(u, v, k))
    ensures LeftOver(Gap(u, v, k, t), Dot(u, u, k), Dot(u, v, k), Dot(v, v, k))
  {
    GapExpanded(u, v, k, t);
    WeightedIs(t, u, v, k);
    WeightedIs(t * t, v, v, k);
    BestQuad(Dot(u, u, k), Dot(u, v, k), Dot(v, v, k), t, Gap(u, v, k, t));
  }

  lemma BestQuad(p: real, d: real, q: real, t: real, g: real)
    requires IsBest(t, q, d) && g == p - 2.0 * (t * d) + t * t * q
    ensures LeftOver(g, p, d, q)
  {
    assert t * t * q == t * d;
    assert g == p - t * d;
    assert t * d * q == d * d;
  }

  lemma LeftOverSign(g: real, p: real, d: real, q: real)
    requires LeftOver(g, p, d, q) && q > 0.0
    ensures g >= 0.0 ==> d * d <= p * q
    ensures d * d == p * q ==> g == 0.0
  {
    if g >= 0.0 { ProductOrder(0.0, g, q); }
    if d * d == p * q { ZeroFactor(g, q); }
  }

  lemma CauchySchwarz(u: Vector, v: Vector, k: nat)
    requires k <= |u| && k <= |v| && Dot(v, v, k) > 0.0
    ensures Dot(u, v, k) * Dot(u, v, k) <= Dot(u, u, k) * Dot(v, v, k)
  {
    var p, d, q := Dot(u, u, k), Dot(u, v, k), Dot(v, v, k);
    var t := d / q;
    QuotientIsBest(d, q);
    BestGap(u, v, k, t);
    GapSign(u, v, k, t);
    LeftOverSign(Gap(u, v, k, t), p, d, q);
  }

  // ---------- matrices ----------

  // Leading k by k block, grown by its last row and column.
  function Block(b: Matrix, k: nat): real
    requires Square(b) && k <= |b|
  {
    if k == 0 then 0.0
    else Block(b, k - 1) + (Total(b[k - 1], k - 1) + ColTotal(b, k - 1, k - 1)) + b[k - 1][k - 1]
  }

  lemma {:induction false} RowsTotalColumn(b: Matrix, k: nat, m: nat)
    requires Square(b) && k <= |b| && m < |b|
    ensures RowsTotal(b, k, m + 1) == RowsTotal(b, k, m) + ColTotal(b, m, k)
  {
    if k > 0 { RowsTotalColumn(b, k - 1, m); }
  }

  lemma {:induction false} RowsTotalIsBlock(b: Matrix, k: nat)
    requires Square(b) && k <= |b|
    ensures RowsTotal(b, k, k) == Block(b, k)
  {
    if k > 0 {
      RowsTotalIsBlock(b, k - 1);
      RowsTotalColumn(b, k - 1, k - 1);
    }
  }

  function Pair(b: Matrix, i: nat, j: nat): real
    requires Square(b) && i < |b| && j < |b|
  {
    b[i][j] + b[j][i]
  }

  ghost predicate PairsBelow(c: Matrix, b: Matrix, k: nat)
    requires Square(b) && Square(c) && k <= |b| && k <= |c|
  {
    forall i, j :: 0 <= i < k && 0 <= j < k ==> Pair(c, i, j) <= Pair(b, i, j)
  }

  ghost predicate PairsEqual(c: Matrix, b: Matrix, k: nat)
    requires Square(b) && Square(c) && k <= |b| && k <= |c|
  {
    forall i, j :: 0 <= i < k && 0 <= j < k ==> Pair(c, i, j) == Pair(b, i, j)
  }

  // The last row and column of a block compare pair by pair.
  lemma {:induction false} CrossOrder(c: Matrix, b: Matrix, r: nat, k: nat)
    requires Square(b) && Square(c) && k <= r < |b| && r < |c|
    requires forall i :: 0 <= i < k ==> Pair(c, i, r) <= Pair(b, i, r)
    ensures Total(c[r], k) + ColTotal(c, r, k) <= Total(b[r], k) + ColTotal(b, r, k)
    ensures Total(c[r], k) + ColTotal(c, r, k) == Total(b[r], k) + ColTotal(b, r, k)
      ==> forall i :: 0 <= i < k ==> Pair(c, i, r) == Pair(b, i, r)
  {
    if k > 0 {
      CrossOrder(c, b, r, k - 1);
      assert Pair(c, k - 1, r) <= Pair(b, k - 1, r);
    }
  }

  // A matrix whose mirrored pairs are all no larger has the smaller total, and
  // the same total only if every mirrored pair is the same.
  lemma {:induction false} BlockOrder(c: Matrix, b: Matrix, k: nat)
    requires Square(b) && Square(c) && k <= |b| && k <= |c| && PairsBelow(c, b, k)
    ensures Block(c, k) <= Block(b, k)
    ensures Block(c, k) == Block(b, k) ==> PairsEqual(c, b, k)
  {
    if k > 0 {
      BlockOrder(c, b, k - 1);
      CrossOrder(c, b, k - 1, k - 1);
      assert Pair(c, k - 1, k - 1) <= Pair(b, k - 1, k - 1);
      if Block(c, k) == Block(b, k) {
        forall i, j | 0 <= i < k && 0 <= j < k ensures Pair(c, i, j) == Pair(b, i, j) {
          if i < k - 1 && j < k - 1 { assert PairsEqual(c, b, k - 1); }
          if j < k - 1 { assert Pair(c, j, k - 1) == Pair(c, k - 1, j); }
        }
      }
    }
  }

  function Ones(n: nat): (b: Matrix)
    ensures Square(b) && |b| == n
    ensures forall i, j :: 0 <= i < n && 0 <= j < n ==> b[i][j] == 1.0
  {
    seq(n, i => seq(n, j => 1.0))
  }

  lemma {:induction false} OnesTotals(n: nat, r: nat, k: nat)
    requires k <= n && r < n
    ensures Total(Ones(n)[r], k) == k as real && ColTotal(Ones(n), r, k) == k as real
  {
    if k > 0 { OnesTotals(n, r, k - 1); }
  }

  lemma {:induction false} OnesBlock(n: nat, k: nat)
    requires k <= n
    ensures Block(Ones(n), k) == (k * k) as real
  {
    if k > 0 {
      OnesBlock(n, k - 1);
      OnesTotals(n, k - 1, k - 1);
      assert (k * k) == (k - 1) * (k - 1) + 2 * (k - 1) + 1;
    }
  }
}
