// Where the vehicles of backend/src/formation_optimizer/formation_optimizer.cpp
// stand, told by coordinates alone: where the first one is and how each of the
// others stands to one before it.
module FormationLaws {
  import opened Reals
  import opened Formation

  // b stands dx spacings to the right of a and dy spacings further away.
  predicate Beside(a: Vehicle, b: Vehicle, dx: real, dy: real, s: real) {
    b.x == a.x + dx * s && b.y == a.y + dy * s
  }

  predicate StandsAt(v: Vehicle, x: real, y: real) { v.x == x && v.y == y }

  // On x == 0, each one spacing nearer than the one before.
  predicate InColumn(vs: seq<Vehicle>, s: real, front: real) {
    && (vs != [] ==> StandsAt(vs[0], 0.0, front))
    && forall i :: 0 < i < |vs| ==> vs[i].x == 0.0 && Beside(vs[i - 1], vs[i], 0.0, -1.0, s)
  }

  // Side by side from left to right, the middle one on x == 0.
  predicate InLine(vs: seq<Vehicle>, s: real, front: real) {
    && (vs != [] ==> StandsAt(vs[(|vs| - 1) / 2], 0.0, front))
    && forall i :: 0 < i < |vs| ==> vs[i].y == front && Beside(vs[i - 1], vs[i], 1.0, 0.0, s)
  }

  // From left to right, each 0.6 spacings behind its neighbour on the inner side.
  predicate InEchelon(vs: seq<Vehicle>, s: real, front: real) {
    && (vs != [] ==> StandsAt(vs[(|vs| - 1) / 2], 0.0, front))
    && forall i :: 0 < i < |vs| ==> Beside(vs[i - 1], vs[i], 1.0, if i <= (|vs| - 1) / 2 then 0.6 else -0.6, s)
  }

  // Odd vehicles go left and even ones right, a pair in each row: the first pair
  // stands (wide, deep) spacings off the lead, and each of the next ones as far
  // out as its row demands, step spacings further away.
  predicate InPairs(vs: seq<Vehicle>, s: real, lead: real, wide: real, deep: real, step: real) {
    && (vs != [] ==> StandsAt(vs[0], 0.0, lead))
    && (|vs| > 1 ==> Beside(vs[0], vs[1], -wide, deep, s))
    && forall i :: 1 < i < |vs| ==> Paired(vs[i - 2], vs[i - 1], vs[i], i, s, step)
  }

  // Vehicle i after the two before it: opposite to the one, or in the next row
  // out from the other.
  predicate Paired(u: Vehicle, v: Vehicle, w: Vehicle, i: nat, s: real, step: real) {
    if i % 2 == 0 then w.x == -v.x && w.y == v.y else Beside(u, w, -1.0, step, s)
  }

  // Rows of one, three, five and so on, each half a spacing nearer and centred
  // on x == 0; a fifth vehicle stands on the first when it is the last.
  ghost predicate InDiamond(vs: seq<Vehicle>, s: real, front: real) {
    && (vs != [] ==> StandsAt(vs[0], 0.0, front))
    && forall i :: 0 < i < |vs| ==>
      if |vs| == 5 && i == 4 then StandsAt(vs[i], 0.0, front) else InRows(vs[i - 1], vs[i], i, s)
  }

  // Vehicle i after the one before it: a square starts the next row.
  ghost predicate InRows(v: Vehicle, w: Vehicle, i: nat, s: real) {
    if exists c: nat :: i == Square(c) then w.x == -v.x - s && w.y == v.y - 0.5 * s else Beside(v, w, 1.0, 0.0, s)
  }

  // The distance of the formation from the wall, ten when none is set and one at least.
  function Front(wallDistance: real): real {
    if wallDistance <= 0.0 then 10.0 else Max(1.0, wallDistance)
  }

  // Vehicle i of n in this formation is its lead.
  predicate InLead(formation: string, i: nat, n: nat) {
    if formation in {"WEDGE", "V_SHAPE", "COLUMN", "DIAMOND"} then i == 0
    else if formation == "ECHELON" then 2 * i == n - 1 || 2 * i == n - 2
    else 2 * i == n - 1
  }

  predicate Described(c: Config, i: nat, n: nat, v: Vehicle) {
    && v.id == i + 1 && v.heading == 180.0 && v.spacing == c.spacing && (v.lead <==> InLead(c.formation, i, n))
    && v.kind == (if i >= |c.kinds| || c.kinds[i] == "" then "FENYUN" else c.kinds[i])
  }

  ghost predicate InPlace(c: Config, vs: seq<Vehicle>) {
    var s, front := c.spacing, Front(c.wallDistance);
    if c.formation == "COLUMN" then InColumn(vs, s, front)
    else if c.formation == "WEDGE" then InPairs(vs, s, front - 0.5 * s, 2.0, -2.0, -1.0)
    else if c.formation == "V_SHAPE" then InPairs(vs, s, front, 1.0, 0.5, 0.5)
    else if c.formation == "ECHELON" then InEchelon(vs, s, front)
    else if c.formation == "DIAMOND" then InDiamond(vs, s, front)
    else InLine(vs, s, front)
  }

  ghost predicate InFormation(c: Config, vs: seq<Vehicle>) {
    && |vs| == (if c.count < 0 then 0 else c.count) && InPlace(c, vs)
    && forall i :: 0 <= i < |vs| ==> Described(c, i, |vs|, vs[i])
  }

  // ---------- from cells to coordinates ----------

  // Every vehicle of a layout of this kind stands on its cell.
  ghost predicate OnCells(kind: Kind, vs: seq<Vehicle>, s: real, base: real) {
    forall i :: 0 <= i < |vs| ==> On(CellOf(kind, i, |vs|), vs[i], s, base)
  }

  predicate On(cell: Cell, v: Vehicle, s: real, base: real) {
    v.x == AtX(cell, s) && v.y == AtY(cell, s, base)
  }

  lemma Across(a: Cell, b: Cell, u: Vehicle, v: Vehicle, s: real, base: real, dx: int)
    requires On(a, u, s, base) && On(b, v, s, base) && b.x == a.x + dx
    ensures v.x == u.x + dx as real * s
  {
    assert (a.x + dx) as real * s == a.x as real * s + dx as real * s;
  }

  lemma Along(a: Cell, b: Cell, u: Vehicle, v: Vehicle, s: real, base: real, dy: int, d: real)
    requires On(a, u, s, base) && On(b, v, s, base) && b.y == a.y + dy && d * 10.0 == dy as real
    ensures v.y == u.y + d * s
  {
    assert (b.y as real / 10.0) * s == (a.y as real / 10.0) * s + d * s;
  }

  lemma Opposite(a: Cell, b: Cell, u: Vehicle, v: Vehicle, s: real, base: real, k: int)
    requires On(a, u, s, base) && On(b, v, s, base) && b.x == -a.x - k
    ensures v.x == -u.x - k as real * s
  {
    assert (-a.x - k) as real * s == -(a.x as real * s) - k as real * s;
  }

  lemma AtCell(a: Cell, v: Vehicle, s: real, base: real, d: real)
    requires On(a, v, s, base) && a.x == 0 && d * 10.0 == a.y as real
    ensures StandsAt(v, 0.0, base + d * s)
  {}

  // b stands dx cells and dy tenths from a.
  lemma CellsBeside(a: Cell, b: Cell, u: Vehicle, v: Vehicle, s: real, base: real, dx: int, dy: int, d: real)
    requires On(a, u, s, base) && On(b, v, s, base) && b == Cell(a.x + dx, a.y + dy) && d * 10.0 == dy as real
    ensures Beside(u, v, dx as real, d, s)
  {
    Across(a, b, u, v, s, base, dx);
    Along(a, b, u, v, s, base, dy, d);
  }

  lemma ColumnStands(vs: seq<Vehicle>, s: real, base: real)
    requires OnCells(COLUMN, vs, s, base)
    ensures InColumn(vs, s, base)
  {
    forall i | 0 <= i < |vs| ensures vs[i].x == 0.0 && (i > 0 ==> Beside(vs[i - 1], vs[i], 0.0, -1.0, s)) {
      assert On(CellOf(COLUMN, i, |vs|), vs[i], s, base);
      if i > 0 {
        var a, b := CellOf(COLUMN, i - 1, |vs|), CellOf(COLUMN, i, |vs|);
        CellsBeside(a, b, vs[i - 1], vs[i], s, base, 0, -10, -1.0);
      }
    }
    if vs != [] { AtCell(CellOf(COLUMN, 0, |vs|), vs[0], s, base, 0.0); }
  }

  lemma LineStands(vs: seq<Vehicle>, s: real, base: real)
    requires OnCells(LINE, vs, s, base)
    ensures InLine(vs, s, base)
  {
    forall i | 0 < i < |vs| ensures vs[i].y == base && Beside(vs[i - 1], vs[i], 1.0, 0.0, s) {
      var a, b := CellOf(LINE, i - 1, |vs|), CellOf(LINE, i, |vs|);
      CellsBeside(a, b, vs[i - 1], vs[i], s, base, 1, 0, 0.0);
    }
    var h := (|vs| - 1) / 2;
    if vs != [] { AtCell(CellOf(LINE, h, |vs|), vs[h], s, base, 0.0); }
  }

  lemma EchelonStands(vs: seq<Vehicle>, s: real, base: real)
    requires OnCells(ECHELON, vs, s, base)
    ensures InEchelon(vs, s, base)
  {
    var h := (|vs| - 1) / 2;
    forall i | 0 < i < |vs| ensures Beside(vs[i - 1], vs[i], 1.0, if i <= h then 0.6 else -0.6, s) {
      var a, b := CellOf(ECHELON, i - 1, |vs|), CellOf(ECHELON, i, |vs|);
      if i <= h {
        CellsBeside(a, b, vs[i - 1], vs[i], s, base, 1, 6, 0.6);
      } else {
        CellsBeside(a, b, vs[i - 1], vs[i], s, base, 1, -6, -0.6);
      }
    }
    if vs != [] { AtCell(CellOf(ECHELON, h, |vs|), vs[h], s, base, 0.0); }
  }

  lemma PairStands(a: Cell, b: Cell, c: Cell, u: Vehicle, v: Vehicle, w: Vehicle, i: nat, s: real, base: real,
      tenths: int, step: real)
    requires On(a, u, s, base) && On(b, v, s, base) && On(c, w, s, base) && step * 10.0 == tenths as real
    requires c == if i % 2 == 0 then Cell(-b.x, b.y) else Cell(a.x - 1, a.y + tenths)
    ensures Paired(u, v, w, i, s, step)
  {
    if i % 2 == 0 {
      Opposite(b, c, v, w, s, base, 0);
      Along(b, c, v, w, s, base, 0, 0.0);
    } else {
      CellsBeside(a, c, u, w, s, base, -1, tenths, step);
    }
  }

  // Rows and pairs of a vehicle and the two before it.
  lemma Halves(i: nat)
    requires i > 1
    ensures i % 2 == 0 ==> (i - 1) % 2 == 1 && i / 2 == (i + 1) / 2 && (i - 2) / 2 == (i - 1) / 2
    ensures i % 2 == 1 ==> i > 2 && (i - 2) % 2 == 1 && (i - 1) / 2 + 1 == (i + 1) / 2 && (i - 3) / 2 + 1 == (i - 1) / 2
  {}

  lemma WedgeCells(i: nat, n: nat)
    requires 1 < i < n
    ensures var a, b, c := CellOf(WEDGE, i - 2, n), CellOf(WEDGE, i - 1, n), CellOf(WEDGE, i, n);
            c == if i % 2 == 0 then Cell(-b.x, b.y) else Cell(a.x - 1, a.y - 10)
  {
    Halves(i);
  }

  lemma VCells(i: nat, n: nat)
    requires 1 < i < n
    ensures var a, b, c := CellOf(V_SHAPE, i - 2, n), CellOf(V_SHAPE, i - 1, n), CellOf(V_SHAPE, i, n);
            c == if i % 2 == 0 then Cell(-b.x, b.y) else Cell(a.x - 1, a.y + 5)
  {
    Halves(i);
  }

  lemma NextPair(kind: Kind, vs: seq<Vehicle>, i: nat, s: real, base: real, tenths: int, step: real)
    requires OnCells(kind, vs, s, base) && 1 < i < |vs| && step * 10.0 == tenths as real
    requires (kind == WEDGE && tenths == -10) || (kind == V_SHAPE && tenths == 5)
    ensures Paired(vs[i - 2], vs[i - 1], vs[i], i, s, step)
  {
    var n := |vs|;
    if kind == WEDGE { WedgeCells(i, n); } else { VCells(i, n); }
    PairStands(CellOf(kind, i - 2, n), CellOf(kind, i - 1, n), CellOf(kind, i, n), vs[i - 2], vs[i - 1], vs[i], i, s,
               base, tenths, step);
  }

  lemma WedgeStands(vs: seq<Vehicle>, s: real, base: real)
    requires OnCells(WEDGE, vs, s, base)
    ensures InPairs(vs, s, base - 0.5 * s, 2.0, -2.0, -1.0)
  {
    var n := |vs|;
    forall i | 1 < i < n ensures Paired(vs[i - 2], vs[i - 1], vs[i], i, s, -1.0) {
      NextPair(WEDGE, vs, i, s, base, -10, -1.0);
    }
    if n > 0 { AtCell(CellOf(WEDGE, 0, n), vs[0], s, base, -0.5); }
    if n > 1 { CellsBeside(CellOf(WEDGE, 0, n), CellOf(WEDGE, 1, n), vs[0], vs[1], s, base, -2, -20, -2.0); }
  }

  lemma VStands(vs: seq<Vehicle>, s: real, base: real)
    requires OnCells(V_SHAPE, vs, s, base)
    ensures InPairs(vs, s, base, 1.0, 0.5, 0.5)
  {
    var n := |vs|;
    forall i | 1 < i < n ensures Paired(vs[i - 2], vs[i - 1], vs[i], i, s, 0.5) {
      NextPair(V_SHAPE, vs, i, s, base, 5, 0.5);
    }
    if n > 0 { AtCell(CellOf(V_SHAPE, 0, n), vs[0], s, base, 0.0); }
    if n > 1 { CellsBeside(CellOf(V_SHAPE, 0, n), CellOf(V_SHAPE, 1, n), vs[0], vs[1], s, base, -1, 5, 0.5); }
  }

  // The layer grows by one at the squares and only there.
  lemma NextLayer(i: nat)
    requires i > 0
    ensures if exists c: nat :: i == Square(c)
            then i == Square(LayerOf(i)) && LayerOf(i) == LayerOf(i - 1) + 1 else LayerOf(i) == LayerOf(i - 1)
  {
    var c := LayerOf(i - 1);
    if i == Square(c + 1) {
      assert i == (c + 1) * (c + 1);
      NextSquare(c);
      LayerUnique(i, c + 1);
    } else {
      LayerUnique(i, c);
      forall d: nat ensures i != Square(d) {
        if i == Square(d) {
          SquareStrict(c, d);
          SquareGrows(c + 1, d);
        }
      }
    }
  }

  // Every vehicle of a diamond but the fifth of five stands in the upper half.
  lemma UpperCell(i: nat, n: nat, c: nat)
    requires i < n && 1 < n && !(n == 5 && i == 4) && c == LayerOf(i)
    ensures CellOf(DIAMOND, i, n) == Cell(i - Square(c) - c, -5 * c)
  {
    LayersCover(n);
  }

  lemma NextDiamondCell(i: nat, n: nat)
    requires 0 < i < n && !(n == 5 && i == 4)
    ensures var a, b := CellOf(DIAMOND, i - 1, n), CellOf(DIAMOND, i, n);
            if exists c: nat :: i == Square(c) then b == Cell(-a.x - 1, a.y - 5) else b == Cell(a.x + 1, a.y)
  {
    var c, d := LayerOf(i - 1), LayerOf(i);
    UpperCell(i - 1, n, c);
    UpperCell(i, n, d);
    NextLayer(i);
    NextSquare(c);
  }

  lemma RowStands(a: Cell, b: Cell, v: Vehicle, w: Vehicle, i: nat, s: real, base: real)
    requires On(a, v, s, base) && On(b, w, s, base)
    requires if exists c: nat :: i == Square(c) then b == Cell(-a.x - 1, a.y - 5) else b == Cell(a.x + 1, a.y)
    ensures InRows(v, w, i, s)
  {
    if exists c: nat :: i == Square(c) {
      Opposite(a, b, v, w, s, base, 1);
      Along(a, b, v, w, s, base, -5, -0.5);
    } else {
      CellsBeside(a, b, v, w, s, base, 1, 0, 0.0);
    }
  }

  lemma NextInRows(vs: seq<Vehicle>, i: nat, s: real, base: real)
    requires OnCells(DIAMOND, vs, s, base) && 0 < i < |vs| && !(|vs| == 5 && i == 4)
    ensures InRows(vs[i - 1], vs[i], i, s)
  {
    var n := |vs|;
    NextDiamondCell(i, n);
    RowStands(CellOf(DIAMOND, i - 1, n), CellOf(DIAMOND, i, n), vs[i - 1], vs[i], i, s, base);
  }

  lemma EndsStand(vs: seq<Vehicle>, s: real, base: real)
    requires OnCells(DIAMOND, vs, s, base) && vs != []
    ensures StandsAt(vs[0], 0.0, base) && (|vs| == 5 ==> StandsAt(vs[4], 0.0, base))
  {
    var n := |vs|;
    DiamondEnds(n);
    AtCell(CellOf(DIAMOND, 0, n), vs[0], s, base, 0.0);
    if n == 5 { AtCell(CellOf(DIAMOND, 4, n), vs[4], s, base, 0.0); }
  }

  lemma DiamondStands(vs: seq<Vehicle>, s: real, base: real)
    requires OnCells(DIAMOND, vs, s, base)
    ensures InDiamond(vs, s, base)
  {
    if vs != [] { EndsStand(vs, s, base); }
    forall i | 0 < i < |vs| && !(|vs| == 5 && i == 4) ensures InRows(vs[i - 1], vs[i], i, s) {
      NextInRows(vs, i, s, base);
    }
  }

  lemma DiamondEnds(n: nat)
    requires n > 0
    ensures CellOf(DIAMOND, 0, n) == Cell(0, 0) && (n == 5 ==> CellOf(DIAMOND, 4, n) == Cell(0, 0))
  {
    assert LayerOf(0) == 0;
    SquareGrows(1, Layers(n));
    if n > 1 { LayersCover(n); }
  }

  lemma LayoutOnCells(c: Config, vs: seq<Vehicle>)
    requires Layout(c, vs)
    ensures OnCells(KindOf(c.formation), vs, c.spacing, Front(c.wallDistance))
    ensures forall i :: 0 <= i < |vs| ==> Described(c, i, |vs|, vs[i])
  {
    assert BaseY(Wall(c)) == Front(c.wallDistance);
  }

  // Every layout is a formation in this sense.
  lemma LayoutInFormation(c: Config, vs: seq<Vehicle>)
    requires Layout(c, vs)
    ensures InFormation(c, vs)
  {
    var s, front := c.spacing, Front(c.wallDistance);
    LayoutOnCells(c, vs);
    match KindOf(c.formation)
    case COLUMN => ColumnStands(vs, s, front);
    case LINE => LineStands(vs, s, front);
    case ECHELON => EchelonStands(vs, s, front);
    case WEDGE => WedgeStands(vs, s, front);
    case V_SHAPE => VStands(vs, s, front);
    case DIAMOND => DiamondStands(vs, s, front);
  }
}
