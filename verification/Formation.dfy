// Layouts of backend/src/formation_optimizer/formation_optimizer.cpp: where each
// vehicle stands, which formations keep the spacing, and who leads.
module Formation {
  import opened Reals

  const START_Y: real := 10.0
  const DEFAULT_WALL_DISTANCE: real := 10.0

  datatype Kind = LINE | WEDGE | ECHELON | V_SHAPE | COLUMN | DIAMOND

  function KindOf(name: string): Kind {
    if name == "LINE" then LINE else if name == "WEDGE" then WEDGE else if name == "ECHELON" then ECHELON
    else if name == "V_SHAPE" then V_SHAPE else if name == "COLUMN" then COLUMN
    else if name == "DIAMOND" then DIAMOND else LINE
  }

  datatype Vehicle = Vehicle(id: nat, kind: string, x: real, y: real, heading: real, spacing: real, lead: bool)

  datatype Config = Config(formation: string, count: int, spacing: real, wallDistance: real, kinds: seq<string>)

  // A place in the formation: x in spacings, y in tenths of a spacing.
  datatype Cell = Cell(x: int, y: int)

  function Abs(x: int): nat { if x < 0 then -x else x }

  function Square(c: nat): nat { c * c }

  // Layers of the upper half of a diamond.
  function Layers(total: nat): nat { 1 + (total + 2) / 4 }

  // The largest c with c * c <= index.
  function LayerOf(index: nat): (c: nat)
    ensures Square(c) <= index < Square(c + 1)
  {
    if index == 0 then 0
    else
      var c := LayerOf(index - 1);
      if index < Square(c + 1) then c else NextSquare(c); c + 1
  }

  lemma NextSquare(c: nat)
    ensures Square(c + 1) == Square(c) + 2 * c + 1
    ensures Square(c + 1) + 1 < Square(c + 2)
  {
    assert (c + 1) * (c + 1) == c * c + 2 * c + 1;
    assert (c + 2) * (c + 2) == (c + 1) * (c + 1) + 2 * c + 3;
  }

  function DiamondCell(index: nat, total: nat): Cell {
    var layers := Layers(total);
    if index < Square(layers) then
      var c := LayerOf(index);
      Cell(index - Square(c) - c, -5 * c)
    else Cell(0, 5 * (index - Square(layers)))
  }

  function CellOf(kind: Kind, index: nat, total: nat): Cell {
    var offset := index - (total - 1) / 2;
    match kind
    case LINE => Cell(offset, 0)
    case WEDGE =>
      if index == 0 then Cell(0, -5)
      else
        var row := (index + 1) / 2;
        Cell(if index % 2 == 1 then -(row + 1) else row + 1, -5 - 10 * (row + 1))
    case ECHELON => if total <= 1 then Cell(0, 0) else Cell(offset, -6 * Abs(offset))
    case V_SHAPE =>
      if index == 0 then Cell(0, 0)
      else
        var pair := (index - 1) / 2;
        Cell(if index % 2 == 1 then -(pair + 1) else pair + 1, 5 * (pair + 1))
    case COLUMN => Cell(0, -10 * index)
    case DIAMOND => if total == 1 then Cell(0, 0) else DiamondCell(index, total)
  }

  predicate Leads(kind: Kind, index: nat, total: nat) {
    var half := (total - 1) / 2;
    match kind
    case LINE => total % 2 == 1 && index == half
    case ECHELON => total <= 1 || index == half
    case _ => index == 0
  }

  function BaseY(wall: real): (y: real)
    ensures y >= 1.0
  {
    var y := START_Y - (DEFAULT_WALL_DISTANCE - wall);
    if y < 1.0 then 1.0 else y
  }

  function AtX(cell: Cell, spacing: real): real { cell.x as real * spacing }

  function AtY(cell: Cell, spacing: real, base: real): real { base + cell.y as real / 10.0 * spacing }

  function Placed(index: nat, kind: Kind, total: nat, spacing: real, vehicleType: string, wall: real): Vehicle {
    var cell := CellOf(kind, index, total);
    Vehicle(index + 1, if vehicleType == "" then "FENYUN" else vehicleType,
            AtX(cell, spacing), AtY(cell, spacing, BaseY(wall)), 180.0, spacing, Leads(kind, index, total))
  }

  function KindAt(config: Config, i: nat): string {
    if i < |config.kinds| then config.kinds[i] else "FENYUN"
  }

  function Wall(config: Config): real {
    if config.wallDistance > 0.0 then config.wallDistance else DEFAULT_WALL_DISTANCE
  }

  // The layout of a whole formation.
  ghost predicate Layout(config: Config, vehicles: seq<Vehicle>) {
    && |vehicles| == (if config.count < 0 then 0 else config.count)
    && forall i :: 0 <= i < |vehicles| ==>
      vehicles[i] == Placed(i, KindOf(config.formation), config.count, config.spacing, KindAt(config, i), Wall(config))
  }

  // ---------- cells stand apart ----------

  predicate Apart(a: Cell, b: Cell, tenths: nat) {
    10 * Abs(a.x - b.x) >= tenths || Abs(a.y - b.y) >= tenths
  }

  lemma RegularApart(kind: Kind, i: nat, j: nat, total: nat)
    requires kind != DIAMOND && i < j < total
    ensures Apart(CellOf(kind, i, total), CellOf(kind, j, total), 10)
  {
    match kind
    case V_SHAPE =>
      if i > 0 { PairsApart(i, j); }
    case WEDGE =>
      if i > 0 { PairsApart(i, j); }
    case _ =>
  }

  // Two later places on one side have different ranks.
  lemma PairsApart(i: nat, j: nat)
    requires 0 < i < j
    ensures (i - 1) / 2 < (j - 1) / 2 || (i % 2 == 1 && j % 2 == 0)
    ensures (i + 1) / 2 < (j + 1) / 2 || (i % 2 == 1 && j % 2 == 0)
  {}

  lemma LayersCover(total: nat)
    requires total >= 2
    ensures Square(Layers(total)) < total <==> total == 5
    ensures total == 5 ==> Square(Layers(total)) == 4
  {
    var n := Layers(total);
    if total >= 9 {
      assert 4 * n >= total + 3;
      LargeSquare(n, total);
    }
  }

  lemma LargeSquare(n: nat, total: nat)
    requires 4 * n >= total + 3 && n >= 3
    ensures n * n >= total
  {
    assert n * n >= 3 * n;
    if n == 3 {
    } else {
      assert n * n >= 4 * n;
    }
  }

  lemma DiamondLayersApart(i: nat, j: nat)
    requires i < j
    ensures LayerOf(i) < LayerOf(j) || (LayerOf(i) == LayerOf(j) && i - Square(LayerOf(i)) < j - Square(LayerOf(j)))
  {
    SquareStrict(LayerOf(i), LayerOf(j) + 1);
  }

  lemma SquareStrict(a: nat, b: nat)
    ensures Square(a) < Square(b) ==> a < b
  {
    if b <= a { SquareGrows(b, a); }
  }

  lemma SquareGrows(a: nat, b: nat)
    requires a <= b
    ensures Square(a) <= Square(b)
  {
    assert a * a <= a * b <= b * b;
  }

  // Half a spacing for every pair of every diamond but one: in a diamond of
  // five the last vehicle stands on the first.
  lemma DiamondApart(i: nat, j: nat, total: nat)
    requires i < j < total
    ensures total == 5 && i == 0 && j == 4 ==> CellOf(DIAMOND, i, total) == CellOf(DIAMOND, j, total)
    ensures !(total == 5 && i == 0 && j == 4) ==> Apart(CellOf(DIAMOND, i, total), CellOf(DIAMOND, j, total), 5)
  {
    LayersCover(total);
    DiamondLayersApart(i, j);
    if total == 5 {
      assert Layers(total) == 2 && LayerOf(0) == 0 && LayerOf(1) == 1 && LayerOf(2) == 1 && LayerOf(3) == 1;
    }
  }

  lemma DiamondClose(total: nat)
    requires total >= 3
    ensures CellOf(DIAMOND, 0, total) == Cell(0, 0) && CellOf(DIAMOND, 2, total) == Cell(0, -5)
  {
    assert LayerOf(0) == 0 && LayerOf(1) == 1 && LayerOf(2) == 1;
    SquareGrows(2, Layers(total));
  }

  // ---------- distances ----------

  // The squared distance between two vehicles.
  function Distance2(a: Vehicle, b: Vehicle): real {
    Squared(a.x - b.x) + Squared(a.y - b.y)
  }

  lemma SquareOrder(x: real, t: real)
    requires t >= 0.0 && (x >= t || -x >= t)
    ensures Squared(x) >= Squared(t)
  {
    var m := if x >= t then x else -x;
    FactorOrder(t, m, m, Squared(m));
    FactorOrder(t, m, t, m * t);
    assert Squared(m) == Squared(x);
  }

  // k tenths of a spacing are at least t tenths of a spacing away from 0.
  lemma TenthsOrder(k: int, t: nat, spacing: real, d: real)
    requires d * 10.0 == k as real * spacing && Abs(k) >= t
    ensures Squared(d) * 100.0 >= Squared(t as real) * Squared(spacing)
  {
    SquareOrder(k as real, t as real);
    SquareSign(spacing);
    SquaredProduct(k as real, spacing, d * 10.0);
    SquaredProduct(d, 10.0, d * 10.0);
    ProductOrder(Squared(t as real), Squared(k as real), Squared(spacing));
  }

  lemma SquaredProduct(x: real, y: real, z: real)
    requires z == x * y
    ensures Squared(z) == Squared(x) * Squared(y)
  {
    assert x * y * (x * y) == x * x * (y * y);
  }

  lemma CellDistance(a: Cell, b: Cell, spacing: real, base: real)
    ensures (AtX(a, spacing) - AtX(b, spacing)) * 10.0 == (10 * (a.x - b.x)) as real * spacing
    ensures (AtY(a, spacing, base) - AtY(b, spacing, base)) * 10.0 == (a.y - b.y) as real * spacing
  {}

  lemma CellsFar(a: Cell, b: Cell, tenths: nat, spacing: real, dx: real, dy: real)
    requires Apart(a, b, tenths)
    requires dx * 10.0 == (10 * (a.x - b.x)) as real * spacing && dy * 10.0 == (a.y - b.y) as real * spacing
    ensures (Squared(dx) + Squared(dy)) * 100.0 >= Squared(tenths as real) * Squared(spacing)
  {
    if 10 * Abs(a.x - b.x) >= tenths {
      FarEnough(10 * (a.x - b.x), tenths, spacing, dx, dy);
    } else {
      FarEnough(a.y - b.y, tenths, spacing, dy, dx);
    }
  }

  lemma FarEnough(k: int, t: nat, spacing: real, d: real, other: real)
    requires d * 10.0 == k as real * spacing && Abs(k) >= t
    ensures (Squared(d) + Squared(other)) * 100.0 >= Squared(t as real) * Squared(spacing)
  {
    TenthsOrder(k, t, spacing, d);
    SquareSign(d);
    SquareSign(other);
    LargerSum(Squared(d), Squared(other), Squared(t as real) * Squared(spacing));
  }

  lemma LargerSum(x: real, y: real, bound: real)
    requires x >= 0.0 && y >= 0.0 && (x * 100.0 >= bound || y * 100.0 >= bound)
    ensures (x + y) * 100.0 >= bound
  {}

  lemma ApartDistance(kind: Kind, i: nat, j: nat, total: nat, spacing: real, wall: real, first: string,
      second: string, tenths: nat)
    requires Apart(CellOf(kind, i, total), CellOf(kind, j, total), tenths)
    ensures Distance2(Placed(i, kind, total, spacing, first, wall), Placed(j, kind, total, spacing, second, wall))
            * 100.0 >= Squared(tenths as real) * Squared(spacing)
  {
    var a, b := Placed(i, kind, total, spacing, first, wall), Placed(j, kind, total, spacing, second, wall);
    CellDistance(CellOf(kind, i, total), CellOf(kind, j, total), spacing, BaseY(wall));
    CellsFar(CellOf(kind, i, total), CellOf(kind, j, total), tenths, spacing, a.x - b.x, a.y - b.y);
  }

  ghost predicate Separated(kind: Kind, total: nat, spacing: real, wall: real, squared: real) {
    forall i: nat, j: nat, first: string, second: string :: i < j < total ==>
      Distance2(Placed(i, kind, total, spacing, first, wall), Placed(j, kind, total, spacing, second, wall)) >= squared
  }

  // Five of the six formations keep every two vehicles one spacing apart.
  lemma RegularSeparated(kind: Kind, total: nat, spacing: real, wall: real)
    requires kind != DIAMOND
    ensures Separated(kind, total, spacing, wall, Squared(spacing))
  {
    forall i: nat, j: nat, first: string, second: string | i < j < total
      ensures Distance2(Placed(i, kind, total, spacing, first, wall), Placed(j, kind, total, spacing, second, wall))
              >= Squared(spacing)
    {
      RegularApart(kind, i, j, total);
      ApartDistance(kind, i, j, total, spacing, wall, first, second, 10);
    }
  }

  // A diamond keeps the spacing exactly up to two vehicles.
  lemma DiamondSeparated(total: nat, spacing: real, wall: real)
    requires spacing > 0.0
    ensures Separated(DIAMOND, total, spacing, wall, Squared(spacing)) <==> total <= 2
  {
    if total <= 2 {
      PairSeparated(total, spacing, wall);
    } else {
      TooClose(total, spacing, wall);
    }
  }

  lemma PairSeparated(total: nat, spacing: real, wall: real)
    requires total <= 2
    ensures Separated(DIAMOND, total, spacing, wall, Squared(spacing))
  {
    forall i: nat, j: nat, first: string, second: string | i < j < total
      ensures Distance2(Placed(i, DIAMOND, total, spacing, first, wall),
                        Placed(j, DIAMOND, total, spacing, second, wall)) >= Squared(spacing)
    {
      PairApart(i, j, total);
      ApartDistance(DIAMOND, i, j, total, spacing, wall, first, second, 10);
    }
  }

  lemma PairApart(i: nat, j: nat, total: nat)
    requires i < j < total <= 2
    ensures Apart(CellOf(DIAMOND, i, total), CellOf(DIAMOND, j, total), 10)
  {
    assert i == 0 && j == 1 && total == 2;
    PairDiamond();
    assert Apart(CellOf(DIAMOND, 0, 2), CellOf(DIAMOND, 1, 2), 10);
  }

  lemma TooClose(total: nat, spacing: real, wall: real)
    requires total >= 3 && spacing > 0.0
    ensures Distance2(Placed(0, DIAMOND, total, spacing, "", wall), Placed(2, DIAMOND, total, spacing, "", wall))
            < Squared(spacing)
  {
    DiamondClose(total);
    var a, b := Placed(0, DIAMOND, total, spacing, "", wall), Placed(2, DIAMOND, total, spacing, "", wall);
    HalfApart(a.x - b.x, a.y - b.y, spacing);
  }

  lemma HalfApart(dx: real, dy: real, spacing: real)
    requires dx == 0.0 && dy == 0.5 * spacing && spacing > 0.0
    ensures Squared(dx) + Squared(dy) < Squared(spacing)
  {
    assert Squared(dx) == 0.0;
    assert Squared(dy) == 0.25 * Squared(spacing);
    SquareSign(spacing);
  }

  lemma PairDiamond()
    ensures CellOf(DIAMOND, 0, 2) == Cell(0, 0) && CellOf(DIAMOND, 1, 2) == Cell(-1, -5)
  {
    assert LayerOf(0) == 0 && LayerOf(1) == 1;
  }

  ghost predicate Coincide(total: nat, spacing: real, wall: real) {
    exists i: nat, j: nat :: i < j < total
      && Placed(i, DIAMOND, total, spacing, "", wall).x == Placed(j, DIAMOND, total, spacing, "", wall).x
      && Placed(i, DIAMOND, total, spacing, "", wall).y == Placed(j, DIAMOND, total, spacing, "", wall).y
  }

  // Two vehicles of a diamond share a place exactly when there are five; with
  // any other number they stay at least half a spacing apart.
  lemma DiamondCollides(total: nat, spacing: real, wall: real)
    requires spacing > 0.0
    ensures Coincide(total, spacing, wall) <==> total == 5
    ensures total != 5 ==> Separated(DIAMOND, total, spacing, wall, 0.25 * Squared(spacing))
  {
    if total == 5 {
      DiamondApart(0, 4, 5);
      assert Placed(0, DIAMOND, 5, spacing, "", wall).x == Placed(4, DIAMOND, 5, spacing, "", wall).x;
    } else {
      DiamondHalfSeparated(total, spacing, wall);
      SquareSign(spacing);
      forall i: nat, j: nat | i < j < total
        ensures Distance2(Placed(i, DIAMOND, total, spacing, "", wall),
                          Placed(j, DIAMOND, total, spacing, "", wall)) > 0.0
      {}
      NeverSamePlace(total, spacing, wall);
    }
  }

  lemma NeverSamePlace(total: nat, spacing: real, wall: real)
    requires forall i: nat, j: nat :: i < j < total ==>
      Distance2(Placed(i, DIAMOND, total, spacing, "", wall), Placed(j, DIAMOND, total, spacing, "", wall)) > 0.0
    ensures !Coincide(total, spacing, wall)
  {
    forall i: nat, j: nat | i < j < total
      ensures Placed(i, DIAMOND, total, spacing, "", wall).x != Placed(j, DIAMOND, total, spacing, "", wall).x
              || Placed(i, DIAMOND, total, spacing, "", wall).y != Placed(j, DIAMOND, total, spacing, "", wall).y
    {
      ZeroDistance(Placed(i, DIAMOND, total, spacing, "", wall), Placed(j, DIAMOND, total, spacing, "", wall));
    }
  }

  lemma ZeroDistance(a: Vehicle, b: Vehicle)
    ensures a.x == b.x && a.y == b.y ==> Distance2(a, b) == 0.0
  {}

  lemma DiamondHalfSeparated(total: nat, spacing: real, wall: real)
    requires total != 5
    ensures Separated(DIAMOND, total, spacing, wall, 0.25 * Squared(spacing))
  {
    forall i: nat, j: nat, first: string, second: string | i < j < total
      ensures Distance2(Placed(i, DIAMOND, total, spacing, first, wall),
                        Placed(j, DIAMOND, total, spacing, second, wall)) >= 0.25 * Squared(spacing)
    {
      DiamondApart(i, j, total);
      ApartDistance(DIAMOND, i, j, total, spacing, wall, first, second, 5);
    }
  }

  // There is never more than one lead vehicle, and one at all except in a line
  // of an even number.
  lemma OneLead(kind: Kind, total: nat)
    requires total > 0
    ensures forall i: nat, j: nat :: i < total && j < total && Leads(kind, i, total) && Leads(kind, j, total) ==> i == j
    ensures (exists i: nat :: i < total && Leads(kind, i, total)) <==> !(kind == LINE && total % 2 == 0)
  {
    assert Leads(kind, if kind == LINE || kind == ECHELON then (total - 1) / 2 else 0, total)
           || (kind == LINE && total % 2 == 0);
  }

  // ---------- symmetry ----------

  // The vehicle on the other side.
  function Mirror(kind: Kind, i: nat, total: nat): int {
    match kind
    case LINE => total - 1 - i
    case ECHELON => total - 1 - i
    case WEDGE => if i == 0 then 0 else if i % 2 == 1 then i + 1 else i - 1
    case V_SHAPE => if i == 0 then 0 else if i % 2 == 1 then i + 1 else i - 1
    case COLUMN => i
    case DIAMOND =>
      if total == 1 || i >= Square(Layers(total)) then i
      else 2 * (Square(LayerOf(i)) + LayerOf(i)) - i
  }

  // Every formation is its own mirror image about the axis the lead stands on,
  // lines and echelons when they have a middle.
  lemma Symmetric(kind: Kind, i: nat, total: nat)
    requires i < total && (kind == LINE || kind == ECHELON ==> total % 2 == 1)
    ensures var m := Mirror(kind, i, total);
            m >= 0 && Mirror(kind, m, total) == i
            && CellOf(kind, m, total) == Cell(-CellOf(kind, i, total).x, CellOf(kind, i, total).y)
    ensures Leads(kind, i, total) ==> CellOf(kind, i, total).x == 0 && Mirror(kind, i, total) == i
  {
    match kind
    case LINE => RowSymmetric(i, total);
    case ECHELON => RowSymmetric(i, total);
    case WEDGE => PairSymmetric(i);
    case V_SHAPE => PairSymmetric(i);
    case COLUMN =>
    case DIAMOND => DiamondSymmetric(i, total);
  }

  lemma RowSymmetric(i: nat, total: nat)
    requires i < total && total % 2 == 1
    ensures total - 1 - i - (total - 1) / 2 == -(i - (total - 1) / 2)
  {}

  // An odd index and the next one share row and pair, on different sides.
  lemma PairSymmetric(i: nat)
    ensures i % 2 == 1 ==> (i + 1 + 1) / 2 == (i + 1) / 2 && (i + 1 - 1) / 2 == (i - 1) / 2 && (i + 1) % 2 == 0
    ensures i > 0 && i % 2 == 0 ==> (i - 1 + 1) / 2 == (i + 1) / 2 && (i - 1 - 1) / 2 == (i - 1) / 2 && (i - 1) % 2 == 1
  {}

  lemma LayerUnique(index: nat, c: nat)
    requires Square(c) <= index < Square(c + 1)
    ensures c == LayerOf(index)
  {
    SquareStrict(c, LayerOf(index) + 1);
    SquareStrict(LayerOf(index), c + 1);
  }

  lemma DiamondSymmetric(i: nat, total: nat)
    requires i < total
    ensures var m := Mirror(DIAMOND, i, total);
            m >= 0 && Mirror(DIAMOND, m, total) == i
            && CellOf(DIAMOND, m, total) == Cell(-CellOf(DIAMOND, i, total).x, CellOf(DIAMOND, i, total).y)
  {
    if total > 1 && i < Square(Layers(total)) {
      var c := LayerOf(i);
      NextSquare(c);
      var m := 2 * (Square(c) + c) - i;
      LayerUnique(m, c);
      SquareStrict(c, Layers(total));
      SquareGrows(c + 1, Layers(total));
    }
  }
}
