// The methods of backend/src/formation_optimizer/formation_optimizer.cpp that
// place the vehicles, with their row and layer loops.
module FormationOptimizer {
  import opened Formation
  import opened FormationLaws

  method WedgeRow(index: nat, total: nat) returns (row: nat, rest: nat)
    requires 0 < index < total
    ensures row == (index + 1) / 2 && rest == (index - 1) % 2
  {
    row := 0;
    var countInRow, cumulative := 1, 1;
    rest := index;
    while rest >= countInRow && cumulative < total
      invariant row == 0 ==> countInRow == 1 && cumulative == 1 && rest == index
      invariant row > 0 ==> countInRow == 2 && cumulative == 1 + 2 * row && rest + 2 * row == index + 1
      decreases rest
    {
      rest := rest - countInRow;
      row := row + 1;
      countInRow := 2;
      cumulative := cumulative + countInRow;
    }
  }

  method CountLayers(total: nat) returns (layers: nat)
    requires total > 1
    ensures layers == Layers(total)
  {
    layers := 1;
    var inDiamond := 1;
    while inDiamond < total
      invariant inDiamond == 4 * layers - 3 && 4 * layers < total + 7
    {
      layers := layers + 1;
      inDiamond := inDiamond + 2;
      if inDiamond >= total { break; }
      inDiamond := inDiamond + 2;
    }
  }

  method DiamondLayer(index: nat, layers: nat) returns (layer: nat, start: nat, count: nat, topHalf: bool)
    requires layers > 0
    ensures topHalf <==> index < Square(layers)
    ensures topHalf ==> layer == LayerOf(index) && start == Square(layer) && count == 2 * layer + 1
    ensures !topHalf ==> layer == layers + (index - Square(layers)) && start == index && count == 1
  {
    layer, start, count, topHalf := 0, 0, 1, true;
    while index >= start + count
      invariant start <= index && count > 0
      invariant topHalf ==> layer < layers && start == Square(layer) && count == 2 * layer + 1
      invariant !topHalf ==> layer >= layers && start == Square(layers) + (layer - layers) && count == 1
      decreases index - start
    {
      NextSquare(layer);
      start := start + count;
      layer := layer + 1;
      if topHalf && layer < layers {
        count := layer * 2 + 1;
      } else {
        topHalf := false;
        var mirror := if layers < layer then 0 else layers - layer;
        count := mirror * 2 + 1;
      }
    }
    if topHalf {
      NextSquare(layer);
      LayerUnique(index, layer);
      SquareGrows(layer + 1, layers);
    }
  }

  predicate At(cell: Cell, spacing: real, base: real, x: real, y: real) {
    x == AtX(cell, spacing) && y == AtY(cell, spacing, base)
  }

  lemma SpotAt(cell: Cell, across: real, depth: real, spacing: real, base: real, x: real, y: real)
    requires across == cell.x as real && depth == cell.y as real / 10.0
    requires x == across * spacing && y == base + depth * spacing
    ensures At(cell, spacing, base, x, y)
  {}

  // Depth c for each of p.
  lemma Depth(c: real, p: real, spacing: real)
    ensures c * p * spacing == c * (p * spacing)
  {}

  method PlaceLine(index: nat, total: nat, spacing: real, base: real) returns (x: real, y: real)
    requires index < total
    ensures At(CellOf(LINE, index, total), spacing, base, x, y)
  {
    var offset: int := index - (total - 1) / 2;
    x, y := offset as real * spacing, base;
    SpotAt(CellOf(LINE, index, total), offset as real, 0.0, spacing, base, x, y);
  }

  method PlaceWedge(index: nat, total: nat, spacing: real, base: real) returns (x: real, y: real)
    requires index < total
    ensures At(CellOf(WEDGE, index, total), spacing, base, x, y)
  {
    if index == 0 {
      x, y := 0.0, base - spacing * 0.5;
      SpotAt(CellOf(WEDGE, index, total), 0.0, -0.5, spacing, base, x, y);
      return;
    }
    var row, rest := WedgeRow(index, total);
    var side: int := if rest % 2 == 0 then -1 else 1;
    x := (side * (row + 1)) as real * spacing;
    y := base - spacing * 0.5 - (row + 1) as real * spacing;
    WedgeDepth((row + 1) as real, spacing);
    SpotAt(CellOf(WEDGE, index, total), (side * (row + 1)) as real, -0.5 - (row + 1) as real, spacing, base, x, y);
  }

  lemma WedgeDepth(rank: real, spacing: real)
    ensures (-0.5 - rank) * spacing == -(spacing * 0.5) - rank * spacing
  {}

  method PlaceEchelon(index: nat, total: nat, spacing: real, base: real) returns (x: real, y: real)
    requires index < total
    ensures At(CellOf(ECHELON, index, total), spacing, base, x, y)
  {
    var depthStep := spacing * 0.6;
    if total <= 1 {
      x, y := 0.0, base;
      SpotAt(CellOf(ECHELON, index, total), 0.0, 0.0, spacing, base, x, y);
      return;
    }
    var offset: int := index - (total - 1) / 2;
    var rank := Abs(offset) as real;
    x := offset as real * spacing;
    y := base - rank * depthStep;
    EchelonDepth(rank, spacing);
    SpotAt(CellOf(ECHELON, index, total), offset as real, -0.6 * rank, spacing, base, x, y);
  }

  lemma EchelonDepth(rank: real, spacing: real)
    ensures -0.6 * rank * spacing == -(rank * (spacing * 0.6))
  {
    Depth(-0.6, rank, spacing);
  }

  method PlaceV(index: nat, total: nat, spacing: real, base: real) returns (x: real, y: real)
    requires index < total
    ensures At(CellOf(V_SHAPE, index, total), spacing, base, x, y)
  {
    if index == 0 {
      x, y := 0.0, base;
      SpotAt(CellOf(V_SHAPE, index, total), 0.0, 0.0, spacing, base, x, y);
      return;
    }
    var pair := (index - 1) / 2;
    var side: int := if (index - 1) % 2 == 0 then -1 else 1;
    x := (side * (pair + 1)) as real * spacing;
    y := base + (pair + 1) as real * spacing * 0.5;
    Depth(0.5, (pair + 1) as real, spacing);
    SpotAt(CellOf(V_SHAPE, index, total), (side * (pair + 1)) as real, 0.5 * (pair + 1) as real, spacing, base, x, y);
  }

  method PlaceColumn(index: nat, total: nat, spacing: real, base: real) returns (x: real, y: real)
    ensures At(CellOf(COLUMN, index, total), spacing, base, x, y)
  {
    x, y := 0.0, base - index as real * spacing;
    Depth(-1.0, index as real, spacing);
    SpotAt(CellOf(COLUMN, index, total), 0.0, -1.0 * index as real, spacing, base, x, y);
  }

  method DiamondSpot(index: nat, total: nat, ghost cell: Cell)
    returns (pos: nat, count: nat, layer: nat, layers: nat, topHalf: bool)
    requires index < total && total > 1 && cell == CellOf(DIAMOND, index, total)
    ensures 2 * cell.x == 2 * pos - count + 1
    ensures if topHalf then cell.y == -5 * layer else layers <= layer && cell.y == 5 * (layer - layers)
  {
    var start;
    layers := CountLayers(total);
    layer, start, count, topHalf := DiamondLayer(index, layers);
    pos := index - start;
  }

  method PlaceDiamond(index: nat, total: nat, spacing: real, base: real) returns (x: real, y: real)
    requires index < total
    ensures At(CellOf(DIAMOND, index, total), spacing, base, x, y)
  {
    ghost var cell := CellOf(DIAMOND, index, total);
    if total == 1 {
      x, y := 0.0, base;
      SpotAt(cell, 0.0, 0.0, spacing, base, x, y);
      return;
    }
    var pos, count, layer, layers, topHalf := DiamondSpot(index, total, cell);
    x, y := FromLayer(cell, pos, count, layer, layers, topHalf, spacing, base);
  }

  method FromLayer(ghost cell: Cell, pos: nat, count: nat, layer: nat, layers: nat, topHalf: bool, spacing: real,
                   base: real) returns (x: real, y: real)
    requires 2 * cell.x == 2 * pos - count + 1
    requires if topHalf then cell.y == -5 * layer else layers <= layer && cell.y == 5 * (layer - layers)
    ensures At(cell, spacing, base, x, y)
  {
    x := (pos as real - (count - 1) as real / 2.0) * spacing;
    var depth: int := if topHalf then 0 - layer else layer - layers;
    y := base + depth as real * spacing * 0.5;
    DiamondAt(cell, pos, count, depth, depth as real, spacing, base, x, y);
  }

  lemma DiamondAt(cell: Cell, pos: nat, count: nat, rank: int, depth: real, spacing: real, base: real, x: real, y: real)
    requires 2 * cell.x == 2 * pos - count + 1 && cell.y == 5 * rank && depth == rank as real
    requires x == (pos as real - (count - 1) as real / 2.0) * spacing && y == base + depth * spacing * 0.5
    ensures At(cell, spacing, base, x, y)
  {
    Across(pos, count, cell.x);
    Depth(0.5, depth, spacing);
    SpotAt(cell, pos as real - (count - 1) as real / 2.0, 0.5 * depth, spacing, base, x, y);
  }

  lemma Across(pos: nat, count: nat, x: int)
    requires 2 * x == 2 * pos - count + 1
    ensures pos as real - (count - 1) as real / 2.0 == x as real
  {}

  method CreateVehicleInFormation(index: nat, kind: Kind, total: nat, spacing: real, vehicleType: string, wall: real)
    returns (v: Vehicle)
    requires index < total
    ensures v == Placed(index, kind, total, spacing, vehicleType, wall)
  {
    var base := START_Y - (DEFAULT_WALL_DISTANCE - wall);
    if base < 1.0 { base := 1.0; }
    var x, y, lead := 0.0, base, index == 0;
    var half := (total - 1) / 2;
    match kind {
      case LINE =>
        x, y := PlaceLine(index, total, spacing, base);
        lead := total % 2 == 1 && index == half;
      case WEDGE =>
        x, y := PlaceWedge(index, total, spacing, base);
      case ECHELON =>
        x, y := PlaceEchelon(index, total, spacing, base);
        lead := total <= 1 || index - half == 0;
      case V_SHAPE =>
        x, y := PlaceV(index, total, spacing, base);
      case COLUMN =>
        x, y := PlaceColumn(index, total, spacing, base);
      case DIAMOND =>
        x, y := PlaceDiamond(index, total, spacing, base);
    }
    v := Vehicle(index + 1, if vehicleType == "" then "FENYUN" else vehicleType, x, y, 180.0, spacing, lead);
  }

  method LayoutFormation(config: Config) returns (vehicles: seq<Vehicle>)
    ensures Layout(config, vehicles) && InFormation(config, vehicles)
  {
    vehicles := [];
    var kind, total := KindOf(config.formation), config.count;
    var wall := if config.wallDistance > 0.0 then config.wallDistance else DEFAULT_WALL_DISTANCE;
    var i := 0;
    while i < total
      invariant 0 <= i && i == |vehicles| && (total >= 0 ==> i <= total) && (total < 0 ==> i == 0)
      invariant forall k :: 0 <= k < i ==>
        vehicles[k] == Placed(k, kind, total, config.spacing, KindAt(config, k), wall)
    {
      var vehicleType := "FENYUN";
      if i < |config.kinds| { vehicleType := config.kinds[i]; }
      var v := CreateVehicleInFormation(i, kind, total, config.spacing, vehicleType, wall);
      vehicles := vehicles + [v];
      i := i + 1;
    }
    LayoutInFormation(config, vehicles);
  }
}
