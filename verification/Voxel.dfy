/** The ray-parity voxeliser and its overlap ratio (geometry/voxel.py), over exact reals. */
module Voxel {
  import opened Wrappers
  import opened Geometry

  datatype Shape = Shape(nx: nat, ny: nat, nz: nat)

  datatype Grid = Grid(roi: Bounds, edge: real, shape: Shape)

  // ---- The grid --------------------------------------------------------------------------

  function CellCenter(low: real, high: real, index: int, edge: real): real {
    var cellLow := low + index as real * edge;
    (cellLow + Min(cellLow + edge, high)) / 2.0
  }

  function Ceiling(x: real): int { -((-x).Floor) }

  function CellCount(extent: real, edge: real): (n: nat)
    requires extent > 0.0 && edge > 0.0
    ensures n >= 1
  {
    if Ceiling(extent / edge) < 1 then 1 else Ceiling(extent / edge)
  }

  function GridOf(roi: Bounds, edge: real, maximumCells: int): Option<Grid> {
    if edge <= 0.0 || maximumCells <= 0 || !Solid(roi) then None
    else
      var size := Size(roi);
      var nx, ny, nz := CellCount(size.x, edge), CellCount(size.y, edge), CellCount(size.z, edge);
      if nx * ny * nz > maximumCells then None else Some(Grid(roi, edge, Shape(nx, ny, nz)))
  }

  /** Along one axis the cells tile the extent: the last one starts inside it and reaches its end. */
  predicate Tiles(low: real, high: real, edge: real, n: nat) {
    n >= 1 && edge > 0.0 && low + (n - 1) as real * edge < high <= low + n as real * edge
  }

  predicate ValidGrid(g: Grid) {
    && Tiles(g.roi.minimum.x, g.roi.maximum.x, g.edge, g.shape.nx)
    && Tiles(g.roi.minimum.y, g.roi.maximum.y, g.edge, g.shape.ny)
    && Tiles(g.roi.minimum.z, g.roi.maximum.z, g.edge, g.shape.nz)
  }

  predicate InShape(s: Shape, ix: int, iy: int, iz: int) { 0 <= ix < s.nx && 0 <= iy < s.ny && 0 <= iz < s.nz }

  function CenterX(g: Grid, ix: int): real { CellCenter(g.roi.minimum.x, g.roi.maximum.x, ix, g.edge) }
  function CenterY(g: Grid, iy: int): real { CellCenter(g.roi.minimum.y, g.roi.maximum.y, iy, g.edge) }
  function CenterZ(g: Grid, iz: int): real { CellCenter(g.roi.minimum.z, g.roi.maximum.z, iz, g.edge) }

  function Center(g: Grid, ix: int, iy: int, iz: int): Vec { Vec(CenterX(g, ix), CenterY(g, iy), CenterZ(g, iz)) }

  function Index(s: Shape, ix: int, iy: int, iz: int): int { (iz * s.ny + iy) * s.nx + ix }

  // ---- Crossings of one row with one triangle --------------------------------------------

  /** Tolerances: of the projection, and of the parity test. */
  function ProjectionEpsilon(edge: real): real { Max(edge * 0.0000000001, 0.000000000001) }
  function ParityEpsilon(edge: real): real { Max(edge * 0.000000001, 0.000000000001) }

  function Min3(a: real, b: real, c: real): real { Min(a, Min(b, c)) }
  function Max3(a: real, b: real, c: real): real { Max(a, Max(b, c)) }

  function Denominator(t: Triangle): real {
    (t.b.y - t.c.y) * (t.a.z - t.c.z) + (t.c.z - t.b.z) * (t.a.y - t.c.y)
  }

  function FirstWeight(t: Triangle, y: real, z: real): real
    requires Denominator(t) != 0.0
  {
    ((t.b.y - t.c.y) * (z - t.c.z) + (t.c.z - t.b.z) * (y - t.c.y)) / Denominator(t)
  }

  function SecondWeight(t: Triangle, y: real, z: real): real
    requires Denominator(t) != 0.0
  {
    ((t.c.y - t.a.y) * (z - t.c.z) + (t.a.z - t.c.z) * (y - t.c.y)) / Denominator(t)
  }

  predicate Near(low: real, high: real, v: real, epsilon: real) { low - epsilon <= v <= high + epsilon }

  /** The x coordinate of the point with these weights. */
  function Mixed(t: Triangle, u: real, v: real, w: real): real { u * t.a.x + v * t.b.x + w * t.c.x }

  /** Where the row through (y, z) meets the triangle, if it does. */
  function Crossing(t: Triangle, y: real, z: real, epsilon: real): Option<real>
    requires epsilon >= 0.0
  {
    if Abs(Denominator(t)) <= epsilon then None
    else if !Near(Min3(t.a.z, t.b.z, t.c.z), Max3(t.a.z, t.b.z, t.c.z), z, epsilon) then None
    else if !Near(Min3(t.a.y, t.b.y, t.c.y), Max3(t.a.y, t.b.y, t.c.y), y, epsilon) then None
    else
      var u, v := FirstWeight(t, y, z), SecondWeight(t, y, z);
      var w := 1.0 - u - v;
      if Min3(u, v, w) < -epsilon || Max3(u, v, w) > 1.0 + epsilon then None
      else Some(Mixed(t, u, v, w))
  }

  /** _candidate_index_range, as its first index and the index after its last. */
  function FirstCandidate(low: real, roiLow: real, edge: real): int
    requires edge > 0.0
  {
    var f := ((low - roiLow) / edge).Floor - 1;
    if f < 0 then 0 else f
  }

  function EndCandidate(high: real, roiLow: real, count: nat, edge: real): int
    requires edge > 0.0
  {
    var l := ((high - roiLow) / edge).Floor + 1;
    (if count as int - 1 < l then count as int - 1 else l) + 1
  }

  predicate CandidateY(g: Grid, t: Triangle, iy: int)
    requires g.edge > 0.0
  {
    FirstCandidate(Min3(t.a.y, t.b.y, t.c.y), g.roi.minimum.y, g.edge) <= iy
      < EndCandidate(Max3(t.a.y, t.b.y, t.c.y), g.roi.minimum.y, g.shape.ny, g.edge)
  }

  predicate CandidateZ(g: Grid, t: Triangle, iz: int)
    requires g.edge > 0.0
  {
    FirstCandidate(Min3(t.a.z, t.b.z, t.c.z), g.roi.minimum.z, g.edge) <= iz
      < EndCandidate(Max3(t.a.z, t.b.z, t.c.z), g.roi.minimum.z, g.shape.nz, g.edge)
  }

  /** What one triangle contributes to one row. */
  function Hit(g: Grid, t: Triangle, iy: int, iz: int): seq<real>
    requires g.edge > 0.0
  {
    var epsilon := ProjectionEpsilon(g.edge);
    if Abs(Denominator(t)) > epsilon && CandidateY(g, t, iy) && CandidateZ(g, t, iz) then
      var c := Crossing(t, CenterY(g, iy), CenterZ(g, iz), epsilon);
      if c.Some? then [c.value] else []
    else []
  }

  function Hits(g: Grid, ts: seq<Triangle>, iy: int, iz: int): seq<real>
    requires g.edge > 0.0
  {
    if ts == [] then [] else Hits(g, ts[..|ts| - 1], iy, iz) + Hit(g, ts[|ts| - 1], iy, iz)
  }

  // ---- Parity ----------------------------------------------------------------------------

  function Inserted(x: real, s: seq<real>): seq<real> {
    if s == [] then [x]
    else if x < s[|s| - 1] then Inserted(x, s[..|s| - 1]) + [s[|s| - 1]]
    else s + [x]
  }

  function Sorted(s: seq<real>): seq<real> {
    if s == [] then [] else Inserted(s[|s| - 1], Sorted(s[..|s| - 1]))
  }

  /** Neighbours closer than epsilon to the last one kept are dropped. */
  function Distinct(s: seq<real>, epsilon: real): seq<real> {
    if s == [] then []
    else
      var kept, value := Distinct(s[..|s| - 1], epsilon), s[|s| - 1];
      if kept == [] || Abs(value - kept[|kept| - 1]) > epsilon then kept + [value] else kept
  }

  /** len(s) - bisect_right(s, x) for a sorted s. */
  function CountAbove(s: seq<real>, x: real): nat {
    if s == [] then 0 else CountAbove(s[..|s| - 1], x) + if s[|s| - 1] > x then 1 else 0
  }

  predicate Odd(row: seq<real>, x: real, epsilon: real) {
    CountAbove(Distinct(Sorted(row), epsilon), x + epsilon) % 2 == 1
  }

  predicate Occupied(g: Grid, ts: seq<Triangle>, ix: int, iy: int, iz: int)
    requires g.edge > 0.0
  {
    Odd(Hits(g, ts, iy, iz), CenterX(g, ix), ParityEpsilon(g.edge))
  }

  // ---- As it runs ------------------------------------------------------------------------

  function RowOf(rows: Rows, iy: int, iz: int): seq<real> {
    if (iy, iz) in rows then rows[(iy, iz)] else []
  }

  lemma HitsOne(g: Grid, ts: seq<Triangle>, n: nat, iy: int, iz: int)
    requires g.edge > 0.0 && n < |ts|
    ensures Hits(g, ts[..n + 1], iy, iz) == Hits(g, ts[..n], iy, iz) + Hit(g, ts[n], iy, iz)
  {
    assert ts[..n + 1][..n] == ts[..n];
  }

  type Rows = map<(int, int), seq<real>>

  /** The loops have passed row (y, z) before they reach (iy, iz). */
  predicate Passed(y: int, z: int, iy: int, iz: int) { z < iz || (z == iz && y < iy) }

  /** Exactly the rows passed have gained the triangle's crossing. */
  ghost predicate Added(g: Grid, t: Triangle, before: Rows, rows: Rows, iy: int, iz: int)
    requires g.edge > 0.0
  {
    forall y, z :: RowOf(rows, y, z) == RowOf(before, y, z) + if Passed(y, z, iy, iz) then Hit(g, t, y, z) else []
  }

  lemma RowUpdated(rows: Rows, iy: int, iz: int, row: seq<real>, y: int, z: int)
    ensures RowOf(rows[(iy, iz) := row], y, z) == if y == iy && z == iz then row else RowOf(rows, y, z)
  {
  }

  lemma AddedRow(g: Grid, t: Triangle, before: Rows, rows: Rows, after: Rows, iy: int, iz: int)
    requires g.edge > 0.0 && Added(g, t, before, rows, iy, iz)
    requires after == if Hit(g, t, iy, iz) == [] then rows else rows[(iy, iz) := RowOf(rows, iy, iz) + Hit(g, t, iy, iz)]
    ensures Added(g, t, before, after, iy + 1, iz)
  {
    hide Hit, RowOf;
    forall y, z ensures RowOf(after, y, z) == RowOf(before, y, z) + if Passed(y, z, iy + 1, iz) then Hit(g, t, y, z) else [] {
      RowUpdated(rows, iy, iz, RowOf(rows, iy, iz) + Hit(g, t, iy, iz), y, z);
      assert RowOf(rows, y, z) == RowOf(before, y, z) + if Passed(y, z, iy, iz) then Hit(g, t, y, z) else [];
    }
  }

  /** Rows without a crossing may be passed at no cost. */
  lemma AddedSkip(g: Grid, t: Triangle, before: Rows, rows: Rows, iy: int, iz: int, jy: int, jz: int)
    requires g.edge > 0.0 && Added(g, t, before, rows, iy, iz)
    requires forall y, z :: Passed(y, z, iy, iz) != Passed(y, z, jy, jz) ==> Hit(g, t, y, z) == []
    ensures Added(g, t, before, rows, jy, jz)
  {
    hide Hit;
    forall y, z ensures RowOf(rows, y, z) == RowOf(before, y, z) + if Passed(y, z, jy, jz) then Hit(g, t, y, z) else [] {
      assert RowOf(rows, y, z) == RowOf(before, y, z) + if Passed(y, z, iy, iz) then Hit(g, t, y, z) else [];
    }
  }

  lemma AddedStart(g: Grid, t: Triangle, before: Rows, iy: int, iz: int)
    requires g.edge > 0.0 && forall y, z :: Passed(y, z, iy, iz) ==> Hit(g, t, y, z) == []
    ensures Added(g, t, before, before, iy, iz)
  {
    hide Hit;
  }

  lemma AddedEnd(g: Grid, t: Triangle, before: Rows, rows: Rows, iy: int, iz: int)
    requires g.edge > 0.0 && Added(g, t, before, rows, iy, iz)
    requires forall y, z :: Passed(y, z, iy, iz) || Hit(g, t, y, z) == []
    ensures forall y, z :: RowOf(rows, y, z) == RowOf(before, y, z) + Hit(g, t, y, z)
  {
    hide Hit;
  }

  lemma HitRange(g: Grid, t: Triangle)
    requires g.edge > 0.0
    ensures forall y, z :: !CandidateY(g, t, y) || !CandidateZ(g, t, z) ==> Hit(g, t, y, z) == []
    ensures Abs(Denominator(t)) <= ProjectionEpsilon(g.edge) ==> forall y, z :: Hit(g, t, y, z) == []
  {
    hide Crossing, Denominator, CenterY, CenterZ, CandidateY, CandidateZ;
  }

  /** One triangle's rows, plane by plane. */
  method AddTriangle(g: Grid, t: Triangle, before: Rows) returns (rows: Rows)
    requires g.edge > 0.0
    ensures forall iy, iz :: RowOf(rows, iy, iz) == RowOf(before, iy, iz) + Hit(g, t, iy, iz)
  {
    hide Crossing, Denominator, CenterY, CenterZ, FirstCandidate, EndCandidate, Added, Min3, Max3, Hit, RowOf;
    rows := before;
    HitRange(g, t);
    var epsilon := ProjectionEpsilon(g.edge);
    if Abs(Denominator(t)) <= epsilon {
      return;
    }
    var firstY := FirstCandidate(Min3(t.a.y, t.b.y, t.c.y), g.roi.minimum.y, g.edge);
    var endY := EndCandidate(Max3(t.a.y, t.b.y, t.c.y), g.roi.minimum.y, g.shape.ny, g.edge);
    var firstZ := FirstCandidate(Min3(t.a.z, t.b.z, t.c.z), g.roi.minimum.z, g.edge);
    var endZ := EndCandidate(Max3(t.a.z, t.b.z, t.c.z), g.roi.minimum.z, g.shape.nz, g.edge);
    var iz := firstZ;
    AddedStart(g, t, before, firstY, firstZ);
    while iz < endZ
      invariant firstZ <= iz && Added(g, t, before, rows, firstY, iz)
    {
      var iy := firstY;
      while iy < endY
        invariant firstY <= iy && Added(g, t, before, rows, iy, iz)
      {
        var c := Crossing(t, CenterY(g, iy), CenterZ(g, iz), epsilon);
        ghost var earlier := rows;
        HitHere(g, t, iy, iz);
        if c.Some? {
          rows := rows[(iy, iz) := RowOf(rows, iy, iz) + [c.value]];
        }
        AddedRow(g, t, before, earlier, rows, iy, iz);
        iy := iy + 1;
      }
      AddedSkip(g, t, before, rows, iy, iz, firstY, iz + 1);
      iz := iz + 1;
    }
    AddedEnd(g, t, before, rows, firstY, iz);
  }

  lemma HitHere(g: Grid, t: Triangle, iy: int, iz: int)
    requires g.edge > 0.0 && Abs(Denominator(t)) > ProjectionEpsilon(g.edge) && CandidateY(g, t, iy) && CandidateZ(g, t, iz)
    ensures
      var c := Crossing(t, CenterY(g, iy), CenterZ(g, iz), ProjectionEpsilon(g.edge));
      Hit(g, t, iy, iz) == if c.Some? then [c.value] else []
  {
    hide Crossing, Denominator, CenterY, CenterZ, CandidateY, CandidateZ;
  }

  /** _projected_intersections. */
  method ProjectedIntersections(g: Grid, ts: seq<Triangle>) returns (rows: Rows)
    requires g.edge > 0.0
    ensures forall iy, iz :: RowOf(rows, iy, iz) == Hits(g, ts, iy, iz)
  {
    hide Hit;
    rows := map[];
    for n := 0 to |ts|
      invariant forall iy, iz :: RowOf(rows, iy, iz) == Hits(g, ts[..n], iy, iz)
    {
      forall iy, iz ensures Hits(g, ts[..n + 1], iy, iz) == Hits(g, ts[..n], iy, iz) + Hit(g, ts[n], iy, iz) {
        HitsOne(g, ts, n, iy, iz);
      }
      rows := AddTriangle(g, ts[n], rows);
    }
    assert ts[..|ts|] == ts;
  }

  /** A number splits into quotient and remainder in one way. */
  lemma SplitsOnce(a: int, i: int, b: int, j: int, n: nat)
    requires 0 <= i < n && 0 <= j < n && a * n + i == b * n + j
    ensures a == b && i == j
  {
    if a < b {
      AtLeastOnce(b - a, n, b * n - a * n);
    } else if b < a {
      AtLeastOnce(a - b, n, a * n - b * n);
    }
  }

  lemma AtLeastOnce(d: int, n: nat, p: int)
    requires d >= 1 && p == d * n
    ensures p >= n
  {
    assert p == (d - 1) * n + n;
  }

  /** Distinct cells have distinct linear indices. */
  lemma IndexInjective(s: Shape, ix: int, iy: int, iz: int, jx: int, jy: int, jz: int)
    requires InShape(s, ix, iy, iz) && InShape(s, jx, jy, jz) && Index(s, ix, iy, iz) == Index(s, jx, jy, jz)
    ensures ix == jx && iy == jy && iz == jz
  {
    SplitsOnce(iz * s.ny + iy, ix, jz * s.ny + jy, jx, s.nx);
    SplitsOnce(iz, iy, jz, jy, s.ny);
  }

  /** The intersections of one row, sorted and thinned. */
  method ThinRow(row: seq<real>, epsilon: real) returns (kept: seq<real>)
    ensures kept == Distinct(Sorted(row), epsilon)
  {
    var values := Sorted(row);
    kept := [];
    for i := 0 to |values|
      invariant kept == Distinct(values[..i], epsilon)
    {
      assert values[..i + 1][..i] == values[..i];
      if kept == [] || Abs(values[i] - kept[|kept| - 1]) > epsilon {
        kept := kept + [values[i]];
      }
    }
    assert values[..|values|] == values;
  }

  /** Cell ix of the row has linear index n and lies an odd number of crossings before the end. */
  predicate OddCell(g: Grid, row: seq<real>, ix: int, iy: int, iz: int, n: int) {
    n == Index(g.shape, ix, iy, iz) && Odd(row, CenterX(g, ix), ParityEpsilon(g.edge))
  }

  ghost predicate InRow(g: Grid, row: seq<real>, width: int, iy: int, iz: int, n: int) {
    exists ix :: 0 <= ix < width && OddCell(g, row, ix, iy, iz, n)
  }

  lemma WiderRow(g: Grid, row: seq<real>, width: nat, iy: int, iz: int)
    ensures forall n :: InRow(g, row, width + 1, iy, iz, n) <==> InRow(g, row, width, iy, iz, n) || OddCell(g, row, width, iy, iz, n)
    ensures forall n :: !InRow(g, row, 0, iy, iz, n)
  {
    hide OddCell;
  }

  lemma OneOddCell(g: Grid, row: seq<real>, kept: seq<real>, ix: int, iy: int, iz: int)
    requires kept == Distinct(Sorted(row), ParityEpsilon(g.edge))
    ensures
      var odd := CountAbove(kept, CenterX(g, ix) + ParityEpsilon(g.edge)) % 2 == 1;
      forall n :: OddCell(g, row, ix, iy, iz, n) <==> odd && n == Index(g.shape, ix, iy, iz)
  {
    hide Index, CenterX, ParityEpsilon, Distinct, Sorted, CountAbove;
  }

  /** Marks the cells of one row. */
  method AddRow(g: Grid, row: seq<real>, iy: int, iz: int, before: set<int>) returns (occupied: set<int>)
    ensures forall n :: n in occupied <==> n in before || InRow(g, row, g.shape.nx, iy, iz, n)
  {
    hide Index, CenterX, ParityEpsilon, Distinct, Sorted, CountAbove, OddCell, InRow;
    occupied := before;
    var epsilon := ParityEpsilon(g.edge);
    var kept := ThinRow(row, epsilon);
    WiderRow(g, row, 0, iy, iz);
    for ix := 0 to g.shape.nx
      invariant forall n :: n in occupied <==> n in before || InRow(g, row, ix, iy, iz, n)
    {
      WiderRow(g, row, ix, iy, iz);
      OneOddCell(g, row, kept, ix, iy, iz);
      if CountAbove(kept, CenterX(g, ix) + epsilon) % 2 == 1 {
        occupied := occupied + {Index(g.shape, ix, iy, iz)};
      }
    }
  }

  lemma RowsInShape(g: Grid, ts: seq<Triangle>, iy: int, iz: int)
    requires g.edge > 0.0
    ensures Hits(g, ts, iy, iz) != [] ==> 0 <= iy < g.shape.ny && 0 <= iz < g.shape.nz
  {
    hide Crossing, Denominator;
    if ts != [] {
      RowsInShape(g, ts[..|ts| - 1], iy, iz);
    }
  }

  /** _voxelize: a cell of the grid is marked exactly when its centre's row crosses the mesh an odd number of
      times beyond it. */
  method Voxelize(g: Grid, ts: seq<Triangle>) returns (occupied: set<int>)
    requires g.edge > 0.0
    ensures forall ix, iy, iz :: InShape(g.shape, ix, iy, iz) ==>
      (Index(g.shape, ix, iy, iz) in occupied <==> Occupied(g, ts, ix, iy, iz))
    ensures forall n <- occupied :: exists ix, iy, iz :: InShape(g.shape, ix, iy, iz) && n == Index(g.shape, ix, iy, iz)
  {
    hide Hits, Odd, Index, CenterX, InRow, OddCell;
    var rows := ProjectedIntersections(g, ts);
    var left := rows.Keys;
    occupied := {};
    while left != {}
      invariant left <= rows.Keys
      invariant forall n :: n in occupied <==> exists ix, iy, iz :: MarkedBy(g, rows, rows.Keys - left, n, ix, iy, iz)
      decreases left
    {
      var key :| key in left;
      var (iy, iz) := key;
      ghost var before := occupied;
      occupied := AddRow(g, rows[key], iy, iz, occupied);
      MarkRow(g, rows, left, key, before, occupied);
      left := left - {key};
    }
    assert rows.Keys - left == rows.Keys;
    ReadMarks(g, ts, rows, occupied);
  }

  ghost predicate MarkedBy(g: Grid, rows: Rows, keys: set<(int, int)>, n: int, ix: int, iy: int, iz: int) {
    (iy, iz) in keys && (iy, iz) in rows && 0 <= ix < g.shape.nx && OddCell(g, rows[(iy, iz)], ix, iy, iz, n)
  }

  lemma MarkRow(g: Grid, rows: Rows, left: set<(int, int)>, key: (int, int), before: set<int>, after: set<int>)
    requires key in left && left <= rows.Keys
    requires forall n :: n in before <==> exists ix, iy, iz :: MarkedBy(g, rows, rows.Keys - left, n, ix, iy, iz)
    requires forall n :: n in after <==> n in before || InRow(g, rows[key], g.shape.nx, key.0, key.1, n)
    ensures forall n :: n in after <==> exists ix, iy, iz :: MarkedBy(g, rows, rows.Keys - (left - {key}), n, ix, iy, iz)
  {
    hide OddCell;
    forall n ensures n in after <==> exists ix, iy, iz :: MarkedBy(g, rows, rows.Keys - (left - {key}), n, ix, iy, iz) {
      if n in before {
        var ix, iy, iz :| MarkedBy(g, rows, rows.Keys - left, n, ix, iy, iz);
        assert MarkedBy(g, rows, rows.Keys - (left - {key}), n, ix, iy, iz);
      } else if n in after {
        var ix :| 0 <= ix < g.shape.nx && OddCell(g, rows[key], ix, key.0, key.1, n);
        assert key == (key.0, key.1);
        assert MarkedBy(g, rows, rows.Keys - (left - {key}), n, ix, key.0, key.1);
      }
      if exists ix, iy, iz :: MarkedBy(g, rows, rows.Keys - (left - {key}), n, ix, iy, iz) {
        var ix, iy, iz :| MarkedBy(g, rows, rows.Keys - (left - {key}), n, ix, iy, iz);
        if (iy, iz) != key {
          assert MarkedBy(g, rows, rows.Keys - left, n, ix, iy, iz);
        }
      }
    }
  }

  lemma ReadMarks(g: Grid, ts: seq<Triangle>, rows: Rows, occupied: set<int>)
    requires g.edge > 0.0
    requires forall iy, iz :: RowOf(rows, iy, iz) == Hits(g, ts, iy, iz)
    requires forall n :: n in occupied <==> exists ix, iy, iz :: MarkedBy(g, rows, rows.Keys, n, ix, iy, iz)
    ensures forall ix, iy, iz :: InShape(g.shape, ix, iy, iz) ==>
      (Index(g.shape, ix, iy, iz) in occupied <==> Occupied(g, ts, ix, iy, iz))
    ensures forall n <- occupied :: exists ix, iy, iz :: InShape(g.shape, ix, iy, iz) && n == Index(g.shape, ix, iy, iz)
  {
    hide Hits, Odd, Index, CenterX;
    forall n, ix, iy, iz | MarkedBy(g, rows, rows.Keys, n, ix, iy, iz)
      ensures InShape(g.shape, ix, iy, iz) && Occupied(g, ts, ix, iy, iz)
    {
      assert RowOf(rows, iy, iz) == Hits(g, ts, iy, iz);
      OddNotEmpty(rows[(iy, iz)], CenterX(g, ix), ParityEpsilon(g.edge));
      RowsInShape(g, ts, iy, iz);
    }
    forall ix, iy, iz | InShape(g.shape, ix, iy, iz)
      ensures Index(g.shape, ix, iy, iz) in occupied <==> Occupied(g, ts, ix, iy, iz)
    {
      var n := Index(g.shape, ix, iy, iz);
      assert RowOf(rows, iy, iz) == Hits(g, ts, iy, iz);
      if Occupied(g, ts, ix, iy, iz) {
        OddNotEmpty(Hits(g, ts, iy, iz), CenterX(g, ix), ParityEpsilon(g.edge));
        assert MarkedBy(g, rows, rows.Keys, n, ix, iy, iz);
      }
      if n in occupied {
        var jx, jy, jz :| MarkedBy(g, rows, rows.Keys, n, jx, jy, jz);
        IndexInjective(g.shape, ix, iy, iz, jx, jy, jz);
      }
    }
  }

  lemma OddNotEmpty(row: seq<real>, x: real, epsilon: real)
    ensures Odd(row, x, epsilon) ==> row != []
  {
    if row == [] {
      assert Sorted(row) == [] && Distinct([], epsilon) == [];
    }
  }
}
