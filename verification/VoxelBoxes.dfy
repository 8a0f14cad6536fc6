/** The voxeliser on box meshes: exact for boxes thicker than its tolerances, and what it does for the others. */
module VoxelBoxes {
  import opened Wrappers
  import opened Geometry
  import opened RealArithmetic
  import opened Voxel

  // ---- Grids -----------------------------------------------------------------------------

  lemma CountTiles(low: real, high: real, edge: real)
    requires low < high && edge > 0.0
    ensures Tiles(low, high, edge, CellCount(high - low, edge))
  {
    var q := (high - low) / edge;
    var n := CellCount(high - low, edge);
    assert q > 0.0 && q * edge == high - low by { Quotient(high - low, edge); }
    assert n as real - 1.0 < q <= n as real;
    var a, b := MulStrict(n as real - 1.0, q, edge);
    var c, d := MulMono(q, n as real, edge);
  }

  lemma Quotient(x: real, y: real)
    requires x > 0.0 && y > 0.0
    ensures x / y > 0.0 && (x / y) * y == x
  {
  }

  /** _grid_shape covers the region of interest, with no cell wholly outside it. */
  lemma GridIsValid(roi: Bounds, edge: real, maximumCells: int)
    requires GridOf(roi, edge, maximumCells).Some?
    ensures ValidGrid(GridOf(roi, edge, maximumCells).value)
  {
    CountTiles(roi.minimum.x, roi.maximum.x, edge);
    CountTiles(roi.minimum.y, roi.maximum.y, edge);
    CountTiles(roi.minimum.z, roi.maximum.z, edge);
  }

  /** One number of cells tiles a side. */
  lemma TilesOnce(low: real, high: real, edge: real, m: nat, n: nat)
    requires Tiles(low, high, edge, m) && Tiles(low, high, edge, n)
    ensures m == n
  {
    if m < n {
      var a, b := MulMono(m as real, n as real - 1.0, edge);
    } else if n < m {
      var a, b := MulMono(n as real, m as real - 1.0, edge);
    }
  }

  /** A region is voxelised exactly when it and the edge have a size and the cells that tile it are not too many. */
  lemma GridLaw(roi: Bounds, edge: real, maximumCells: int)
    ensures GridOf(roi, edge, maximumCells).Some? <==>
      && 0.0 < edge && 0 < maximumCells && Solid(roi)
      && exists s: Shape :: ValidGrid(Grid(roi, edge, s)) && s.nx * s.ny * s.nz <= maximumCells
  {
    hide Tiles;
    if 0.0 < edge && 0 < maximumCells && Solid(roi) {
      var size := Size(roi);
      var t := Shape(CellCount(size.x, edge), CellCount(size.y, edge), CellCount(size.z, edge));
      CountTiles(roi.minimum.x, roi.maximum.x, edge);
      CountTiles(roi.minimum.y, roi.maximum.y, edge);
      CountTiles(roi.minimum.z, roi.maximum.z, edge);
      assert ValidGrid(Grid(roi, edge, t));
      forall s: Shape | ValidGrid(Grid(roi, edge, s)) ensures s == t {
        TilesOnce(roi.minimum.x, roi.maximum.x, edge, s.nx, t.nx);
        TilesOnce(roi.minimum.y, roi.maximum.y, edge, s.ny, t.ny);
        TilesOnce(roi.minimum.z, roi.maximum.z, edge, s.nz, t.nz);
      }
    }
  }

  /** A cell's centre lies in the first half of a full cell. */
  lemma CenterInCell(low: real, high: real, edge: real, n: nat, i: nat)
    requires Tiles(low, high, edge, n) && i < n
    ensures
      var start := i as real * edge;
      low + start <= CellCenter(low, high, i, edge) <= low + start + edge / 2.0
  {
    var a, b := MulMono(i as real, (n - 1) as real, edge);
  }

  lemma FirstCovers(low: real, edge: real, i: nat, start: real, least: real)
    requires edge > 0.0 && start == i as real * edge && least <= low + start + edge / 2.0 + edge
    ensures FirstCandidate(least, low, edge) <= i
  {
    var a := (least - low) / edge;
    assert a * edge == least - low;
    if a >= i as real + 2.0 {
      var x, y := MulMono(i as real + 2.0, a, edge);
    }
  }

  lemma EndCovers(low: real, edge: real, i: nat, start: real, most: real, n: nat)
    requires edge > 0.0 && start == i as real * edge && low + start - edge <= most && i < n
    ensures i < EndCandidate(most, low, n, edge)
  {
    var b := (most - low) / edge;
    assert b * edge == most - low;
    if b < i as real - 1.0 {
      var x, y := MulStrict(b, i as real - 1.0, edge);
    }
  }

  /** A cell whose centre is between the bounds of a triangle is among its candidates. */
  lemma CandidatesCover(low: real, high: real, edge: real, n: nat, i: nat, least: real, most: real)
    requires Tiles(low, high, edge, n) && i < n && least <= CellCenter(low, high, i, edge) <= most
    ensures FirstCandidate(least, low, edge) <= i < EndCandidate(most, low, n, edge)
  {
    hide CellCenter, FirstCandidate, EndCandidate;
    CenterInCell(low, high, edge, n, i);
    FirstCovers(low, edge, i, i as real * edge, least);
    EndCovers(low, edge, i, i as real * edge, most, n);
  }

  // ---- Faces of a box --------------------------------------------------------------------

  /** The faces that bound the box in x, with coordinates. */
  lemma FacesAlongX(b: Bounds)
    ensures
      var t, l, h := BoxTriangles(b), b.minimum, b.maximum;
      && |t| == 12
      && t[8] == Triangle(Vec(l.x, l.y, l.z), Vec(l.x, l.y, h.z), Vec(l.x, h.y, h.z))
      && t[9] == Triangle(Vec(l.x, l.y, l.z), Vec(l.x, h.y, h.z), Vec(l.x, h.y, l.z))
      && t[10] == Triangle(Vec(h.x, l.y, l.z), Vec(h.x, h.y, l.z), Vec(h.x, h.y, h.z))
      && t[11] == Triangle(Vec(h.x, l.y, l.z), Vec(h.x, h.y, h.z), Vec(h.x, l.y, h.z))
  {
  }

  /** The others lie edge on. */
  lemma FacesEdgeOn(b: Bounds, n: nat)
    requires n < 8
    ensures Denominator(BoxTriangles(b)[n]) == 0.0
  {
    var t, f, v := BoxTriangles(b)[n], BOX_FACES[n], BoxVertices(b);
    assert t == Triangle(v[f.i], v[f.j], v[f.k]);
    if n < 4 {
      assert t.a.z == t.b.z == t.c.z by { FlatZ(b, n); }
    } else {
      assert t.a.y == t.b.y == t.c.y by { FlatY(b, n); }
    }
  }

  lemma FlatZ(b: Bounds, n: nat)
    requires n < 4
    ensures BoxTriangles(b)[n].a.z == BoxTriangles(b)[n].b.z == BoxTriangles(b)[n].c.z
  {
    var f, v := BOX_FACES[n], BoxVertices(b);
    assert BoxTriangles(b)[n] == Triangle(v[f.i], v[f.j], v[f.k]);
  }

  lemma FlatY(b: Bounds, n: nat)
    requires 4 <= n < 8
    ensures BoxTriangles(b)[n].a.y == BoxTriangles(b)[n].b.y == BoxTriangles(b)[n].c.y
  {
    var f, v := BOX_FACES[n], BoxVertices(b);
    assert BoxTriangles(b)[n] == Triangle(v[f.i], v[f.j], v[f.k]);
  }

  /** Only the four faces across x contribute to a row. */
  lemma BoxHits(g: Grid, b: Bounds, iy: int, iz: int)
    requires g.edge > 0.0
    ensures
      var t := BoxTriangles(b);
      |t| == 12 && Hits(g, t, iy, iz) == Hit(g, t[8], iy, iz) + Hit(g, t[9], iy, iz) + Hit(g, t[10], iy, iz) + Hit(g, t[11], iy, iz)
  {
    hide Hits, Hit, BoxTriangles;
    var t := BoxTriangles(b);
    FacesAlongX(b);
    EdgeOnHits(g, b, iy, iz, 8);
    HitsOne(g, t, 8, iy, iz);
    HitsOne(g, t, 9, iy, iz);
    HitsOne(g, t, 10, iy, iz);
    HitsOne(g, t, 11, iy, iz);
    assert t[..12] == t;
  }

  lemma {:induction false} EdgeOnHits(g: Grid, b: Bounds, iy: int, iz: int, n: nat)
    requires g.edge > 0.0 && n <= 8 <= |BoxTriangles(b)|
    ensures Hits(g, BoxTriangles(b)[..n], iy, iz) == []
  {
    hide BoxTriangles, Crossing, CandidateY, CandidateZ;
    if n > 0 {
      EdgeOnHits(g, b, iy, iz, n - 1);
      HitsOne(g, BoxTriangles(b), n - 1, iy, iz);
      FacesEdgeOn(b, n - 1);
    }
  }

  // ---- Weights ---------------------------------------------------------------------------

  lemma DivideExact(num: real, den: real, q: real)
    requires den != 0.0 && num == q * den
    ensures num / den == q
  {
  }

  /** A point of the box's cross-section, by its fractions of the two sides. */
  datatype Spot = Spot(y: real, z: real, u: real, v: real)

  predicate At(b: Bounds, s: Spot) {
    var d := Size(b);
    s.y - b.minimum.y == s.u * d.y && s.z - b.minimum.z == s.v * d.z
  }

  lemma SpotOf(b: Bounds, y: real, z: real) returns (s: Spot)
    requires Solid(b) && b.minimum.y <= y <= b.maximum.y && b.minimum.z <= z <= b.maximum.z
    ensures At(b, s) && s.y == y && s.z == z && 0.0 <= s.u <= 1.0 && 0.0 <= s.v <= 1.0
  {
    var u := Fraction(y - b.minimum.y, Size(b).y);
    var v := Fraction(z - b.minimum.z, Size(b).z);
    s := Spot(y, z, u, v);
  }

  lemma Fraction(x: real, d: real) returns (q: real)
    requires 0.0 <= x <= d && d > 0.0
    ensures x == q * d && 0.0 <= q <= 1.0
  {
    q := x / d;
    if q > 1.0 {
      var a, b := MulStrict(1.0, q, d);
    } else if q < 0.0 {
      var a, b := MulStrict(q, 0.0, d);
    }
  }

  /** Weights from their numerators. */
  lemma WeightsAre(t: Triangle, y: real, z: real, p: real, u: real, v: real)
    requires p != 0.0 && Denominator(t) == p
    requires (t.b.y - t.c.y) * (z - t.c.z) + (t.c.z - t.b.z) * (y - t.c.y) == u * p
    requires (t.c.y - t.a.y) * (z - t.c.z) + (t.a.z - t.c.z) * (y - t.c.y) == v * p
    ensures FirstWeight(t, y, z) == u && SecondWeight(t, y, z) == v
  {
    DivideExact((t.b.y - t.c.y) * (z - t.c.z) + (t.c.z - t.b.z) * (y - t.c.y), p, u);
    DivideExact((t.c.y - t.a.y) * (z - t.c.z) + (t.a.z - t.c.z) * (y - t.c.y), p, v);
  }

  /** The products that occur in the numerators. */
  lemma Scaled(a: real, c: real, u: real, v: real, p: real)
    requires p == a * c
    ensures a * (c - v * c) == (1.0 - v) * p && c * (a - u * a) == (1.0 - u) * p
    ensures a * (v * c) == v * p && c * (u * a) == u * p
  {
  }

  ghost predicate Weighs(t: Triangle, s: Spot, p: real, u: real, v: real) {
    Denominator(t) == p && p != 0.0 && FirstWeight(t, s.y, s.z) == u && SecondWeight(t, s.y, s.z) == v
  }

  lemma Weights8(b: Bounds, s: Spot, p: real)
    requires Solid(b) && At(b, s) && p == Size(b).y * Size(b).z && p > 0.0
    ensures Weighs(BoxTriangles(b)[8], s, p, 1.0 - s.v, s.v - s.u)
  {
    hide BoxTriangles;
    FacesAlongX(b);
    var t, d := BoxTriangles(b)[8], Size(b);
    Scaled(d.y, d.z, s.u, s.v, p);
    assert s.z - t.c.z == -(d.z - s.v * d.z) && s.y - t.c.y == -(d.y - s.u * d.y);
    assert (t.b.y - t.c.y) * (s.z - t.c.z) == d.y * (d.z - s.v * d.z);
    assert (t.c.y - t.a.y) * (s.z - t.c.z) == -(d.y * (d.z - s.v * d.z));
    assert (t.a.z - t.c.z) * (s.y - t.c.y) == d.z * (d.y - s.u * d.y);
    WeightsAre(t, s.y, s.z, p, 1.0 - s.v, s.v - s.u);
  }

  lemma Weights9(b: Bounds, s: Spot, p: real)
    requires Solid(b) && At(b, s) && p == Size(b).y * Size(b).z && p > 0.0
    ensures Weighs(BoxTriangles(b)[9], s, p, 1.0 - s.u, s.v)
  {
    hide BoxTriangles;
    FacesAlongX(b);
    var t, d := BoxTriangles(b)[9], Size(b);
    Scaled(d.y, d.z, s.u, s.v, p);
    assert s.z - t.c.z == s.v * d.z && s.y - t.c.y == -(d.y - s.u * d.y);
    assert (t.c.z - t.b.z) * (s.y - t.c.y) == d.z * (d.y - s.u * d.y);
    assert (t.c.y - t.a.y) * (s.z - t.c.z) == d.y * (s.v * d.z);
    WeightsAre(t, s.y, s.z, p, 1.0 - s.u, s.v);
  }

  lemma Weights10(b: Bounds, s: Spot, p: real)
    requires Solid(b) && At(b, s) && p == Size(b).y * Size(b).z && p > 0.0
    ensures Weighs(BoxTriangles(b)[10], s, -p, 1.0 - s.u, s.u - s.v)
  {
    hide BoxTriangles;
    FacesAlongX(b);
    var t, d := BoxTriangles(b)[10], Size(b);
    Scaled(d.y, d.z, s.u, s.v, p);
    assert s.z - t.c.z == -(d.z - s.v * d.z) && s.y - t.c.y == -(d.y - s.u * d.y);
    assert (t.c.z - t.b.z) * (s.y - t.c.y) == -(d.z * (d.y - s.u * d.y));
    assert (t.c.y - t.a.y) * (s.z - t.c.z) == -(d.y * (d.z - s.v * d.z));
    assert (t.a.z - t.c.z) * (s.y - t.c.y) == d.z * (d.y - s.u * d.y);
    WeightsAre(t, s.y, s.z, -p, 1.0 - s.u, s.u - s.v);
  }

  lemma Weights11(b: Bounds, s: Spot, p: real)
    requires Solid(b) && At(b, s) && p == Size(b).y * Size(b).z && p > 0.0
    ensures Weighs(BoxTriangles(b)[11], s, -p, 1.0 - s.v, s.u)
  {
    hide BoxTriangles;
    FacesAlongX(b);
    var t, d := BoxTriangles(b)[11], Size(b);
    Scaled(d.y, d.z, s.u, s.v, p);
    assert s.z - t.c.z == -(d.z - s.v * d.z) && s.y - t.c.y == s.u * d.y;
    assert (t.b.y - t.c.y) * (s.z - t.c.z) == -(d.y * (d.z - s.v * d.z));
    assert (t.a.z - t.c.z) * (s.y - t.c.y) == -(d.z * (s.u * d.y));
    WeightsAre(t, s.y, s.z, -p, 1.0 - s.v, s.u);
  }

  // ---- Crossings -------------------------------------------------------------------------

  /** A face across x that spans the box's cross-section and lies at x. */
  predicate Spans(t: Triangle, b: Bounds, x: real) {
    && t.a.x == x && t.b.x == x && t.c.x == x
    && Min3(t.a.y, t.b.y, t.c.y) == b.minimum.y && Max3(t.a.y, t.b.y, t.c.y) == b.maximum.y
    && Min3(t.a.z, t.b.z, t.c.z) == b.minimum.z && Max3(t.a.z, t.b.z, t.c.z) == b.maximum.z
  }

  lemma FacesSpan(b: Bounds)
    requires Solid(b)
    ensures
      var t := BoxTriangles(b);
      Spans(t[8], b, b.minimum.x) && Spans(t[9], b, b.minimum.x) && Spans(t[10], b, b.maximum.x) && Spans(t[11], b, b.maximum.x)
  {
    hide BoxTriangles;
    FacesAlongX(b);
  }

  /** Whatever a flat face contributes is its own x. */
  lemma FlatCrossing(t: Triangle, b: Bounds, x: real, y: real, z: real, epsilon: real)
    requires Spans(t, b, x) && epsilon >= 0.0
    ensures Crossing(t, y, z, epsilon).Some? ==> Crossing(t, y, z, epsilon).value == x
  {
    if Abs(Denominator(t)) > epsilon {
      hide Denominator, FirstWeight, SecondWeight, Mixed, Near, Min3, Max3;
      MixedFlat(t, x, FirstWeight(t, y, z), SecondWeight(t, y, z));
    }
  }

  lemma MixedFlat(t: Triangle, x: real, u: real, v: real)
    requires t.a.x == x && t.b.x == x && t.c.x == x
    ensures Mixed(t, u, v, 1.0 - u - v) == x
  {
  }

  /** Inside the cross-section, a face is met where its weights are not negative. */
  lemma FaceMet(t: Triangle, b: Bounds, x: real, s: Spot, p: real, u: real, v: real, epsilon: real)
    requires Spans(t, b, x) && Weighs(t, s, p, u, v) && epsilon >= 0.0 && Abs(p) > epsilon
    requires b.minimum.y <= s.y <= b.maximum.y && b.minimum.z <= s.z <= b.maximum.z
    requires u >= 0.0 && v >= 0.0 && u + v <= 1.0
    ensures Crossing(t, s.y, s.z, epsilon) == Some(x)
  {
    hide FirstWeight, SecondWeight, Denominator, Mixed;
    FlatCrossing(t, b, x, s.y, s.z, epsilon);
  }

  // ---- Rows ------------------------------------------------------------------------------

  predicate All(row: seq<real>, x: real) { forall i :: 0 <= i < |row| ==> row[i] == x }

  /** Two values, each at least once, the smaller ones first. */
  ghost predicate TwoBlocks(row: seq<real>, k: nat, a: real, b: real) {
    && 0 < k < |row| && a < b && All(row[..k], a) && All(row[k..], b)
  }

  lemma FaceContribution(g: Grid, t: Triangle, b: Bounds, x: real, iy: int, iz: int)
    requires g.edge > 0.0 && Spans(t, b, x)
    ensures |Hit(g, t, iy, iz)| <= 1 && All(Hit(g, t, iy, iz), x)
  {
    hide Denominator, CandidateY, CandidateZ, Crossing, CenterY, CenterZ, Spans;
    FlatCrossing(t, b, x, CenterY(g, iy), CenterZ(g, iz), ProjectionEpsilon(g.edge));
  }

  /** Off the cross-section by more than the tolerance, a face contributes nothing. */
  lemma FaceMissed(g: Grid, t: Triangle, b: Bounds, x: real, iy: int, iz: int)
    requires g.edge > 0.0 && Spans(t, b, x)
    requires
      var epsilon := ProjectionEpsilon(g.edge);
      !Near(b.minimum.y, b.maximum.y, CenterY(g, iy), epsilon) || !Near(b.minimum.z, b.maximum.z, CenterZ(g, iz), epsilon)
    ensures Hit(g, t, iy, iz) == []
  {
    hide Denominator, CandidateY, CandidateZ, CenterY, CenterZ, FirstWeight, SecondWeight;
  }

  /** On the cross-section it is met once its crossing is. */
  lemma FaceCounted(g: Grid, t: Triangle, b: Bounds, x: real, iy: nat, iz: nat)
    requires ValidGrid(g) && Spans(t, b, x) && iy < g.shape.ny && iz < g.shape.nz
    requires b.minimum.y <= CenterY(g, iy) <= b.maximum.y && b.minimum.z <= CenterZ(g, iz) <= b.maximum.z
    requires Crossing(t, CenterY(g, iy), CenterZ(g, iz), ProjectionEpsilon(g.edge)) == Some(x)
    ensures Hit(g, t, iy, iz) == [x]
  {
    hide Denominator, FirstWeight, SecondWeight, FirstCandidate, EndCandidate;
    CandidatesCover(g.roi.minimum.y, g.roi.maximum.y, g.edge, g.shape.ny, iy, b.minimum.y, b.maximum.y);
    CandidatesCover(g.roi.minimum.z, g.roi.maximum.z, g.edge, g.shape.nz, iz, b.minimum.z, b.maximum.z);
  }

  /** Each of the two walls is met at least once by a row through the cross-section. */
  lemma WallsMet(g: Grid, b: Bounds, iy: nat, iz: nat)
    requires ValidGrid(g) && Solid(b) && iy < g.shape.ny && iz < g.shape.nz
    requires b.minimum.y <= CenterY(g, iy) <= b.maximum.y && b.minimum.z <= CenterZ(g, iz) <= b.maximum.z
    requires Size(b).y * Size(b).z > ProjectionEpsilon(g.edge)
    ensures
      var t := BoxTriangles(b);
      && (Hit(g, t[8], iy, iz) == [b.minimum.x] || Hit(g, t[9], iy, iz) == [b.minimum.x])
      && (Hit(g, t[10], iy, iz) == [b.maximum.x] || Hit(g, t[11], iy, iz) == [b.maximum.x])
  {
    hide BoxTriangles, CenterY, CenterZ, Hit, Crossing, Spans, Weighs, ProjectionEpsilon;
    var t, epsilon, p := BoxTriangles(b), ProjectionEpsilon(g.edge), Size(b).y * Size(b).z;
    EpsilonPositive(g.edge);
    FacesAlongX(b);
    FacesSpan(b);
    var s := SpotOf(b, CenterY(g, iy), CenterZ(g, iz));
    Weights8(b, s, p);
    Weights9(b, s, p);
    Weights10(b, s, p);
    Weights11(b, s, p);
    if s.u <= s.v {
      FaceMet(t[8], b, b.minimum.x, s, p, 1.0 - s.v, s.v - s.u, epsilon);
      FaceMet(t[11], b, b.maximum.x, s, -p, 1.0 - s.v, s.u, epsilon);
      FaceCounted(g, t[8], b, b.minimum.x, iy, iz);
      FaceCounted(g, t[11], b, b.maximum.x, iy, iz);
    } else {
      FaceMet(t[9], b, b.minimum.x, s, p, 1.0 - s.u, s.v, epsilon);
      FaceMet(t[10], b, b.maximum.x, s, -p, 1.0 - s.u, s.u - s.v, epsilon);
      FaceCounted(g, t[9], b, b.minimum.x, iy, iz);
      FaceCounted(g, t[10], b, b.maximum.x, iy, iz);
    }
  }

  lemma EpsilonPositive(edge: real)
    ensures ProjectionEpsilon(edge) > 0.0 && ParityEpsilon(edge) > 0.0
  {
  }

  /** The row through the cross-section: its near wall's x, then its far wall's x. */
  lemma RowThrough(g: Grid, b: Bounds, iy: nat, iz: nat) returns (k: nat)
    requires ValidGrid(g) && Solid(b) && iy < g.shape.ny && iz < g.shape.nz
    requires b.minimum.y <= CenterY(g, iy) <= b.maximum.y && b.minimum.z <= CenterZ(g, iz) <= b.maximum.z
    requires Size(b).y * Size(b).z > ProjectionEpsilon(g.edge)
    ensures TwoBlocks(Hits(g, BoxTriangles(b), iy, iz), k, b.minimum.x, b.maximum.x)
  {
    hide BoxTriangles, CenterY, CenterZ, Hit, Hits, Spans, ProjectionEpsilon;
    var t := BoxTriangles(b);
    BoxHits(g, b, iy, iz);
    FacesSpan(b);
    WallsMet(g, b, iy, iz);
    FaceContribution(g, t[8], b, b.minimum.x, iy, iz);
    FaceContribution(g, t[9], b, b.minimum.x, iy, iz);
    FaceContribution(g, t[10], b, b.maximum.x, iy, iz);
    FaceContribution(g, t[11], b, b.maximum.x, iy, iz);
    var near := Hit(g, t[8], iy, iz) + Hit(g, t[9], iy, iz);
    var far := Hit(g, t[10], iy, iz) + Hit(g, t[11], iy, iz);
    var row := Hits(g, t, iy, iz);
    assert row == near + far;
    k := |near|;
    assert row[..k] == near && row[k..] == far;
  }

  /** The row off the cross-section is empty. */
  lemma RowBeside(g: Grid, b: Bounds, iy: int, iz: int)
    requires g.edge > 0.0 && Solid(b)
    requires
      var epsilon := ProjectionEpsilon(g.edge);
      !Near(b.minimum.y, b.maximum.y, CenterY(g, iy), epsilon) || !Near(b.minimum.z, b.maximum.z, CenterZ(g, iz), epsilon)
    ensures Hits(g, BoxTriangles(b), iy, iz) == []
  {
    hide BoxTriangles, CenterY, CenterZ, Hit, Hits, Spans, ProjectionEpsilon;
    var t := BoxTriangles(b);
    BoxHits(g, b, iy, iz);
    FacesSpan(b);
    FaceMissed(g, t[8], b, b.minimum.x, iy, iz);
    FaceMissed(g, t[9], b, b.minimum.x, iy, iz);
    FaceMissed(g, t[10], b, b.maximum.x, iy, iz);
    FaceMissed(g, t[11], b, b.maximum.x, iy, iz);
  }

  // ---- Parity of such a row --------------------------------------------------------------

  lemma {:induction false} AscendingIsSorted(s: seq<real>)
    requires forall i, j :: 0 <= i <= j < |s| ==> s[i] <= s[j]
    ensures Sorted(s) == s
  {
    if s != [] {
      var n := |s| - 1;
      AscendingIsSorted(s[..n]);
      assert Inserted(s[n], s[..n]) == s[..n] + [s[n]];
      assert s == s[..n] + [s[n]];
    }
  }

  lemma TwoBlocksSorted(row: seq<real>, k: nat, a: real, b: real)
    requires TwoBlocks(row, k, a, b)
    ensures Sorted(row) == row
  {
    BlockValues(row, k, a, b);
    AscendingIsSorted(row);
  }

  lemma BlockValues(row: seq<real>, k: nat, a: real, b: real)
    requires TwoBlocks(row, k, a, b)
    ensures forall i :: 0 <= i < |row| ==> row[i] == if i < k then a else b
  {
    forall i | 0 <= i < |row| ensures row[i] == if i < k then a else b {
      if i < k {
        assert row[i] == row[..k][i];
      } else {
        assert row[i] == row[k..][i - k];
      }
    }
  }

  lemma {:induction false} BlockDistinct(s: seq<real>, k: nat, a: real, b: real, epsilon: real)
    requires 0 < k && s != [] && a < b && epsilon >= 0.0 && forall i :: 0 <= i < |s| ==> s[i] == if i < k then a else b
    ensures Distinct(s, epsilon) == if |s| <= k || b - a <= epsilon then [a] else [a, b]
  {
    hide Distinct;
    var n := |s| - 1;
    DistinctLast(s, epsilon);
    if n == 0 {
      NothingDistinct(epsilon);
    } else {
      BlockDistinct(s[..n], k, a, b, epsilon);
    }
  }

  lemma DistinctLast(s: seq<real>, epsilon: real)
    requires s != []
    ensures
      var kept, value := Distinct(s[..|s| - 1], epsilon), s[|s| - 1];
      Distinct(s, epsilon) == if kept == [] || Abs(value - kept[|kept| - 1]) > epsilon then kept + [value] else kept
  {
  }

  lemma NothingDistinct(epsilon: real)
    ensures Distinct([], epsilon) == []
  {
  }

  /** Its parity: odd between the walls when they are further apart than the tolerance, and odd everywhere
      before the near wall when they are not. */
  lemma BlockParity(row: seq<real>, k: nat, a: real, b: real, x: real, epsilon: real)
    requires TwoBlocks(row, k, a, b) && epsilon >= 0.0
    ensures b - a > epsilon ==> (Odd(row, x, epsilon) <==> a <= x + epsilon < b)
    ensures b - a <= epsilon ==> (Odd(row, x, epsilon) <==> x + epsilon < a)
  {
    hide Distinct;
    TwoBlocksSorted(row, k, a, b);
    BlockValues(row, k, a, b);
    BlockDistinct(row, k, a, b, epsilon);
    assert CountAbove([a], x + epsilon) == if a > x + epsilon then 1 else 0 by { assert [a][..0] == []; }
    assert CountAbove([a, b], x + epsilon) == CountAbove([a], x + epsilon) + if b > x + epsilon then 1 else 0 by {
      assert [a, b][..1] == [a];
    }
  }

  // ---- Theorems --------------------------------------------------------------------------

  predicate Away(v: real, wall: real, epsilon: real) { Abs(v - wall) > epsilon }

  /** Further than the tolerances from every face of the box. */
  predicate Clear(b: Bounds, p: Vec, edge: real) {
    && Away(p.x, b.minimum.x, ParityEpsilon(edge)) && Away(p.x, b.maximum.x, ParityEpsilon(edge))
    && Away(p.y, b.minimum.y, ProjectionEpsilon(edge)) && Away(p.y, b.maximum.y, ProjectionEpsilon(edge))
    && Away(p.z, b.minimum.z, ProjectionEpsilon(edge)) && Away(p.z, b.maximum.z, ProjectionEpsilon(edge))
  }

  /** A box whose cross-section and thickness exceed the tolerances is voxelised exactly: a cell whose centre is
      clear of its faces is marked if and only if the centre is inside. */
  lemma BoxExact(g: Grid, b: Bounds, ix: int, iy: int, iz: int)
    requires ValidGrid(g) && Solid(b) && InShape(g.shape, ix, iy, iz) && Clear(b, Center(g, ix, iy, iz), g.edge)
    requires Size(b).y * Size(b).z > ProjectionEpsilon(g.edge) && Size(b).x > ParityEpsilon(g.edge)
    ensures Occupied(g, BoxTriangles(b), ix, iy, iz) <==> HasInterior(b, Center(g, ix, iy, iz))
  {
    hide BoxTriangles, CenterX, CenterY, CenterZ, Hits, Odd, ProjectionEpsilon, ParityEpsilon;
    EpsilonPositive(g.edge);
    var p := Center(g, ix, iy, iz);
    if b.minimum.y <= p.y <= b.maximum.y && b.minimum.z <= p.z <= b.maximum.z {
      var k := RowThrough(g, b, iy, iz);
      BlockParity(Hits(g, BoxTriangles(b), iy, iz), k, b.minimum.x, b.maximum.x, p.x, ParityEpsilon(g.edge));
    } else {
      RowBeside(g, b, iy, iz);
      OddNotEmpty([], p.x, ParityEpsilon(g.edge));
    }
  }

  /** A box whose cross-section is within the tolerance is not seen at all. */
  lemma ThinSectionUnseen(g: Grid, b: Bounds, ix: int, iy: int, iz: int)
    requires g.edge > 0.0 && Solid(b) && Size(b).y * Size(b).z <= ProjectionEpsilon(g.edge)
    ensures !Occupied(g, BoxTriangles(b), ix, iy, iz)
  {
    hide BoxTriangles, CenterX, CenterY, CenterZ, Hits, Odd, Crossing, CandidateY, CandidateZ, ProjectionEpsilon;
    var t, p := BoxTriangles(b), Size(b).y * Size(b).z;
    BoxHits(g, b, iy, iz);
    var s := Spot(b.minimum.y, b.minimum.z, 0.0, 0.0);
    ProductPositive(Size(b).y, Size(b).z, p);
    Weights8(b, s, p);
    Weights9(b, s, p);
    Weights10(b, s, p);
    Weights11(b, s, p);
    OddNotEmpty(Hits(g, t, iy, iz), CenterX(g, ix), ParityEpsilon(g.edge));
  }

  /** A box thinner than the tolerance in x casts a shadow: the cells before it are marked, and it is not. */
  lemma ThinBoxShadow(g: Grid, b: Bounds, ix: int, iy: int, iz: int)
    requires ValidGrid(g) && Solid(b) && InShape(g.shape, ix, iy, iz)
    requires Size(b).y * Size(b).z > ProjectionEpsilon(g.edge) && Size(b).x <= ParityEpsilon(g.edge)
    requires
      var p := Center(g, ix, iy, iz);
      b.minimum.y <= p.y <= b.maximum.y && b.minimum.z <= p.z <= b.maximum.z
    ensures Occupied(g, BoxTriangles(b), ix, iy, iz) <==> CenterX(g, ix) + ParityEpsilon(g.edge) < b.minimum.x
  {
    hide BoxTriangles, CenterX, CenterY, CenterZ, Hits, Odd, ProjectionEpsilon, ParityEpsilon;
    EpsilonPositive(g.edge);
    var k := RowThrough(g, b, iy, iz);
    BlockParity(Hits(g, BoxTriangles(b), iy, iz), k, b.minimum.x, b.maximum.x, CenterX(g, ix), ParityEpsilon(g.edge));
  }

  ghost predicate ExactAt(g: Grid, b: Bounds, ix: int, iy: int, iz: int)
    requires g.edge > 0.0
  {
    Occupied(g, BoxTriangles(b), ix, iy, iz) <==> HasInterior(b, Center(g, ix, iy, iz))
  }

  predicate ClearCell(g: Grid, b: Bounds, ix: int, iy: int, iz: int) {
    InShape(g.shape, ix, iy, iz) && Clear(b, Center(g, ix, iy, iz), g.edge)
  }

  predicate InSection(b: Bounds, p: Vec) {
    b.minimum.y <= p.y <= b.maximum.y && b.minimum.z <= p.z <= b.maximum.z
  }

  /** Where a clear cell goes wrong: inside a box too narrow to see, or before one too thin. */
  predicate Misread(g: Grid, b: Bounds, p: Vec) {
    if Size(b).y * Size(b).z <= ProjectionEpsilon(g.edge) then HasInterior(b, p)
    else Size(b).x <= ParityEpsilon(g.edge) && InSection(b, p) && p.x < b.minimum.x
  }

  /** For every solid box and every clear cell, whether the voxeliser is right about it. */
  lemma ExactIff(g: Grid, b: Bounds, ix: int, iy: int, iz: int)
    requires ValidGrid(g) && Solid(b) && ClearCell(g, b, ix, iy, iz)
    ensures ExactAt(g, b, ix, iy, iz) <==> !Misread(g, b, Center(g, ix, iy, iz))
  {
    hide BoxTriangles, CenterX, CenterY, CenterZ, Occupied, ProjectionEpsilon, ParityEpsilon;
    EpsilonPositive(g.edge);
    var p := Center(g, ix, iy, iz);
    if Size(b).y * Size(b).z <= ProjectionEpsilon(g.edge) {
      ThinSectionUnseen(g, b, ix, iy, iz);
    } else if Size(b).x > ParityEpsilon(g.edge) {
      BoxExact(g, b, ix, iy, iz);
    } else if InSection(b, p) {
      ThinBoxShadow(g, b, ix, iy, iz);
    } else {
      BesideUnseen(g, b, ix, iy, iz);
    }
  }

  /** One cell of edge one. */
  const ONE_CELL := Grid(Bounds(ORIGIN, Vec(1.0, 1.0, 1.0)), 1.0, Shape(1, 1, 1))

  /** A needle along the ray through the cell's centre, and a plate behind the centre. */
  const NEEDLE := Bounds(Vec(0.25, 0.4999995, 0.4999995), Vec(0.75, 0.5000005, 0.5000005))
  const PLATE := Bounds(Vec(0.75, 0.25, 0.25), Vec(0.7500000001, 0.75, 0.75))

  /** Both failures occur: the needle holds the centre and its cell is not marked, the plate does not and it is. */
  lemma BothMisread()
    ensures ValidGrid(ONE_CELL) && Solid(NEEDLE) && Solid(PLATE)
    ensures ClearCell(ONE_CELL, NEEDLE, 0, 0, 0) && ClearCell(ONE_CELL, PLATE, 0, 0, 0)
    ensures HasInterior(NEEDLE, Center(ONE_CELL, 0, 0, 0)) && !Occupied(ONE_CELL, BoxTriangles(NEEDLE), 0, 0, 0)
    ensures !HasInterior(PLATE, Center(ONE_CELL, 0, 0, 0)) && Occupied(ONE_CELL, BoxTriangles(PLATE), 0, 0, 0)
  {
    hide Occupied, BoxTriangles;
    assert Center(ONE_CELL, 0, 0, 0) == Vec(0.5, 0.5, 0.5);
    assert Misread(ONE_CELL, NEEDLE, Center(ONE_CELL, 0, 0, 0));
    assert Misread(ONE_CELL, PLATE, Center(ONE_CELL, 0, 0, 0));
    ExactIff(ONE_CELL, NEEDLE, 0, 0, 0);
    ExactIff(ONE_CELL, PLATE, 0, 0, 0);
  }

  lemma BesideUnseen(g: Grid, b: Bounds, ix: int, iy: int, iz: int)
    requires g.edge > 0.0 && Solid(b) && ClearCell(g, b, ix, iy, iz) && !InSection(b, Center(g, ix, iy, iz))
    ensures !Occupied(g, BoxTriangles(b), ix, iy, iz)
  {
    hide BoxTriangles, CenterX, CenterY, CenterZ, Hits, Odd, ProjectionEpsilon, ParityEpsilon;
    EpsilonPositive(g.edge);
    RowBeside(g, b, iy, iz);
    OddNotEmpty([], CenterX(g, ix), ParityEpsilon(g.edge));
  }

  // ---- The overlap ratio -----------------------------------------------------------------

  /** len(a & b) / len(a | b), and one for two empty sets. */
  function Iou(a: set<int>, b: set<int>): real {
    if a + b == {} then 1.0 else |a * b| as real / |a + b| as real
  }

  lemma IouRange(a: set<int>, b: set<int>)
    ensures 0.0 <= Iou(a, b) <= 1.0 && Iou(a, b) == Iou(b, a)
    ensures Iou(a, b) == 1.0 <==> a == b
    ensures Iou(a, b) == 0.0 <==> a + b != {} && a * b == {}
  {
    assert a + b == b + a && a * b == b * a;
    if a + b != {} {
      var m, n := |a * b|, |a + b|;
      SmallerSet(a * b, a + b);
      Ratio(m, n);
      if m == n {
        SameSize(a * b, a + b);
        assert a == b;
      }
      if a == b {
        assert a * b == a + b;
      }
    } else {
      assert a == b;
    }
  }

  lemma Ratio(m: nat, n: nat)
    requires m <= n && n > 0
    ensures 0.0 <= m as real / n as real <= 1.0
    ensures m as real / n as real == 1.0 <==> m == n
    ensures m as real / n as real == 0.0 <==> m == 0
  {
    var q := m as real / n as real;
    assert q * n as real == m as real;
    if q > 1.0 {
      var x, y := MulStrict(1.0, q, n as real);
    }
    if q < 0.0 {
      var x, y := MulStrict(q, 0.0, n as real);
    }
  }

  lemma SmallerSet(a: set<int>, b: set<int>)
    requires a <= b
    ensures |a| <= |b|
  {
    assert b == a + (b - a);
  }

  lemma SameSize(a: set<int>, b: set<int>)
    requires a <= b && |a| == |b|
    ensures a == b
  {
    assert b == a + (b - a);
    assert |b - a| == 0;
  }

  /** A mesh as voxel_iou compares it. */
  datatype Mesh = Mesh(vertices: seq<Vec>, faces: seq<Face>)

  /** voxel_iou. Meshes with the same vertices and faces skip the work; the ratio would be one all the same. */
  method VoxelIou(candidate: Mesh, reference: Mesh, roi: Bounds, edge: real, maximumCells: int) returns (r: Option<real>)
    requires FacesInRange(candidate.faces, |candidate.vertices|) && FacesInRange(reference.faces, |reference.vertices|)
    ensures r.Some? <==> GridOf(roi, edge, maximumCells).Some?
    ensures r.Some? ==>
      var g := GridOf(roi, edge, maximumCells).value;
      r.value == Iou(Cells(g, Triangles(candidate.vertices, candidate.faces)), Cells(g, Triangles(reference.vertices, reference.faces)))
  {
    hide Occupied, Triangles;
    var grid := GridOf(roi, edge, maximumCells);
    if grid.None? {
      return None;
    }
    var g := grid.value;
    ghost var mine := Cells(g, Triangles(candidate.vertices, candidate.faces));
    if candidate.vertices == reference.vertices && candidate.faces == reference.faces {
      IouRange(mine, mine);
      return Some(1.0);
    }
    var a := Voxelize(g, Triangles(candidate.vertices, candidate.faces));
    var b := Voxelize(g, Triangles(reference.vertices, reference.faces));
    MarkedAreCells(g, Triangles(candidate.vertices, candidate.faces), a);
    MarkedAreCells(g, Triangles(reference.vertices, reference.faces), b);
    if a + b == {} {
      return Some(1.0);
    }
    return Some(|a * b| as real / |a + b| as real);
  }

  /** The linear indices of the cells whose centres the mesh encloses, by parity. */
  ghost function Cells(g: Grid, ts: seq<Triangle>): set<int>
    requires g.edge > 0.0
  {
    set ix, iy, iz | 0 <= ix < g.shape.nx && 0 <= iy < g.shape.ny && 0 <= iz < g.shape.nz && Occupied(g, ts, ix, iy, iz)
      :: Index(g.shape, ix, iy, iz)
  }

  lemma MarkedAreCells(g: Grid, ts: seq<Triangle>, occupied: set<int>)
    requires g.edge > 0.0
    requires forall ix, iy, iz :: InShape(g.shape, ix, iy, iz) ==>
      (Index(g.shape, ix, iy, iz) in occupied <==> Occupied(g, ts, ix, iy, iz))
    requires forall n <- occupied :: exists ix, iy, iz :: InShape(g.shape, ix, iy, iz) && n == Index(g.shape, ix, iy, iz)
    ensures occupied == Cells(g, ts)
  {
    hide Occupied, Index;
    forall n ensures n in occupied <==> n in Cells(g, ts) {
      if n in occupied {
        var ix, iy, iz :| InShape(g.shape, ix, iy, iz) && n == Index(g.shape, ix, iy, iz);
        assert Occupied(g, ts, ix, iy, iz);
      }
      if n in Cells(g, ts) {
        var ix, iy, iz :| 0 <= ix < g.shape.nx && 0 <= iy < g.shape.ny && 0 <= iz < g.shape.nz
          && Occupied(g, ts, ix, iy, iz) && n == Index(g.shape, ix, iy, iz);
        assert InShape(g.shape, ix, iy, iz);
      }
    }
  }
}
