/** Vectors, axis-aligned bounds and box meshes (geometry/metrics.py), over exact reals. */
module Geometry {

  datatype Vec = Vec(x: real, y: real, z: real)

  function Add(a: Vec, b: Vec): Vec { Vec(a.x + b.x, a.y + b.y, a.z + b.z) }

  function Sub(a: Vec, b: Vec): Vec { Vec(a.x - b.x, a.y - b.y, a.z - b.z) }

  function Scale(a: Vec, k: real): Vec { Vec(a.x * k, a.y * k, a.z * k) }

  function Dot(a: Vec, b: Vec): real { a.x * b.x + a.y * b.y + a.z * b.z }

  function Cross(a: Vec, b: Vec): Vec {
    Vec(a.y * b.z - a.z * b.y, a.z * b.x - a.x * b.z, a.x * b.y - a.y * b.x)
  }

  const ORIGIN := Vec(0.0, 0.0, 0.0)

  function Max(a: real, b: real): real { if a < b then b else a }

  function Min(a: real, b: real): real { if b < a then b else a }

  function Abs(a: real): real { if a < 0.0 then -a else a }

  // ---- Bounds ----------------------------------------------------------------------------

  datatype Bounds = Bounds(minimum: Vec, maximum: Vec)

  /** What the Bounds constructor checks: no maximum below its minimum. */
  predicate WellFormed(b: Bounds) {
    b.minimum.x <= b.maximum.x && b.minimum.y <= b.maximum.y && b.minimum.z <= b.maximum.z
  }

  /** Every side is longer than zero, as box_mesh demands. */
  predicate Solid(b: Bounds) {
    b.minimum.x < b.maximum.x && b.minimum.y < b.maximum.y && b.minimum.z < b.maximum.z
  }

  function Size(b: Bounds): Vec { Sub(b.maximum, b.minimum) }

  function Product(v: Vec): real { v.x * v.y * v.z }

  function Volume(b: Bounds): real { Product(Size(b)) }

  /** Bounds.overlaps: closed, so boxes that only touch overlap. */
  predicate Overlaps(a: Bounds, b: Bounds, padding: real) {
    && a.minimum.x <= b.maximum.x + padding && b.minimum.x <= a.maximum.x + padding
    && a.minimum.y <= b.maximum.y + padding && b.minimum.y <= a.maximum.y + padding
    && a.minimum.z <= b.maximum.z + padding && b.minimum.z <= a.maximum.z + padding
  }

  function Translate(b: Bounds, d: Vec): Bounds { Bounds(Add(b.minimum, d), Add(b.maximum, d)) }

  /** `a` lies inside `b`, without tolerance. */
  predicate Inside(a: Bounds, b: Bounds) {
    && b.minimum.x <= a.minimum.x && a.maximum.x <= b.maximum.x
    && b.minimum.y <= a.minimum.y && a.maximum.y <= b.maximum.y
    && b.minimum.z <= a.minimum.z && a.maximum.z <= b.maximum.z
  }

  predicate Has(b: Bounds, p: Vec) {
    && b.minimum.x <= p.x <= b.maximum.x
    && b.minimum.y <= p.y <= b.maximum.y
    && b.minimum.z <= p.z <= b.maximum.z
  }

  predicate HasInterior(b: Bounds, p: Vec) {
    && b.minimum.x < p.x < b.maximum.x
    && b.minimum.y < p.y < b.maximum.y
    && b.minimum.z < p.z < b.maximum.z
  }

  /** Some axis separates the two boxes; they may share boundary points only. */
  predicate Separated(a: Bounds, b: Bounds) {
    || a.maximum.x <= b.minimum.x || b.maximum.x <= a.minimum.x
    || a.maximum.y <= b.minimum.y || b.maximum.y <= a.minimum.y
    || a.maximum.z <= b.minimum.z || b.maximum.z <= a.minimum.z
  }

  /** For boxes of positive size, an axis separates them exactly when no point is interior to both. */
  lemma SeparatedIffNoCommonInterior(a: Bounds, b: Bounds)
    requires Solid(a) && Solid(b)
    ensures Separated(a, b) <==> forall p :: !(HasInterior(a, p) && HasInterior(b, p))
  {
    if !Separated(a, b) {
      var low := Vec(Max(a.minimum.x, b.minimum.x), Max(a.minimum.y, b.minimum.y), Max(a.minimum.z, b.minimum.z));
      var high := Vec(Min(a.maximum.x, b.maximum.x), Min(a.maximum.y, b.maximum.y), Min(a.maximum.z, b.maximum.z));
      var p := Scale(Add(low, high), 0.5);
      assert HasInterior(a, p) && HasInterior(b, p);
    }
  }

  lemma VolumePositive(b: Bounds)
    requires Solid(b)
    ensures Volume(b) > 0.0
  {
    var s := Size(b);
    assert s.x * s.y > 0.0;
    assert (s.x * s.y) * s.z > 0.0;
  }

  lemma VolumeNonNegative(b: Bounds)
    requires WellFormed(b)
    ensures Volume(b) >= 0.0
  {
    var s := Size(b);
    assert s.x * s.y >= 0.0;
    assert (s.x * s.y) * s.z >= 0.0;
  }

  lemma TranslateKeepsVolume(b: Bounds, d: Vec)
    ensures Size(Translate(b, d)) == Size(b) && Volume(Translate(b, d)) == Volume(b)
  {
  }

  // ---- Triangle meshes -------------------------------------------------------------------

  datatype Triangle = Triangle(a: Vec, b: Vec, c: Vec)

  datatype Face = Face(i: nat, j: nat, k: nat)

  /** box_mesh's eight corners, in the source's order. */
  function BoxVertices(b: Bounds): seq<Vec> {
    var l, h := b.minimum, b.maximum;
    [Vec(l.x, l.y, l.z), Vec(h.x, l.y, l.z), Vec(h.x, h.y, l.z), Vec(l.x, h.y, l.z),
     Vec(l.x, l.y, h.z), Vec(h.x, l.y, h.z), Vec(h.x, h.y, h.z), Vec(l.x, h.y, h.z)]
  }

  const BOX_FACES: seq<Face> :=
    [Face(0, 2, 1), Face(0, 3, 2), Face(4, 5, 6), Face(4, 6, 7), Face(0, 1, 5), Face(0, 5, 4),
     Face(3, 7, 6), Face(3, 6, 2), Face(0, 4, 7), Face(0, 7, 3), Face(1, 2, 6), Face(1, 6, 5)]

  predicate FacesInRange(faces: seq<Face>, n: nat) {
    forall f <- faces :: f.i < n && f.j < n && f.k < n
  }

  function Triangles(vertices: seq<Vec>, faces: seq<Face>): (r: seq<Triangle>)
    requires FacesInRange(faces, |vertices|)
    ensures |r| == |faces|
    ensures forall n :: 0 <= n < |faces| ==>
      r[n] == Triangle(vertices[faces[n].i], vertices[faces[n].j], vertices[faces[n].k])
  {
    seq(|faces|, n requires 0 <= n < |faces| =>
      Triangle(vertices[faces[n].i], vertices[faces[n].j], vertices[faces[n].k]))
  }

  function BoxTriangles(b: Bounds): seq<Triangle> { Triangles(BoxVertices(b), BOX_FACES) }

  /** Six times one term of the signed sum in volume_um3. */
  function Triple(t: Triangle): real { Dot(t.a, Cross(t.b, t.c)) }

  function TripleSum(ts: seq<Triangle>): real {
    if ts == [] then 0.0 else TripleSum(ts[..|ts| - 1]) + Triple(ts[|ts| - 1])
  }

  /** TriangleMesh.volume_um3. */
  function MeshVolume(ts: seq<Triangle>): real { Abs(TripleSum(ts) / 6.0) }
}
