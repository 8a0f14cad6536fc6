/** The spatial hash behind surface distances (geometry/surface_distance.py, _SpatialHash), with squared
    distances: the expanding-shell search with its early exit finds the nearest point. */
module SpatialHash {
  import opened Geometry
  import opened RealArithmetic

  datatype Cell = Cell(x: int, y: int, z: int)

  function Index(v: real, size: real): int
    requires size > 0.0
  {
    (v / size).Floor
  }

  function CellOf(p: Vec, size: real): Cell
    requires size > 0.0
  {
    Cell(Index(p.x, size), Index(p.y, size), Index(p.z, size))
  }

  function SquaredDistance(p: Vec, q: Vec): real { Dot(Sub(p, q), Sub(p, q)) }

  function IntAbs(n: int): nat { if n < 0 then -n else n }

  function IntMax(a: int, b: int): int { if a < b then b else a }

  /** The shell of `c` around `origin`: their greatest coordinate difference. */
  function Shell(origin: Cell, c: Cell): nat {
    IntMax(IntMax(IntAbs(c.x - origin.x), IntAbs(c.y - origin.y)), IntAbs(c.z - origin.z))
  }

  // ---- Cells and distances ---------------------------------------------------------------

  lemma IndexBounds(v: real, size: real)
    requires size > 0.0
    ensures (Index(v, size) as real) * size <= v
    ensures v < (Index(v, size) as real + 1.0) * size
  {
    var q := v / size;
    var f := Index(v, size) as real;
    FloorScaled(v, size, q, f);
  }

  lemma FloorScaled(v: real, size: real, q: real, f: real)
    requires size > 0.0 && q * size == v && f <= q < f + 1.0
    ensures f * size <= v && v < (f + 1.0) * size
  {
    var a, b := MulMono(f, q, size);
    var c, d := MulStrict(q, f + 1.0, size);
  }

  /** The clearance of coordinate `v` inside the cells origin-shell .. origin+shell of its axis. */
  function Clearance(v: real, origin: int, shell: nat, size: real): real {
    Min(v - ((origin - shell) as real) * size, ((origin + shell + 1) as real) * size - v)
  }

  lemma ClearanceNonNegative(v: real, shell: nat, size: real)
    requires size > 0.0
    ensures Clearance(v, Index(v, size), shell, size) >= 0.0
  {
    var o := Index(v, size);
    hide Index;
    IndexBounds(v, size);
    var a, b := MulMono((o - shell) as real, o as real, size);
    var c, d := MulMono(o as real + 1.0, (o + shell + 1) as real, size);
  }

  /** A coordinate whose cell is more than `shell` away differs by at least the clearance. */
  lemma OutsideIsFar(v: real, w: real, shell: nat, size: real)
    requires size > 0.0 && IntAbs(Index(w, size) - Index(v, size)) > shell
    ensures Abs(w - v) >= Clearance(v, Index(v, size), shell, size)
  {
    hide Index;
    var o, c := Index(v, size), Index(w, size);
    IndexBounds(w, size);
    if c > o {
      var a, b := MulMono((o + shell + 1) as real, c as real, size);
    } else {
      var a, b := MulMono(c as real + 1.0, (o - shell) as real, size);
    }
  }

  function Unseen(p: Vec, origin: Cell, shell: nat, size: real): real {
    Min(Clearance(p.x, origin.x, shell, size),
        Min(Clearance(p.y, origin.y, shell, size), Clearance(p.z, origin.z, shell, size)))
  }

  lemma SquareMono(u: real, d: real) returns (uu: real, dd: real)
    requires 0.0 <= u <= Abs(d)
    ensures uu == u * u && dd == d * d && uu <= dd
  {
    var a := Abs(d);
    var p, q := MulMono(u, a, u);
    var r, t := MulMono(u, a, a);
    uu, dd := p, d * d;
    assert t == dd && q == r;
  }

  lemma SomeAxisIsFar(p: Vec, q: Vec, shell: nat, size: real)
    requires size > 0.0 && Shell(CellOf(p, size), CellOf(q, size)) > shell
    ensures
      var u := Unseen(p, CellOf(p, size), shell, size);
      0.0 <= u && (u <= Abs(q.x - p.x) || u <= Abs(q.y - p.y) || u <= Abs(q.z - p.z))
  {
    hide Index, Clearance;
    ClearanceNonNegative(p.x, shell, size);
    ClearanceNonNegative(p.y, shell, size);
    ClearanceNonNegative(p.z, shell, size);
    if IntAbs(Index(q.x, size) - Index(p.x, size)) > shell {
      OutsideIsFar(p.x, q.x, shell, size);
    } else if IntAbs(Index(q.y, size) - Index(p.y, size)) > shell {
      OutsideIsFar(p.y, q.y, shell, size);
    } else {
      OutsideIsFar(p.z, q.z, shell, size);
    }
  }

  lemma FarInOneAxis(u: real, d: real, e: real, f: real) returns (uu: real, sum: real)
    requires 0.0 <= u && (u <= Abs(d) || u <= Abs(e) || u <= Abs(f))
    ensures uu == u * u && sum == d * d + e * e + f * f && uu <= sum
  {
    var dd := Square(d);
    var ee := Square(e);
    var ff := Square(f);
    var m := if u <= Abs(d) then d else if u <= Abs(e) then e else f;
    var mm;
    uu, mm := SquareMono(u, m);
    sum := dd + ee + ff;
  }

  /** Every point outside the scanned shells is at least the unseen distance away. */
  lemma UnseenBound(p: Vec, q: Vec, shell: nat, size: real)
    requires size > 0.0 && Shell(CellOf(p, size), CellOf(q, size)) > shell
    ensures
      var u := Unseen(p, CellOf(p, size), shell, size);
      u * u <= SquaredDistance(q, p)
  {
    hide CellOf, Unseen, SquaredDistance, Shell;
    SomeAxisIsFar(p, q, shell, size);
    var uu, sum := FarInOneAxis(Unseen(p, CellOf(p, size), shell, size), q.x - p.x, q.y - p.y, q.z - p.z);
    DistanceIs(p, q, sum);
  }

  lemma DistanceIs(p: Vec, q: Vec, sum: real)
    requires sum == (q.x - p.x) * (q.x - p.x) + (q.y - p.y) * (q.y - p.y) + (q.z - p.z) * (q.z - p.z)
    ensures SquaredDistance(q, p) == sum
  {
  }

  /** The early exit: a best no larger than the squared unseen distance beats every point not yet seen. */
  lemma ExitIsSafe(points: seq<Vec>, p: Vec, shell: nat, size: real, best: real, unseen: real)
    requires size > 0.0 && unseen == Unseen(p, CellOf(p, size), shell, size) && best <= unseen * unseen
    requires forall q <- points :: Shell(CellOf(p, size), CellOf(q, size)) <= shell ==> best <= SquaredDistance(q, p)
    ensures forall q <- points :: best <= SquaredDistance(q, p)
  {
    hide CellOf, Unseen, SquaredDistance, Shell;
    forall q <- points ensures best <= SquaredDistance(q, p) {
      if Shell(CellOf(p, size), CellOf(q, size)) > shell {
        UnseenBound(p, q, shell, size);
      }
    }
  }

  // ---- The running minimum ---------------------------------------------------------------

  datatype Best = Infinity | Finite(squared: real)

  predicate AtMost(best: Best, d: real) { best.Finite? && best.squared <= d }

  function Improve(best: Best, d: real): (r: Best)
    ensures AtMost(r, d) && (forall e :: AtMost(best, e) ==> AtMost(r, e))
    ensures r == Finite(d) || r == best
  {
    if best.Finite? && best.squared <= d then best else Finite(d)
  }

  /** A finite best is the squared distance of some point. */
  ghost predicate Attained(best: Best, points: seq<Vec>, p: Vec) {
    best.Finite? ==> exists q :: q in points && best.squared == SquaredDistance(q, p)
  }

  /** What a search step keeps: candidates already covered stay covered, and the best stays attained. */
  ghost predicate Extends(before: Best, after: Best, points: seq<Vec>, p: Vec) {
    && (forall d :: AtMost(before, d) ==> AtMost(after, d))
    && (Attained(before, points, p) ==> Attained(after, points, p))
  }

  method ScanCell(bucket: seq<Vec>, p: Vec, best: Best, ghost points: seq<Vec>) returns (r: Best)
    requires forall q <- bucket :: q in points
    ensures Extends(best, r, points, p)
    ensures forall q <- bucket :: AtMost(r, SquaredDistance(q, p))
  {
    r := best;
    for i := 0 to |bucket|
      invariant Extends(best, r, points, p)
      invariant forall k :: 0 <= k < i ==> AtMost(r, SquaredDistance(bucket[k], p))
    {
      assert bucket[i] in points;
      r := Improve(r, SquaredDistance(bucket[i], p));
    }
  }

  /** `d` is the least squared distance from `p` to any of the points. */
  ghost predicate IsNearest(points: seq<Vec>, p: Vec, d: real) {
    (exists q :: q in points && d == SquaredDistance(q, p)) && forall q <- points :: d <= SquaredDistance(q, p)
  }

  // ---- Buckets ---------------------------------------------------------------------------

  type Cells = map<Cell, seq<Vec>>

  /** Each point is in the bucket of its own cell, and the buckets hold nothing else. */
  ghost predicate Stored(points: seq<Vec>, cells: Cells, size: real)
    requires size > 0.0
  {
    && (forall c, q :: c in cells && q in cells[c] ==> q in points && CellOf(q, size) == c)
    && (forall q <- points :: CellOf(q, size) in cells && q in cells[CellOf(q, size)])
  }

  ghost predicate Enclosed(cells: Cells, minimum: Cell, maximum: Cell) {
    forall c <- cells ::
      minimum.x <= c.x <= maximum.x && minimum.y <= c.y <= maximum.y && minimum.z <= c.z <= maximum.z
  }

  lemma NothingStored(size: real, minimum: Cell, maximum: Cell)
    requires size > 0.0
    ensures Stored([], map[], size) && Enclosed(map[], minimum, maximum)
  {
  }

  lemma StoreOne(points: seq<Vec>, i: nat, cells: Cells, size: real)
    requires size > 0.0 && i < |points| && Stored(points[..i], cells, size)
    ensures
      var c := CellOf(points[i], size);
      Stored(points[..i + 1], cells[c := (if c in cells then cells[c] else []) + [points[i]]], size)
  {
    hide CellOf;
    assert points[..i + 1] == points[..i] + [points[i]];
  }

  lemma EncloseOne(cells: Cells, minimum: Cell, maximum: Cell, c: Cell, bucket: seq<Vec>)
    requires Enclosed(cells, minimum, maximum)
    ensures Enclosed(cells[c := bucket],
      Cell(IntMin(minimum.x, c.x), IntMin(minimum.y, c.y), IntMin(minimum.z, c.z)),
      Cell(IntMax(maximum.x, c.x), IntMax(maximum.y, c.y), IntMax(maximum.z, c.z)))
  {
  }

  // ---- The search ------------------------------------------------------------------------

  class SpatialHash {
    const cellSize: real
    ghost var points: seq<Vec>
    var cells: map<Cell, seq<Vec>>
    var minimum: Cell
    var maximum: Cell

    ghost predicate Bucketed()
      reads this
    {
      cellSize > 0.0 && Stored(points, cells, cellSize)
    }

    ghost predicate Valid()
      reads this
    {
      Bucketed() && points != [] && Enclosed(cells, minimum, maximum)
    }

    /** The source raises for a cell size that is not positive and for an empty point set. */
    constructor (pts: seq<Vec>, size: real)
      requires size > 0.0 && pts != []
      ensures Valid() && points == pts && cellSize == size
    {
      hide Stored, Enclosed, CellOf, IntMin, IntMax;
      cellSize := size;
      points := pts;
      cells := map[];
      minimum, maximum := CellOf(pts[0], size), CellOf(pts[0], size);
      new;
      NothingStored(size, minimum, maximum);
      for i := 0 to |pts|
        invariant points == pts && cellSize == size
        invariant Stored(pts[..i], cells, size) && Enclosed(cells, minimum, maximum)
      {
        var c := CellOf(pts[i], size);
        var bucket := if c in cells then cells[c] else [];
        StoreOne(pts, i, cells, size);
        EncloseOne(cells, minimum, maximum, c, bucket + [pts[i]]);
        cells := cells[c := bucket + [pts[i]]];
        minimum := Cell(IntMin(minimum.x, c.x), IntMin(minimum.y, c.y), IntMin(minimum.z, c.z));
        maximum := Cell(IntMax(maximum.x, c.x), IntMax(maximum.y, c.y), IntMax(maximum.z, c.z));
      }
      assert pts[..|pts|] == pts;
    }

    /** One pass of the three nested offset loops: every point whose cell lies on the shell is compared. */
    method ScanShell(p: Vec, origin: Cell, shell: nat, best: Best) returns (r: Best)
      requires Bucketed()
      ensures Extends(best, r, points, p)
      ensures forall q <- points :: Shell(origin, CellOf(q, cellSize)) == shell ==> AtMost(r, SquaredDistance(q, p))
    {
      hide SquaredDistance, CellOf;
      r := best;
      var low: int := 0 - shell;
      for dx := low to shell + 1
        invariant Extends(best, r, points, p)
        invariant forall q <- points :: Scanned(q, origin, shell, Cell(dx, low, low)) ==> AtMost(r, SquaredDistance(q, p))
      {
        for dy := low to shell + 1
          invariant Extends(best, r, points, p)
          invariant forall q <- points :: Scanned(q, origin, shell, Cell(dx, dy, low)) ==> AtMost(r, SquaredDistance(q, p))
        {
          for dz := low to shell + 1
            invariant Extends(best, r, points, p)
            invariant forall q <- points :: Scanned(q, origin, shell, Cell(dx, dy, dz)) ==> AtMost(r, SquaredDistance(q, p))
          {
            if IntMax(IntMax(IntAbs(dx), IntAbs(dy)), IntAbs(dz)) == shell {
              var c := Cell(origin.x + dx, origin.y + dy, origin.z + dz);
              if c in cells {
                r := ScanCell(cells[c], p, r, points);
              }
            }
          }
        }
      }
    }

    /** The point's cell is on the shell and the offset loops passed it before reaching `at`. */
    ghost predicate Scanned(q: Vec, origin: Cell, shell: nat, at: Cell)
      requires cellSize > 0.0
    {
      var c := CellOf(q, cellSize);
      var d := Cell(c.x - origin.x, c.y - origin.y, c.z - origin.z);
      && Shell(origin, c) == shell
      && (d.x < at.x || (d.x == at.x && (d.y < at.y || (d.y == at.y && d.z < at.z))))
    }

    /** nearest_distance, squared: exactly the least squared distance to any of the points. */
    method NearestSquared(p: Vec) returns (d: real)
      requires Valid()
      ensures IsNearest(points, p, d)
    {
      hide CellOf, Unseen, SquaredDistance, Shell;
      var origin := CellOf(p, cellSize);
      var last := MaximumShell(origin);
      var best := Infinity;
      var shell := 0;
      while shell <= last
        invariant 0 <= shell <= last + 1
        invariant Attained(best, points, p)
        invariant forall q <- points :: Shell(origin, CellOf(q, cellSize)) < shell ==> AtMost(best, SquaredDistance(q, p))
      {
        best := ScanShell(p, origin, shell, best);
        if best.Finite? {
          var unseen := Unseen(p, origin, shell, cellSize);
          if best.squared <= unseen * unseen {
            ExitIsSafe(points, p, shell, cellSize, best.squared, unseen);
            return best.squared;
          }
        }
        shell := shell + 1;
      }
      assert points[0] in points;
      d := best.squared;
    }

    method MaximumShell(origin: Cell) returns (last: nat)
      requires Valid()
      ensures forall q <- points :: Shell(origin, CellOf(q, cellSize)) <= last
    {
      last := IntMax(
        IntMax(IntMax(IntAbs(origin.x - minimum.x), IntAbs(origin.x - maximum.x)),
               IntMax(IntAbs(origin.y - minimum.y), IntAbs(origin.y - maximum.y))),
        IntMax(IntAbs(origin.z - minimum.z), IntAbs(origin.z - maximum.z)));
    }
  }

  function IntMin(a: int, b: int): int { if b < a then b else a }

  // ---- Directed and two-sided distances --------------------------------------------------

  /** `h` is the greatest nearest-point distance from `from` to `to`. */
  ghost predicate IsDirectedMaximum(from: seq<Vec>, to: seq<Vec>, h: real) {
    && (exists p :: p in from && IsNearest(to, p, h))
    && forall p <- from :: NearestAtMost(to, p, h)
  }

  ghost predicate NearestAtMost(points: seq<Vec>, p: Vec, h: real) {
    exists d :: d <= h && IsNearest(points, p, d)
  }

  /** The maximum of _directed_distances, squared. */
  method DirectedMaximumSquared(from: seq<Vec>, target: SpatialHash) returns (h: real)
    requires target.Valid() && from != []
    ensures IsDirectedMaximum(from, target.points, h)
  {
    hide IsNearest;
    h := target.NearestSquared(from[0]);
    ghost var at := from[0];
    for i := 1 to |from|
      invariant at in from && IsNearest(target.points, at, h)
      invariant forall k :: 0 <= k < i ==> NearestAtMost(target.points, from[k], h)
    {
      var d := target.NearestSquared(from[i]);
      if h < d {
        h, at := d, from[i];
      }
    }
  }

  ghost predicate IsHausdorff(candidate: seq<Vec>, reference: seq<Vec>, h: real) {
    exists a, b :: h == Max(a, b) && IsDirectedMaximum(candidate, reference, a) && IsDirectedMaximum(reference, candidate, b)
  }

  lemma SquareNorm(d: Vec)
    ensures Dot(d, d) >= 0.0 && (d == ORIGIN ==> Dot(d, d) == 0.0)
  {
    var x := Square(d.x);
    var y := Square(d.y);
    var z := Square(d.z);
  }

  lemma DistanceToSelf(q: Vec, p: Vec)
    ensures SquaredDistance(q, p) >= 0.0 && (q == p ==> SquaredDistance(q, p) == 0.0)
  {
    hide Dot;
    SquareNorm(Sub(q, p));
  }

  lemma OwnNearest(points: seq<Vec>, p: Vec)
    requires p in points
    ensures IsNearest(points, p, 0.0)
  {
    hide SquaredDistance;
    forall q <- points ensures SquaredDistance(q, p) >= 0.0 {
      DistanceToSelf(q, p);
    }
    DistanceToSelf(p, p);
  }

  /** A set is at distance zero from itself, so the shortcut for equal geometry is sound. */
  lemma EqualSetsMeet(points: seq<Vec>)
    requires points != []
    ensures IsHausdorff(points, points, 0.0)
  {
    hide IsNearest;
    forall p <- points ensures IsNearest(points, p, 0.0) {
      OwnNearest(points, p);
    }
    assert points[0] in points;
    assert IsDirectedMaximum(points, points, 0.0) && 0.0 == Max(0.0, 0.0);
  }

  /** The Hausdorff half of surface_distances, squared: zero at once for equal canonical geometry, otherwise the
      larger of the two directed maxima. */
  method SquaredHausdorff(sameGeometry: bool, candidate: seq<Vec>, reference: seq<Vec>, cellSize: real) returns (h: real)
    requires !sameGeometry ==> candidate != [] && reference != [] && cellSize > 0.0
    ensures sameGeometry ==> h == 0.0
    ensures (sameGeometry ==> candidate == reference != []) ==> IsHausdorff(candidate, reference, h)
  {
    hide IsDirectedMaximum;
    if sameGeometry {
      if candidate == reference != [] {
        EqualSetsMeet(candidate);
      }
      return 0.0;
    }
    var candidateIndex := new SpatialHash(candidate, cellSize);
    var referenceIndex := new SpatialHash(reference, cellSize);
    var a := DirectedMaximumSquared(candidate, referenceIndex);
    var b := DirectedMaximumSquared(reference, candidateIndex);
    h := Max(a, b);
  }
}
