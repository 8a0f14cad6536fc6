/** Where a row of cell centres meets a triangle, slanted ones included (geometry/voxel.py). */
module VoxelCrossings {
  import opened Wrappers
  import opened Geometry
  import opened RealArithmetic
  import opened Voxel
  import B = VoxelBoxes

  /** Weights of the three corners that add up to one. */
  datatype Weights = Weights(u: real, v: real, w: real)

  /** The point with these weights. */
  function Blend(t: Triangle, k: Weights): Vec { Add(Add(Scale(t.a, k.u), Scale(t.b, k.v)), Scale(t.c, k.w)) }

  predicate Inside(k: Weights, epsilon: real) {
    && k.u + k.v + k.w == 1.0
    && -epsilon <= k.u <= 1.0 + epsilon && -epsilon <= k.v <= 1.0 + epsilon && -epsilon <= k.w <= 1.0 + epsilon
  }

  function WeightsOf(t: Triangle, y: real, z: real): Weights
    requires Denominator(t) != 0.0
  {
    var u, v := FirstWeight(t, y, z), SecondWeight(t, y, z);
    Weights(u, v, 1.0 - u - v)
  }

  lemma Quotient(num: real, den: real) returns (q: real)
    requires den != 0.0
    ensures q == num / den && q * den == num
  {
    q := num / den;
  }

  /** Cramer's rule for two unknowns: from the numerators of u and v to the two equations. */
  lemma Cramer(a: real, b: real, c: real, e: real, y: real, z: real, d: real, u: real, v: real)
    requires d == b * c - e * a && d != 0.0 && u * d == b * z - e * y && v * d == c * y - a * z
    ensures u * a + v * b == y && u * c + v * e == z
  {
    assert (u * a + v * b) * d == (u * d) * a + (v * d) * b;
    assert (b * z - e * y) * a + (c * y - a * z) * b == y * d;
    Cancel(u * a + v * b, y, d);
    assert (u * c + v * e) * d == (u * d) * c + (v * d) * e;
    assert (b * z - e * y) * c + (c * y - a * z) * e == z * d;
    Cancel(u * c + v * e, z, d);
  }

  lemma Cancel(x: real, y: real, d: real)
    requires x * d == y * d && d != 0.0
    ensures x == y
  {
    assert (x - y) * d == 0.0;
  }

  /** And back: two numbers that solve them are the quotients. */
  lemma CramerUnique(a: real, b: real, c: real, e: real, y: real, z: real, d: real, u: real, v: real)
    requires d == b * c - e * a && u * a + v * b == y && u * c + v * e == z
    ensures u * d == b * z - e * y && v * d == c * y - a * z
  {
    assert b * (u * c + v * e) - e * (u * a + v * b) == u * (b * c - e * a);
    assert c * (u * a + v * b) - a * (u * c + v * e) == v * (b * c - e * a);
  }

  function NumeratorU(t: Triangle, y: real, z: real): real {
    (t.b.y - t.c.y) * (z - t.c.z) + (t.c.z - t.b.z) * (y - t.c.y)
  }

  function NumeratorV(t: Triangle, y: real, z: real): real {
    (t.c.y - t.a.y) * (z - t.c.z) + (t.a.z - t.c.z) * (y - t.c.y)
  }

  lemma WeightIs(t: Triangle, y: real, z: real)
    requires Denominator(t) != 0.0
    ensures FirstWeight(t, y, z) * Denominator(t) == NumeratorU(t, y, z)
    ensures SecondWeight(t, y, z) * Denominator(t) == NumeratorV(t, y, z)
  {
    hide Denominator;
    var u := Quotient(NumeratorU(t, y, z), Denominator(t));
    var v := Quotient(NumeratorV(t, y, z), Denominator(t));
  }

  lemma BlendIs(t: Triangle, k: Weights)
    ensures Blend(t, k).y == t.a.y * k.u + t.b.y * k.v + t.c.y * k.w
    ensures Blend(t, k).z == t.a.z * k.u + t.b.z * k.v + t.c.z * k.w
  {
  }

  lemma WeightsSolve(t: Triangle, y: real, z: real)
    requires Denominator(t) != 0.0
    ensures Blend(t, WeightsOf(t, y, z)).y == y && Blend(t, WeightsOf(t, y, z)).z == z
  {
    hide Denominator, NumeratorU, NumeratorV, FirstWeight, SecondWeight, Blend;
    var u, v, d := FirstWeight(t, y, z), SecondWeight(t, y, z), Denominator(t);
    WeightIs(t, y, z);
    var a, b, c, e := t.a.y - t.c.y, t.b.y - t.c.y, t.a.z - t.c.z, t.b.z - t.c.z;
    Shapes(t, y, z, a, b, c, e);
    Cramer(a, b, c, e, y - t.c.y, z - t.c.z, d, u, v);
    FromCorner(u, v, t.a.y, t.b.y, t.c.y, y);
    FromCorner(u, v, t.a.z, t.b.z, t.c.z, z);
    BlendIs(t, WeightsOf(t, y, z));
  }

  lemma Shapes(t: Triangle, y: real, z: real, a: real, b: real, c: real, e: real)
    requires a == t.a.y - t.c.y && b == t.b.y - t.c.y && c == t.a.z - t.c.z && e == t.b.z - t.c.z
    ensures Denominator(t) == b * c - e * a
    ensures NumeratorU(t, y, z) == b * (z - t.c.z) - e * (y - t.c.y)
    ensures NumeratorV(t, y, z) == c * (y - t.c.y) - a * (z - t.c.z)
  {
  }

  lemma FromCorner(u: real, v: real, a: real, b: real, c: real, y: real)
    ensures u * (a - c) + v * (b - c) == y - c <==> a * u + b * v + c * (1.0 - u - v) == y
  {
    assert u * (a - c) + v * (b - c) + c == a * u + b * v + c * (1.0 - u - v);
  }

  lemma WeightsUnique(t: Triangle, y: real, z: real, k: Weights)
    requires Denominator(t) != 0.0 && k.u + k.v + k.w == 1.0 && Blend(t, k).y == y && Blend(t, k).z == z
    ensures k == WeightsOf(t, y, z)
  {
    hide Denominator, NumeratorU, NumeratorV, FirstWeight, SecondWeight, Blend;
    var d := Denominator(t);
    var a, b, c, e := t.a.y - t.c.y, t.b.y - t.c.y, t.a.z - t.c.z, t.b.z - t.c.z;
    Shapes(t, y, z, a, b, c, e);
    BlendIs(t, k);
    assert k.w == 1.0 - k.u - k.v;
    FromCorner(k.u, k.v, t.a.y, t.b.y, t.c.y, y);
    FromCorner(k.u, k.v, t.a.z, t.b.z, t.c.z, z);
    CramerUnique(a, b, c, e, y - t.c.y, z - t.c.z, d, k.u, k.v);
    WeightIs(t, y, z);
    Cancel(k.u, FirstWeight(t, y, z), d);
    Cancel(k.v, SecondWeight(t, y, z), d);
  }

  /** The row through (y, z) is within the tolerance of the triangle's extent. */
  predicate InExtent(t: Triangle, y: real, z: real, epsilon: real) {
    && Near(Min3(t.a.y, t.b.y, t.c.y), Max3(t.a.y, t.b.y, t.c.y), y, epsilon)
    && Near(Min3(t.a.z, t.b.z, t.c.z), Max3(t.a.z, t.b.z, t.c.z), z, epsilon)
  }

  /** For every triangle that is not edge-on, a row crosses it at x exactly when it is within the extent and x is where
      it meets the triangle's plane at a point whose corner weights are within the tolerance of [0, 1]. */
  lemma CrossingLaw(t: Triangle, y: real, z: real, epsilon: real, x: real)
    requires epsilon >= 0.0 && Abs(Denominator(t)) > epsilon
    ensures Crossing(t, y, z, epsilon) == Some(x) <==>
      InExtent(t, y, z, epsilon) && exists k :: Inside(k, epsilon) && Blend(t, k) == Vec(x, y, z)
  {
    hide Denominator, FirstWeight, SecondWeight, Blend, Near, Min3, Max3;
    NotZero(Denominator(t), epsilon);
    var k0 := WeightsOf(t, y, z);
    WeightsSolve(t, y, z);
    CrossingIs(t, y, z, epsilon);
    if k :| Inside(k, epsilon) && Blend(t, k) == Vec(x, y, z) {
      WeightsUnique(t, y, z, k);
    }
    if Inside(k0, epsilon) {
      assert Blend(t, k0) == Vec(Blend(t, k0).x, y, z);
    }
  }

  lemma NotZero(d: real, epsilon: real)
    requires epsilon >= 0.0 && Abs(d) > epsilon
    ensures d != 0.0
  {
  }

  lemma CrossingIs(t: Triangle, y: real, z: real, epsilon: real)
    requires epsilon >= 0.0 && Abs(Denominator(t)) > epsilon && Denominator(t) != 0.0
    ensures
      var k := WeightsOf(t, y, z);
      Crossing(t, y, z, epsilon)
        == if InExtent(t, y, z, epsilon) && Inside(k, epsilon) then Some(Blend(t, k).x) else None
  {
    hide Denominator, FirstWeight, SecondWeight, Near, Blend, Min3, Max3, Mixed;
    var k := WeightsOf(t, y, z);
    Bounds3(k.u, k.v, k.w, epsilon);
    BlendX(t, k);
  }

  lemma BlendX(t: Triangle, k: Weights)
    ensures Blend(t, k).x == Mixed(t, k.u, k.v, k.w)
  {
  }

  lemma Bounds3(u: real, v: real, w: real, epsilon: real)
    ensures !(Min3(u, v, w) < -epsilon || Max3(u, v, w) > 1.0 + epsilon) <==>
      -epsilon <= u <= 1.0 + epsilon && -epsilon <= v <= 1.0 + epsilon && -epsilon <= w <= 1.0 + epsilon
  {
  }

  /** So a crossing lies on the triangle's plane. */
  lemma CrossingOnPlane(t: Triangle, y: real, z: real, epsilon: real)
    requires epsilon >= 0.0 && Crossing(t, y, z, epsilon).Some?
    ensures Dot(Cross(Sub(t.b, t.a), Sub(t.c, t.a)), Sub(Vec(Crossing(t, y, z, epsilon).value, y, z), t.a)) == 0.0
  {
    hide Blend, Denominator, Near;
    var x := Crossing(t, y, z, epsilon).value;
    CrossingLaw(t, y, z, epsilon, x);
    var k :| Inside(k, epsilon) && Blend(t, k) == Vec(x, y, z);
    BlendOnPlane(t, k);
  }

  lemma BlendOnPlane(t: Triangle, k: Weights)
    requires k.u + k.v + k.w == 1.0
    ensures Dot(Cross(Sub(t.b, t.a), Sub(t.c, t.a)), Sub(Blend(t, k), t.a)) == 0.0
  {
    var p, q := Sub(t.b, t.a), Sub(t.c, t.a);
    var r := Sub(Blend(t, k), t.a);
    BlendFromA(t, k);
    Coplanar(p, q, k.v, k.w);
    assert r == Add(Scale(p, k.v), Scale(q, k.w));
  }

  lemma BlendFromA(t: Triangle, k: Weights)
    requires k.u + k.v + k.w == 1.0
    ensures Sub(Blend(t, k), t.a) == Add(Scale(Sub(t.b, t.a), k.v), Scale(Sub(t.c, t.a), k.w))
  {
    FromA(t.a.x, t.b.x, t.c.x, k);
    FromA(t.a.y, t.b.y, t.c.y, k);
    FromA(t.a.z, t.b.z, t.c.z, k);
  }

  lemma FromA(a: real, b: real, c: real, k: Weights)
    requires k.u + k.v + k.w == 1.0
    ensures a * k.u + b * k.v + c * k.w - a == (b - a) * k.v + (c - a) * k.w
  {
    assert k.u == 1.0 - k.v - k.w;
  }

  /** A combination of two vectors is orthogonal to their cross product. */
  lemma Coplanar(p: Vec, q: Vec, v: real, w: real)
    ensures Dot(Cross(p, q), Add(Scale(p, v), Scale(q, w))) == 0.0
  {
    CrossOrthogonal(p, q);
    var n := Cross(p, q);
    assert Dot(n, Add(Scale(p, v), Scale(q, w))) == Dot(n, p) * v + Dot(n, q) * w by { DotLinear(n, p, q, v, w); }
  }

  lemma DotLinear(n: Vec, p: Vec, q: Vec, v: real, w: real)
    ensures Dot(n, Add(Scale(p, v), Scale(q, w))) == Dot(n, p) * v + Dot(n, q) * w
  {
  }

  lemma CrossOrthogonal(p: Vec, q: Vec)
    ensures Dot(Cross(p, q), p) == 0.0 && Dot(Cross(p, q), q) == 0.0
  {
  }

  // ---- The candidate rows lose nothing -----------------------------------------------------

  /** A cell whose centre is within one edge of a triangle's extent is among its candidates. */
  lemma CandidatesCoverNear(low: real, high: real, edge: real, n: nat, i: nat, least: real, most: real, epsilon: real)
    requires Tiles(low, high, edge, n) && i < n && 0.0 <= epsilon <= edge && Near(least, most, CellCenter(low, high, i, edge), epsilon)
    ensures FirstCandidate(least, low, edge) <= i < EndCandidate(most, low, n, edge)
  {
    hide CellCenter, FirstCandidate, EndCandidate;
    B.CenterInCell(low, high, edge, n, i);
    B.FirstCovers(low, edge, i, i as real * edge, least);
    B.EndCovers(low, edge, i, i as real * edge, most, n);
  }

  lemma EpsilonBelowEdge(edge: real)
    requires edge >= 0.000000000001
    ensures 0.0 <= ProjectionEpsilon(edge) <= edge
  {
  }

  /** In a grid whose edge is at least 1e-12 the candidate ranges leave out no crossing: a row gets a triangle's crossing
      exactly when the triangle is not edge-on and there is one. */
  lemma HitLaw(g: Grid, t: Triangle, iy: nat, iz: nat)
    requires ValidGrid(g) && g.edge >= 0.000000000001 && iy < g.shape.ny && iz < g.shape.nz
    ensures
      var epsilon := ProjectionEpsilon(g.edge);
      Hit(g, t, iy, iz)
        == if Abs(Denominator(t)) > epsilon && Crossing(t, CenterY(g, iy), CenterZ(g, iz), epsilon).Some?
           then [Crossing(t, CenterY(g, iy), CenterZ(g, iz), epsilon).value] else []
  {
    hide Denominator, ProjectionEpsilon, FirstCandidate, EndCandidate, FirstWeight, SecondWeight, Mixed, Min3, Max3, CellCenter, Near, Tiles;
    var epsilon := ProjectionEpsilon(g.edge);
    EpsilonBelowEdge(g.edge);
    if Near(Min3(t.a.y, t.b.y, t.c.y), Max3(t.a.y, t.b.y, t.c.y), CenterY(g, iy), epsilon) {
      CandidatesCoverNear(g.roi.minimum.y, g.roi.maximum.y, g.edge, g.shape.ny, iy, Min3(t.a.y, t.b.y, t.c.y), Max3(t.a.y, t.b.y, t.c.y), epsilon);
    }
    if Near(Min3(t.a.z, t.b.z, t.c.z), Max3(t.a.z, t.b.z, t.c.z), CenterZ(g, iz), epsilon) {
      CandidatesCoverNear(g.roi.minimum.z, g.roi.maximum.z, g.edge, g.shape.nz, iz, Min3(t.a.z, t.b.z, t.c.z), Max3(t.a.z, t.b.z, t.c.z), epsilon);
    }
  }

  // ---- Parity ------------------------------------------------------------------------------

  predicate Ascending(s: seq<real>) { forall i, k :: 0 <= i < k < |s| ==> s[i] <= s[k] }

  lemma AscendingAppend(s: seq<real>, x: real)
    ensures Ascending(s + [x]) <==> Ascending(s) && (s == [] || s[|s| - 1] <= x)
  {
    var t := s + [x];
    assert t[|s|] == x && forall i :: 0 <= i < |s| ==> t[i] == s[i];
    if Ascending(t) {
      assert s != [] ==> t[|s| - 1] <= t[|s|];
      forall i, k | 0 <= i < k < |s| ensures s[i] <= s[k] {
        assert t[i] <= t[k];
      }
    }
  }

  lemma {:induction false} InsertedAscends(x: real, s: seq<real>)
    requires Ascending(s)
    ensures Ascending(Inserted(x, s)) && multiset(Inserted(x, s)) == multiset(s) + multiset{x}
    ensures |Inserted(x, s)| == |s| + 1 && Inserted(x, s)[|s|] == if s == [] || s[|s| - 1] <= x then x else s[|s| - 1]
  {
    hide Ascending;
    AscendingAppend(s, x);
    if s != [] && x < s[|s| - 1] {
      var init, last := s[..|s| - 1], s[|s| - 1];
      assert s == init + [last];
      AscendingAppend(init, last);
      InsertedAscends(x, init);
      AscendingAppend(Inserted(x, init), last);
    } else if s == [] {
      AscendingAppend([], x);
      NothingAscends();
      assert [] + [x] == [x];
    }
  }

  lemma NothingAscends()
    ensures Ascending([])
  {
  }

  lemma {:induction false} SortedAscends(s: seq<real>)
    ensures Ascending(Sorted(s)) && multiset(Sorted(s)) == multiset(s)
  {
    if s != [] {
      var init, last := s[..|s| - 1], s[|s| - 1];
      assert s == init + [last];
      SortedAscends(init);
      InsertedAscends(last, Sorted(init));
    }
  }

  /** The values kept stand at these places: the first value, and then each that is further than epsilon from the last
      one kept; the values in between are not. */
  ghost predicate KeptAt(s: seq<real>, epsilon: real, kept: seq<real>, places: seq<nat>) {
    && |places| == |kept| && (s == [] <==> kept == [])
    && (kept != [] ==> places[0] == 0)
    && (forall k :: 0 <= k < |kept| ==> Keeps(s, epsilon, kept, places, k))
    && (forall k :: 0 <= k < |kept| - 1 ==> Abs(kept[k + 1] - kept[k]) > epsilon)
  }

  /** The place after the last that the k-th value kept stands for. */
  function Until(s: seq<real>, places: seq<nat>, k: nat): nat { if k + 1 < |places| then places[k + 1] else |s| }

  predicate Keeps(s: seq<real>, epsilon: real, kept: seq<real>, places: seq<nat>, k: nat)
    requires |places| == |kept| && k < |kept|
  {
    && places[k] < Until(s, places, k) <= |s| && s[places[k]] == kept[k]
    && forall i :: places[k] <= i < Until(s, places, k) ==> Abs(s[i] - kept[k]) <= epsilon
  }

  lemma {:induction false} DistinctLaw(s: seq<real>, epsilon: real) returns (places: seq<nat>)
    requires epsilon >= 0.0
    ensures KeptAt(s, epsilon, Distinct(s, epsilon), places)
  {
    if s == [] {
      places := [];
    } else {
      hide Distinct, KeptAt, Abs;
      var init, value := s[..|s| - 1], s[|s| - 1];
      assert s == init + [value];
      places := DistinctLaw(init, epsilon);
      var kept := Distinct(init, epsilon);
      B.DistinctLast(s, epsilon);
      if kept == [] || Abs(value - kept[|kept| - 1]) > epsilon {
        KeptAdded(init, value, epsilon, kept, places);
        places := places + [|init|];
      } else {
        KeptSame(init, value, epsilon, kept, places);
      }
    }
  }

  lemma KeptSame(init: seq<real>, value: real, epsilon: real, kept: seq<real>, places: seq<nat>)
    requires KeptAt(init, epsilon, kept, places) && kept != [] && Abs(value - kept[|kept| - 1]) <= epsilon
    ensures KeptAt(init + [value], epsilon, kept, places)
  {
    hide Abs;
    forall k | 0 <= k < |kept| ensures Keeps(init + [value], epsilon, kept, places, k) {
      assert Keeps(init, epsilon, kept, places, k);
    }
  }

  lemma KeptAdded(init: seq<real>, value: real, epsilon: real, kept: seq<real>, places: seq<nat>)
    requires epsilon >= 0.0 && KeptAt(init, epsilon, kept, places) && (kept == [] || Abs(value - kept[|kept| - 1]) > epsilon)
    ensures KeptAt(init + [value], epsilon, kept + [value], places + [|init|])
  {
    hide Abs, Keeps;
    var s, more, p, n := init + [value], kept + [value], places + [|init|], |kept|;
    KeepsLast(init, value, epsilon, kept, places);
    forall k | 0 <= k < |more| ensures Keeps(s, epsilon, more, p, k) {
      if k < n {
        KeepsStill(init, value, epsilon, kept, places, k);
      }
    }
    forall k | 0 <= k < |more| - 1 ensures Abs(more[k + 1] - more[k]) > epsilon {
      assert more[k] == kept[k] && (k + 1 < n ==> more[k + 1] == kept[k + 1]);
    }
  }

  lemma KeepsLast(init: seq<real>, value: real, epsilon: real, kept: seq<real>, places: seq<nat>)
    requires epsilon >= 0.0 && |places| == |kept|
    ensures Keeps(init + [value], epsilon, kept + [value], places + [|init|], |kept|)
  {
    hide Abs;
    SelfNear(value, epsilon);
  }

  lemma KeepsStill(init: seq<real>, value: real, epsilon: real, kept: seq<real>, places: seq<nat>, k: nat)
    requires |places| == |kept| && k < |kept| && Keeps(init, epsilon, kept, places, k)
    ensures Keeps(init + [value], epsilon, kept + [value], places + [|init|], k)
  {
    hide Abs;
    var p := places + [|init|];
    assert Until(init + [value], p, k) == Until(init, places, k);
  }

  lemma SelfNear(value: real, epsilon: real)
    requires epsilon >= 0.0
    ensures Abs(value - value) <= epsilon
  {
  }

  lemma {:induction false} CountIs(s: seq<real>, x: real)
    ensures CountAbove(s, x) == |set i | 0 <= i < |s| && s[i] > x|
  {
    var above := set i | 0 <= i < |s| && s[i] > x;
    if s != [] {
      var init, n := s[..|s| - 1], |s| - 1;
      CountIs(init, x);
      var before := set i | 0 <= i < |init| && init[i] > x;
      assert above == before + if s[n] > x then {n} else {};
    } else {
      assert above == {};
    }
  }

  /** The parity test of a row: sort the crossings, thin them out, and see whether an odd number of those kept lies
      beyond x by more than epsilon. */
  lemma OddLaw(row: seq<real>, x: real, epsilon: real) returns (sorted: seq<real>, kept: seq<real>, places: seq<nat>)
    requires epsilon >= 0.0
    ensures Ascending(sorted) && multiset(sorted) == multiset(row) && KeptAt(sorted, epsilon, kept, places)
    ensures Odd(row, x, epsilon) <==> |set i | 0 <= i < |kept| && kept[i] > x + epsilon| % 2 == 1
  {
    hide Sorted, Distinct, CountAbove, KeptAt;
    sorted, kept := Sorted(row), Distinct(Sorted(row), epsilon);
    SortedAscends(row);
    places := DistinctLaw(sorted, epsilon);
    CountIs(kept, x + epsilon);
  }
}
