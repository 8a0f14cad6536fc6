/** What the canonical mesh of a triangle list is, said of the triangles (geometry/stl_mesh.py, parse_stl). */
module StlLaws {
  import opened Wrappers
  import opened Geometry
  import opened StlCanonical
  import opened StlTheorems
  import opened StlRoundTrip

  /** The corner's place on the weld grid. */
  function Welds(v: Vec, epsilon: real): Vec
    requires epsilon > 0.0
  {
    Coordinate(KeyOf(v, epsilon), epsilon)
  }

  /** Three different corners on the weld grid, spanning a parallelogram of more than epsilon squared. */
  predicate Proper(t: Triangle, epsilon: real)
    requires epsilon > 0.0
  {
    && KeyOf(t.a, epsilon) != KeyOf(t.b, epsilon) && KeyOf(t.b, epsilon) != KeyOf(t.c, epsilon) && KeyOf(t.c, epsilon) != KeyOf(t.a, epsilon)
    && var n := Cross(Sub(Welds(t.b, epsilon), Welds(t.a, epsilon)), Sub(Welds(t.c, epsilon), Welds(t.a, epsilon)));
       Dot(n, n) > (epsilon * epsilon) * (epsilon * epsilon)
  }

  lemma ProperIs(t: Triangle, epsilon: real)
    requires epsilon > 0.0
    ensures Proper(t, epsilon) <==> Sound(KeyedOf(t, epsilon), epsilon)
  {
    hide Cross, Dot, Coordinate, KeyOf;
  }

  predicate HasCorner(t: Triangle, epsilon: real, x: Triple)
    requires epsilon > 0.0
  {
    x == KeyOf(t.a, epsilon) || x == KeyOf(t.b, epsilon) || x == KeyOf(t.c, epsilon)
  }

  /** The face's first corner is its least, and through the keys it is the triangle up to a turn. */
  predicate Draws(keys: seq<Triple>, f: Triple, t: Triangle, epsilon: real)
    requires epsilon > 0.0
  {
    && InRange(keys, f) && f.a < f.b && f.a < f.c
    && SameKeyCycle(Keyed(KeyOf(t.a, epsilon), KeyOf(t.b, epsilon), KeyOf(t.c, epsilon)), Keyed(keys[f.a], keys[f.b], keys[f.c]))
  }

  /** How many proper triangles the face draws. */
  function Drawn(ts: seq<Triangle>, epsilon: real, keys: seq<Triple>, f: Triple): nat
    requires epsilon > 0.0
  {
    if ts == [] then 0
    else
      var t := ts[|ts| - 1];
      Drawn(ts[..|ts| - 1], epsilon, keys, f) + if Proper(t, epsilon) && Draws(keys, f, t, epsilon) then 1 else 0
  }

  predicate ProperCorner(ts: seq<Triangle>, epsilon: real, x: Triple)
    requires epsilon > 0.0
  {
    exists i :: 0 <= i < |ts| && Proper(ts[i], epsilon) && HasCorner(ts[i], epsilon, x)
  }

  lemma ProperCornerNext(init: seq<Triangle>, t: Triangle, epsilon: real, x: Triple)
    requires epsilon > 0.0
    ensures ProperCorner(init + [t], epsilon, x) <==> ProperCorner(init, epsilon, x) || (Proper(t, epsilon) && HasCorner(t, epsilon, x))
  {
    hide Proper, HasCorner;
    var ts := init + [t];
    assert ts[|init|] == t && forall i :: 0 <= i < |init| ==> ts[i] == init[i];
    if ProperCorner(init, epsilon, x) {
      var i :| 0 <= i < |init| && Proper(init[i], epsilon) && HasCorner(init[i], epsilon, x);
      assert Proper(ts[i], epsilon) && HasCorner(ts[i], epsilon, x);
    }
    if Proper(t, epsilon) && HasCorner(t, epsilon, x) {
      assert Proper(ts[|init|], epsilon);
    }
  }

  lemma KeptNext(init: seq<Triangle>, t: Triangle, epsilon: real)
    requires epsilon > 0.0
    ensures Kept(init + [t], epsilon) == Kept(init, epsilon) + if Proper(t, epsilon) then [KeyedOf(t, epsilon)] else []
  {
    hide Sound, Proper, KeyedOf;
    assert (init + [t])[..|init|] == init;
    ProperIs(t, epsilon);
  }

  lemma UsesNext(ks: seq<Keyed>, k: Keyed, x: Triple)
    ensures Uses(ks + [k], x) <==> Uses(ks, x) || Touches(k, x)
  {
    hide Uses, Touches;
    assert (ks + [k])[..|ks|] == ks;
    UsesOne(ks + [k], x);
  }

  lemma {:induction false} KeptUses(ts: seq<Triangle>, epsilon: real, x: Triple)
    requires epsilon > 0.0
    ensures Uses(Kept(ts, epsilon), x) <==> ProperCorner(ts, epsilon, x)
  {
    if ts == [] {
      UsesNone(x);
      NothingKept(epsilon);
    } else {
      hide Kept, Uses, ProperCorner, Proper, KeyOf;
      var init, t := ts[..|ts| - 1], ts[|ts| - 1];
      assert ts == init + [t];
      KeptUses(init, epsilon, x);
      KeptNext(init, t, epsilon);
      ProperCornerNext(init, t, epsilon, x);
      if Proper(t, epsilon) {
        UsesNext(Kept(init, epsilon), KeyedOf(t, epsilon), x);
      } else {
        assert Kept(init, epsilon) + [] == Kept(init, epsilon);
      }
    }
  }

  lemma {:induction false} KeptEmpty(ts: seq<Triangle>, epsilon: real)
    requires epsilon > 0.0
    ensures Kept(ts, epsilon) == [] <==> forall i :: 0 <= i < |ts| ==> !Proper(ts[i], epsilon)
  {
    if ts == [] {
      NothingKept(epsilon);
    } else {
      hide Kept, Proper, KeyedOf;
      var init, t := ts[..|ts| - 1], ts[|ts| - 1];
      assert ts == init + [t] && forall i :: 0 <= i < |init| ==> init[i] == ts[i];
      KeptEmpty(init, epsilon);
      KeptNext(init, t, epsilon);
    }
  }

  lemma LeastFirst(i: int, j: int, k: int)
    requires i != j && j != k && k != i
    ensures
      var f := CanonicalCycle(Triple(i, j, k));
      f.a < f.b && f.a < f.c && (f == Triple(i, j, k) || f == Rotated(Triple(i, j, k)) || f == Rotated(Rotated(Triple(i, j, k))))
  {
  }

  lemma LeastIsSelf(f: Triple)
    requires f.a < f.b && f.a < f.c
    ensures CanonicalCycle(f) == f
  {
  }

  /** A proper triangle's face is the one that draws it. */
  lemma FaceDraws(keys: seq<Triple>, t: Triangle, epsilon: real, f: Triple)
    requires epsilon > 0.0 && Strict(keys) && Proper(t, epsilon) && forall x :: HasCorner(t, epsilon, x) ==> x in keys
    ensures FaceOf(keys, KeyedOf(t, epsilon)) == f <==> Draws(keys, f, t, epsilon)
  {
    hide Strict, IndexIn, CanonicalCycle, KeyOf;
    var k := KeyedOf(t, epsilon);
    assert HasCorner(t, epsilon, k.first) && HasCorner(t, epsilon, k.second) && HasCorner(t, epsilon, k.third);
    IndexFinds(keys, k.first);
    IndexFinds(keys, k.second);
    IndexFinds(keys, k.third);
    LeastFirst(IndexIn(keys, k.first), IndexIn(keys, k.second), IndexIn(keys, k.third));
    if Draws(keys, f, t, epsilon) {
      StrictIndex(keys, f.a);
      StrictIndex(keys, f.b);
      StrictIndex(keys, f.c);
      LeastIsSelf(f);
      var g := Triple(IndexIn(keys, k.first), IndexIn(keys, k.second), IndexIn(keys, k.third));
      CycleRotation(g, f);
      CycleRotation(f, g);
    }
  }

  lemma {:induction false} FacesDrawn(keys: seq<Triple>, ts: seq<Triangle>, epsilon: real, f: Triple)
    requires epsilon > 0.0 && Strict(keys) && forall x :: ProperCorner(ts, epsilon, x) ==> x in keys
    ensures multiset(FacesOf(keys, Kept(ts, epsilon)))[f] == Drawn(ts, epsilon, keys, f)
  {
    if ts != [] {
      hide Strict, Proper, HasCorner, ProperCorner, FaceOf, KeyedOf, Draws, Kept;
      var init, t := ts[..|ts| - 1], ts[|ts| - 1];
      assert ts == init + [t];
      forall x ensures ProperCorner(init, epsilon, x) || (Proper(t, epsilon) && HasCorner(t, epsilon, x)) ==> x in keys {
        ProperCornerNext(init, t, epsilon, x);
      }
      FacesDrawn(keys, init, epsilon, f);
      KeptNext(init, t, epsilon);
      if Proper(t, epsilon) {
        FaceDraws(keys, t, epsilon, f);
        FacesAppend(keys, Kept(init, epsilon), [KeyedOf(t, epsilon)]);
        FacesOne(keys, KeyedOf(t, epsilon));
      } else {
        assert Kept(init, epsilon) + [] == Kept(init, epsilon);
      }
    } else {
      NothingKept(epsilon);
    }
  }

  lemma NothingKept(epsilon: real)
    requires epsilon > 0.0
    ensures Kept([], epsilon) == []
  {
  }

  lemma FacesOne(keys: seq<Triple>, k: Keyed)
    ensures FacesOf(keys, [k]) == [FaceOf(keys, k)]
  {
    hide FaceOf;
    assert [k][..0] == [];
    assert FacesOf(keys, []) == [];
  }

  /** The canonical mesh of a triangle list: there is one exactly when its corners weld to few enough points and some
      triangle is proper; its vertices are the corners of the proper triangles, each once and in order; and its faces,
      in order, are one for each proper triangle, starting at the least corner and turning the same way. */
  lemma StlLaw(ts: seq<Triangle>, epsilon: real, maximumWelded: nat)
    requires epsilon > 0.0
    ensures
      var r := Canonicalize(ts, epsilon, maximumWelded);
      && (r.Some? <==> |Welded(ts, epsilon)| <= maximumWelded && exists i :: 0 <= i < |ts| && Proper(ts[i], epsilon))
      && (r.Some? ==>
            && Strict(r.value.keys) && (forall x :: x in r.value.keys <==> ProperCorner(ts, epsilon, x))
            && Ascending(r.value.faces) && forall f :: multiset(r.value.faces)[f] == Drawn(ts, epsilon, r.value.keys, f))
  {
    hide Sort, Unique, Corners, Kept, FacesOf, Welded, Strict, Ascending, Proper, ProperCorner, Uses;
    KeptEmpty(ts, epsilon);
    if Canonicalize(ts, epsilon, maximumWelded).Some? {
      CanonicalOrder(ts, epsilon, maximumWelded);
      var ks := Kept(ts, epsilon);
      UsedAre(ks);
      forall x ensures x in UsedKeys(ks) <==> ProperCorner(ts, epsilon, x) {
        KeptUses(ts, epsilon, x);
      }
      forall f ensures multiset(FacesOf(UsedKeys(ks), ks))[f] == Drawn(ts, epsilon, UsedKeys(ks), f) {
        FacesDrawn(UsedKeys(ks), ts, epsilon, f);
      }
    }
  }

  /** Halfway between two points of the grid a coordinate is welded away from zero. */
  lemma WeldAway(value: real, epsilon: real)
    requires epsilon > 0.0
    ensures
      var scaled, n := value / epsilon, WeldIndex(value, epsilon) as real;
      && (n - scaled == 0.5 || n - scaled == -0.5 ==> if scaled >= 0.0 then n > scaled else n < scaled)
      && -0.5 <= n - scaled <= 0.5
  {
    Nearest(value / epsilon);
  }

  lemma Nearest(x: real)
    ensures x >= 0.0 ==> -0.5 < (x + 0.5).Floor as real - x <= 0.5
    ensures x < 0.0 ==> -0.5 <= (-((0.5 - x).Floor)) as real - x < 0.5
  {
  }
}
