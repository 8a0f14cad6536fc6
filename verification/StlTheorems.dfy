/** The canonical mesh does not depend on the order of the triangles or on which corner each starts from. */
module StlTheorems {
  import opened Wrappers
  import opened Geometry
  import opened StlCanonical

  // ---- Rotation --------------------------------------------------------------------------

  function Turned(t: Triangle): Triangle { Triangle(t.b, t.c, t.a) }

  function TurnedKeys(k: Keyed): Keyed { Keyed(k.second, k.third, k.first) }

  predicate SameCycle(t: Triangle, u: Triangle) { u == t || u == Turned(t) || u == Turned(Turned(t)) }

  predicate SameKeyCycle(k: Keyed, l: Keyed) { l == k || l == TurnedKeys(k) || l == TurnedKeys(TurnedKeys(k)) }

  /** Each triangle may start from another of its corners. */
  predicate TurnedEach(ts: seq<Triangle>, us: seq<Triangle>) {
    |ts| == |us| && forall i :: 0 <= i < |ts| ==> SameCycle(ts[i], us[i])
  }

  predicate KeysTurnedEach(ks: seq<Keyed>, ls: seq<Keyed>) {
    |ks| == |ls| && forall i :: 0 <= i < |ks| ==> SameKeyCycle(ks[i], ls[i])
  }

  lemma CrossTurns(a: Vec, b: Vec, c: Vec)
    ensures Cross(Sub(b, a), Sub(c, a)) == Cross(Sub(c, b), Sub(a, b))
  {
    CrossComponent(a.y, a.z, b.y, b.z, c.y, c.z);
    CrossComponent(a.z, a.x, b.z, b.x, c.z, c.x);
    CrossComponent(a.x, a.y, b.x, b.y, c.x, c.y);
  }

  lemma CrossComponent(a: real, p: real, b: real, q: real, c: real, r: real)
    ensures (b - a) * (r - p) - (q - p) * (c - a) == (c - b) * (p - q) - (r - q) * (a - b)
  {
  }

  lemma SoundTurns(k: Keyed, epsilon: real)
    ensures Sound(TurnedKeys(k), epsilon) <==> Sound(k, epsilon)
  {
    hide Cross, Coordinate;
    CrossTurns(Coordinate(k.first, epsilon), Coordinate(k.second, epsilon), Coordinate(k.third, epsilon));
  }

  lemma SoundCycle(k: Keyed, l: Keyed, epsilon: real)
    requires SameKeyCycle(k, l)
    ensures Sound(l, epsilon) <==> Sound(k, epsilon)
  {
    hide Sound;
    SoundTurns(k, epsilon);
    SoundTurns(TurnedKeys(k), epsilon);
  }

  lemma {:induction false} KeptTurned(ts: seq<Triangle>, us: seq<Triangle>, epsilon: real)
    requires TurnedEach(ts, us) && epsilon > 0.0
    ensures KeysTurnedEach(Kept(ts, epsilon), Kept(us, epsilon))
  {
    hide Sound, KeyOf;
    if ts != [] {
      var n := |ts| - 1;
      KeptTurned(ts[..n], us[..n], epsilon);
      SoundCycle(KeyedOf(ts[n], epsilon), KeyedOf(us[n], epsilon), epsilon);
    }
  }

  lemma {:induction false} WeldedTurned(ts: seq<Triangle>, us: seq<Triangle>, epsilon: real)
    requires TurnedEach(ts, us) && epsilon > 0.0
    ensures Welded(ts, epsilon) == Welded(us, epsilon)
  {
    hide KeyOf;
    if ts != [] {
      WeldedTurned(ts[..|ts| - 1], us[..|ts| - 1], epsilon);
      var k, l := KeyedOf(ts[|ts| - 1], epsilon), KeyedOf(us[|ts| - 1], epsilon);
      assert {k.first, k.second, k.third} == {l.first, l.second, l.third};
    }
  }

  // ---- Which keys are used ---------------------------------------------------------------

  predicate Touches(k: Keyed, x: Triple) { x == k.first || x == k.second || x == k.third }

  predicate Uses(ks: seq<Keyed>, x: Triple) { exists i :: 0 <= i < |ks| && Touches(ks[i], x) }

  lemma {:induction false} CornersAre(ks: seq<Keyed>, x: Triple)
    ensures x in Corners(ks) <==> Uses(ks, x)
  {
    hide Uses;
    if ks == [] {
      UsesNone(x);
    } else {
      var n := |ks| - 1;
      CornersAre(ks[..n], x);
      UsesOne(ks, x);
    }
  }

  lemma UsesNone(x: Triple)
    ensures !Uses([], x)
  {
  }

  lemma UsesOne(ks: seq<Keyed>, x: Triple)
    requires ks != []
    ensures Uses(ks, x) <==> Uses(ks[..|ks| - 1], x) || Touches(ks[|ks| - 1], x)
  {
    hide Touches;
    var n := |ks| - 1;
    assert forall i :: 0 <= i < n ==> ks[..n][i] == ks[i];
  }

  function UsedKeys(ks: seq<Keyed>): seq<Triple> { Unique(Sort(Corners(ks))) }

  /** The used keys, strictly ascending and exactly the corners. */
  lemma UsedAre(ks: seq<Keyed>)
    ensures Strict(UsedKeys(ks)) && forall x :: x in UsedKeys(ks) <==> Uses(ks, x)
  {
    hide Sort, Unique, Ascending, Strict, Corners, Touches;
    var c := Corners(ks);
    SortSorts(c);
    UniqueStrict(Sort(c));
    forall x ensures x in UsedKeys(ks) <==> Uses(ks, x) {
      CornersAre(ks, x);
      assert x in Sort(c) <==> x in multiset(Sort(c));
      assert x in c <==> x in multiset(c);
    }
  }

  lemma UsedSame(ks: seq<Keyed>, ls: seq<Keyed>)
    requires forall x :: Uses(ks, x) <==> Uses(ls, x)
    ensures UsedKeys(ks) == UsedKeys(ls)
  {
    hide UsedKeys, Touches, Strict;
    UsedAre(ks);
    UsedAre(ls);
    StrictUnique(UsedKeys(ks), UsedKeys(ls));
  }

  lemma UsedTurned(ks: seq<Keyed>, ls: seq<Keyed>)
    requires KeysTurnedEach(ks, ls)
    ensures UsedKeys(ks) == UsedKeys(ls)
  {
    hide UsedKeys;
    forall x ensures Uses(ks, x) <==> Uses(ls, x) {
      assert forall i :: 0 <= i < |ks| ==> (Touches(ks[i], x) <==> Touches(ls[i], x));
    }
    UsedSame(ks, ls);
  }

  // ---- Faces -----------------------------------------------------------------------------

  lemma FaceTurned(keys: seq<Triple>, k: Keyed, l: Keyed)
    requires SameKeyCycle(k, l)
    ensures FaceOf(keys, k) == FaceOf(keys, l)
  {
    hide CanonicalCycle, IndexIn;
    CycleRotation(Triple(IndexIn(keys, k.first), IndexIn(keys, k.second), IndexIn(keys, k.third)),
                  Triple(IndexIn(keys, l.first), IndexIn(keys, l.second), IndexIn(keys, l.third)));
  }

  lemma {:induction false} FacesTurned(keys: seq<Triple>, ks: seq<Keyed>, ls: seq<Keyed>)
    requires KeysTurnedEach(ks, ls)
    ensures FacesOf(keys, ks) == FacesOf(keys, ls)
  {
    hide FaceOf;
    if ks != [] {
      FacesTurned(keys, ks[..|ks| - 1], ls[..|ks| - 1]);
      FaceTurned(keys, ks[|ks| - 1], ls[|ks| - 1]);
    }
  }

  /** Turning any of the triangles changes nothing. */
  lemma TurnInvariant(ts: seq<Triangle>, us: seq<Triangle>, epsilon: real, maximumWelded: nat)
    requires TurnedEach(ts, us) && epsilon > 0.0
    ensures Canonicalize(ts, epsilon, maximumWelded) == Canonicalize(us, epsilon, maximumWelded)
  {
    hide Sort, Unique, Corners, Kept, FacesOf, Welded, KeysTurnedEach;
    var ks, ls := Kept(ts, epsilon), Kept(us, epsilon);
    WeldedTurned(ts, us, epsilon);
    KeptTurned(ts, us, epsilon);
    TurnedLength(ks, ls);
    UsedTurned(ks, ls);
    FacesTurned(UsedKeys(ks), ks, ls);
  }

  lemma TurnedLength(ks: seq<Keyed>, ls: seq<Keyed>)
    requires KeysTurnedEach(ks, ls)
    ensures |ks| == |ls|
  {
  }

  // ---- Order -----------------------------------------------------------------------------

  lemma {:induction false} KeptAppend(a: seq<Triangle>, b: seq<Triangle>, epsilon: real)
    requires epsilon > 0.0
    ensures Kept(a + b, epsilon) == Kept(a, epsilon) + Kept(b, epsilon)
  {
    hide Sound, KeyedOf;
    if b == [] {
      assert a + b == a;
    } else {
      assert (a + b)[..|a + b| - 1] == a + b[..|b| - 1];
      KeptAppend(a, b[..|b| - 1], epsilon);
    }
  }

  lemma {:induction false} FacesAppend(keys: seq<Triple>, a: seq<Keyed>, b: seq<Keyed>)
    ensures FacesOf(keys, a + b) == FacesOf(keys, a) + FacesOf(keys, b)
  {
    hide FaceOf;
    if b == [] {
      assert a + b == a;
    } else {
      assert (a + b)[..|a + b| - 1] == a + b[..|b| - 1];
      FacesAppend(keys, a, b[..|b| - 1]);
    }
  }

  /** Splitting a rearrangement around one element. */
  lemma Around<T>(s: seq<T>, t: seq<T>) returns (a: seq<T>, b: seq<T>)
    requires multiset(s) == multiset(t) && s != []
    ensures t == a + [s[|s| - 1]] + b && multiset(s[..|s| - 1]) == multiset(a + b)
  {
    var n := |s| - 1;
    assert s == s[..n] + [s[n]];
    assert s[n] in multiset(t);
    var j :| 0 <= j < |t| && t[j] == s[n];
    a, b := t[..j], t[j + 1..];
    assert t == a + [s[n]] + b;
    assert multiset(t) == multiset(a) + multiset{s[n]} + multiset(b);
    assert multiset(s) == multiset(s[..n]) + multiset{s[n]};
    assert multiset(a + b) == multiset(a) + multiset(b);
    assert multiset(s[..n]) == multiset(s) - multiset{s[n]};
    assert multiset(a) + multiset(b) == multiset(t) - multiset{s[n]};
  }

  lemma {:induction false} KeptReordered(ts: seq<Triangle>, us: seq<Triangle>, epsilon: real)
    requires multiset(ts) == multiset(us) && epsilon > 0.0
    ensures multiset(Kept(ts, epsilon)) == multiset(Kept(us, epsilon))
    decreases |ts|
  {
    if ts == [] {
      assert |multiset(us)| == 0;
    } else {
      hide Kept;
      var n := |ts| - 1;
      var a, b := Around(ts, us);
      KeptReordered(ts[..n], a + b, epsilon);
      assert ts == ts[..n] + [ts[n]];
      KeptAppend(ts[..n], [ts[n]], epsilon);
      KeptAppend(a, b, epsilon);
      KeptAppend(a, [ts[n]], epsilon);
      KeptAppend(a + [ts[n]], b, epsilon);
    }
  }

  lemma {:induction false} FacesReordered(keys: seq<Triple>, ks: seq<Keyed>, ls: seq<Keyed>)
    requires multiset(ks) == multiset(ls)
    ensures multiset(FacesOf(keys, ks)) == multiset(FacesOf(keys, ls))
    decreases |ks|
  {
    if ks == [] {
      assert |multiset(ls)| == 0;
    } else {
      hide FacesOf;
      var n := |ks| - 1;
      var a, b := Around(ks, ls);
      FacesReordered(keys, ks[..n], a + b);
      assert ks == ks[..n] + [ks[n]];
      FacesAppend(keys, ks[..n], [ks[n]]);
      FacesAppend(keys, a, b);
      FacesAppend(keys, a, [ks[n]]);
      FacesAppend(keys, a + [ks[n]], b);
    }
  }

  lemma UsedReordered(ks: seq<Keyed>, ls: seq<Keyed>)
    requires multiset(ks) == multiset(ls)
    ensures UsedKeys(ks) == UsedKeys(ls)
  {
    hide UsedKeys, Touches;
    forall x ensures Uses(ks, x) <==> Uses(ls, x) {
      if i :| 0 <= i < |ks| && Touches(ks[i], x) {
        assert ks[i] in multiset(ls);
      }
      if i :| 0 <= i < |ls| && Touches(ls[i], x) {
        assert ls[i] in multiset(ks);
      }
    }
    UsedSame(ks, ls);
  }

  lemma {:induction false} WeldedAre(ts: seq<Triangle>, epsilon: real, x: Triple)
    requires epsilon > 0.0
    ensures x in Welded(ts, epsilon) <==> exists t <- ts :: Touches(KeyedOf(t, epsilon), x)
  {
    hide KeyedOf;
    if ts != [] {
      var n := |ts| - 1;
      WeldedAre(ts[..n], epsilon, x);
      assert ts == ts[..n] + [ts[n]];
    }
  }

  lemma WeldedReordered(ts: seq<Triangle>, us: seq<Triangle>, epsilon: real)
    requires multiset(ts) == multiset(us) && epsilon > 0.0
    ensures Welded(ts, epsilon) == Welded(us, epsilon)
  {
    hide Welded, Touches;
    forall t ensures t in ts <==> t in us {
      assert t in ts <==> t in multiset(ts);
      assert t in us <==> t in multiset(us);
    }
    forall x ensures x in Welded(ts, epsilon) <==> x in Welded(us, epsilon) {
      WeldedAre(ts, epsilon, x);
      WeldedAre(us, epsilon, x);
    }
  }

  /** Reordering the triangles changes nothing. */
  lemma OrderInvariant(ts: seq<Triangle>, us: seq<Triangle>, epsilon: real, maximumWelded: nat)
    requires multiset(ts) == multiset(us) && epsilon > 0.0
    ensures Canonicalize(ts, epsilon, maximumWelded) == Canonicalize(us, epsilon, maximumWelded)
  {
    hide Sort, Unique, Corners, Kept, FacesOf, Welded;
    var ks, ls := Kept(ts, epsilon), Kept(us, epsilon);
    WeldedReordered(ts, us, epsilon);
    KeptReordered(ts, us, epsilon);
    assert |ks| == |multiset(ks)| == |multiset(ls)| == |ls|;
    UsedReordered(ks, ls);
    FacesReordered(UsedKeys(ks), ks, ls);
    SortUnique(FacesOf(UsedKeys(ks), ks), FacesOf(UsedKeys(ks), ls));
  }

  /** Turn any of the triangles, then put them in any order: the canonical mesh is the same, and so is whether
      there is one. */
  lemma CanonicalInvariant(ts: seq<Triangle>, turned: seq<Triangle>, us: seq<Triangle>, epsilon: real, maximumWelded: nat)
    requires TurnedEach(ts, turned) && multiset(turned) == multiset(us) && epsilon > 0.0
    ensures Canonicalize(ts, epsilon, maximumWelded) == Canonicalize(us, epsilon, maximumWelded)
  {
    hide Canonicalize;
    TurnInvariant(ts, turned, epsilon, maximumWelded);
    OrderInvariant(turned, us, epsilon, maximumWelded);
  }

  // ---- What the canonical mesh is --------------------------------------------------------

  lemma {:induction false} IndexFinds(keys: seq<Triple>, k: Triple)
    requires k in keys
    ensures 0 <= IndexIn(keys, k) < |keys| && keys[IndexIn(keys, k)] == k
  {
    var n := |keys| - 1;
    if keys[n] != k {
      assert keys == keys[..n] + [keys[n]];
      IndexFinds(keys[..n], k);
    }
  }

  /** The face of a kept triangle, read back through the keys, is that triangle up to a turn. */
  lemma FaceReadsBack(ks: seq<Keyed>, i: nat)
    requires i < |ks|
    ensures
      var keys, f := UsedKeys(ks), FaceOf(UsedKeys(ks), ks[i]);
      && 0 <= f.a < |keys| && 0 <= f.b < |keys| && 0 <= f.c < |keys|
      && SameKeyCycle(ks[i], Keyed(keys[f.a], keys[f.b], keys[f.c]))
  {
    hide UsedKeys, Strict, IndexIn;
    var keys, k := UsedKeys(ks), ks[i];
    UsedAre(ks);
    assert Touches(ks[i], k.first) && Touches(ks[i], k.second) && Touches(ks[i], k.third);
    IndexFinds(keys, k.first);
    IndexFinds(keys, k.second);
    IndexFinds(keys, k.third);
  }

  /** Vertices come in strictly ascending order of their keys, faces in ascending order. */
  lemma CanonicalOrder(ts: seq<Triangle>, epsilon: real, maximumWelded: nat)
    requires epsilon > 0.0 && Canonicalize(ts, epsilon, maximumWelded).Some?
    ensures
      var c := Canonicalize(ts, epsilon, maximumWelded).value;
      Strict(c.keys) && Ascending(c.faces) && multiset(c.faces) == multiset(FacesOf(c.keys, Kept(ts, epsilon)))
  {
    hide Sort, Unique, Corners, Kept, FacesOf, Welded, Strict, Ascending;
    var ks := Kept(ts, epsilon);
    UsedAre(ks);
    SortSorts(FacesOf(UsedKeys(ks), ks));
  }

  // ---- As it runs ------------------------------------------------------------------------

  /** The first loop: every vertex to its key, every key to its coordinate. */
  method WeldAll(ts: seq<Triangle>, epsilon: real) returns (welded: map<Triple, Vec>, keyed: seq<Keyed>)
    requires epsilon > 0.0
    ensures |keyed| == |ts| && forall i :: 0 <= i < |ts| ==> keyed[i] == KeyedOf(ts[i], epsilon)
    ensures welded.Keys == Welded(ts, epsilon) && forall k <- welded :: welded[k] == Coordinate(k, epsilon)
  {
    hide KeyedOf, Coordinate;
    welded, keyed := map[], [];
    for n := 0 to |ts|
      invariant |keyed| == n && forall i :: 0 <= i < n ==> keyed[i] == KeyedOf(ts[i], epsilon)
      invariant welded.Keys == Welded(ts[..n], epsilon)
      invariant forall k <- welded :: welded[k] == Coordinate(k, epsilon)
    {
      assert ts[..n + 1][..n] == ts[..n];
      var k := KeyedOf(ts[n], epsilon);
      welded := welded[k.first := Coordinate(k.first, epsilon)];
      welded := welded[k.second := Coordinate(k.second, epsilon)];
      welded := welded[k.third := Coordinate(k.third, epsilon)];
      keyed := keyed + [k];
    }
    assert ts[..|ts|] == ts;
  }

  /** The second loop: drop degenerate triangles. */
  method DropDegenerate(ts: seq<Triangle>, keyed: seq<Keyed>, epsilon: real) returns (kept: seq<Keyed>)
    requires epsilon > 0.0 && |keyed| == |ts| && forall i :: 0 <= i < |ts| ==> keyed[i] == KeyedOf(ts[i], epsilon)
    ensures kept == Kept(ts, epsilon)
  {
    hide KeyedOf, Sound;
    kept := [];
    for n := 0 to |keyed|
      invariant kept == Kept(ts[..n], epsilon)
    {
      assert ts[..n + 1][..n] == ts[..n];
      if Sound(keyed[n], epsilon) {
        kept := kept + [keyed[n]];
      }
    }
    assert ts[..|ts|] == ts;
  }

  method IndexFaces(keys: seq<Triple>, kept: seq<Keyed>) returns (faces: seq<Triple>)
    ensures faces == FacesOf(keys, kept)
  {
    hide FaceOf;
    faces := [];
    for n := 0 to |kept|
      invariant faces == FacesOf(keys, kept[..n])
    {
      assert kept[..n + 1][..n] == kept[..n];
      faces := faces + [FaceOf(keys, kept[n])];
    }
    assert kept[..|kept|] == kept;
  }

  /** The welding part of parse_stl, from triangles to vertices and faces. */
  method CanonicalMesh(ts: seq<Triangle>, epsilon: real, maximumWelded: nat)
    returns (r: Option<(seq<Vec>, seq<Triple>)>)
    requires epsilon > 0.0
    ensures
      match Canonicalize(ts, epsilon, maximumWelded)
      case None => r.None?
      case Some(c) =>
        && r.Some? && r.value.1 == c.faces && |r.value.0| == |c.keys|
        && forall i :: 0 <= i < |c.keys| ==> r.value.0[i] == Coordinate(c.keys[i], epsilon)
  {
    hide Sort, Unique, Corners, Kept, FacesOf, Welded, KeyedOf, Coordinate;
    var welded, keyed := WeldAll(ts, epsilon);
    if |welded.Keys| > maximumWelded {
      return None;
    }
    var kept := DropDegenerate(ts, keyed, epsilon);
    if kept == [] {
      return None;
    }
    var keys := UsedKeys(kept);
    var faces := IndexFaces(keys, kept);
    var vertices := seq(|keys|, i requires 0 <= i < |keys| => Coordinate(keys[i], epsilon));
    return Some((vertices, Sort(faces)));
  }
}
