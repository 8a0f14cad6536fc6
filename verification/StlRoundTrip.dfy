/** A canonical mesh is its own canonical form: writing its triangles out and reading them back changes nothing. */
module StlRoundTrip {
  import opened Wrappers
  import opened Geometry
  import opened StlCanonical
  import opened StlTheorems

  /** A face's triangle, with vertices at their keys' coordinates. */
  function Exported(keys: seq<Triple>, f: Triple, epsilon: real): Triangle
    requires InRange(keys, f)
  {
    Triangle(Coordinate(keys[f.a], epsilon), Coordinate(keys[f.b], epsilon), Coordinate(keys[f.c], epsilon))
  }

  predicate InRange(keys: seq<Triple>, f: Triple) { 0 <= f.a < |keys| && 0 <= f.b < |keys| && 0 <= f.c < |keys| }

  predicate AllInRange(keys: seq<Triple>, faces: seq<Triple>) { forall i :: 0 <= i < |faces| ==> InRange(keys, faces[i]) }

  function Export(keys: seq<Triple>, faces: seq<Triple>, epsilon: real): seq<Triangle>
    requires AllInRange(keys, faces)
  {
    if faces == [] then [] else Export(keys, faces[..|faces| - 1], epsilon) + [Exported(keys, faces[|faces| - 1], epsilon)]
  }

  function KeysOfFace(keys: seq<Triple>, f: Triple): Keyed
    requires InRange(keys, f)
  {
    Keyed(keys[f.a], keys[f.b], keys[f.c])
  }

  lemma ExportedKeys(keys: seq<Triple>, f: Triple, epsilon: real)
    requires InRange(keys, f) && epsilon > 0.0
    ensures KeyedOf(Exported(keys, f, epsilon), epsilon) == KeysOfFace(keys, f)
  {
    hide KeyOf, Coordinate;
    KeyFixed(keys[f.a], epsilon);
    KeyFixed(keys[f.b], epsilon);
    KeyFixed(keys[f.c], epsilon);
  }

  lemma KeyFixed(k: Triple, epsilon: real)
    requires epsilon > 0.0
    ensures KeyOf(Coordinate(k, epsilon), epsilon) == k
  {
    hide WeldIndex;
    var v := Coordinate(k, epsilon);
    WeldFixes(v.x, k.a, epsilon);
    WeldFixes(v.y, k.b, epsilon);
    WeldFixes(v.z, k.c, epsilon);
  }

  /** A face that came from a kept triangle. */
  ghost predicate Genuine(ks: seq<Keyed>, f: Triple) {
    exists i :: 0 <= i < |ks| && f == FaceOf(UsedKeys(ks), ks[i])
  }

  lemma GenuineFace(ks: seq<Keyed>, f: Triple, epsilon: real)
    requires Genuine(ks, f) && forall i :: 0 <= i < |ks| ==> Sound(ks[i], epsilon)
    ensures InRange(UsedKeys(ks), f) && Sound(KeysOfFace(UsedKeys(ks), f), epsilon) && CanonicalCycle(f) == f
    ensures exists i :: 0 <= i < |ks| && SameKeyCycle(ks[i], KeysOfFace(UsedKeys(ks), f))
  {
    hide UsedKeys, Sound, SameKeyCycle, FaceOf;
    var i :| 0 <= i < |ks| && f == FaceOf(UsedKeys(ks), ks[i]);
    FaceReadsBack(ks, i);
    SoundCycle(ks[i], KeysOfFace(UsedKeys(ks), f), epsilon);
    FaceIsLeast(UsedKeys(ks), ks[i]);
  }

  lemma FaceIsLeast(keys: seq<Triple>, k: Keyed)
    ensures CanonicalCycle(FaceOf(keys, k)) == FaceOf(keys, k)
  {
    hide IndexIn;
  }

  lemma {:induction false} KeptSound(ts: seq<Triangle>, epsilon: real)
    requires epsilon > 0.0
    ensures forall i :: 0 <= i < |Kept(ts, epsilon)| ==> Sound(Kept(ts, epsilon)[i], epsilon)
  {
    hide Sound, KeyedOf;
    if ts != [] {
      KeptSound(ts[..|ts| - 1], epsilon);
    }
  }

  lemma {:induction false} FacesGenuine(ks: seq<Keyed>, part: seq<Keyed>, f: Triple)
    requires f in FacesOf(UsedKeys(ks), part) && forall k <- part :: k in ks
    ensures Genuine(ks, f)
  {
    hide UsedKeys, FaceOf;
    var n := |part| - 1;
    if f in FacesOf(UsedKeys(ks), part[..n]) {
      FacesGenuine(ks, part[..n], f);
    } else {
      assert part[n] in ks;
    }
  }

  /** Every kept triangle has its face. */
  lemma {:induction false} FacesCover(keys: seq<Triple>, ks: seq<Keyed>, i: nat)
    requires i < |ks|
    ensures FaceOf(keys, ks[i]) in FacesOf(keys, ks)
  {
    hide FaceOf;
    if i < |ks| - 1 {
      FacesCover(keys, ks[..|ks| - 1], i);
    }
  }

  /** The keyed triangles of the faces, in order. */
  function Reread(keys: seq<Triple>, faces: seq<Triple>): (r: seq<Keyed>)
    requires AllInRange(keys, faces)
    ensures |r| == |faces| && forall i :: 0 <= i < |r| ==> r[i] == KeysOfFace(keys, faces[i])
  {
    if faces == [] then [] else Reread(keys, faces[..|faces| - 1]) + [KeysOfFace(keys, faces[|faces| - 1])]
  }

  lemma {:induction false} ExportKept(keys: seq<Triple>, faces: seq<Triple>, epsilon: real)
    requires AllInRange(keys, faces) && epsilon > 0.0
    requires forall i :: 0 <= i < |faces| ==> Sound(KeysOfFace(keys, faces[i]), epsilon)
    ensures Kept(Export(keys, faces, epsilon), epsilon) == Reread(keys, faces)
  {
    hide Sound, KeyedOf, Exported, KeysOfFace;
    if faces != [] {
      var n := |faces| - 1;
      ExportKept(keys, faces[..n], epsilon);
      ExportedKeys(keys, faces[n], epsilon);
    }
  }

  lemma {:induction false} ExportWelded(keys: seq<Triple>, faces: seq<Triple>, epsilon: real)
    requires AllInRange(keys, faces) && epsilon > 0.0
    ensures forall x <- Welded(Export(keys, faces, epsilon), epsilon) :: x in keys
  {
    hide KeyedOf, Exported;
    if faces != [] {
      var n := |faces| - 1;
      ExportWelded(keys, faces[..n], epsilon);
      ExportedKeys(keys, faces[n], epsilon);
    }
  }

  lemma {:induction false} KeptWelded(ts: seq<Triangle>, epsilon: real, x: Triple)
    requires epsilon > 0.0 && Uses(Kept(ts, epsilon), x)
    ensures x in Welded(ts, epsilon)
  {
    hide Sound, KeyedOf;
    var n, ks := |ts| - 1, Kept(ts, epsilon);
    var init := Kept(ts[..n], epsilon);
    var i :| 0 <= i < |ks| && Touches(ks[i], x);
    if i < |init| {
      assert Touches(init[i], x);
      KeptWelded(ts[..n], epsilon, x);
    }
  }

  lemma StrictIndex(keys: seq<Triple>, i: nat)
    requires Strict(keys) && i < |keys|
    ensures IndexIn(keys, keys[i]) == i
  {
    hide IndexIn;
    IndexFinds(keys, keys[i]);
  }

  lemma OneReread(keys: seq<Triple>, f: Triple)
    requires InRange(keys, f) && Strict(keys) && CanonicalCycle(f) == f
    ensures FaceOf(keys, KeysOfFace(keys, f)) == f
  {
    hide CanonicalCycle, IndexIn, Strict;
    StrictIndex(keys, f.a);
    StrictIndex(keys, f.b);
    StrictIndex(keys, f.c);
  }

  lemma {:induction false} RereadFaces(keys: seq<Triple>, faces: seq<Triple>)
    requires AllInRange(keys, faces) && Strict(keys)
    requires forall i :: 0 <= i < |faces| ==> CanonicalCycle(faces[i]) == faces[i]
    ensures FacesOf(keys, Reread(keys, faces)) == faces
  {
    hide CanonicalCycle, Strict, FaceOf, KeysOfFace;
    if faces != [] {
      var n := |faces| - 1;
      RereadFaces(keys, faces[..n]);
      OneReread(keys, faces[n]);
      assert Reread(keys, faces)[..n] == Reread(keys, faces[..n]);
      assert faces == faces[..n] + [faces[n]];
    }
  }

  lemma {:induction false} SortedStays(s: seq<Triple>)
    requires Ascending(s)
    ensures Sort(s) == s
  {
    SortSorts(s);
    AscendingUnique(Sort(s), s);
  }

  lemma RereadUsesOnly(ks: seq<Keyed>, faces: seq<Triple>, x: Triple)
    requires AllInRange(UsedKeys(ks), faces) && Uses(Reread(UsedKeys(ks), faces), x)
    ensures Uses(ks, x)
  {
    hide UsedKeys, Strict;
    var r := Reread(UsedKeys(ks), faces);
    var i :| 0 <= i < |r| && Touches(r[i], x);
    UsedAre(ks);
  }

  lemma RereadUsesAll(ks: seq<Keyed>, faces: seq<Triple>, x: Triple)
    requires AllInRange(UsedKeys(ks), faces) && Uses(ks, x)
    requires forall i :: 0 <= i < |ks| ==> FaceOf(UsedKeys(ks), ks[i]) in faces
    ensures Uses(Reread(UsedKeys(ks), faces), x)
  {
    hide UsedKeys, FaceOf;
    var i :| 0 <= i < |ks| && Touches(ks[i], x);
    FaceReadsBack(ks, i);
    var k :| 0 <= k < |faces| && faces[k] == FaceOf(UsedKeys(ks), ks[i]);
    assert Touches(Reread(UsedKeys(ks), faces)[k], x);
  }

  /** The exported faces use exactly the keys the kept triangles did. */
  lemma RereadUses(ks: seq<Keyed>, faces: seq<Triple>)
    requires AllInRange(UsedKeys(ks), faces)
    requires forall i :: 0 <= i < |ks| ==> FaceOf(UsedKeys(ks), ks[i]) in faces
    ensures UsedKeys(Reread(UsedKeys(ks), faces)) == UsedKeys(ks)
  {
    hide *;
    var r := Reread(UsedKeys(ks), faces);
    forall x ensures Uses(r, x) <==> Uses(ks, x) {
      if Uses(r, x) {
        RereadUsesOnly(ks, faces, x);
      } else if Uses(ks, x) {
        RereadUsesAll(ks, faces, x);
      }
    }
    UsedSame(r, ks);
  }

  lemma WeldedFits(ts: seq<Triangle>, epsilon: real, more: set<Triple>)
    requires epsilon > 0.0 && forall x <- more :: x in UsedKeys(Kept(ts, epsilon))
    ensures |more| <= |Welded(ts, epsilon)|
  {
    hide UsedKeys, Welded, Kept, Uses;
    UsedAre(Kept(ts, epsilon));
    forall x <- more ensures x in Welded(ts, epsilon) {
      KeptWelded(ts, epsilon, x);
    }
    Subset(more, Welded(ts, epsilon));
  }

  lemma Subset(a: set<Triple>, b: set<Triple>)
    requires a <= b
    ensures |a| <= |b|
  {
    assert b == a + (b - a);
  }

  /** Canonicalising the exported canonical mesh gives it back. */
  lemma RoundTrip(ts: seq<Triangle>, epsilon: real, maximumWelded: nat)
    requires epsilon > 0.0 && Canonicalize(ts, epsilon, maximumWelded).Some?
    ensures
      var c := Canonicalize(ts, epsilon, maximumWelded).value;
      AllInRange(c.keys, c.faces) && Canonicalize(Export(c.keys, c.faces, epsilon), epsilon, maximumWelded) == Some(c)
  {
    hide Sort, Unique, Corners, Kept, FacesOf, Welded, Strict, Ascending, Sound, Genuine, Uses, Reread, FaceOf, Export, CanonicalCycle;
    var c, ks := Canonicalize(ts, epsilon, maximumWelded).value, Kept(ts, epsilon);
    CanonicalOrder(ts, epsilon, maximumWelded);
    KeptSound(ts, epsilon);
    UsedAre(ks);
    forall i | 0 <= i < |c.faces|
      ensures Genuine(ks, c.faces[i]) && InRange(c.keys, c.faces[i]) && Sound(KeysOfFace(c.keys, c.faces[i]), epsilon)
      ensures CanonicalCycle(c.faces[i]) == c.faces[i]
    {
      assert c.faces[i] in multiset(c.faces);
      assert c.faces[i] in FacesOf(c.keys, ks);
      FacesGenuine(ks, ks, c.faces[i]);
      GenuineFace(ks, c.faces[i], epsilon);
    }
    forall i | 0 <= i < |ks| ensures FaceOf(c.keys, ks[i]) in c.faces {
      FacesCover(c.keys, ks, i);
      assert FaceOf(c.keys, ks[i]) in multiset(FacesOf(c.keys, ks));
      assert FaceOf(c.keys, ks[i]) in multiset(c.faces);
    }
    ExportKept(c.keys, c.faces, epsilon);
    ExportWelded(c.keys, c.faces, epsilon);
    WeldedFits(ts, epsilon, Welded(Export(c.keys, c.faces, epsilon), epsilon));
    RereadUses(ks, c.faces);
    RereadFaces(c.keys, c.faces);
    SortedStays(c.faces);
    assert FaceOf(c.keys, ks[0]) in c.faces;
  }
}
