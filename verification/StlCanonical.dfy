/** Welding and canonical ordering of STL triangles (geometry/stl_mesh.py, parse_stl), over exact reals. */
module StlCanonical {
  import opened Wrappers
  import opened Geometry
  import opened RealArithmetic

  // ---- Triples in lexicographic order ----------------------------------------------------

  /** A welded vertex's key, or a face's three indices. */
  datatype Triple = Triple(a: int, b: int, c: int)

  predicate Less(x: Triple, y: Triple) {
    x.a < y.a || (x.a == y.a && (x.b < y.b || (x.b == y.b && x.c < y.c)))
  }

  predicate AtMost(x: Triple, y: Triple) { !Less(y, x) }

  function Least(x: Triple, y: Triple): Triple { if Less(y, x) then y else x }

  /** _canonical_cycle: the least of a face's three rotations. */
  function CanonicalCycle(f: Triple): (r: Triple) {
    Least(Least(f, Triple(f.b, f.c, f.a)), Triple(f.c, f.a, f.b))
  }

  function Rotated(f: Triple): Triple { Triple(f.b, f.c, f.a) }

  /** Rotations of one face, and only they, have the same canonical cycle. */
  lemma CycleRotation(f: Triple, g: Triple)
    ensures CanonicalCycle(f) == CanonicalCycle(g) <==> g == f || g == Rotated(f) || g == Rotated(Rotated(f))
  {
  }

  function Inserted(x: Triple, s: seq<Triple>): seq<Triple> {
    if s == [] then [x]
    else if Less(x, s[|s| - 1]) then Inserted(x, s[..|s| - 1]) + [s[|s| - 1]]
    else s + [x]
  }

  function Sort(s: seq<Triple>): seq<Triple> {
    if s == [] then [] else Inserted(s[|s| - 1], Sort(s[..|s| - 1]))
  }

  predicate Ascending(s: seq<Triple>) { forall i, j :: 0 <= i <= j < |s| ==> AtMost(s[i], s[j]) }

  predicate Strict(s: seq<Triple>) { forall i, j :: 0 <= i < j < |s| ==> Less(s[i], s[j]) }

  lemma OrderFacts(x: Triple, y: Triple, z: Triple)
    ensures AtMost(x, y) && AtMost(y, z) ==> AtMost(x, z)
    ensures Less(x, y) && AtMost(y, z) ==> Less(x, z)
    ensures Less(x, y) ==> AtMost(x, y)
    ensures AtMost(x, y) && x != y ==> Less(x, y)
  {
  }

  lemma AppendAscends(s: seq<Triple>, y: Triple)
    requires Ascending(s) && (forall i :: 0 <= i < |s| ==> AtMost(s[i], y)) && AtMost(y, y)
    ensures Ascending(s + [y])
  {
    hide AtMost;
  }

  lemma {:induction false} InsertedSorts(x: Triple, s: seq<Triple>)
    requires Ascending(s)
    ensures Ascending(Inserted(x, s)) && multiset(Inserted(x, s)) == multiset(s) + multiset{x}
  {
    hide Less, Ascending;
    OrderFacts(x, x, x);
    if s == [] {
      AppendAscends([], x);
      assert [] + [x] == [x];
    } else {
      var n := |s| - 1;
      assert s == s[..n] + [s[n]];
      AscendingInit(s);
      if Less(x, s[n]) {
        InsertedSorts(x, s[..n]);
        var r := Inserted(x, s[..n]);
        OrderFacts(x, s[n], s[n]);
        forall i | 0 <= i < |r| ensures AtMost(r[i], s[n]) {
          assert r[i] in multiset(r);
          if r[i] != x {
            assert r[i] in multiset(s[..n]);
            LastIsGreatest(s, r[i]);
          }
        }
        LastIsGreatest(s, s[n]);
        AppendAscends(r, s[n]);
      } else {
        forall i | 0 <= i < |s| ensures AtMost(s[i], x) {
          LastIsGreatest(s, s[i]);
          OrderFacts(s[i], s[n], x);
        }
        AppendAscends(s, x);
      }
    }
  }

  lemma {:induction false} SortSorts(s: seq<Triple>)
    ensures Ascending(Sort(s)) && multiset(Sort(s)) == multiset(s)
  {
    if s != [] {
      var n := |s| - 1;
      SortSorts(s[..n]);
      InsertedSorts(s[n], Sort(s[..n]));
      assert s == s[..n] + [s[n]];
    }
  }

  /** An ascending sequence is determined by what it holds. */
  lemma {:induction false} AscendingUnique(s: seq<Triple>, t: seq<Triple>)
    requires Ascending(s) && Ascending(t) && multiset(s) == multiset(t)
    ensures s == t
  {
    hide Less, Ascending;
    SameLength(s, t);
    if s != [] {
      var n := |s| - 1;
      SameLast(s, t);
      WithoutLast(s);
      WithoutLast(t);
      AscendingInit(s);
      AscendingInit(t);
      AscendingUnique(s[..n], t[..n]);
      EqualByLast(s, t);
    }
  }

  lemma SameLength<T>(s: seq<T>, t: seq<T>)
    requires multiset(s) == multiset(t)
    ensures |s| == |t|
  {
    assert |s| == |multiset(s)| == |multiset(t)| == |t|;
  }

  lemma EqualByLast<T>(s: seq<T>, t: seq<T>)
    requires s != [] && |s| == |t| && s[..|s| - 1] == t[..|t| - 1] && s[|s| - 1] == t[|t| - 1]
    ensures s == t
  {
    assert s == s[..|s| - 1] + [s[|s| - 1]] && t == t[..|t| - 1] + [t[|t| - 1]];
  }

  lemma AscendingInit(s: seq<Triple>)
    requires Ascending(s) && s != []
    ensures Ascending(s[..|s| - 1])
  {
  }

  lemma WithoutLast(s: seq<Triple>)
    requires s != []
    ensures multiset(s[..|s| - 1]) == multiset(s) - multiset{s[|s| - 1]}
  {
    assert s == s[..|s| - 1] + [s[|s| - 1]];
  }

  lemma SameLast(s: seq<Triple>, t: seq<Triple>)
    requires Ascending(s) && Ascending(t) && multiset(s) == multiset(t) && s != [] && t != []
    ensures s[|s| - 1] == t[|t| - 1]
  {
    assert s[|s| - 1] in multiset(t) && t[|t| - 1] in multiset(s);
    LastIsGreatest(s, t[|t| - 1]);
    LastIsGreatest(t, s[|s| - 1]);
  }

  lemma LastIsGreatest(s: seq<Triple>, x: Triple)
    requires Ascending(s) && x in s
    ensures AtMost(x, s[|s| - 1])
  {
  }

  lemma SortUnique(s: seq<Triple>, t: seq<Triple>)
    requires multiset(s) == multiset(t)
    ensures Sort(s) == Sort(t)
  {
    SortSorts(s);
    SortSorts(t);
    AscendingUnique(Sort(s), Sort(t));
  }

  /** sorted(set(...)): sort, then drop repetitions. */
  function Unique(s: seq<Triple>): seq<Triple> {
    if s == [] then []
    else
      var init, last := Unique(s[..|s| - 1]), s[|s| - 1];
      if init != [] && init[|init| - 1] == last then init else init + [last]
  }

  lemma AppendStrict(s: seq<Triple>, y: Triple)
    requires Strict(s) && forall i :: 0 <= i < |s| ==> Less(s[i], y)
    ensures Strict(s + [y])
  {
    hide Less;
  }

  lemma {:induction false} UniqueStrict(s: seq<Triple>)
    requires Ascending(s)
    ensures Strict(Unique(s)) && (forall x :: x in Unique(s) <==> x in s)
    ensures s != [] ==> Unique(s) != [] && Unique(s)[|Unique(s)| - 1] == s[|s| - 1]
  {
    hide Less, Ascending, Strict;
    if s == [] {
      NothingStrict();
    } else {
      var n := |s| - 1;
      AscendingInit(s);
      UniqueStrict(s[..n]);
      var init := Unique(s[..n]);
      assert s == s[..n] + [s[n]];
      if init == [] || init[|init| - 1] != s[n] {
        forall i | 0 <= i < |init| ensures Less(init[i], s[n]) {
          BelowLast(init, i);
          LastIsGreatest(s, s[n - 1]);
          OrderFacts(s[n - 1], s[n], s[n]);
          OrderFacts(init[i], s[n - 1], s[n]);
        }
        AppendStrict(init, s[n]);
      }
    }
  }

  lemma BelowLast(s: seq<Triple>, i: nat)
    requires Strict(s) && i < |s|
    ensures s[i] == s[|s| - 1] || Less(s[i], s[|s| - 1])
  {
  }

  lemma NothingStrict()
    ensures Strict([])
  {
  }

  /** A strictly ascending sequence is determined by the set it lists. */
  lemma {:induction false} StrictUnique(s: seq<Triple>, t: seq<Triple>)
    requires Strict(s) && Strict(t) && forall x :: x in s <==> x in t
    ensures s == t
  {
    if s == [] {
      HasFirst(t);
    } else {
      var n, m := |s| - 1, |t| - 1;
      assert s[n] in t && t != [];
      assert t[m] in s;
      var i :| 0 <= i < |s| && s[i] == t[m];
      var k :| 0 <= k < |t| && t[k] == s[n];
      assert s[n] == t[m];
      forall x ensures x in s[..n] <==> x in t[..m] {
        StrictInit(s, x);
        StrictInit(t, x);
      }
      StrictUnique(s[..n], t[..m]);
      assert s == s[..n] + [s[n]] && t == t[..m] + [t[m]];
    }
  }

  lemma HasFirst(t: seq<Triple>)
    ensures t != [] ==> t[0] in t
  {
  }

  lemma StrictInit(s: seq<Triple>, x: Triple)
    requires Strict(s) && s != []
    ensures x in s[..|s| - 1] <==> x in s && x != s[|s| - 1]
  {
    var n := |s| - 1;
    assert s == s[..n] + [s[n]];
    if x in s[..n] {
      var i :| 0 <= i < n && s[i] == x;
    }
  }

  // ---- Welding ---------------------------------------------------------------------------

  /** _weld_index: the nearest multiple, halves away from zero. */
  function WeldIndex(value: real, epsilon: real): int
    requires epsilon > 0.0
  {
    var scaled := value / epsilon;
    if scaled >= 0.0 then (scaled + 0.5).Floor else -((0.5 - scaled).Floor)
  }

  /** Welding moves a coordinate by at most half a step. */
  lemma WeldMoves(value: real, epsilon: real)
    requires epsilon > 0.0
    ensures Abs(WeldIndex(value, epsilon) as real * epsilon - value) <= epsilon / 2.0
  {
    var scaled, n := value / epsilon, WeldIndex(value, epsilon) as real;
    assert scaled * epsilon == value;
    assert -0.5 <= n - scaled <= 0.5;
    var a, b := MulMono(n - scaled, 0.5, epsilon);
    var c, d := MulMono(-0.5, n - scaled, epsilon);
    assert a == n * epsilon - value;
  }

  /** A coordinate on the lattice stays where it is, so welding twice is welding once. */
  lemma WeldFixes(value: real, n: int, epsilon: real)
    requires epsilon > 0.0 && value == n as real * epsilon
    ensures WeldIndex(value, epsilon) == n
  {
    assert value / epsilon == n as real;
  }

  function KeyOf(v: Vec, epsilon: real): Triple
    requires epsilon > 0.0
  {
    Triple(WeldIndex(v.x, epsilon), WeldIndex(v.y, epsilon), WeldIndex(v.z, epsilon))
  }

  function Coordinate(k: Triple, epsilon: real): Vec {
    Vec(k.a as real * epsilon, k.b as real * epsilon, k.c as real * epsilon)
  }

  /** A triangle by its vertices' keys. */
  datatype Keyed = Keyed(first: Triple, second: Triple, third: Triple)

  function KeyedOf(t: Triangle, epsilon: real): Keyed
    requires epsilon > 0.0
  {
    Keyed(KeyOf(t.a, epsilon), KeyOf(t.b, epsilon), KeyOf(t.c, epsilon))
  }

  function SquaredCross(a: Vec, b: Vec, c: Vec): real {
    var n := Cross(Sub(b, a), Sub(c, a));
    Dot(n, n)
  }

  /** Not degenerate: three keys, and a cross product longer than epsilon squared. */
  predicate Sound(k: Keyed, epsilon: real) {
    && k.first != k.second && k.second != k.third && k.third != k.first
    && SquaredCross(Coordinate(k.first, epsilon), Coordinate(k.second, epsilon), Coordinate(k.third, epsilon))
       > (epsilon * epsilon) * (epsilon * epsilon)
  }

  /** valid_keyed_faces. */
  function Kept(ts: seq<Triangle>, epsilon: real): seq<Keyed>
    requires epsilon > 0.0
  {
    if ts == [] then []
    else
      var k := KeyedOf(ts[|ts| - 1], epsilon);
      Kept(ts[..|ts| - 1], epsilon) + if Sound(k, epsilon) then [k] else []
  }

  function Corners(ks: seq<Keyed>): seq<Triple> {
    if ks == [] then [] else Corners(ks[..|ks| - 1]) + [ks[|ks| - 1].first, ks[|ks| - 1].second, ks[|ks| - 1].third]
  }

  /** key_to_index: the position of a key among the used ones. */
  function IndexIn(keys: seq<Triple>, k: Triple): int {
    if keys == [] then -1
    else if keys[|keys| - 1] == k then |keys| - 1
    else IndexIn(keys[..|keys| - 1], k)
  }

  function FaceOf(keys: seq<Triple>, k: Keyed): Triple {
    CanonicalCycle(Triple(IndexIn(keys, k.first), IndexIn(keys, k.second), IndexIn(keys, k.third)))
  }

  function FacesOf(keys: seq<Triple>, ks: seq<Keyed>): seq<Triple> {
    if ks == [] then [] else FacesOf(keys, ks[..|ks| - 1]) + [FaceOf(keys, ks[|ks| - 1])]
  }

  datatype Canonical = Canonical(keys: seq<Triple>, faces: seq<Triple>)

  /** Every key any vertex welds to, degenerate triangles included. */
  function Welded(ts: seq<Triangle>, epsilon: real): set<Triple>
    requires epsilon > 0.0
  {
    if ts == [] then {}
    else
      var k := KeyedOf(ts[|ts| - 1], epsilon);
      Welded(ts[..|ts| - 1], epsilon) + {k.first, k.second, k.third}
  }

  /** The canonical form: the used keys in order and the canonical cycles in order. Vertices are the keys'
      coordinates. */
  function Canonicalize(ts: seq<Triangle>, epsilon: real, maximumWelded: nat): Option<Canonical>
    requires epsilon > 0.0
  {
    if |Welded(ts, epsilon)| > maximumWelded then None
    else
      var ks := Kept(ts, epsilon);
      if ks == [] then None
      else
        var keys := Unique(Sort(Corners(ks)));
        Some(Canonical(keys, Sort(FacesOf(keys, ks))))
  }
}
