/** Connected components of a triangle mesh by union-find with path halving
    (geometry/stl_mesh.py, _component_count). */
module UnionFind {
  import opened Geometry
  import opened Walks

  // ---- What is counted: classes of "share a face" ----------------------------------------

  predicate InFace(f: Face, v: nat) { v == f.i || v == f.j || v == f.k }

  predicate ShareFace(faces: seq<Face>, u: nat, v: nat) {
    exists f <- faces :: InFace(f, u) && InFace(f, v)
  }

  /** "Share a face". */
  function Sharing(faces: seq<Face>): Relation { (u: nat, v: nat) => ShareFace(faces, u, v) }

  lemma SharingSymmetrical(faces: seq<Face>)
    ensures Symmetrical(Sharing(faces))
  {
  }

  // ---- Parent forests --------------------------------------------------------------------

  function Highest(rank: seq<nat>): (h: nat)
    ensures forall i :: 0 <= i < |rank| ==> rank[i] <= h
  {
    if rank == [] then 0
    else
      var h := Highest(rank[..|rank| - 1]);
      if h < rank[|rank| - 1] then rank[|rank| - 1] else h
  }

  /** Parents stay in range and ranks strictly grow towards the root, so there is no cycle. */
  predicate Forest(p: seq<nat>, rank: seq<nat>) {
    && |p| == |rank|
    && forall v :: 0 <= v < |p| ==> p[v] < |p| && (p[v] != v ==> rank[v] < rank[p[v]])
  }

  ghost function Root(p: seq<nat>, rank: seq<nat>, v: nat): (r: nat)
    requires Forest(p, rank) && v < |p|
    ensures r < |p| && p[r] == r
    decreases Highest(rank) - rank[v]
  {
    if p[v] == v then v else Root(p, rank, p[v])
  }

  /** Path halving keeps every root. */
  lemma {:induction false} HalvingKeepsRoots(p: seq<nat>, rank: seq<nat>, v: nat, u: nat)
    requires Forest(p, rank) && v < |p| && u < |p|
    ensures Forest(p[v := p[p[v]]], rank)
    ensures Root(p[v := p[p[v]]], rank, u) == Root(p, rank, u)
    decreases Highest(rank) - rank[u]
  {
    var q := p[v := p[p[v]]];
    assert p[p[v]] != p[v] ==> rank[p[v]] < rank[p[p[v]]];
    assert Forest(q, rank);
    if p[u] != u {
      if u == v {
        if p[p[v]] == p[v] {
          HalvingKeepsRoots(p, rank, v, p[v]);
        } else {
          HalvingKeepsRoots(p, rank, v, p[p[v]]);
        }
      } else {
        HalvingKeepsRoots(p, rank, v, p[u]);
      }
    }
  }

  function Raised(rank: seq<nat>, left: nat, right: nat): seq<nat>
    requires left < |rank| && right < |rank|
  {
    rank[left := if rank[left] <= rank[right] then rank[right] + 1 else rank[left]]
  }

  /** Hanging root `right` below root `left` renames exactly that root. */
  lemma {:induction false} LinkingRoots(p: seq<nat>, rank: seq<nat>, left: nat, right: nat, u: nat)
    requires Forest(p, rank) && left < |p| && right < |p| && u < |p|
    requires p[left] == left && p[right] == right && left != right
    ensures Forest(p[right := left], Raised(rank, left, right))
    ensures Root(p[right := left], Raised(rank, left, right), u)
         == if Root(p, rank, u) == right then left else Root(p, rank, u)
    decreases Highest(rank) - rank[u]
  {
    var q, raised := p[right := left], Raised(rank, left, right);
    assert Forest(q, raised);
    if p[u] != u {
      LinkingRoots(p, rank, left, right, p[u]);
    } else if u == right {
      assert Root(q, raised, left) == left;
    }
  }

  // ---- Tying the forest to the mesh ------------------------------------------------------

  predicate InRange(faces: seq<Face>, n: nat) { forall f <- faces :: f.i < n && f.j < n && f.k < n }

  /** Every vertex is linked to its parent. */
  ghost predicate SoundParents(faces: seq<Face>, p: seq<nat>) {
    forall v :: 0 <= v < |p| ==> Linked(Sharing(faces), v, p[v])
  }

  lemma {:induction false} RootIsLinked(faces: seq<Face>, p: seq<nat>, rank: seq<nat>, v: nat)
    requires Forest(p, rank) && SoundParents(faces, p) && v < |p|
    ensures Linked(Sharing(faces), v, Root(p, rank, v))
    decreases Highest(rank) - rank[v]
  {
    if p[v] == v {
      LinkedRefl(Sharing(faces), v);
    } else {
      RootIsLinked(faces, p, rank, p[v]);
      LinkedTrans(Sharing(faces), v, p[v], Root(p, rank, p[v]));
    }
  }

  ghost predicate SameRoots(p: seq<nat>, rank: seq<nat>, f: Face)
    requires Forest(p, rank) && f.i < |p| && f.j < |p| && f.k < |p|
  {
    Root(p, rank, f.i) == Root(p, rank, f.j) == Root(p, rank, f.k)
  }

  /** Once every face has one root, linked vertices have one root. */
  lemma LinkedHaveOneRoot(faces: seq<Face>, p: seq<nat>, rank: seq<nat>, u: nat, v: nat)
    requires Forest(p, rank) && InRange(faces, |p|) && forall f <- faces :: SameRoots(p, rank, f)
    requires Linked(Sharing(faces), u, v) && u < |p|
    ensures v < |p| && Root(p, rank, u) == Root(p, rank, v)
  {
    var holds := (x: nat) => x < |p| && Root(p, rank, x) == Root(p, rank, u);
    forall x, y | holds(x) && Sharing(faces)(x, y) ensures holds(y) {
      var f :| f in faces && InFace(f, x) && InFace(f, y);
      assert SameRoots(p, rank, f);
    }
    LinkedKeeps(Sharing(faces), holds, u, v);
  }

  // ---- find, union and the count ---------------------------------------------------------

  /** Two forests in which every vertex has the same root. */
  ghost predicate SameForest(p: seq<nat>, q: seq<nat>, rank: seq<nat>) {
    && Forest(p, rank) && Forest(q, rank)
    && forall u :: 0 <= u < |p| ==> Root(q, rank, u) == Root(p, rank, u)
  }

  lemma HalvingStep(faces: seq<Face>, p: seq<nat>, rank: seq<nat>, v: nat)
    requires Forest(p, rank) && SoundParents(faces, p) && v < |p|
    ensures SameForest(p, p[v := p[p[v]]], rank) && SoundParents(faces, p[v := p[p[v]]])
  {
    var q := p[v := p[p[v]]];
    LinkedTrans(Sharing(faces), v, p[v], p[p[v]]);
    HalvingKeepsRoots(p, rank, v, v);
    forall u | 0 <= u < |p| ensures Root(q, rank, u) == Root(p, rank, u) {
      HalvingKeepsRoots(p, rank, v, u);
    }
  }

  /** find: returns the root, halving the path on the way; no vertex changes its root. */
  method Find(parent: array<nat>, value: nat, ghost faces: seq<Face>, ghost rank: seq<nat>) returns (r: nat)
    requires Forest(parent[..], rank) && SoundParents(faces, parent[..]) && value < parent.Length
    modifies parent
    ensures SameForest(old(parent[..]), parent[..], rank) && SoundParents(faces, parent[..])
    ensures r == Root(parent[..], rank, value) && r < parent.Length && parent[r] == r
  {
    r := value;
    while parent[r] != r
      invariant r < parent.Length
      invariant SameForest(old(parent[..]), parent[..], rank) && SoundParents(faces, parent[..])
      invariant Root(parent[..], rank, r) == Root(parent[..], rank, value)
      decreases Highest(rank) - rank[r]
    {
      ghost var p := parent[..];
      HalvingStep(faces, p, rank, r);
      parent[r] := parent[parent[r]];
      assert parent[..] == p[r := p[p[r]]];
      r := parent[r];
    }
  }

  lemma LinkStep(faces: seq<Face>, p: seq<nat>, rank: seq<nat>, left: nat, right: nat, leftRoot: nat, rightRoot: nat)
    requires Forest(p, rank) && SoundParents(faces, p) && left < |p| && right < |p| && ShareFace(faces, left, right)
    requires leftRoot == Root(p, rank, left) && rightRoot == Root(p, rank, right) && leftRoot != rightRoot
    ensures Forest(p[rightRoot := leftRoot], Raised(rank, leftRoot, rightRoot))
    ensures SoundParents(faces, p[rightRoot := leftRoot])
    ensures forall u :: 0 <= u < |p| ==>
      Root(p[rightRoot := leftRoot], Raised(rank, leftRoot, rightRoot), u)
        == if Root(p, rank, u) == rightRoot then leftRoot else Root(p, rank, u)
  {
    RootIsLinked(faces, p, rank, left);
    RootIsLinked(faces, p, rank, right);
    SharingSymmetrical(faces);
    LinkedSym(Sharing(faces), right, rightRoot);
    LinkedStep(Sharing(faces), rightRoot, right, left);
    LinkedTrans(Sharing(faces), rightRoot, left, leftRoot);
    LinkingRoots(p, rank, leftRoot, rightRoot, left);
    forall u | 0 <= u < |p|
      ensures Root(p[rightRoot := leftRoot], Raised(rank, leftRoot, rightRoot), u)
        == if Root(p, rank, u) == rightRoot then leftRoot else Root(p, rank, u)
    {
      LinkingRoots(p, rank, leftRoot, rightRoot, u);
    }
  }

  /** Equal roots stay equal. */
  ghost predicate Coarser(p: seq<nat>, rank: seq<nat>, q: seq<nat>, rank': seq<nat>) {
    && Forest(p, rank) && Forest(q, rank') && |p| == |q|
    && forall u, v :: 0 <= u < |p| && 0 <= v < |p| && Root(p, rank, u) == Root(p, rank, v)
         ==> Root(q, rank', u) == Root(q, rank', v)
  }

  lemma TwiceFound(p: seq<nat>, q: seq<nat>, s: seq<nat>, rank: seq<nat>, left: nat)
    requires SameForest(p, q, rank) && SameForest(q, s, rank) && left < |p|
    ensures |rank| == |s| == |p| && Coarser(p, rank, s, rank) && Root(s, rank, left) == Root(q, rank, left)
  {
    hide Root;
  }

  lemma Joined(start: seq<nat>, p: seq<nat>, rank: seq<nat>, q: seq<nat>, rank': seq<nat>, from: nat, to: nat)
    requires Coarser(start, rank, p, rank) && Forest(q, rank') && |q| == |p|
    requires forall u :: 0 <= u < |p| ==> Root(q, rank', u) == if Root(p, rank, u) == from then to else Root(p, rank, u)
    ensures Coarser(start, rank, q, rank')
  {
    hide Root, Forest;
  }

  /** union: afterwards the two vertices have one root, and equal roots stayed equal. */
  method Union(parent: array<nat>, left: nat, right: nat, ghost faces: seq<Face>, ghost rank: seq<nat>)
    returns (ghost rank': seq<nat>)
    requires Forest(parent[..], rank) && SoundParents(faces, parent[..])
    requires left < parent.Length && right < parent.Length && ShareFace(faces, left, right)
    modifies parent
    ensures Coarser(old(parent[..]), rank, parent[..], rank') && SoundParents(faces, parent[..])
    ensures Root(parent[..], rank', left) == Root(parent[..], rank', right)
  {
    hide Root, Forest, SoundParents, ShareFace, Raised, Coarser;
    ghost var start := parent[..];
    var leftRoot := Find(parent, left, faces, rank);
    ghost var halved := parent[..];
    var rightRoot := Find(parent, right, faces, rank);
    rank' := rank;
    ghost var p := parent[..];
    TwiceFound(start, halved, p, rank, left);
    if leftRoot != rightRoot {
      LinkStep(faces, p, rank, left, right, leftRoot, rightRoot);
      parent[rightRoot] := leftRoot;
      rank' := Raised(rank, leftRoot, rightRoot);
      assert parent[..] == p[rightRoot := leftRoot];
      Joined(start, p, rank, parent[..], rank', rightRoot, leftRoot);
    }
  }

  ghost predicate Represented(faces: seq<Face>, v: nat, reps: set<nat>) {
    exists r :: r in reps && Linked(Sharing(faces), v, r)
  }

  /** Distinct members of `reps` are not linked and every vertex is linked to one of them:
      |reps| is the number of classes of "linked" among the first n vertices. */
  ghost predicate OnePerClass(faces: seq<Face>, n: nat, reps: set<nat>) {
    && (forall r <- reps :: r < n)
    && (forall v: nat :: v < n ==> Represented(faces, v, reps))
    && forall r, s :: r in reps && s in reps && Linked(Sharing(faces), r, s) ==> r == s
  }

  /** _component_count. */
  method ComponentCount(vertexCount: nat, faces: seq<Face>) returns (count: nat)
    requires InRange(faces, vertexCount)
    ensures exists reps :: |reps| == count && OnePerClass(faces, vertexCount, reps)
  {
    var parent := new nat[vertexCount](i => i);
    ghost var rank: seq<nat> := seq(vertexCount, _ => 0);
    forall v | 0 <= v < vertexCount ensures Linked(Sharing(faces), v, v) {
      LinkedRefl(Sharing(faces), v);
    }
    for k := 0 to |faces|
      invariant Forest(parent[..], rank) && SoundParents(faces, parent[..])
      invariant AllSame(faces[..k], parent[..], rank)
    {
      rank := UniteFace(parent, faces, k, rank);
    }
    assert faces[..|faces|] == faces;
    count := CountRoots(parent, faces, rank);
  }

  ghost predicate AllSame(done: seq<Face>, p: seq<nat>, rank: seq<nat>) {
    Forest(p, rank) && InRange(done, |p|) && forall f <- done :: SameRoots(p, rank, f)
  }

  /** The body of the face loop: two unions leave the face, and every earlier one, with a single root. */
  method UniteFace(parent: array<nat>, faces: seq<Face>, k: nat, ghost rank: seq<nat>) returns (ghost rank': seq<nat>)
    requires k < |faces| && InRange(faces, parent.Length)
    requires SoundParents(faces, parent[..]) && AllSame(faces[..k], parent[..], rank)
    modifies parent
    ensures SoundParents(faces, parent[..]) && AllSame(faces[..k + 1], parent[..], rank')
  {
    var f := faces[k];
    assert f in faces;
    assert InFace(f, f.i) && InFace(f, f.j) && InFace(f, f.k);
    ghost var p0 := parent[..];
    ghost var rank1 := Union(parent, f.i, f.j, faces, rank);
    ghost var p1 := parent[..];
    rank' := Union(parent, f.j, f.k, faces, rank1);
    KeepSameRoots(faces[..k], p0, rank, p1, rank1, parent[..], rank');
    assert faces[..k + 1] == faces[..k] + [f];
  }

  lemma KeepSameRoots(done: seq<Face>, p0: seq<nat>, r0: seq<nat>, p1: seq<nat>, r1: seq<nat>, p2: seq<nat>, r2: seq<nat>)
    requires Coarser(p0, r0, p1, r1) && Coarser(p1, r1, p2, r2) && AllSame(done, p0, r0)
    ensures AllSame(done, p2, r2)
  {
    forall f <- done ensures SameRoots(p2, r2, f) {
      assert SameRoots(p0, r0, f);
      assert SameRoots(p1, r1, f);
    }
  }

  /** The final set comprehension over find(index). */
  method CountRoots(parent: array<nat>, faces: seq<Face>, ghost rank: seq<nat>) returns (count: nat)
    requires Forest(parent[..], rank) && SoundParents(faces, parent[..]) && InRange(faces, parent.Length)
    requires AllSame(faces, parent[..], rank)
    modifies parent
    ensures exists reps :: |reps| == count && OnePerClass(faces, parent.Length, reps)
  {
    hide SoundParents, Root, OnePerClass;
    var roots: set<nat> := {};
    ghost var start := parent[..];
    for index := 0 to parent.Length
      invariant SameForest(start, parent[..], rank) && SoundParents(faces, parent[..])
      invariant forall v: nat :: v < index ==> Root(start, rank, v) in roots
      invariant forall r <- roots :: r < parent.Length && r == Root(start, rank, r)
    {
      var r := Find(parent, index, faces, rank);
      RootOfRoot(start, rank, index);
      roots := roots + {r};
    }
    RootsAreClasses(faces, start, rank, roots);
    count := |roots|;
  }

  lemma RootOfRoot(p: seq<nat>, rank: seq<nat>, v: nat)
    requires Forest(p, rank) && v < |p|
    ensures Root(p, rank, Root(p, rank, v)) == Root(p, rank, v)
  {
  }

  lemma RootsAreClasses(faces: seq<Face>, p: seq<nat>, rank: seq<nat>, roots: set<nat>)
    requires Forest(p, rank) && SoundParents(faces, p) && InRange(faces, |p|)
    requires forall f <- faces :: SameRoots(p, rank, f)
    requires forall v: nat :: v < |p| ==> Root(p, rank, v) in roots
    requires forall r <- roots :: r < |p| && r == Root(p, rank, r)
    ensures OnePerClass(faces, |p|, roots)
  {
    forall v: nat | v < |p| ensures Represented(faces, v, roots) {
      RootIsLinked(faces, p, rank, v);
    }
    forall r, s | r in roots && s in roots && Linked(Sharing(faces), r, s) ensures r == s {
      LinkedHaveOneRoot(faces, p, rank, r, s);
    }
  }
}
