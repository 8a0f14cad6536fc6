/** Six-way subtraction of one box from another (backend.py, _subtract_bounds). */
module BoxSubtraction {
  import opened Geometry

  const SLIVER := 0.000000001

  function Intersection(a: Bounds, b: Bounds): Bounds {
    Bounds(
      Vec(Max(a.minimum.x, b.minimum.x), Max(a.minimum.y, b.minimum.y), Max(a.minimum.z, b.minimum.z)),
      Vec(Min(a.maximum.x, b.maximum.x), Min(a.maximum.y, b.maximum.y), Min(a.maximum.z, b.maximum.z)))
  }

  function SmallestSide(b: Bounds): real { Min(Size(b).x, Min(Size(b).y, Size(b).z)) }

  /** The six slabs around `cut` inside `source`: two across x, two across y, two across z. */
  function Slabs(source: Bounds, cut: Bounds): seq<Bounds> {
    var s0, s1, i0, i1 := source.minimum, source.maximum, cut.minimum, cut.maximum;
    [Bounds(s0, Vec(i0.x, s1.y, s1.z)),
     Bounds(Vec(i1.x, s0.y, s0.z), s1),
     Bounds(Vec(i0.x, s0.y, s0.z), Vec(i1.x, i0.y, s1.z)),
     Bounds(Vec(i0.x, i1.y, s0.z), Vec(i1.x, s1.y, s1.z)),
     Bounds(Vec(i0.x, i0.y, s0.z), Vec(i1.x, i1.y, i0.z)),
     Bounds(Vec(i0.x, i0.y, i1.z), Vec(i1.x, i1.y, s1.z))]
  }

  predicate Thick(b: Bounds) { SmallestSide(b) > SLIVER }

  function Keep(boxes: seq<Bounds>): (r: seq<Bounds>) {
    if boxes == [] then []
    else
      var rest := Keep(boxes[..|boxes| - 1]);
      if Thick(boxes[|boxes| - 1]) then rest + [boxes[|boxes| - 1]] else rest
  }

  /** The part of the kept-or-dropped bookkeeping the code never computes: what Keep throws away. */
  function Dropped(boxes: seq<Bounds>): seq<Bounds> {
    if boxes == [] then []
    else
      var rest := Dropped(boxes[..|boxes| - 1]);
      if Thick(boxes[|boxes| - 1]) then rest else rest + [boxes[|boxes| - 1]]
  }

  /** Nothing is removed: the intersection is a sliver in some direction. */
  predicate Grazes(source: Bounds, cutter: Bounds) {
    !Thick(Intersection(source, cutter))
  }

  /** _subtract_bounds. Its Intersection raises unless the boxes overlap, which its caller checks. */
  function SubtractBounds(source: Bounds, cutter: Bounds): (r: seq<Bounds>)
    requires WellFormed(source) && WellFormed(cutter) && Overlaps(source, cutter, 0.0)
  {
    if Grazes(source, cutter) then [source]
    else Keep(Slabs(source, Intersection(source, cutter)))
  }

  function TotalVolume(boxes: seq<Bounds>): real {
    if boxes == [] then 0.0 else TotalVolume(boxes[..|boxes| - 1]) + Volume(boxes[|boxes| - 1])
  }

  predicate PairwiseSeparated(boxes: seq<Bounds>) {
    forall i, j :: 0 <= i < j < |boxes| ==> Separated(boxes[i], boxes[j])
  }

  // ---- Keep and Dropped ------------------------------------------------------------------

  lemma {:induction false} KeepSplits(boxes: seq<Bounds>)
    ensures forall b :: b in Keep(boxes) <==> b in boxes && Thick(b)
    ensures forall b :: b in Dropped(boxes) <==> b in boxes && !Thick(b)
    ensures TotalVolume(boxes) == TotalVolume(Keep(boxes)) + TotalVolume(Dropped(boxes))
    ensures |Keep(boxes)| <= |boxes|
  {
    if boxes != [] {
      var init, last := boxes[..|boxes| - 1], boxes[|boxes| - 1];
      KeepSplits(init);
      assert boxes == init + [last];
      if Thick(last) {
        assert Keep(boxes)[..|Keep(boxes)| - 1] == Keep(init);
      } else {
        assert Dropped(boxes)[..|Dropped(boxes)| - 1] == Dropped(init);
      }
    }
  }

  lemma {:induction false} KeepStaysSeparated(boxes: seq<Bounds>)
    requires PairwiseSeparated(boxes)
    ensures PairwiseSeparated(Keep(boxes))
  {
    if boxes != [] {
      var init, last := boxes[..|boxes| - 1], boxes[|boxes| - 1];
      assert PairwiseSeparated(init);
      KeepStaysSeparated(init);
      KeepSplits(init);
      forall i, j | 0 <= i < j < |Keep(boxes)| ensures Separated(Keep(boxes)[i], Keep(boxes)[j]) {
        if j == |Keep(init)| {
          assert Keep(init)[i] in init;
        }
      }
    }
  }

  lemma {:induction false} TotalVolumeNonNegative(boxes: seq<Bounds>)
    requires forall b <- boxes :: WellFormed(b)
    ensures TotalVolume(boxes) >= 0.0
  {
    if boxes != [] {
      TotalVolumeNonNegative(boxes[..|boxes| - 1]);
      VolumeNonNegative(boxes[|boxes| - 1]);
    }
  }

  // ---- The slabs tile --------------------------------------------------------------------

  /** All six slabs and the cut are well formed, inside the source, and pairwise separated. */
  lemma SlabsAreSeparated(source: Bounds, cut: Bounds)
    requires WellFormed(source) && WellFormed(cut) && Inside(cut, source)
    ensures PairwiseSeparated(Slabs(source, cut))
    ensures forall b <- Slabs(source, cut) :: WellFormed(b) && Inside(b, source) && Separated(b, cut)
  {
  }

  /** Every point of the source is in the cut or in one of the six slabs. */
  lemma SlabsCover(source: Bounds, cut: Bounds, p: Vec)
    requires WellFormed(source) && WellFormed(cut) && Inside(cut, source) && Has(source, p)
    ensures Has(cut, p) || exists b <- Slabs(source, cut) :: Has(b, p)
  {
    var s := Slabs(source, cut);
    if p.x <= cut.minimum.x { assert Has(s[0], p); }
    else if p.x >= cut.maximum.x { assert Has(s[1], p); }
    else if p.y <= cut.minimum.y { assert Has(s[2], p); }
    else if p.y >= cut.maximum.y { assert Has(s[3], p); }
    else if p.z <= cut.minimum.z { assert Has(s[4], p); }
    else if p.z >= cut.maximum.z { assert Has(s[5], p); }
  }

  /** The six slab volumes and the cut's volume add up to the source's. */
  lemma SlabVolumesAddUp(source: Bounds, cut: Bounds)
    ensures TotalVolume(Slabs(source, cut)) + Volume(cut) == Volume(source)
  {
    var s := Slabs(source, cut);
    assert s[..5][..4] == s[..4] && s[..4][..3] == s[..3] && s[..3][..2] == s[..2] && s[..2][..1] == s[..1];
    assert s[..1][..0] == [];
    assert TotalVolume(s[..1]) == Volume(s[0]);
    assert TotalVolume(s[..2]) == Volume(s[0]) + Volume(s[1]);
    assert TotalVolume(s[..3]) == TotalVolume(s[..2]) + Volume(s[2]);
    assert TotalVolume(s[..4]) == TotalVolume(s[..3]) + Volume(s[3]);
    assert TotalVolume(s[..5]) == TotalVolume(s[..4]) + Volume(s[4]);
    assert TotalVolume(s) == TotalVolume(s[..5]) + Volume(s[5]);
  }

  // ---- What _subtract_bounds promises ----------------------------------------------------

  /** The volume a cut takes away: nothing when it grazes, otherwise the intersection and the dropped slivers. */
  function Removed(source: Bounds, cutter: Bounds): real
    requires WellFormed(source) && WellFormed(cutter) && Overlaps(source, cutter, 0.0)
  {
    if Grazes(source, cutter) then 0.0
    else
      var cut := Intersection(source, cutter);
      Volume(cut) + TotalVolume(Dropped(Slabs(source, cut)))
  }

  /** Fragments lie in the source, are solid, are pairwise separated and, unless the cutter only
      grazes the source, keep out of the cutter; their volumes and the removed volume add up. */
  lemma SubtractBoundsTiles(source: Bounds, cutter: Bounds)
    requires Solid(source) && WellFormed(cutter) && Overlaps(source, cutter, 0.0)
    ensures
      var r := SubtractBounds(source, cutter);
      && |r| <= 6
      && PairwiseSeparated(r)
      && (forall b <- r :: Solid(b) && Inside(b, source))
      && (!Grazes(source, cutter) ==> forall b <- r :: Separated(b, cutter))
      && TotalVolume(r) + Removed(source, cutter) == Volume(source)
      && Removed(source, cutter) >= 0.0
  {
    var cut := Intersection(source, cutter);
    if Grazes(source, cutter) {
      assert [source][..0] == [];
      assert TotalVolume([source]) == Volume(source);
    } else {
      var s := Slabs(source, cut);
      SlabsAreSeparated(source, cut);
      SlabVolumesAddUp(source, cut);
      KeepSplits(s);
      KeepStaysSeparated(s);
      VolumeNonNegative(cut);
      TotalVolumeNonNegative(Dropped(s));
      forall b <- Keep(s) ensures Solid(b) && Inside(b, source) && Separated(b, cutter) {
        assert b in s;
        assert Separated(b, cut);
      }
    }
  }

  /** Nothing but the cutter's own points and slivers at most 1e-9 thick disappears. */
  lemma SubtractBoundsCovers(source: Bounds, cutter: Bounds, p: Vec)
    requires Solid(source) && WellFormed(cutter) && Overlaps(source, cutter, 0.0) && Has(source, p)
    ensures
      || Has(cutter, p)
      || (exists b <- SubtractBounds(source, cutter) :: Has(b, p))
      || (exists b <- Slabs(source, Intersection(source, cutter)) :: Has(b, p) && SmallestSide(b) <= SLIVER)
  {
    var cut := Intersection(source, cutter);
    if Grazes(source, cutter) {
      assert source in SubtractBounds(source, cutter);
    } else {
      SlabsCover(source, cut, p);
      if !Has(cut, p) {
        var b :| b in Slabs(source, cut) && Has(b, p);
        KeepSplits(Slabs(source, cut));
        if Thick(b) {
          assert b in SubtractBounds(source, cutter);
        }
      }
    }
  }
}
