/** What every run of the lift-out backend keeps: the sample stays a family of separated boxes in
    one rigidly moved sample box, its volume is conserved, and part names stay unique. */
module BackendRuns {
  import opened Geometry
  import opened BoxSubtraction
  import opened BackendModel
  import opened PartNames

  // ---- Relations between parts -----------------------------------------------------------

  predicate Comparable(a: string, b: string) { a <= b || b <= a }

  /** Two sample parts share no interior point and neither name starts with the other. */
  predicate Apart(p: Part, q: Part) { Separated(p.box, q.box) && !Comparable(p.name, q.name) }

  predicate SamplesApart(parts: seq<Part>) {
    forall i, j :: 0 <= i < j < |parts| && IsSample(parts[i]) && IsSample(parts[j]) ==> Apart(parts[i], parts[j])
  }

  /** A sample part cut out of `p`: inside it, and named after it. */
  predicate CutFrom(f: Part, p: Part) { IsSample(f) && IsSample(p) && Inside(f.box, p.box) && p.name <= f.name }

  predicate Origin(f: Part, p: Part) { f == p || CutFrom(f, p) }

  lemma PrefixesOfOneString(a: string, b: string, c: string)
    requires a <= c && b <= c
    ensures Comparable(a, b)
  {
    if |a| <= |b| {
      assert forall i :: 0 <= i < |a| ==> a[i] == c[i] && b[i] == c[i];
    }
  }

  lemma ApartIsInherited(f: Part, p: Part, g: Part, q: Part)
    requires IsSample(p) && IsSample(q) && Origin(f, p) && Origin(g, q) && Apart(p, q)
    ensures Apart(f, g)
  {
    if Comparable(f.name, g.name) {
      var longer := if f.name <= g.name then g.name else f.name;
      PrefixesOfOneString(p.name, q.name, longer);
    }
  }

  // ---- Volumes ---------------------------------------------------------------------------

  /** Total volume of the sample parts. */
  function SampleVolume(parts: seq<Part>): real {
    if parts == [] then 0.0
    else SampleVolume(parts[..|parts| - 1]) + PartVolume(parts[|parts| - 1])
  }

  function PartVolume(p: Part): real { if IsSample(p) then Volume(p.box) else 0.0 }

  lemma {:induction false} SampleVolumeAppend(a: seq<Part>, b: seq<Part>)
    ensures SampleVolume(a + b) == SampleVolume(a) + SampleVolume(b)
  {
    if b == [] {
      assert a + b == a;
    } else {
      assert (a + b)[..|a + b| - 1] == a + b[..|b| - 1];
      SampleVolumeAppend(a, b[..|b| - 1]);
    }
  }

  lemma {:induction false} FragmentVolume(name: string, boxes: seq<Bounds>)
    ensures SampleVolume(FragmentParts(name, boxes)) == TotalVolume(boxes)
  {
    if boxes != [] {
      FragmentVolume(name, boxes[..|boxes| - 1]);
      assert FragmentParts(name, boxes)[..|boxes| - 1] == FragmentParts(name, boxes[..|boxes| - 1]);
    }
  }

  function RemovedFrom(p: Part, cutter: Bounds): real
    requires WellFormed(cutter) && WellFormed(p.box)
  {
    if IsSample(p) && Overlaps(p.box, cutter, 0.0) then Removed(p.box, cutter) else 0.0
  }

  /** The sample volume one cut takes away. */
  function RemovedBy(parts: seq<Part>, cutter: Bounds): real
    requires WellFormed(cutter) && forall p <- parts :: WellFormed(p.box)
  {
    if parts == [] then 0.0
    else RemovedBy(parts[..|parts| - 1], cutter) + RemovedFrom(parts[|parts| - 1], cutter)
  }

  // ---- Cutting ---------------------------------------------------------------------------

  predicate Sound(parts: seq<Part>) {
    forall p <- parts :: WellFormed(p.box) && (IsSample(p) ==> Solid(p.box))
  }

  /** After a cut a sample part keeps out of the cutter, up to an intersection at most 1e-9 thick. */
  predicate Cleared(p: Part, cutter: Bounds) {
    IsSample(p) ==> Separated(p.box, cutter) || !Thick(Intersection(p.box, cutter))
  }

  lemma FragmentsApart(name: string, boxes: seq<Bounds>)
    requires |boxes| <= 6 && PairwiseSeparated(boxes)
    ensures SamplesApart(FragmentParts(name, boxes))
  {
    hide Separated, Comparable, FragmentName;
    var r := FragmentParts(name, boxes);
    forall i, j | 0 <= i < j < |r| ensures Apart(r[i], r[j]) {
      SiblingNames(name, i + 1, j + 1);
    }
  }

  lemma FragmentsSound(p: Part, boxes: seq<Bounds>)
    requires IsSample(p) && forall b <- boxes :: Solid(b) && Inside(b, p.box)
    ensures Sound(FragmentParts(p.name, boxes)) && forall f <- FragmentParts(p.name, boxes) :: Origin(f, p)
  {
    hide Inside, FragmentName;
    var r := FragmentParts(p.name, boxes);
    forall i | 0 <= i < |r| ensures WellFormed(r[i].box) && Solid(r[i].box) && Origin(r[i], p) {
      assert boxes[i] in boxes;
      NamedAfter(p.name, i + 1);
    }
  }

  lemma NamedAfter(name: string, index: nat)
    ensures name <= FragmentName(name, index)
  {
  }

  lemma FragmentsCleared(p: Part, cutter: Bounds)
    requires IsSample(p) && WellFormed(cutter) && Solid(p.box) && Overlaps(p.box, cutter, 0.0)
    ensures forall f <- FragmentParts(p.name, SubtractBounds(p.box, cutter)) :: Cleared(f, cutter)
  {
    hide Separated, FragmentName, Inside, Overlaps, Thick, Intersection;
    var boxes := SubtractBounds(p.box, cutter);
    SubtractBoundsTiles(p.box, cutter);
    if Grazes(p.box, cutter) {
      assert boxes == [p.box];
    }
    var r := FragmentParts(p.name, boxes);
    forall i | 0 <= i < |r| ensures Cleared(r[i], cutter) {
      assert boxes[i] in boxes;
    }
  }

  /** What one cut does to one part. */
  ghost predicate CutWell(p: Part, cutter: Bounds, r: seq<Part>)
    requires WellFormed(cutter) && WellFormed(p.box)
  {
    && Sound(r) && SamplesApart(r) && (forall f <- r :: Origin(f, p)) && (forall f <- r :: Cleared(f, cutter))
    && SampleVolume(r) + RemovedFrom(p, cutter) == PartVolume(p) && RemovedFrom(p, cutter) >= 0.0
  }

  lemma UncutKeeps(p: Part, cutter: Bounds)
    requires WellFormed(cutter) && WellFormed(p.box) && (IsSample(p) ==> Solid(p.box))
    requires !IsSample(p) || !Overlaps(p.box, cutter, 0.0)
    ensures CutWell(p, cutter, [p])
  {
    hide Volume;
    assert [p][..0] == [] && SampleVolume([]) == 0.0;
  }

  lemma CutPartKeeps(p: Part, cutter: Bounds)
    requires WellFormed(cutter) && WellFormed(p.box) && (IsSample(p) ==> Solid(p.box))
    ensures CutWell(p, cutter, CutPart(p, cutter))
  {
    hide Overlaps, Solid, WellFormed, SampleVolume, Volume, Sound, SamplesApart, Removed, SubtractBounds, Inside, Separated, TotalVolume, Cleared, Origin, Grazes, PairwiseSeparated;
    if IsSample(p) && Overlaps(p.box, cutter, 0.0) {
      var boxes := SubtractBounds(p.box, cutter);
      SubtractBoundsTiles(p.box, cutter);
      FragmentVolume(p.name, boxes);
      FragmentsApart(p.name, boxes);
      FragmentsSound(p, boxes);
      FragmentsCleared(p, cutter);
    } else {
      UncutKeeps(p, cutter);
    }
  }

  lemma SiblingNames(name: string, i: nat, j: nat)
    requires 1 <= i < j <= 6
    ensures !Comparable(FragmentName(name, i), FragmentName(name, j))
  {
    var a, b := FragmentName(name, i), FragmentName(name, j);
    assert a[|name| + 5] == Digit(i) && b[|name| + 5] == Digit(j);
  }

  ghost predicate Descends(f: Part, parts: seq<Part>) { exists p <- parts :: Origin(f, p) }

  /** What one cut does to all parts. */
  ghost predicate AllCutWell(parts: seq<Part>, cutter: Bounds, r: seq<Part>)
    requires WellFormed(cutter) && forall p <- parts :: WellFormed(p.box)
  {
    && Sound(r) && SamplesApart(r) && (forall f <- r :: Descends(f, parts)) && (forall f <- r :: Cleared(f, cutter))
    && SampleVolume(r) + RemovedBy(parts, cutter) == SampleVolume(parts) && RemovedBy(parts, cutter) >= 0.0
  }

  lemma DescendsFromMore(f: Part, init: seq<Part>, last: Part)
    requires Descends(f, init) || Origin(f, last)
    ensures Descends(f, init + [last])
  {
    hide Origin;
    if Descends(f, init) {
      var p :| p in init && Origin(f, p);
      assert p in init + [last];
    } else {
      assert last in init + [last];
    }
  }

  lemma SoundJoins(a: seq<Part>, b: seq<Part>)
    ensures Sound(a) && Sound(b) <==> Sound(a + b)
  {
    hide WellFormed, Solid;
    assert forall p <- a :: p in a + b;
    assert forall p <- b :: p in a + b;
  }

  lemma LastVolumes(init: seq<Part>, last: Part, cutter: Bounds)
    requires WellFormed(cutter) && (forall p <- init :: WellFormed(p.box)) && WellFormed(last.box)
    ensures SampleVolume(init + [last]) == SampleVolume(init) + PartVolume(last)
    ensures RemovedBy(init + [last], cutter) == RemovedBy(init, cutter) + RemovedFrom(last, cutter)
    ensures CutParts(init + [last], cutter) == CutParts(init, cutter) + CutPart(last, cutter)
  {
    hide WellFormed, RemovedFrom, PartVolume, CutPart;
    assert (init + [last])[..|init|] == init;
  }

  lemma {:induction false} CutPartsKeeps(parts: seq<Part>, cutter: Bounds)
    requires WellFormed(cutter) && Sound(parts) && SamplesApart(parts)
    ensures AllCutWell(parts, cutter, CutParts(parts, cutter))
  {
    if parts == [] {
      NothingCut(cutter);
    } else {
      hide WellFormed, Solid, CutPart, CutParts, SamplesApart, AllCutWell, CutWell;
      var init, last := parts[..|parts| - 1], parts[|parts| - 1];
      var a, b := CutParts(init, cutter), CutPart(last, cutter);
      assert parts == init + [last];
      SoundJoins(init, [last]);
      assert last in [last];
      InitApart(parts);
      CutPartsKeeps(init, cutter);
      CutPartKeeps(last, cutter);
      LastVolumes(init, last, cutter);
      JoinCut(init, last, cutter, a, b);
    }
  }

  /** The cut of all parts, from the cut of all but the last and the cut of the last. */
  lemma JoinCut(init: seq<Part>, last: Part, cutter: Bounds, a: seq<Part>, b: seq<Part>)
    requires WellFormed(cutter) && (forall p <- init :: WellFormed(p.box)) && WellFormed(last.box)
    requires SamplesApart(init + [last]) && AllCutWell(init, cutter, a) && CutWell(last, cutter, b)
    ensures AllCutWell(init + [last], cutter, a + b)
  {
    hide WellFormed, Origin, Cleared, RemovedFrom, PartVolume, CutParts, SampleVolume, RemovedBy, SamplesApart, Sound, Descends;
    var parts, r := init + [last], a + b;
    LastVolumes(init, last, cutter);
    SampleVolumeAppend(a, b);
    SoundJoins(a, b);
    JoinApart(init, last, a, b);
    forall f <- r ensures Descends(f, parts) && Cleared(f, cutter) {
      assert f in a || f in b;
      DescendsFromMore(f, init, last);
    }
  }

  lemma NothingCut(cutter: Bounds)
    requires WellFormed(cutter)
    ensures AllCutWell([], cutter, CutParts([], cutter))
  {
  }

  lemma InitApart(parts: seq<Part>)
    requires SamplesApart(parts) && parts != []
    ensures SamplesApart(parts[..|parts| - 1])
  {
    hide Apart;
  }

  lemma JoinApart(init: seq<Part>, last: Part, a: seq<Part>, b: seq<Part>)
    requires SamplesApart(init + [last]) && SamplesApart(a) && SamplesApart(b)
    requires forall f <- a :: Descends(f, init)
    requires forall f <- b :: Origin(f, last)
    ensures SamplesApart(a + b)
  {
    hide Apart;
    forall i, j | 0 <= i < j < |a + b| && IsSample((a + b)[i]) && IsSample((a + b)[j])
      ensures Apart((a + b)[i], (a + b)[j])
    {
      var f, g := (a + b)[i], (a + b)[j];
      if j < |a| {
        assert f == a[i] && g == a[j];
      } else if i >= |a| {
        assert f == b[i - |a|] && g == b[j - |a|];
      } else {
        assert f in a && g in b;
        var p :| p in init && Origin(f, p);
        var k :| 0 <= k < |init| && init[k] == p;
        assert (init + [last])[k] == p && (init + [last])[|init|] == last;
        ApartIsInherited(f, p, g, last);
      }
    }
  }

  // ---- Filtering and moving --------------------------------------------------------------

  lemma {:induction false} FilterMembers(parts: seq<Part>, keep: Part -> bool)
    ensures forall p :: p in Filter(parts, keep) <==> p in parts && keep(p)
  {
    if parts != [] {
      FilterMembers(parts[..|parts| - 1], keep);
      assert parts == parts[..|parts| - 1] + [parts[|parts| - 1]];
    }
  }

  /** Dropping parts that are not samples keeps the sample volume. */
  lemma {:induction false} FilterVolume(parts: seq<Part>, keep: Part -> bool)
    requires forall p <- parts :: IsSample(p) ==> keep(p)
    ensures SampleVolume(Filter(parts, keep)) == SampleVolume(parts)
  {
    if parts != [] {
      var init, last := parts[..|parts| - 1], parts[|parts| - 1];
      assert parts == init + [last];
      FilterVolume(init, keep);
      SampleVolumeAppend(init, [last]);
      SampleVolumeAppend(Filter(init, keep), [last]);
      assert IsSample(last) ==> keep(last);
    }
  }

  lemma {:induction false} FilterApart(parts: seq<Part>, keep: Part -> bool)
    requires SamplesApart(parts)
    ensures SamplesApart(Filter(parts, keep))
  {
    if parts != [] {
      var init, last := parts[..|parts| - 1], parts[|parts| - 1];
      assert parts == init + [last];
      assert SamplesApart(init);
      FilterApart(init, keep);
      FilterMembers(init, keep);
      forall f <- Filter(init, keep) ensures Descends(f, init) {
        assert Origin(f, f);
      }
      JoinApart(init, last, Filter(init, keep), [last]);
    }
  }

  lemma {:induction false} FilterUnique(parts: seq<Part>, keep: Part -> bool)
    requires UniqueNames(parts)
    ensures UniqueNames(Filter(parts, keep))
  {
    if parts != [] {
      var init, last := parts[..|parts| - 1], parts[|parts| - 1];
      assert UniqueNames(init);
      FilterUnique(init, keep);
      FilterMembers(init, keep);
      var a := Filter(init, keep);
      forall i | 0 <= i < |a| ensures a[i].name != last.name {
        assert a[i] in init;
      }
    }
  }

  lemma {:induction false} MovePartsAt(parts: seq<Part>, delta: Vec, carry: bool)
    ensures |MoveParts(parts, delta, carry)| == |parts|
    ensures forall i :: 0 <= i < |parts| ==> MoveParts(parts, delta, carry)[i] == MovePart(parts[i], delta, carry)
  {
    if parts != [] {
      MovePartsAt(parts[..|parts| - 1], delta, carry);
    }
  }

  lemma {:induction false} MoveVolume(parts: seq<Part>, delta: Vec, carry: bool)
    ensures SampleVolume(MoveParts(parts, delta, carry)) == SampleVolume(parts)
  {
    if parts != [] {
      var init, last := parts[..|parts| - 1], parts[|parts| - 1];
      var moved := MoveParts(init, delta, carry);
      MoveVolume(init, delta, carry);
      TranslateKeepsVolume(last.box, delta);
      assert (moved + [MovePart(last, delta, carry)])[..|moved|] == moved;
    }
  }

  lemma MoveApart(parts: seq<Part>, delta: Vec, carry: bool)
    requires SamplesApart(parts)
    ensures SamplesApart(MoveParts(parts, delta, carry))
  {
    var r := MoveParts(parts, delta, carry);
    MovePartsAt(parts, delta, carry);
    forall i, j | 0 <= i < j < |r| && IsSample(r[i]) && IsSample(r[j]) ensures Apart(r[i], r[j]) {
      assert Apart(parts[i], parts[j]);
    }
  }

  lemma MoveInside(parts: seq<Part>, delta: Vec, carry: bool, box: Bounds)
    requires Sound(parts) && forall p <- parts :: IsSample(p) ==> Inside(p.box, box) && "sample" <= p.name
    ensures
      var r := MoveParts(parts, delta, carry);
      && Sound(r)
      && (forall p <- r :: IsSample(p) ==>
            Inside(p.box, if carry then Translate(box, delta) else box) && "sample" <= p.name)
  {
    var r := MoveParts(parts, delta, carry);
    MovePartsAt(parts, delta, carry);
    forall p <- r
      ensures WellFormed(p.box) && (IsSample(p) ==> Solid(p.box))
      ensures IsSample(p) ==> Inside(p.box, if carry then Translate(box, delta) else box) && "sample" <= p.name
    {
      var i :| 0 <= i < |r| && r[i] == p;
      assert parts[i] in parts && p == MovePart(parts[i], delta, carry);
    }
  }

  // ---- Unique names ----------------------------------------------------------------------

  predicate UniqueNames(parts: seq<Part>) {
    forall i, j :: 0 <= i < j < |parts| ==> parts[i].name != parts[j].name
  }

  ghost predicate NamedByRole(p: Part, serial: nat) {
    match p.role
    case Sample => SampleName(p.name)
    case Deposition => !Unsafe(p.purpose) && exists n: nat :: n <= serial && p.name == Numbered(p.purpose, n)
    case _ => p.name in FIXED_NAMES
  }

  /** A new deposition's name differs from every existing name. */
  lemma DepositionNameIsFresh(p: Part, serial: nat, purpose: string)
    requires NamedByRole(p, serial) && !Unsafe(purpose)
    ensures p.name != Numbered(purpose, serial + 1)
  {
    hide Numbered, Unsafe, SampleName, FIXED_NAMES;
    NumberedNotFixed(purpose, serial + 1);
    UnsafeIff(purpose);
    if p.role == Deposition && p.name == Numbered(purpose, serial + 1) {
      var n: nat :| n <= serial && p.name == Numbered(p.purpose, n);
      NumberedInjective(p.purpose, n, purpose, serial + 1);
    }
  }

  /** A sample never shares its name with a part of another role. */
  lemma RolesNameApart(p: Part, q: Part, serial: nat)
    requires NamedByRole(p, serial) && NamedByRole(q, serial) && IsSample(p) && IsOther(q)
    ensures p.name != q.name
  {
    hide Numbered, Unsafe, SampleName, FIXED_NAMES;
    SampleNameStarts(p.name);
    if q.role == Deposition {
      UnsafeIff(q.purpose);
    } else {
      FixedStart(q.name);
    }
  }

  lemma {:induction false} CutPartsUnique(parts: seq<Part>, cutter: Bounds, serial: nat)
    requires WellFormed(cutter) && Sound(parts) && SamplesApart(parts)
    requires UniqueNames(parts) && forall p <- parts :: NamedByRole(p, serial)
    ensures UniqueNames(CutParts(parts, cutter))
    ensures forall f <- CutParts(parts, cutter) :: NamedByRole(f, serial)
  {
    if parts != [] {
      var init, last := parts[..|parts| - 1], parts[|parts| - 1];
      var a, b := CutParts(init, cutter), CutPart(last, cutter);
      assert parts == init + [last];
      hide CutParts, CutPart, SampleVolume, RemovedBy, RemovedFrom, PartVolume, Cleared, Apart, NamedByRole, WellFormed, Solid, Origin, Descends;
      InitApart(parts);
      CutPartsUnique(init, cutter, serial);
      CutPartsKeeps(init, cutter);
      CutPartKeeps(last, cutter);
      CutPartUnique(last, cutter, serial);
      LastVolumes(init, last, cutter);
      JoinUnique(init, last, a, b, serial);
    }
  }

  lemma CutPartUnique(p: Part, cutter: Bounds, serial: nat)
    requires WellFormed(cutter) && WellFormed(p.box) && (IsSample(p) ==> Solid(p.box)) && NamedByRole(p, serial)
    ensures UniqueNames(CutPart(p, cutter)) && forall f <- CutPart(p, cutter) :: NamedByRole(f, serial)
  {
    hide SubtractBounds, Overlaps, Solid, WellFormed, SampleVolume, RemovedFrom, PartVolume, Separated, SampleName, Cleared, Origin;
    CutPartKeeps(p, cutter);
    var r := CutPart(p, cutter);
    if IsSample(p) && Overlaps(p.box, cutter, 0.0) {
      SubtractBoundsTiles(p.box, cutter);
      FragmentNames(p.name, SubtractBounds(p.box, cutter));
      forall i, j | 0 <= i < j < |r| ensures r[i].name != r[j].name {
        assert Apart(r[i], r[j]);
      }
    }
  }

  lemma FragmentNames(name: string, boxes: seq<Bounds>)
    requires SampleName(name) && |boxes| <= 6
    ensures forall f <- FragmentParts(name, boxes) :: IsSample(f) && SampleName(f.name)
  {
    hide FragmentName;
    var r := FragmentParts(name, boxes);
    forall i | 0 <= i < |r| ensures SampleName(r[i].name) {
      LongerFragment(name, i + 1);
      assert CutName(name, i + 1, r[i].name);
    }
  }

  lemma JoinUnique(init: seq<Part>, last: Part, a: seq<Part>, b: seq<Part>, serial: nat)
    requires UniqueNames(init + [last]) && SamplesApart(init + [last]) && UniqueNames(a) && UniqueNames(b)
    requires forall f <- a + b + init + [last] :: NamedByRole(f, serial)
    requires forall f <- a :: Descends(f, init)
    requires forall f <- b :: Origin(f, last)
    ensures UniqueNames(a + b)
  {
    forall i, j | 0 <= i < |a| && 0 <= j < |b| ensures a[i].name != b[j].name {
      var f, g := a[i], b[j];
      assert f in a && g in b;
      var p :| p in init && Origin(f, p);
      var k :| 0 <= k < |init| && init[k] == p;
      assert (init + [last])[k] == p && (init + [last])[|init|] == last;
      if IsSample(p) && IsSample(last) {
        ApartIsInherited(f, p, g, last);
      } else if IsSample(p) {
        RolesNameApart(f, last, serial);
      } else if IsSample(last) {
        RolesNameApart(g, p, serial);
      }
    }
  }
}
