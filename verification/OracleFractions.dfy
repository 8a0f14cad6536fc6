/** The sample fractions the geometry oracle reports (geometry/oracle.py, evaluate), tied to backend runs. */
module OracleFractions {
  import opened Geometry
  import opened RealArithmetic
  import opened BackendModel
  import opened BackendRuns
  import opened BackendTheorems
  import opened ContactGraph

  function SampleIndices(parts: seq<Part>): (s: set<nat>)
    ensures forall i: nat :: i in s <==> i < |parts| && IsSample(parts[i])
  {
    if parts == [] then {}
    else
      var rest := SampleIndices(parts[..|parts| - 1]);
      if IsSample(parts[|parts| - 1]) then rest + {|parts| - 1} else rest
  }

  function Volumes(parts: seq<Part>): (r: seq<real>)
    ensures |r| == |parts| && forall i :: 0 <= i < |r| ==> r[i] == Volume(parts[i].box)
  {
    seq(|parts|, i requires 0 <= i < |parts| => Volume(parts[i].box))
  }

  lemma {:induction false} SampleSum(parts: seq<Part>, n: nat)
    requires n <= |parts|
    ensures SumIn(SampleIndices(parts), Volumes(parts), n) == SampleVolume(parts[..n])
  {
    if n > 0 {
      SampleSum(parts, n - 1);
      assert parts[..n][..n - 1] == parts[..n - 1];
    }
  }

  lemma {:induction false} ComponentNonNegative(s: set<nat>, volumes: seq<real>, n: nat)
    requires n <= |volumes| && forall i :: 0 <= i < n ==> i in s ==> volumes[i] >= 0.0
    ensures SumIn(s, volumes, n) >= 0.0
  {
    if n > 0 {
      ComponentNonNegative(s, volumes, n - 1);
    }
  }

  lemma PartsNonNegative(parts: seq<Part>, s: set<nat>)
    requires Sound(parts)
    ensures SumIn(s, Volumes(parts), |parts|) >= 0.0
  {
    forall k | 0 <= k < |parts| ensures Volumes(parts)[k] >= 0.0 {
      assert parts[k] in parts;
      VolumeNonNegative(parts[k].box);
    }
    ComponentNonNegative(s, Volumes(parts), |parts|);
  }

  /** max(..., default=0.0) over the component volumes never exceeds their sum. */
  function Principal(values: seq<real>): real {
    if values == [] then 0.0
    else if |values| == 1 then values[0]
    else Max(Principal(values[..|values| - 1]), values[|values| - 1])
  }

  lemma {:induction false} PrincipalAtMostTotal(values: seq<real>)
    requires forall i :: 0 <= i < |values| ==> values[i] >= 0.0
    ensures 0.0 <= Principal(values) <= Total(values)
    ensures values != [] ==> exists i :: 0 <= i < |values| && values[i] == Principal(values)
    ensures forall i :: 0 <= i < |values| ==> values[i] <= Principal(values)
  {
    if values != [] {
      PrincipalAtMostTotal(values[..|values| - 1]);
    }
  }

  /** The count, total fraction and retained fraction of evaluate, for any symmetric contact graph: the count is the
      number of connected components of the sample parts, and the retained fraction that of the greatest of them. */
  method SampleFractions(parts: seq<Part>, g: Graph, planned: real)
    returns (count: nat, total: real, retained: real, ghost components: seq<set<nat>>)
    requires Symmetric(g) && |g| == |parts| && Sound(parts) && planned > 0.0
    ensures count == |components| && UnionOf(components) == SampleIndices(parts)
    ensures forall i :: 0 <= i < count ==> IsComponent(g, SampleIndices(parts), components[i])
    ensures forall i, k :: 0 <= i < k < count ==> components[i] !! components[k]
    ensures total * planned == SampleVolume(parts)
    ensures if count == 0 then retained == 0.0 else IsGreatest(parts, components, retained * planned)
    ensures 0.0 <= retained <= total
    ensures count == 0 <==> forall p <- parts :: IsOther(p)
  {
    hide IsComponent, UnionOf, SampleVolume, Principal, Total, SumIn, Sound, IsGreatest;
    var volumes, samples := Volumes(parts), SampleIndices(parts);
    var r;
    r, components := SampleComponentVolumes(g, samples, volumes);
    NotEmpty(g, samples, components);
    Fractions(parts, r, components, planned);
    CountZero(parts, components);
    count, total, retained := |r|, Total(r) / planned, Principal(r) / planned;
    Divided(Total(r), planned);
    Divided(Principal(r), planned);
    PrincipalIsGreatest(parts, r, components);
    assert retained * planned == Principal(r);
    if r == [] {
      NoPrincipal(planned);
    }
  }

  /** Some component has this volume and none has more. */
  ghost predicate IsGreatest(parts: seq<Part>, components: seq<set<nat>>, volume: real) {
    && (exists i :: 0 <= i < |components| && SumIn(components[i], Volumes(parts), |parts|) == volume)
    && forall i :: 0 <= i < |components| ==> SumIn(components[i], Volumes(parts), |parts|) <= volume
  }

  lemma NotEmpty(g: Graph, samples: set<nat>, components: seq<set<nat>>)
    requires forall i :: 0 <= i < |components| ==> IsComponent(g, samples, components[i])
    ensures forall i :: 0 <= i < |components| ==> components[i] != {}
  {
  }

  lemma Divided(a: real, b: real)
    requires b != 0.0
    ensures a / b * b == a
  {
  }

  lemma NoPrincipal(planned: real)
    requires planned > 0.0
    ensures Principal([]) / planned == 0.0
  {
  }

  lemma PrincipalIsGreatest(parts: seq<Part>, r: seq<real>, components: seq<set<nat>>)
    requires Sound(parts) && |r| == |components|
    requires forall i :: 0 <= i < |r| ==> r[i] == SumIn(components[i], Volumes(parts), |parts|)
    ensures r != [] ==> IsGreatest(parts, components, Principal(r))
  {
    hide SumIn, Principal, Sound;
    forall i | 0 <= i < |r| ensures r[i] >= 0.0 {
      PartsNonNegative(parts, components[i]);
    }
    PrincipalAtMostTotal(r);
  }

  lemma Fractions(parts: seq<Part>, r: seq<real>, components: seq<set<nat>>, planned: real)
    requires Sound(parts) && planned > 0.0 && |r| == |components|
    requires forall i :: 0 <= i < |r| ==> r[i] == SumIn(components[i], Volumes(parts), |parts|)
    requires Total(r) == SumIn(SampleIndices(parts), Volumes(parts), |parts|)
    ensures Total(r) == SampleVolume(parts)
    ensures 0.0 <= Principal(r) / planned <= Total(r) / planned
  {
    SampleSum(parts, |parts|);
    assert parts[..|parts|] == parts;
    forall i | 0 <= i < |r| ensures r[i] >= 0.0 {
      PartsNonNegative(parts, components[i]);
    }
    PrincipalAtMostTotal(r);
    Divide(Principal(r), Total(r), planned);
  }

  lemma Divide(part: real, whole: real, planned: real)
    requires 0.0 <= part <= whole && planned > 0.0
    ensures 0.0 <= part / planned <= whole / planned
  {
  }

  lemma CountZero(parts: seq<Part>, components: seq<set<nat>>)
    requires UnionOf(components) == SampleIndices(parts) && forall i :: 0 <= i < |components| ==> components[i] != {}
    ensures components == [] <==> forall p <- parts :: IsOther(p)
  {
    if components == [] {
      forall p <- parts ensures IsOther(p) {
        var i :| 0 <= i < |parts| && parts[i] == p;
        assert i !in SampleIndices(parts);
      }
    } else {
      var c := components[|components| - 1];
      var x :| x in c;
      assert parts[x] in parts;
    }
  }

  /** In every reachable backend state, however the parts touch, the oracle reports
      retained fraction <= total fraction <= 1. */
  method FractionsOfRun(sc: Scenario, acts: seq<Act>, g: Graph) returns (total: real, retained: real)
    requires sc.Valid() && AllBuilt(acts) && Symmetric(g) && |g| == |Run(sc, acts).state.parts|
    ensures 0.0 <= retained <= total <= 1.0
    ensures total * Product(sc.sampleSize) == SampleVolume(Run(sc, acts).state.parts)
  {
    var planned := Product(sc.sampleSize);
    hide *;
    PlannedPositive(sc);
    RunBound(sc, acts);
    var parts := Run(sc, acts).state.parts;
    var count;
    ghost var components;
    count, total, retained, components := SampleFractions(parts, g, planned);
    FractionBound(planned, SampleVolume(parts), total);
  }

  lemma FractionBound(planned: real, volume: real, total: real)
    requires planned > 0.0 && volume <= planned && total * planned == volume
    ensures total <= 1.0
  {
    if total > 1.0 {
      var a, b := MulStrict(1.0, total, planned);
    }
  }

  lemma RunBound(sc: Scenario, acts: seq<Act>)
    requires sc.Valid() && AllBuilt(acts)
    ensures Sound(Run(sc, acts).state.parts) && SampleVolume(Run(sc, acts).state.parts) <= Product(sc.sampleSize)
  {
  }

  lemma PlannedPositive(sc: Scenario)
    requires sc.Valid()
    ensures Product(sc.sampleSize) > 0.0
  {
    assert Size(SampleBox(sc)) == sc.sampleSize;
    VolumePositive(SampleBox(sc));
  }
}
