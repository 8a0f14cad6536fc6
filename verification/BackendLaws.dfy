/** What the lift-out backend's requests do, read off the requests alone: which parts a cut takes away, when the
    source bridge is gone, which parts a needle move displaces, and what the other fields hold after a run. */
module BackendLaws {
  import opened Geometry
  import opened BoxSubtraction
  import opened BackendModel
  import opened BackendRuns
  import opened PartNames
  import opened BackendTheorems

  /** The boxes have a point in common. */
  ghost predicate Meet(a: Bounds, b: Bounds) { exists p :: Has(a, p) && Has(b, p) }

  lemma OverlapIsMeeting(a: Bounds, b: Bounds)
    requires WellFormed(a) && WellFormed(b)
    ensures Overlaps(a, b, 0.0) <==> Meet(a, b)
  {
    if Overlaps(a, b, 0.0) {
      var low := Vec(Max(a.minimum.x, b.minimum.x), Max(a.minimum.y, b.minimum.y), Max(a.minimum.z, b.minimum.z));
      assert Has(a, low) && Has(b, low);
    }
  }

  // ---- One cut ---------------------------------------------------------------------------

  predicate NeedleJoint(p: Part) { p.role == Deposition && p.purpose == "needle_joint" }

  predicate TargetJoint(p: Part) { p.role == Deposition && p.purpose == "target_joint" }

  /** A separation cut takes this part away. */
  ghost predicate Severs(purpose: string, cutter: Bounds, p: Part) {
    && Meet(p.box, cutter)
    && ((purpose == "source_separation" && p.name == "source_bridge")
        || (purpose == "needle_separation" && (NeedleJoint(p) || TargetJoint(p))))
  }

  /** The pattern is milled or deposited: the runtime ran it and it has a volume. */
  predicate TakesPlace(a: Act)
    requires a.request.RunCut? || a.request.RunDeposition?
  {
    a.fault != PatternFault && Volume(a.request.bounds) > 0.0
  }

  predicate Mills(purpose: string) { purpose == "trench" || purpose == "polish" || purpose == "u_cut" }

  lemma {:induction false} FilterCounts(parts: seq<Part>, keep: Part -> bool, p: Part)
    ensures multiset(Filter(parts, keep))[p] == if keep(p) then multiset(parts)[p] else 0
  {
    if parts != [] {
      var init, last := parts[..|parts| - 1], parts[|parts| - 1];
      assert parts == init + [last];
      FilterCounts(init, keep, p);
    }
  }

  /** A cut that does not mill takes away exactly the parts it severs, each as often as it is there. */
  lemma SeparationLaw(sc: Scenario, s: State, a: Act)
    requires Sound(s.parts) && BoundsBuilt(a.request) && a.request.RunCut? && TakesPlace(a) && !Mills(a.request.purpose)
    ensures
      var t := Step(sc, s, a.request, a.fault);
      forall p :: multiset(t.parts)[p]
        == if p in s.parts && Severs(a.request.purpose, a.request.bounds, p) then 0 else multiset(s.parts)[p]
  {
    hide Volume, Overlaps, Meet, Filter, Solid, CutParts;
    var purpose, cutter := a.request.purpose, a.request.bounds;
    forall p ensures multiset(Step(sc, s, a.request, a.fault).parts)[p]
      == if p in s.parts && Severs(purpose, cutter, p) then 0 else multiset(s.parts)[p]
    {
      if p in s.parts {
        OverlapIsMeeting(p.box, cutter);
      }
      FilterCounts(s.parts, q => !Bridged(q, cutter), p);
      FilterCounts(s.parts, q => !JointIn(q, cutter), p);
    }
  }

  /** So a part stands after it exactly when it stood before and is not severed. */
  lemma SeparationMembers(sc: Scenario, s: State, a: Act)
    requires Sound(s.parts) && BoundsBuilt(a.request) && a.request.RunCut? && TakesPlace(a) && !Mills(a.request.purpose)
    ensures forall p :: p in Step(sc, s, a.request, a.fault).parts <==> p in s.parts && !Severs(a.request.purpose, a.request.bounds, p)
  {
    hide Volume, Meet, Severs, Step;
    SeparationLaw(sc, s, a);
    var t := Step(sc, s, a.request, a.fault);
    forall p ensures p in t.parts <==> p in s.parts && !Severs(a.request.purpose, a.request.bounds, p) {
      assert p in t.parts <==> multiset(t.parts)[p] > 0;
      assert p in s.parts <==> multiset(s.parts)[p] > 0;
    }
  }

  lemma {:induction false} CutMembers(parts: seq<Part>, cutter: Bounds, f: Part)
    requires WellFormed(cutter) && forall p <- parts :: WellFormed(p.box)
    ensures f in CutParts(parts, cutter) <==> exists p <- parts :: f in CutPart(p, cutter)
  {
    if parts != [] {
      var init, last := parts[..|parts| - 1], parts[|parts| - 1];
      assert parts == init + [last];
      CutMembers(init, cutter, f);
    }
  }

  /** A fragment of p: the k-th box of the six-way split, named after p. */
  ghost predicate IsFragment(f: Part, p: Part, cutter: Bounds)
    requires WellFormed(cutter) && WellFormed(p.box)
  {
    && IsSample(p) && Meet(p.box, cutter) && Overlaps(p.box, cutter, 0.0)
    && exists k :: 0 <= k < |SubtractBounds(p.box, cutter)|
         && f == Part(FragmentName(p.name, k + 1), Sample, SubtractBounds(p.box, cutter)[k], "")
  }

  /** A milling cut leaves every other part and every sample it does not meet, and replaces each sample it meets by
      its fragments. */
  lemma MillingLaw(sc: Scenario, s: State, a: Act)
    requires Sound(s.parts) && BoundsBuilt(a.request) && a.request.RunCut? && TakesPlace(a) && Mills(a.request.purpose)
    ensures
      var cutter := a.request.bounds;
      forall f :: f in Step(sc, s, a.request, a.fault).parts <==>
        || (f in s.parts && !(IsSample(f) && Meet(f.box, cutter)))
        || exists p <- s.parts :: IsFragment(f, p, cutter)
  {
    hide Volume, Overlaps, Meet, SubtractBounds, CutParts, Solid, FragmentName;
    var cutter, r := a.request.bounds, CutParts(s.parts, a.request.bounds);
    forall f ensures f in r <==>
      (f in s.parts && !(IsSample(f) && Meet(f.box, cutter))) || exists p <- s.parts :: IsFragment(f, p, cutter)
    {
      CutMembers(s.parts, cutter, f);
      forall p <- s.parts ensures f in CutPart(p, cutter) <==> (f == p && !(IsSample(p) && Meet(p.box, cutter))) || IsFragment(f, p, cutter) {
        OneCut(p, cutter, f);
      }
    }
  }

  lemma OneCut(p: Part, cutter: Bounds, f: Part)
    requires WellFormed(cutter) && WellFormed(p.box)
    ensures f in CutPart(p, cutter) <==> (f == p && !(IsSample(p) && Meet(p.box, cutter))) || IsFragment(f, p, cutter)
  {
    hide Overlaps, Meet, SubtractBounds, FragmentName;
    OverlapIsMeeting(p.box, cutter);
    if IsFragment(f, p, cutter) {
      var boxes := SubtractBounds(p.box, cutter);
      var k :| 0 <= k < |boxes| && f == Part(FragmentName(p.name, k + 1), Sample, boxes[k], "");
      assert FragmentParts(p.name, boxes)[k] == f;
    }
  }

  /** A pattern that does not take place, and every request that is neither a pattern nor moves the needle,
      leaves the parts as they are. */
  lemma StillParts(sc: Scenario, s: State, a: Act)
    requires Sound(s.parts) && BoundsBuilt(a.request) && !MovesNeedle(a.request)
    requires a.request.RunCut? || a.request.RunDeposition? ==> !TakesPlace(a)
    ensures Step(sc, s, a.request, a.fault).parts == s.parts
  {
    hide Volume, CutByPurpose;
  }

  /** A deposition that takes place adds one part of its bounds and purpose; the source refuses an empty purpose. */
  lemma DepositionLaw(sc: Scenario, s: State, a: Act)
    requires Sound(s.parts) && BoundsBuilt(a.request) && a.request.RunDeposition? && TakesPlace(a)
    ensures
      var purpose, t := a.request.purpose, Step(sc, s, a.request, a.fault);
      t.parts == s.parts + if purpose == "" then []
        else [Part(Numbered(purpose, s.operationNumber + 1), Deposition, a.request.bounds, purpose)]
  {
    hide Volume, Decimal;
  }

  // ---- The source bridge -----------------------------------------------------------------

  /** The bridge as the scene starts. */
  function Bridge(sc: Scenario): Part {
    Part("source_bridge", Source, BoxAt(Sub(sc.bridgeCenter, Vec(0.0, 0.0, 0.25)), Add(sc.bridgeSize, Vec(0.0, 0.0, 0.5))), "")
  }

  /** A source separation that takes place and meets the bridge. */
  ghost predicate CutsBridge(sc: Scenario, a: Act) {
    && a.request.RunCut? && a.request.purpose == "source_separation" && TakesPlace(a)
    && Meet(Bridge(sc).box, a.request.bounds)
  }

  ghost predicate BridgeCut(sc: Scenario, acts: seq<Act>) { exists n :: 0 <= n < |acts| && CutsBridge(sc, acts[n]) }

  /** The bridge stands where it started, and nothing else bears its name. */
  ghost predicate BridgeIs(sc: Scenario, parts: seq<Part>, stands: bool) {
    && (Bridge(sc) in parts <==> stands)
    && forall p <- parts :: p.name == "source_bridge" ==> p == Bridge(sc)
  }

  lemma NotBridge(p: Part)
    requires IsSample(p) ==> "sample" <= p.name
    ensures IsSample(p) ==> p.name != "source_bridge"
  {
    FixedStart("source_bridge");
  }

  lemma MovedBridge(sc: Scenario, s: State, position: Vec, stands: bool)
    requires BridgeIs(sc, s.parts, stands)
    ensures BridgeIs(sc, MoveNeedleGeometry(s, position).parts, stands)
  {
    hide Carries, Translate, BoxAt;
    var d, carry := Sub(position, s.needle), Carries(s.parts);
    var r := MoveParts(s.parts, d, carry);
    MovePartsAt(s.parts, d, carry);
    forall p <- r ensures p.name == "source_bridge" ==> p == Bridge(sc) && p in s.parts {
      var i :| 0 <= i < |r| && r[i] == p;
      assert s.parts[i] in s.parts;
    }
    if Bridge(sc) in s.parts {
      var i :| 0 <= i < |s.parts| && s.parts[i] == Bridge(sc);
      assert r[i] == Bridge(sc);
    }
  }

  lemma ReleasedBridge(sc: Scenario, parts: seq<Part>, stands: bool)
    requires BridgeIs(sc, parts, stands)
    ensures BridgeIs(sc, Release(parts), stands)
  {
    hide Filter, BoxAt;
    FilterMembers(parts, p => !Joins(p, "needle_joint"));
  }

  lemma NeedleBridge(sc: Scenario, s: State, a: Act, stands: bool)
    requires BridgeIs(sc, s.parts, stands) && Sound(s.parts) && MovesNeedle(a.request) && BoundsBuilt(a.request)
    ensures BridgeIs(sc, Step(sc, s, a.request, a.fault).parts, stands)
  {
    hide BridgeIs, Solid, MoveNeedleGeometry, Release, WellFormed;
    match a.request
    case InsertNeedle(at) => MovedBridge(sc, s.(inserted := true), at, stands);
    case MoveNeedle(to) => MovedBridge(sc, s, to, stands);
    case RetractNeedle => MovedBridge(sc, s, sc.needleHome, stands);
    case _ =>
      ReleasedBridge(sc, s.parts, stands);
      MovedBridge(sc, s.(parts := Release(s.parts)), sc.needleHome, stands);
  }

  lemma PatternBridge(sc: Scenario, s: State, d: Vec, a: Act, stands: bool)
    requires BridgeIs(sc, s.parts, stands) && SampleKept(sc, s.parts, d) && BoundsBuilt(a.request) && !MovesNeedle(a.request)
    ensures BridgeIs(sc, Step(sc, s, a.request, a.fault).parts, stands && !CutsBridge(sc, a))
  {
    hide Volume, Meet, Step, Bridge, Solid, SamplesApart, Inside, Numbered, SubtractBounds, FragmentName;
    BridgeName(sc);
    if !((a.request.RunCut? || a.request.RunDeposition?) && TakesPlace(a)) {
      StillParts(sc, s, a);
    } else if a.request.RunDeposition? {
      DepositionLaw(sc, s, a);
      NumberedNotFixed(a.request.purpose, s.operationNumber + 1);
      assert "source_bridge" in FIXED_NAMES;
    } else if Mills(a.request.purpose) {
      MilledBridge(sc, s, d, a, stands);
    } else {
      SeparationMembers(sc, s, a);
    }
  }

  lemma BridgeName(sc: Scenario)
    ensures Bridge(sc).name == "source_bridge" && Bridge(sc).role == Source
  {
  }

  lemma MilledBridge(sc: Scenario, s: State, d: Vec, a: Act, stands: bool)
    requires BridgeIs(sc, s.parts, stands) && SampleKept(sc, s.parts, d) && BoundsBuilt(a.request) && a.request.RunCut?
    requires TakesPlace(a) && Mills(a.request.purpose)
    ensures BridgeIs(sc, Step(sc, s, a.request, a.fault).parts, stands)
  {
    hide Volume, Meet, Step, Bridge, Solid, SamplesApart, Inside, SubtractBounds;
    BridgeName(sc);
    MillingLaw(sc, s, a);
    forall f <- Step(sc, s, a.request, a.fault).parts ensures f.name == "source_bridge" ==> f == Bridge(sc) {
      if f !in s.parts {
        var p :| p in s.parts && IsFragment(f, p, a.request.bounds);
        FragmentNotBridge(f, p, a.request.bounds);
      }
    }
    assert !exists p <- s.parts :: IsFragment(Bridge(sc), p, a.request.bounds);
  }

  lemma FragmentNotBridge(f: Part, p: Part, cutter: Bounds)
    requires WellFormed(cutter) && WellFormed(p.box) && IsFragment(f, p, cutter) && "sample" <= p.name
    ensures f.name != "source_bridge"
  {
    hide Meet, Overlaps, SubtractBounds, WellFormed;
    var k :| 0 <= k < |SubtractBounds(p.box, cutter)|
      && f == Part(FragmentName(p.name, k + 1), Sample, SubtractBounds(p.box, cutter)[k], "");
    NamedAfter(p.name, k + 1);
    PrefixOfPrefix("sample", p.name, f.name);
    FixedStart("source_bridge");
  }

  lemma PrefixOfPrefix(a: string, b: string, c: string)
    requires a <= b && b <= c
    ensures a <= c
  {
  }

  lemma StartBridge(sc: Scenario)
    requires sc.Valid()
    ensures BridgeIs(sc, Run(sc, []).state.parts, true)
  {
    hide Run, Sound;
    EmptyRun(sc);
    var p := InitialParts(sc);
    assert p[1] == Bridge(sc);
    assert p[0].name[8] == 'a' && "source_bridge"[8] == 'r';
  }

  lemma BridgeCutSplits(sc: Scenario, acts: seq<Act>, a: Act)
    ensures BridgeCut(sc, acts + [a]) <==> BridgeCut(sc, acts) || CutsBridge(sc, a)
  {
    hide CutsBridge;
    var all := acts + [a];
    assert all[|acts|] == a && forall n :: 0 <= n < |acts| ==> all[n] == acts[n];
    if BridgeCut(sc, acts) {
      var n :| 0 <= n < |acts| && CutsBridge(sc, acts[n]);
      assert CutsBridge(sc, all[n]);
    }
    if CutsBridge(sc, a) {
      assert CutsBridge(sc, all[|acts|]);
    }
  }

  /** Over every run the bridge stands where it started until a source separation that takes place meets it, and
      never comes back; no other part bears its name. */
  lemma {:induction false} BridgeLaw(sc: Scenario, acts: seq<Act>)
    requires sc.Valid() && AllBuilt(acts)
    ensures BridgeIs(sc, Run(sc, acts).state.parts, !BridgeCut(sc, acts))
    ensures HasBridge(Run(sc, acts).state.parts) <==> !BridgeCut(sc, acts)
  {
    hide BridgeIs, BridgeCut, CutsBridge, Step, SampleVolume, Bridge;
    if acts == [] {
      StartBridge(sc);
      NoCutYet(sc);
    } else {
      var init, a := acts[..|acts| - 1], acts[|acts| - 1];
      assert acts == init + [a];
      BridgeLaw(sc, init);
      BridgeCutSplits(sc, init, a);
      var before := Run(sc, init);
      if MovesNeedle(a.request) {
        NeedleBridge(sc, before.state, a, !BridgeCut(sc, init));
        NeedleCutsNothing(sc, a);
      } else {
        PatternBridge(sc, before.state, before.displacement, a, !BridgeCut(sc, init));
      }
    }
    HasBridgeIs(sc, Run(sc, acts).state.parts, !BridgeCut(sc, acts));
  }

  lemma NoCutYet(sc: Scenario)
    ensures !BridgeCut(sc, [])
  {
  }

  lemma NeedleCutsNothing(sc: Scenario, a: Act)
    requires MovesNeedle(a.request)
    ensures !CutsBridge(sc, a)
  {
  }

  lemma HasBridgeIs(sc: Scenario, parts: seq<Part>, stands: bool)
    requires BridgeIs(sc, parts, stands)
    ensures HasBridge(parts) <==> stands
  {
    hide BoxAt;
    if Bridge(sc) in parts {
      assert Bridge(sc).name == "source_bridge";
    }
  }

  // ---- What the needle takes along ---------------------------------------------------------

  ghost predicate JointStands(parts: seq<Part>) { exists p <- parts :: NeedleJoint(p) }

  ghost predicate AtTarget(parts: seq<Part>) { exists p <- parts :: TargetJoint(p) }

  /** The part after the needle moved by d: the needle goes along, and if the sample hangs on it so do the sample
      parts and the needle joints. */
  function Shifted(p: Part, d: Vec, hangs: bool): Part {
    if p.role == Needle || (hangs && (p.role == Sample || NeedleJoint(p)))
    then Part(p.name, p.role, Bounds(Add(p.box.minimum, d), Add(p.box.maximum, d)), p.purpose)
    else p
  }

  /** After a run the sample hangs on the needle: the bridge was cut and a needle joint stands. */
  ghost predicate Hangs(sc: Scenario, acts: seq<Act>, parts: seq<Part>) { BridgeCut(sc, acts) && JointStands(parts) }

  lemma CarriesIs(sc: Scenario, acts: seq<Act>)
    requires sc.Valid() && AllBuilt(acts)
    ensures Carries(Run(sc, acts).state.parts) <==> Hangs(sc, acts, Run(sc, acts).state.parts)
    ensures HasPurpose(Run(sc, acts).state.parts, "target_joint") <==> AtTarget(Run(sc, acts).state.parts)
  {
    hide Run, BridgeCut, BridgeIs, HasBridge;
    BridgeLaw(sc, acts);
  }

  /** Where a needle request sends the needle. */
  function Goal(sc: Scenario, r: Request): Vec
    requires r.InsertNeedle? || r.MoveNeedle? || r.RetractNeedle?
  {
    match r
    case InsertNeedle(at) => at
    case MoveNeedle(to) => to
    case RetractNeedle => sc.needleHome
  }

  /** Over every run each needle request displaces the needle, and exactly while the sample hangs on it every sample
      part and needle joint, by the way from the old position to the new; every other part stays. */
  lemma NeedleLaw(sc: Scenario, acts: seq<Act>, a: Act)
    requires sc.Valid() && AllBuilt(acts) && (a.request.InsertNeedle? || a.request.MoveNeedle? || a.request.RetractNeedle?)
    ensures AllBuilt(acts + [a])
    ensures
      var s, t := Run(sc, acts).state, Run(sc, acts + [a]).state;
      && t.needle == Goal(sc, a.request) && |t.parts| == |s.parts|
      && forall i :: 0 <= i < |s.parts| ==>
           t.parts[i] == Shifted(s.parts[i], Sub(t.needle, s.needle), Hangs(sc, acts, s.parts))
  {
    hide Run, Carries, Shifted, MovePart, Hangs, Sound, SampleKept;
    RunGrows(sc, acts, a);
    CarriesIs(sc, acts);
    var s := Run(sc, acts).state;
    var d, carry := Sub(Goal(sc, a.request), s.needle), Carries(s.parts);
    MovePartsAt(s.parts, d, carry);
    NeedleStep(sc, s, a);
    forall i | 0 <= i < |s.parts| ensures MovePart(s.parts[i], d, carry) == Shifted(s.parts[i], d, carry) {
      ShiftedIs(s.parts[i], d, carry);
    }
  }

  lemma ShiftedIs(p: Part, d: Vec, carry: bool)
    ensures MovePart(p, d, carry) == Shifted(p, d, carry)
  {
  }

  lemma NeedleStep(sc: Scenario, s: State, a: Act)
    requires Sound(s.parts) && BoundsBuilt(a.request) && (a.request.InsertNeedle? || a.request.MoveNeedle? || a.request.RetractNeedle?)
    ensures
      var t := Step(sc, s, a.request, a.fault);
      t.needle == Goal(sc, a.request) && t.parts == MoveParts(s.parts, Sub(Goal(sc, a.request), s.needle), Carries(s.parts))
  {
    hide Carries, MoveParts, HasPurpose, Solid;
  }

  /** force_safe, when the needle is out, first gives up the needle joints if the sample is held at the target, and
      then takes the needle home, with the sample only if it still hangs on it; otherwise the parts stay. */
  lemma ForceSafeLaw(sc: Scenario, acts: seq<Act>, a: Act)
    requires sc.Valid() && AllBuilt(acts) && a.request.ForceSafe?
    ensures AllBuilt(acts + [a])
    ensures
      var s, t := Run(sc, acts).state, Run(sc, acts + [a]).state;
      var held := AtTarget(s.parts);
      if s.inserted then
        && t.needle == sc.needleHome
        && forall q :: q in t.parts <==>
             exists p <- s.parts :: !(held && NeedleJoint(p)) && q == Shifted(p, Sub(t.needle, s.needle), !held && Hangs(sc, acts, s.parts))
      else t.needle == s.needle && t.parts == s.parts
  {
    hide Run, Carries, Shifted, MovePart, Sound, SampleKept, BridgeCut, JointStands, AtTarget, NeedleJoint, HasPurpose;
    RunGrows(sc, acts, a);
    CarriesIs(sc, acts);
    var s := Run(sc, acts).state;
    ForceSafeStep(sc, s, a);
    if s.inserted {
      var d, held, hangs := Sub(sc.needleHome, s.needle), AtTarget(s.parts), !AtTarget(s.parts) && Hangs(sc, acts, s.parts);
      ReleasedCarries(s.parts);
      var kept := Release(s.parts);
      MovePartsAt(kept, d, hangs);
      ReleasedMembers(s.parts);
      forall q ensures q in MoveParts(kept, d, hangs) <==> exists p <- s.parts :: !(held && NeedleJoint(p)) && q == Shifted(p, d, hangs) {
        MovedMembers(kept, d, hangs, q);
      }
    }
  }

  lemma MovedMembers(parts: seq<Part>, d: Vec, carry: bool, q: Part)
    ensures q in MoveParts(parts, d, carry) <==> exists p <- parts :: q == Shifted(p, d, carry)
  {
    hide MovePart, Shifted;
    var r := MoveParts(parts, d, carry);
    MovePartsAt(parts, d, carry);
    forall i | 0 <= i < |parts| ensures r[i] == Shifted(parts[i], d, carry) && parts[i] in parts {
      ShiftedIs(parts[i], d, carry);
    }
    if q in r {
      var i :| 0 <= i < |r| && r[i] == q;
      assert q == Shifted(parts[i], d, carry);
    }
    if p :| p in parts && q == Shifted(p, d, carry) {
      var i :| 0 <= i < |parts| && parts[i] == p;
      assert r[i] == q;
    }
  }

  lemma ReleasedMembers(parts: seq<Part>)
    ensures forall p :: p in Release(parts) <==> p in parts && !(AtTarget(parts) && NeedleJoint(p))
  {
    hide Filter;
    FilterMembers(parts, p => !Joins(p, "needle_joint"));
  }

  lemma ReleasedCarries(parts: seq<Part>)
    ensures Carries(Release(parts)) <==> !AtTarget(parts) && Carries(parts)
  {
    hide HasBridge;
    ReleasedStays(parts);
    ReleasedMembers(parts);
    if AtTarget(parts) {
      assert HasPurpose(parts, "target_joint");
    }
  }

  lemma ForceSafeStep(sc: Scenario, s: State, a: Act)
    requires Sound(s.parts) && a.request.ForceSafe?
    ensures
      var t := Step(sc, s, a.request, a.fault);
      if s.inserted then
        && t.needle == sc.needleHome
        && t.parts == MoveParts(Release(s.parts), Sub(sc.needleHome, s.needle), Carries(Release(s.parts)))
      else t.needle == s.needle && t.parts == s.parts
  {
    hide Carries, MoveParts, HasPurpose, Solid, Release;
  }

  /** And the sample is torn exactly when it hangs on the needle, is held at the target, and the needle leaves its
      place by more than 1e-9 along some axis. */
  lemma TearLaw(sc: Scenario, acts: seq<Act>, a: Act)
    requires sc.Valid() && AllBuilt(acts) && (a.request.InsertNeedle? || a.request.MoveNeedle? || a.request.RetractNeedle?)
    ensures AllBuilt(acts + [a])
    ensures
      var s := Run(sc, acts).state;
      var d := Sub(Goal(sc, a.request), s.needle);
      Run(sc, acts + [a]).state.collision <==>
        || s.collision
        || (Hangs(sc, acts, s.parts) && AtTarget(s.parts)
            && !(-0.000000001 <= d.x <= 0.000000001 && -0.000000001 <= d.y <= 0.000000001 && -0.000000001 <= d.z <= 0.000000001))
  {
    hide Run, Carries, SampleKept, HasPurpose, Hangs, AtTarget, Solid, Step, Sound;
    RunGrows(sc, acts, a);
    CarriesIs(sc, acts);
    CollisionStep(sc, Run(sc, acts).state, a);
    assert SLIVER == 0.000000001;
  }

  // ---- The other fields ------------------------------------------------------------------

  function Stage(acts: seq<Act>): Vec {
    if acts == [] then ORIGIN
    else if acts[|acts| - 1].request.MoveStage? then acts[|acts| - 1].request.target else Stage(acts[..|acts| - 1])
  }

  predicate Inserted(acts: seq<Act>) {
    acts != []
    && var r := acts[|acts| - 1].request;
       r.InsertNeedle? || (!r.RetractNeedle? && !r.ForceSafe? && Inserted(acts[..|acts| - 1]))
  }

  /** Every pattern asked for gets a number. */
  function Patterns(acts: seq<Act>): nat {
    if acts == [] then 0
    else
      var r := acts[|acts| - 1].request;
      Patterns(acts[..|acts| - 1]) + if r.RunCut? || r.RunDeposition? then 1 else 0
  }

  /** Material that a pattern takes or adds: one record for each pattern that takes place, negative for a cut. */
  function Material(acts: seq<Act>): seq<Change> {
    if acts == [] then []
    else
      var before, a := Material(acts[..|acts| - 1]), acts[|acts| - 1];
      if a.request.RunCut? && TakesPlace(a) then before + [Change("cut", a.request.purpose, a.request.bounds, 0.0 - Volume(a.request.bounds))]
      else if a.request.RunDeposition? && TakesPlace(a) then
        before + [Change("deposition", a.request.purpose, a.request.bounds, Volume(a.request.bounds))]
      else before
  }

  /** A pattern stays active when it does not come to its end, until another does, or it is stopped, cancelled or
      made safe. */
  predicate Hanging(acts: seq<Act>) {
    acts != []
    && var a, before := acts[|acts| - 1], acts[..|acts| - 1];
       match a.request
       case RunCut(_, _) => !(TakesPlace(a) && a.fault == NoFault)
       case RunDeposition(purpose, _) => !(TakesPlace(a) && a.fault == NoFault && purpose != "")
       case StopPattern => a.fault != NoFault && Hanging(before)
       case Cancel => a.fault != NoFault && Hanging(before)
       case ForceSafe => a.fault != NoFault && Inserted(before) && Hanging(before)
       case _ => Hanging(before)
  }

  /** The fields are told by the requests. */
  ghost predicate FieldsAre(s: State, acts: seq<Act>) {
    && s.stage == Stage(acts) && s.inserted == Inserted(acts) && s.operationNumber == Patterns(acts)
    && s.changes == Material(acts) && s.active == Hanging(acts)
  }

  lemma PatternFields(sc: Scenario, s: State, a: Act, acts: seq<Act>)
    requires Sound(s.parts) && BoundsBuilt(a.request) && (a.request.RunCut? || a.request.RunDeposition?) && FieldsAre(s, acts)
    ensures FieldsAre(Step(sc, s, a.request, a.fault), acts + [a])
  {
    hide Volume, CutByPurpose, Solid, DepositionPart;
    assert (acts + [a])[..|acts|] == acts;
  }

  lemma NeedleFields(sc: Scenario, s: State, a: Act, acts: seq<Act>)
    requires Sound(s.parts) && BoundsBuilt(a.request) && MovesNeedle(a.request) && FieldsAre(s, acts)
    ensures FieldsAre(Step(sc, s, a.request, a.fault), acts + [a])
  {
    hide MoveParts, Release, Carries, HasPurpose, Solid, Volume, Abs;
    assert (acts + [a])[..|acts|] == acts;
  }

  lemma StepFields(sc: Scenario, s: State, a: Act, acts: seq<Act>)
    requires Sound(s.parts) && BoundsBuilt(a.request) && FieldsAre(s, acts)
    ensures FieldsAre(Step(sc, s, a.request, a.fault), acts + [a])
  {
    hide Volume, MoveNeedleGeometry, CutByPurpose, Solid;
    assert (acts + [a])[..|acts|] == acts;
    if a.request.RunCut? || a.request.RunDeposition? {
      PatternFields(sc, s, a, acts);
    } else if MovesNeedle(a.request) {
      NeedleFields(sc, s, a, acts);
    }
  }

  /** Only needle requests and force_safe move the needle. */
  lemma NeedleStays(sc: Scenario, s: State, a: Act)
    requires Sound(s.parts) && BoundsBuilt(a.request) && !MovesNeedle(a.request)
    ensures Step(sc, s, a.request, a.fault).needle == s.needle && Step(sc, s, a.request, a.fault).collision == s.collision
  {
    hide Volume, CutByPurpose, Solid;
  }

  lemma NoFields(sc: Scenario)
    ensures FieldsAre(Initial(sc), [])
  {
    hide InitialParts;
  }

  /** What the other fields hold after a run, from the requests and their faults. */
  lemma {:induction false} FieldsLaw(sc: Scenario, acts: seq<Act>)
    requires sc.Valid() && AllBuilt(acts)
    ensures FieldsAre(Run(sc, acts).state, acts)
  {
    if acts == [] {
      hide Run, Initial, Sound;
      EmptyRun(sc);
      NoFields(sc);
    } else {
      hide Step, FieldsAre, Run, Sound, SampleKept;
      var init, a := acts[..|acts| - 1], acts[|acts| - 1];
      assert acts == init + [a];
      FieldsLaw(sc, init);
      RunGrows(sc, init, a);
      StepFields(sc, Run(sc, init).state, a, init);
    }
  }
}
