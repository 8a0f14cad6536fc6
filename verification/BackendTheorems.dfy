/** Whole runs of the lift-out backend, from the initial scene, with runtime faults anywhere. */
module BackendTheorems {
  import opened Geometry
  import opened BoxSubtraction
  import opened BackendModel
  import opened BackendRuns
  import opened PartNames

  datatype Act = Act(request: Request, fault: Fault)

  /** Everything the sample keeps: separated solid boxes inside the sample box moved by `d`. */
  predicate SampleKept(sc: Scenario, parts: seq<Part>, d: Vec) {
    && Sound(parts) && SamplesApart(parts)
    && forall p <- parts :: IsSample(p) ==> Inside(p.box, Translate(SampleBox(sc), d)) && "sample" <= p.name
  }

  // ---- Bookkeeping of one step -----------------------------------------------------------

  /** How far a request carries the sample. */
  function Carried(sc: Scenario, s: State, r: Request): Vec {
    match r
    case InsertNeedle(at) => if Carries(s.parts) then Sub(at, s.needle) else ORIGIN
    case MoveNeedle(to) => if Carries(s.parts) then Sub(to, s.needle) else ORIGIN
    case RetractNeedle => if Carries(s.parts) then Sub(sc.needleHome, s.needle) else ORIGIN
    case ForceSafe =>
      if s.inserted && Carries(Release(s.parts)) then Sub(sc.needleHome, s.needle) else ORIGIN
    case _ => ORIGIN
  }

  predicate CutsSample(a: Act) {
    && a.request.RunCut? && a.request.purpose in ["trench", "polish", "u_cut"]
    && a.fault != PatternFault && Volume(a.request.bounds) > 0.0
  }

  /** The sample volume a step removes. */
  function Milled(s: State, a: Act): real
    requires BoundsBuilt(a.request) && Sound(s.parts)
  {
    if CutsSample(a) then RemovedBy(s.parts, a.request.bounds) else 0.0
  }

  lemma TranslateTwice(b: Bounds, d: Vec, delta: Vec)
    ensures Translate(Translate(b, d), delta) == Translate(b, Add(d, delta)) && Add(d, ORIGIN) == d
  {
  }

  lemma MoveStep(sc: Scenario, s: State, d: Vec, position: Vec)
    requires SampleKept(sc, s.parts, d)
    ensures
      var t := MoveNeedleGeometry(s, position);
      && SampleKept(sc, t.parts, Add(d, if Carries(s.parts) then Sub(position, s.needle) else ORIGIN))
      && SampleVolume(t.parts) == SampleVolume(s.parts)
  {
    var delta, carry := Sub(position, s.needle), Carries(s.parts);
    var box := Translate(SampleBox(sc), d);
    var box' := if carry then Translate(box, delta) else box;
    TranslateTwice(SampleBox(sc), d, delta);
    assert box' == Translate(SampleBox(sc), Add(d, if carry then delta else ORIGIN));
    var r := MoveParts(s.parts, delta, carry);
    assert Sound(r) && (forall p <- r :: IsSample(p) ==> Inside(p.box, box') && "sample" <= p.name) by {
      MoveInside(s.parts, delta, carry, box);
    }
    assert SamplesApart(r) by { MoveApart(s.parts, delta, carry); }
    assert SampleVolume(r) == SampleVolume(s.parts) by { MoveVolume(s.parts, delta, carry); }
    assert MoveNeedleGeometry(s, position).parts == r;
  }

  lemma FilterStep(sc: Scenario, s: State, d: Vec, keep: Part -> bool)
    requires SampleKept(sc, s.parts, d) && forall p <- s.parts :: IsSample(p) ==> keep(p)
    ensures
      var t := s.(parts := Filter(s.parts, keep));
      SampleKept(sc, t.parts, d) && SampleVolume(t.parts) == SampleVolume(s.parts)
  {
    FilterMembers(s.parts, keep);
    FilterApart(s.parts, keep);
    FilterVolume(s.parts, keep);
  }

  lemma ReleaseStep(sc: Scenario, s: State, d: Vec)
    requires SampleKept(sc, s.parts, d)
    ensures SampleKept(sc, Release(s.parts), d)
    ensures SampleVolume(Release(s.parts)) == SampleVolume(s.parts)
  {
    if HasPurpose(s.parts, "target_joint") {
      FilterStep(sc, s, d, p => !Joins(p, "needle_joint"));
    }
  }

  lemma SampleCutStep(sc: Scenario, s: State, d: Vec, cutter: Bounds)
    requires SampleKept(sc, s.parts, d) && WellFormed(cutter)
    ensures SampleKept(sc, CutParts(s.parts, cutter), d)
    ensures SampleVolume(CutParts(s.parts, cutter)) + RemovedBy(s.parts, cutter) == SampleVolume(s.parts)
    ensures RemovedBy(s.parts, cutter) >= 0.0
  {
    CutPartsKeeps(s.parts, cutter);
    forall f <- CutParts(s.parts, cutter)
      ensures IsSample(f) ==> Inside(f.box, Translate(SampleBox(sc), d)) && "sample" <= f.name
    {
      assert Descends(f, s.parts);
      var p :| p in s.parts && Origin(f, p);
    }
  }

  lemma SeparationStep(sc: Scenario, s: State, d: Vec, purpose: string, cutter: Bounds)
    requires SampleKept(sc, s.parts, d) && WellFormed(cutter) && purpose !in ["trench", "polish", "u_cut"]
    ensures SampleKept(sc, CutByPurpose(s.parts, purpose, cutter), d)
    ensures SampleVolume(CutByPurpose(s.parts, purpose, cutter)) == SampleVolume(s.parts)
  {
    if purpose == "source_separation" {
      forall p <- s.parts ensures IsSample(p) ==> !Bridged(p, cutter) {
        assert IsSample(p) ==> p.name[1] == 'a';
      }
      FilterStep(sc, s, d, p => !Bridged(p, cutter));
    } else if purpose == "needle_separation" {
      FilterStep(sc, s, d, p => !JointIn(p, cutter));
    }
  }

  lemma DepositionStep(sc: Scenario, s: State, d: Vec, purpose: string, bounds: Bounds)
    requires SampleKept(sc, s.parts, d) && WellFormed(bounds)
    ensures
      var parts := s.parts + [DepositionPart(purpose, s.operationNumber + 1, bounds)];
      SampleKept(sc, parts, d) && SampleVolume(parts) == SampleVolume(s.parts)
  {
    var added := DepositionPart(purpose, s.operationNumber + 1, bounds);
    assert (s.parts + [added])[..|s.parts|] == s.parts;
  }

  predicate MovesNeedle(r: Request) { r.InsertNeedle? || r.MoveNeedle? || r.RetractNeedle? || r.ForceSafe? }

  lemma NeedleStepKeeps(sc: Scenario, s: State, d: Vec, a: Act)
    requires SampleKept(sc, s.parts, d) && BoundsBuilt(a.request) && MovesNeedle(a.request)
    ensures SampleKept(sc, Step(sc, s, a.request, a.fault).parts, Add(d, Carried(sc, s, a.request)))
    ensures SampleVolume(Step(sc, s, a.request, a.fault).parts) == SampleVolume(s.parts)
  {
    hide SampleKept, SampleVolume, Carries, MoveParts, Sound;
    if a.request.InsertNeedle? {
      MoveStep(sc, s.(inserted := true), d, a.request.at);
    } else if a.request.MoveNeedle? {
      MoveStep(sc, s, d, a.request.to);
    } else if a.request.RetractNeedle? {
      MoveStep(sc, s, d, sc.needleHome);
    } else if s.inserted {
      ReleaseStep(sc, s, d);
      MoveStep(sc, s.(parts := Release(s.parts)), d, sc.needleHome);
    } else {
      assert Add(d, ORIGIN) == d;
    }
  }

  lemma CutStepKeeps(sc: Scenario, s: State, d: Vec, a: Act)
    requires SampleKept(sc, s.parts, d) && BoundsBuilt(a.request) && a.request.RunCut?
    ensures SampleKept(sc, Step(sc, s, a.request, a.fault).parts, d)
    ensures SampleVolume(Step(sc, s, a.request, a.fault).parts) + Milled(s, a) == SampleVolume(s.parts)
    ensures Milled(s, a) >= 0.0
  {
    hide SampleVolume, Volume, SamplesApart, Solid, CutParts, RemovedBy, Filter, Inside, Translate;
    var t, purpose, bounds := Step(sc, s, a.request, a.fault), a.request.purpose, a.request.bounds;
    if a.fault == PatternFault || Volume(bounds) <= 0.0 {
      assert t == Begin(s);
    } else if purpose in ["trench", "polish", "u_cut"] {
      assert t.parts == CutParts(s.parts, bounds);
      assert Milled(s, a) == RemovedBy(s.parts, bounds);
      SampleCutStep(sc, s, d, bounds);
    } else {
      assert t.parts == CutByPurpose(s.parts, purpose, bounds);
      SeparationStep(sc, s, d, purpose, bounds);
    }
  }

  /** One request, whatever the runtime does: the sample stays kept and its volume changes only by milling. */
  lemma StepKeeps(sc: Scenario, s: State, d: Vec, a: Act)
    requires SampleKept(sc, s.parts, d) && BoundsBuilt(a.request)
    ensures SampleKept(sc, Step(sc, s, a.request, a.fault).parts, Add(d, Carried(sc, s, a.request)))
    ensures SampleVolume(Step(sc, s, a.request, a.fault).parts) + Milled(s, a) == SampleVolume(s.parts)
    ensures Milled(s, a) >= 0.0
  {
    hide SampleKept, SampleVolume, Volume, Sound;
    if MovesNeedle(a.request) {
      NeedleStepKeeps(sc, s, d, a);
    } else {
      assert Add(d, ORIGIN) == d;
      if a.request.RunCut? {
        CutStepKeeps(sc, s, d, a);
      } else if a.request.RunDeposition? {
        DepositionStep(sc, s, d, a.request.purpose, a.request.bounds);
      }
    }
  }

  // ---- Runs ------------------------------------------------------------------------------

  predicate AllBuilt(acts: seq<Act>) { forall a <- acts :: BoundsBuilt(a.request) }

  lemma InitialVolume(sc: Scenario)
    ensures SampleVolume(InitialParts(sc)) == Product(sc.sampleSize)
  {
    var p := InitialParts(sc);
    assert p[..5][..4] == p[..4] && p[..4][..3] == p[..3] && p[..3][..2] == p[..2] && p[..2][..1] == p[..1];
    assert p[..1][..0] == [];
    assert SampleVolume(p[..1]) == 0.0;
    assert SampleVolume(p[..2]) == 0.0;
    assert SampleVolume(p[..3]) == Volume(SampleBox(sc));
    assert SampleVolume(p[..5]) == SampleVolume(p[..3]);
    assert Size(SampleBox(sc)) == sc.sampleSize;
  }

  lemma InitialKept(sc: Scenario)
    requires sc.Valid()
    ensures SampleKept(sc, InitialParts(sc), ORIGIN)
  {
    var p := InitialParts(sc);
    assert forall i :: 0 <= i < |p| && i != 2 ==> IsOther(p[i]);
    assert forall i :: 0 <= i < |p| ==> WellFormed(p[i].box);
  }

  /** What a run leaves behind: the state, how far the sample was carried, how much was milled off. */
  datatype Outcome = Outcome(state: State, displacement: Vec, milled: real)

  function Run(sc: Scenario, acts: seq<Act>): (r: Outcome)
    requires sc.Valid() && AllBuilt(acts)
    ensures SampleKept(sc, r.state.parts, r.displacement)
    ensures SampleVolume(r.state.parts) + r.milled == Product(sc.sampleSize)
    ensures r.milled >= 0.0
  {
    if acts == [] then
      InitialKept(sc);
      InitialVolume(sc);
      Outcome(Initial(sc), ORIGIN, 0.0)
    else
      var before, a := Run(sc, acts[..|acts| - 1]), acts[|acts| - 1];
      StepKeeps(sc, before.state, before.displacement, a);
      Outcome(Step(sc, before.state, a.request, a.fault),
              Add(before.displacement, Carried(sc, before.state, a.request)),
              before.milled + Milled(before.state, a))
  }

  lemma RunGrows(sc: Scenario, acts: seq<Act>, a: Act)
    requires sc.Valid() && AllBuilt(acts) && BoundsBuilt(a.request)
    ensures AllBuilt(acts + [a]) && Sound(Run(sc, acts).state.parts)
    ensures Run(sc, acts + [a]).state == Step(sc, Run(sc, acts).state, a.request, a.fault)
  {
    hide Step, BoundsBuilt;
    assert (acts + [a])[..|acts|] == acts;
  }

  lemma EmptyRun(sc: Scenario)
    requires sc.Valid()
    ensures AllBuilt([]) && Run(sc, []).state == Initial(sc) && Sound(Initial(sc).parts)
  {
    hide Initial, Solid, WellFormed;
  }

  /** In every reachable state no point is interior to two sample parts, all of them lie in the original
      sample box moved by one common displacement, and the sample volume is at most the planned one. */
  lemma SampleConserved(sc: Scenario, acts: seq<Act>)
    requires sc.Valid() && AllBuilt(acts)
    ensures
      var r := Run(sc, acts);
      && (forall i, j, p :: 0 <= i < j < |r.state.parts| && IsSample(r.state.parts[i]) && IsSample(r.state.parts[j])
            ==> !(HasInterior(r.state.parts[i].box, p) && HasInterior(r.state.parts[j].box, p)))
      && (forall q <- r.state.parts :: IsSample(q) ==> Inside(q.box, Translate(SampleBox(sc), r.displacement)))
      && SampleVolume(r.state.parts) <= Product(sc.sampleSize)
  {
    var parts := Run(sc, acts).state.parts;
    forall i, j, p | 0 <= i < j < |parts| && IsSample(parts[i]) && IsSample(parts[j])
      ensures !(HasInterior(parts[i].box, p) && HasInterior(parts[j].box, p))
    {
      assert Apart(parts[i], parts[j]);
      assert parts[i] in parts && parts[j] in parts;
      SeparatedIffNoCommonInterior(parts[i].box, parts[j].box);
    }
  }

  /** Sample volume never grows during a run. */
  lemma {:induction false} SampleVolumeNeverGrows(sc: Scenario, acts: seq<Act>, n: nat)
    requires sc.Valid() && AllBuilt(acts) && n <= |acts|
    ensures SampleVolume(Run(sc, acts).state.parts) <= SampleVolume(Run(sc, acts[..n]).state.parts)
  {
    if n == |acts| {
      assert acts[..n] == acts;
    } else {
      var init, a := acts[..|acts| - 1], acts[|acts| - 1];
      SampleVolumeNeverGrows(sc, init, n);
      assert init[..n] == acts[..n];
      var before := Run(sc, init);
      StepKeeps(sc, before.state, before.displacement, a);
    }
  }

  // ---- Names -----------------------------------------------------------------------------

  ghost predicate NamesKept(s: State) {
    UniqueNames(s.parts) && forall p <- s.parts :: NamedByRole(p, s.operationNumber)
  }

  /** A deposition for a purpose that cannot yield a fragment's name. */
  ghost predicate SafeRequest(r: Request) { r.RunDeposition? ==> !Unsafe(r.purpose) }

  predicate Dispatched(r: Request) { r.RunDeposition? ==> r.purpose in DEPOSITION_PURPOSES }

  lemma NamedLater(p: Part, m: nat, n: nat)
    requires m <= n && NamedByRole(p, m)
    ensures NamedByRole(p, n)
  {
    hide Unsafe, SampleName, Numbered, FIXED_NAMES;
  }

  lemma MoveNames(s: State, position: Vec)
    requires NamesKept(s)
    ensures NamesKept(MoveNeedleGeometry(s, position))
  {
    hide NamedByRole;
    var r := MoveParts(s.parts, Sub(position, s.needle), Carries(s.parts));
    MovePartsAt(s.parts, Sub(position, s.needle), Carries(s.parts));
    forall p <- r ensures NamedByRole(p, s.operationNumber) {
      var i :| 0 <= i < |r| && r[i] == p;
      assert s.parts[i] in s.parts;
      SameRole(s.parts[i], p, s.operationNumber);
    }
  }

  lemma SameRole(p: Part, q: Part, serial: nat)
    requires NamedByRole(p, serial) && p.name == q.name && p.role == q.role && p.purpose == q.purpose
    ensures NamedByRole(q, serial)
  {
  }

  lemma FilterNames(s: State, keep: Part -> bool)
    requires NamesKept(s)
    ensures NamesKept(s.(parts := Filter(s.parts, keep)))
  {
    hide NamedByRole, Filter;
    FilterUnique(s.parts, keep);
    FilterMembers(s.parts, keep);
  }

  lemma BeginNames(s: State)
    requires NamesKept(s)
    ensures NamesKept(Begin(s))
  {
    hide NamedByRole;
    forall p <- s.parts ensures NamedByRole(p, s.operationNumber + 1) {
      NamedLater(p, s.operationNumber, s.operationNumber + 1);
    }
  }

  lemma DepositionNames(s: State, purpose: string, bounds: Bounds)
    requires NamesKept(s) && !Unsafe(purpose)
    ensures NamesKept(Begin(s).(parts := s.parts + [DepositionPart(purpose, s.operationNumber + 1, bounds)]))
  {
    hide Unsafe, SampleName, Decimal;
    BeginNames(s);
    var added := DepositionPart(purpose, s.operationNumber + 1, bounds);
    assert added.name == Numbered(purpose, s.operationNumber + 1) && NamedByRole(added, s.operationNumber + 1);
    forall p <- s.parts ensures p.name != added.name {
      DepositionNameIsFresh(p, s.operationNumber, purpose);
    }
  }

  lemma CutNames(s: State, purpose: string, cutter: Bounds)
    requires NamesKept(s) && WellFormed(cutter) && Sound(s.parts) && SamplesApart(s.parts)
    ensures NamesKept(Begin(s).(parts := CutByPurpose(s.parts, purpose, cutter)))
  {
    hide NamedByRole, Filter, CutParts;
    var t := s.(parts := CutByPurpose(s.parts, purpose, cutter));
    assert NamesKept(t) by {
      if purpose == "source_separation" {
        FilterNames(s, p => !Bridged(p, cutter));
      } else if purpose == "needle_separation" {
        FilterNames(s, p => !JointIn(p, cutter));
      } else if purpose in ["trench", "polish", "u_cut"] {
        CutPartsUnique(s.parts, cutter, s.operationNumber);
      }
    }
    BeginNames(t);
  }

  lemma StepNames(sc: Scenario, s: State, a: Act)
    requires NamesKept(s) && SafeRequest(a.request) && BoundsBuilt(a.request) && Sound(s.parts) && SamplesApart(s.parts)
    ensures NamesKept(Step(sc, s, a.request, a.fault))
  {
    hide NamesKept, MoveNeedleGeometry, CutByPurpose, Volume, Release, Unsafe, DepositionPart, Solid, SamplesApart;
    match a.request
    case InsertNeedle(at) =>
      SameNames(s, s.(inserted := true));
      MoveNames(s.(inserted := true), at);
    case MoveNeedle(to) => MoveNames(s, to);
    case RetractNeedle =>
      MoveNames(s, sc.needleHome);
      SameNames(MoveNeedleGeometry(s, sc.needleHome), Step(sc, s, a.request, a.fault));
    case ForceSafe => ForceSafeNames(sc, s, a.fault);
    case RunCut(purpose, bounds) =>
      BeginNames(s);
      CutNames(s, purpose, bounds);
      if !(a.fault == PatternFault || Volume(bounds) <= 0.0) {
        SameNames(Begin(s).(parts := CutByPurpose(s.parts, purpose, bounds)), Step(sc, s, a.request, a.fault));
      }
    case RunDeposition(purpose, bounds) =>
      BeginNames(s);
      DepositionNames(s, purpose, bounds);
      if a.fault == PatternFault || Volume(bounds) <= 0.0 {
      } else if purpose == "" {
        SameNames(Begin(s), Step(sc, s, a.request, a.fault));
      } else {
        SameNames(Begin(s).(parts := s.parts + [DepositionPart(purpose, s.operationNumber + 1, bounds)]), Step(sc, s, a.request, a.fault));
      }
    case _ => SameNames(s, Step(sc, s, a.request, a.fault));
  }

  lemma SameNames(s: State, t: State)
    requires NamesKept(s) && s.parts == t.parts && s.operationNumber == t.operationNumber
    ensures NamesKept(t)
  {
    hide NamedByRole;
  }

  lemma ForceSafeNames(sc: Scenario, s: State, f: Fault)
    requires NamesKept(s) && forall p <- s.parts :: WellFormed(p.box)
    ensures NamesKept(Step(sc, s, ForceSafe, f))
  {
    hide NamesKept, WellFormed;
    if s.inserted {
      FilterNames(s, p => !Joins(p, "needle_joint"));
      MoveNames(s.(parts := Release(s.parts)), sc.needleHome);
      SameNames(MoveNeedleGeometry(s.(parts := Release(s.parts)), sc.needleHome), Step(sc, s, ForceSafe, f));
    } else {
      SameNames(s, Step(sc, s, ForceSafe, f));
    }
  }

  lemma InitialNames(sc: Scenario)
    ensures NamesKept(Initial(sc))
  {
    var p := InitialParts(sc);
    assert SampleName("sample");
    assert p[0].name[7] == 'b' && p[0].name[8] == 'a' && p[1].name[8] == 'r';
  }

  /** Every run whose deposition purposes are safe keeps part names unique, as SceneSnapshot requires. */
  lemma {:induction false} NamesStayUnique(sc: Scenario, acts: seq<Act>)
    requires sc.Valid() && AllBuilt(acts) && forall a <- acts :: SafeRequest(a.request)
    ensures NamesKept(Run(sc, acts).state)
  {
    hide NamesKept, SafeRequest;
    if acts == [] {
      InitialNames(sc);
    } else {
      hide Step;
      var init, a := acts[..|acts| - 1], acts[|acts| - 1];
      NamesStayUnique(sc, init);
      StepNames(sc, Run(sc, init).state, a);
    }
  }

  /** So every run of dispatched requests does. */
  lemma DispatchedNamesUnique(sc: Scenario, acts: seq<Act>)
    requires sc.Valid() && AllBuilt(acts) && forall a <- acts :: Dispatched(a.request)
    ensures NamesKept(Run(sc, acts).state)
  {
    hide NamesKept, Unsafe, DEPOSITION_PURPOSES;
    forall a <- acts ensures SafeRequest(a.request) {
      if a.request.RunDeposition? {
        DispatchedAreSafe(a.request.purpose);
      }
    }
    NamesStayUnique(sc, acts);
  }

  // ---- Collision flag and force-safe -----------------------------------------------------

  /** The step drags the sample away while a target joint holds it. */
  predicate Tears(sc: Scenario, s: State, r: Request) {
    var delta := match r
      case InsertNeedle(at) => Sub(at, s.needle)
      case MoveNeedle(to) => Sub(to, s.needle)
      case RetractNeedle => Sub(sc.needleHome, s.needle)
      case _ => ORIGIN;
    && Carries(s.parts) && HasPurpose(s.parts, "target_joint")
    && (Abs(delta.x) > SLIVER || Abs(delta.y) > SLIVER || Abs(delta.z) > SLIVER)
  }

  /** Once the needle joint is released, the sample does not follow the needle. */
  lemma ReleasedStays(parts: seq<Part>)
    ensures HasPurpose(parts, "target_joint") ==> !Carries(Release(parts))
    ensures Carries(Release(parts)) ==> !HasPurpose(Release(parts), "target_joint")
  {
    hide Filter, HasBridge;
    FilterMembers(parts, p => !Joins(p, "needle_joint"));
  }

  lemma CollisionStep(sc: Scenario, s: State, a: Act)
    requires Sound(s.parts) && BoundsBuilt(a.request)
    ensures Step(sc, s, a.request, a.fault).collision <==> s.collision || Tears(sc, s, a.request)
  {
    hide Carries, HasPurpose, Release, Sound, Volume, MoveParts, CutByPurpose, DepositionPart, WellFormed;
    if a.request.ForceSafe? {
      ReleasedStays(s.parts);
    }
    StillSteps();
  }

  lemma StillSteps()
    ensures Abs(0.0) <= SLIVER
  {
  }

  predicate TearsAt(sc: Scenario, acts: seq<Act>, n: nat)
    requires sc.Valid() && AllBuilt(acts) && n < |acts|
  {
    Tears(sc, Run(sc, acts[..n]).state, acts[n].request)
  }

  lemma CollisionGrows(sc: Scenario, acts: seq<Act>)
    requires sc.Valid() && AllBuilt(acts) && acts != []
    ensures Run(sc, acts).state.collision <==>
      Run(sc, acts[..|acts| - 1]).state.collision || TearsAt(sc, acts, |acts| - 1)
  {
    CollisionStep(sc, Run(sc, acts[..|acts| - 1]).state, acts[|acts| - 1]);
  }

  lemma TearsAtPrefix(sc: Scenario, acts: seq<Act>, n: nat)
    requires sc.Valid() && AllBuilt(acts) && n < |acts| - 1
    ensures TearsAt(sc, acts, n) == TearsAt(sc, acts[..|acts| - 1], n)
  {
    assert acts[..|acts| - 1][..n] == acts[..n];
  }

  /** The collision flag is set exactly when some earlier step tore the sample off; nothing clears it. */
  lemma {:induction false} CollisionLatched(sc: Scenario, acts: seq<Act>)
    requires sc.Valid() && AllBuilt(acts)
    ensures Run(sc, acts).state.collision <==> exists n :: 0 <= n < |acts| && TearsAt(sc, acts, n)
  {
    hide *;
    if acts == [] {
      NoCollisionYet(sc);
    } else {
      var last := |acts| - 1;
      var init := acts[..last];
      AllBuiltPrefix(acts);
      CollisionLatched(sc, init);
      CollisionGrows(sc, acts);
      forall n | 0 <= n < last ensures TearsAt(sc, acts, n) == TearsAt(sc, init, n) {
        TearsAtPrefix(sc, acts, n);
      }
    }
  }

  lemma NoCollisionYet(sc: Scenario)
    requires sc.Valid()
    ensures AllBuilt([]) && !Run(sc, []).state.collision
  {
  }

  lemma AllBuiltPrefix(acts: seq<Act>)
    requires AllBuilt(acts) && acts != []
    ensures AllBuilt(acts[..|acts| - 1])
  {
  }

  /** force_safe without a runtime fault leaves the needle retracted and nothing running, never tears the
      sample, and brings the needle home exactly when it was inserted or already there. */
  lemma ForceSafeEffect(sc: Scenario, s: State)
    requires Sound(s.parts)
    ensures
      var t := Step(sc, s, ForceSafe, NoFault);
      && !t.inserted && !t.active && t.collision == s.collision && t.changes == s.changes
      && (t.needle == sc.needleHome <==> s.inserted || s.needle == sc.needleHome)
      && (s.inserted && HasPurpose(s.parts, "target_joint") ==>
            forall p <- s.parts :: IsSample(p) ==> p in t.parts)
  {
    hide Carries, HasPurpose, Release, MoveParts, WellFormed, Solid, Abs;
    ReleasedStays(s.parts);
    if s.inserted && HasPurpose(s.parts, "target_joint") {
      SamplesStay(s.parts, Sub(sc.needleHome, s.needle));
    }
    CollisionStep(sc, s, Act(ForceSafe, NoFault));
    NoTear(sc, s);
  }

  lemma NoTear(sc: Scenario, s: State)
    ensures !Tears(sc, s, ForceSafe)
  {
  }

  /** Samples held by a target joint stay where they are when the needle goes home. */
  lemma SamplesStay(parts: seq<Part>, delta: Vec)
    requires HasPurpose(parts, "target_joint")
    ensures forall p <- parts :: IsSample(p) ==> p in MoveParts(Release(parts), delta, Carries(Release(parts)))
  {
    hide HasBridge, Filter, MoveParts;
    ReleasedStays(parts);
    var kept := Release(parts);
    FilterMembers(parts, p => !Joins(p, "needle_joint"));
    MovePartsAt(kept, delta, false);
    forall p <- parts | IsSample(p) ensures p in MoveParts(kept, delta, false) {
      var i :| 0 <= i < |kept| && kept[i] == p;
      assert MoveParts(kept, delta, false)[i] == p;
    }
  }
}
