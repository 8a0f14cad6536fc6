/** Which deposition purposes let two parts of the backend share a name. */
module NameClashes {
  import opened Geometry
  import opened BoxSubtraction
  import opened BackendModel
  import opened BackendRuns
  import opened PartNames
  import opened BackendTheorems

  predicate DepositsOnly(acts: seq<Act>, purpose: string) {
    forall a <- acts :: a.request.RunDeposition? ==> a.request.purpose == purpose
  }

  function Deposit(purpose: string, bounds: Bounds): Act { Act(RunDeposition(purpose, bounds), NoFault) }

  function Trench(cutter: Bounds): Act { Act(RunCut("trench", cutter), NoFault) }

  // ---- One more request ------------------------------------------------------------------

  lemma StepDeposits(sc: Scenario, s: State, purpose: string, bounds: Bounds)
    requires WellFormed(bounds) && Volume(bounds) > 0.0 && purpose != "" && Sound(s.parts)
    ensures Step(sc, s, Deposit(purpose, bounds).request, NoFault).parts
         == s.parts + [DepositionPart(purpose, s.operationNumber + 1, bounds)]
  {
    hide Volume, DepositionPart;
  }

  lemma StepTrenches(sc: Scenario, s: State, cutter: Bounds)
    requires WellFormed(cutter) && Volume(cutter) > 0.0 && Sound(s.parts)
    ensures Step(sc, s, Trench(cutter).request, NoFault).parts == CutParts(s.parts, cutter)
  {
    hide Volume, CutParts;
  }

  lemma Deposited(sc: Scenario, purpose: string, bounds: Bounds)
    requires sc.Valid() && WellFormed(bounds) && Volume(bounds) > 0.0 && purpose != ""
    ensures AllBuilt([Deposit(purpose, bounds)])
    ensures Run(sc, [Deposit(purpose, bounds)]).state.parts == InitialParts(sc) + [DepositionPart(purpose, 1, bounds)]
  {
    hide Step, InitialParts, DepositionPart, Volume, WellFormed, Run, Sound;
    assert [] + [Deposit(purpose, bounds)] == [Deposit(purpose, bounds)] && AllBuilt([]);
    EmptyRun(sc);
    RunGrows(sc, [], Deposit(purpose, bounds));
    StepDeposits(sc, Initial(sc), purpose, bounds);
  }

  lemma Trenched(sc: Scenario, acts: seq<Act>, cutter: Bounds)
    requires sc.Valid() && AllBuilt(acts) && WellFormed(cutter) && Volume(cutter) > 0.0
    ensures AllBuilt(acts + [Trench(cutter)]) && Sound(Run(sc, acts).state.parts)
    ensures Run(sc, acts + [Trench(cutter)]).state.parts == CutParts(Run(sc, acts).state.parts, cutter)
  {
    hide Step, CutParts, Volume, WellFormed, Solid, Run, AllBuilt;
    RunGrows(sc, acts, Trench(cutter));
    StepTrenches(sc, Run(sc, acts).state, cutter);
  }

  // ---- A clash ---------------------------------------------------------------------------

  lemma {:induction false} CutPartIsIn(parts: seq<Part>, cutter: Bounds, p: Part, f: Part)
    requires WellFormed(cutter) && Sound(parts) && p in parts && f in CutPart(p, cutter)
    ensures f in CutParts(parts, cutter)
  {
    var init, last := parts[..|parts| - 1], parts[|parts| - 1];
    assert parts == init + [last];
    if p != last {
      CutPartIsIn(init, cutter, p, f);
    }
  }

  /** Cutting a sample part beside a part that already bears the name of its first fragment. */
  lemma CutClashes(parts: seq<Part>, cutter: Bounds, p: Part, added: Part)
    requires WellFormed(cutter) && Sound(parts)
    requires p in parts && added in parts && IsSample(p) && IsOther(added)
    requires Overlaps(p.box, cutter, 0.0) && SubtractBounds(p.box, cutter) != []
    requires added.name == FragmentName(p.name, 1)
    ensures !UniqueNames(CutParts(parts, cutter))
  {
    hide FragmentName, SubtractBounds, Overlaps, CutParts;
    var r, f := CutParts(parts, cutter), CutPart(p, cutter)[0];
    CutPartIsIn(parts, cutter, p, f);
    CutPartIsIn(parts, cutter, added, added);
    var i :| 0 <= i < |r| && r[i] == f;
    var j :| 0 <= j < |r| && r[j] == added;
    assert i != j && r[i].name == r[j].name;
  }

  lemma NamedAlike(stem: string, purpose: string, bounds: Bounds)
    requires purpose == stem + "_cut"
    ensures DepositionPart(purpose, 1, bounds).name == FragmentName(stem, 1)
  {
    FragmentIsNumbered(stem, 1);
  }

  /** In every scenario, depositing for "sample_cut" and then milling into the sample so that a fragment
      remains leaves two parts named "sample_cut_1". */
  lemma FreePurposesClash(sc: Scenario, bounds: Bounds, cutter: Bounds)
    requires sc.Valid() && WellFormed(cutter) && WellFormed(bounds) && Volume(bounds) > 0.0 && Volume(cutter) > 0.0
    requires Overlaps(SampleBox(sc), cutter, 0.0) && WellFormed(SampleBox(sc)) && SubtractBounds(SampleBox(sc), cutter) != []
    ensures
      var acts := [Deposit("sample_cut", bounds), Trench(cutter)];
      AllBuilt(acts) && !UniqueNames(Run(sc, acts).state.parts)
  {
    hide Volume, Overlaps, SubtractBounds, WellFormed, Solid, UniqueNames, CutParts, SampleBox, Run, AllBuilt, DepositionPart, FragmentName;
    var first, added := [Deposit("sample_cut", bounds)], DepositionPart("sample_cut", 1, bounds);
    assert first + [Trench(cutter)] == [Deposit("sample_cut", bounds), Trench(cutter)];
    assert "sample" + "_cut" == "sample_cut" && |"sample_cut"| == 10;
    Deposited(sc, "sample_cut", bounds);
    Trenched(sc, first, cutter);
    NamedAlike("sample", "sample_cut", bounds);
    SampleIsPart(sc, added);
    DepositIsOther("sample_cut", bounds);
    CutClashes(InitialParts(sc) + [added], cutter, Part("sample", Sample, SampleBox(sc), ""), added);
  }

  lemma DepositIsOther(purpose: string, bounds: Bounds)
    ensures IsOther(DepositionPart(purpose, 1, bounds))
  {
  }

  lemma SampleIsPart(sc: Scenario, added: Part)
    ensures Part("sample", Sample, SampleBox(sc), "") in InitialParts(sc) + [added] && added in InitialParts(sc) + [added]
  {
    hide BoxAt, SampleBox;
    assert (InitialParts(sc) + [added])[2] == Part("sample", Sample, SampleBox(sc), "");
    assert (InitialParts(sc) + [added])[6] == added;
  }

  // ---- Every unsafe purpose clashes somewhere ----------------------------------------------

  /** Every side is at least `room`. */
  predicate Roomy(b: Bounds, room: real) { Size(b).x >= room && Size(b).y >= room && Size(b).z >= room }

  /** The middle half of a box, along each axis. */
  function Core(b: Bounds): Bounds {
    Bounds(Add(b.minimum, Scale(Size(b), 0.25)), Add(b.minimum, Scale(Size(b), 0.75)))
  }

  lemma {:induction false} KeepAll(boxes: seq<Bounds>)
    requires forall i :: 0 <= i < |boxes| ==> Thick(boxes[i])
    ensures Keep(boxes) == boxes
  {
    hide Thick;
    if boxes != [] {
      KeepAll(boxes[..|boxes| - 1]);
    }
  }

  lemma RoomySlabs(b: Bounds, room: real)
    requires Roomy(b, 4.0 * room) && room >= 1.0
    ensures forall i :: 0 <= i < 6 ==> Roomy(Slabs(b, Core(b))[i], room)
  {
  }

  lemma RoomyIsThick(b: Bounds, room: real)
    requires Roomy(b, room) && room >= 1.0
    ensures Thick(b) && Solid(b) && WellFormed(b)
  {
  }

  lemma CoreIsInside(b: Bounds)
    requires Solid(b)
    ensures Solid(Core(b)) && Intersection(b, Core(b)) == Core(b) && Overlaps(b, Core(b), 0.0)
  {
  }

  lemma CoreIsRoomy(b: Bounds, room: real)
    requires Roomy(b, 4.0 * room) && room >= 1.0
    ensures Roomy(Core(b), room)
  {
  }

  /** Milling out the core of a roomy box leaves six roomy fragments. */
  lemma CoreCut(b: Bounds, room: real)
    requires Roomy(b, 4.0 * room) && room >= 1.0
    ensures WellFormed(b) && WellFormed(Core(b)) && Overlaps(b, Core(b), 0.0) && Volume(Core(b)) > 0.0
    ensures |SubtractBounds(b, Core(b))| == 6
    ensures forall i :: 0 <= i < 6 ==> Roomy(SubtractBounds(b, Core(b))[i], room)
  {
    hide Roomy, Core, Slabs, Thick, Solid, WellFormed, Volume, Intersection, Overlaps, Keep;
    var slabs := Slabs(b, Core(b));
    RoomyIsThick(b, 4.0 * room);
    CoreIsInside(b);
    CoreIsRoomy(b, room);
    RoomyIsThick(Core(b), room);
    VolumePositive(Core(b));
    SixSlabs(b, Core(b));
    RoomySlabs(b, room);
    forall i | 0 <= i < 6 ensures Thick(slabs[i]) {
      RoomyIsThick(slabs[i], room);
    }
    KeepAll(slabs);
  }

  lemma SixSlabs(source: Bounds, cut: Bounds)
    ensures |Slabs(source, cut)| == 6
  {
  }

  /** A scenario whose sample is a cube of side `e`. */
  function Cube(e: real): Scenario {
    Scenario(ORIGIN, Vec(e, e, e), ORIGIN, Vec(1.0, 1.0, 1.0), ORIGIN, ORIGIN, ORIGIN)
  }

  const UNIT := Bounds(ORIGIN, Vec(1.0, 1.0, 1.0))

  /** After `acts` a sample part of this name has room left, and the first deposition is still there. */
  ghost predicate Reached(e: real, acts: seq<Act>, purpose: string, name: string, box: Bounds) {
    && Cube(e).Valid() && AllBuilt(acts) && DepositsOnly(acts, purpose)
    && Part(name, Sample, box, "") in Run(Cube(e), acts).state.parts
    && DepositionPart(purpose, 1, UNIT) in Run(Cube(e), acts).state.parts
  }

  lemma CubeFacts(e: real)
    requires e >= 1.0
    ensures Cube(e).Valid() && Roomy(SampleBox(Cube(e)), e) && WellFormed(UNIT) && Volume(UNIT) > 0.0
  {
    hide Volume;
    assert Solid(UNIT);
    VolumePositive(UNIT);
  }

  lemma StartCube(e: real, purpose: string)
    requires e >= 1.0 && purpose != ""
    ensures Reached(e, [Deposit(purpose, UNIT)], purpose, "sample", SampleBox(Cube(e))) && Roomy(SampleBox(Cube(e)), e)
  {
    hide DepositionPart, InitialParts, Run, Roomy, SampleBox, Cube, Volume, WellFormed, Scenario.Valid, AllBuilt, UNIT;
    CubeFacts(e);
    Deposited(Cube(e), purpose, UNIT);
    SampleIsPart(Cube(e), DepositionPart(purpose, 1, UNIT));
  }

  /** One more trench turns a roomy part into its k-th fragment. */
  lemma CutOnce(e: real, acts: seq<Act>, purpose: string, name: string, box: Bounds, k: nat, room: real) returns (piece: Bounds)
    requires Reached(e, acts, purpose, name, box) && Roomy(box, 4.0 * room) && room >= 1.0 && 1 <= k <= 6
    ensures WellFormed(Core(box)) && Reached(e, acts + [Trench(Core(box))], purpose, FragmentName(name, k), piece) && Roomy(piece, room)
  {
    hide Roomy, Core, SubtractBounds, Overlaps, Volume, Run, CutParts, DepositionPart, FragmentName, WellFormed, Solid, AllBuilt;
    var p, added, parts := Part(name, Sample, box, ""), DepositionPart(purpose, 1, UNIT), Run(Cube(e), acts).state.parts;
    CoreCut(box, room);
    Trenched(Cube(e), acts, Core(box));
    piece := SubtractBounds(box, Core(box))[k - 1];
    assert CutPart(p, Core(box))[k - 1] == Part(FragmentName(name, k), Sample, piece, "");
    CutPartIsIn(parts, Core(box), p, Part(FragmentName(name, k), Sample, piece, ""));
    DepositIsOther(purpose, UNIT);
    CutPartIsIn(parts, Core(box), added, added);
  }

  /** Every sample name is borne by a part, as roomy as one likes, of some run. */
  lemma {:induction false} ReachName(name: string, purpose: string, room: real)
      returns (e: real, acts: seq<Act>, box: Bounds)
    requires SampleName(name) && room >= 1.0 && purpose != ""
    ensures Reached(e, acts, purpose, name, box) && Roomy(box, room)
    decreases |name|
  {
    hide Reached, Roomy, SampleBox, Cube, FragmentName;
    if name == "sample" {
      StartCube(room, purpose);
      e, acts, box := room, [Deposit(purpose, UNIT)], SampleBox(Cube(room));
    } else {
      var stem: string, k: nat :| |stem| < |name| && CutName(stem, k, name) && SampleName(stem);
      var whole: Bounds;
      e, acts, whole := ReachName(stem, purpose, 4.0 * room);
      box := CutOnce(e, acts, purpose, stem, whole, k, room);
      acts := acts + [Trench(Core(whole))];
    }
  }

  lemma UnsafeClashes(purpose: string) returns (sc: Scenario, acts: seq<Act>)
    requires Unsafe(purpose)
    ensures sc.Valid() && AllBuilt(acts) && DepositsOnly(acts, purpose) && !UniqueNames(Run(sc, acts).state.parts)
  {
    hide SampleName, Roomy, Core, SubtractBounds, Overlaps, Volume, Run, CutParts, CutPart, DepositionPart, FragmentName, WellFormed, Solid, AllBuilt, UniqueNames;
    var stem: string :| SampleName(stem) && purpose == stem + "_cut";
    var e, before, box := ReachName(stem, purpose, 4.0);
    sc, acts := Cube(e), before + [Trench(Core(box))];
    CoreCut(box, 1.0);
    Trenched(sc, before, Core(box));
    NamedAlike(stem, purpose, UNIT);
    DepositIsOther(purpose, UNIT);
    CutClashes(Run(sc, before).state.parts, Core(box), Part(stem, Sample, box, ""), DepositionPart(purpose, 1, UNIT));
  }

  ghost predicate AlwaysUnique(purpose: string) {
    forall sc: Scenario, acts ::
      sc.Valid() && AllBuilt(acts) && DepositsOnly(acts, purpose) ==> UniqueNames(Run(sc, acts).state.parts)
  }

  /** Part names stay unique in every run that deposits for one purpose exactly when that purpose is safe. */
  lemma UniqueIffSafe(purpose: string)
    ensures AlwaysUnique(purpose) <==> !Unsafe(purpose)
  {
    hide Unsafe, Run, UniqueNames, AllBuilt;
    if Unsafe(purpose) {
      var sc, acts := UnsafeClashes(purpose);
    } else {
      forall sc: Scenario, acts | sc.Valid() && AllBuilt(acts) && DepositsOnly(acts, purpose)
        ensures UniqueNames(Run(sc, acts).state.parts)
      {
        NamesStayUnique(sc, acts);
      }
    }
  }
}
