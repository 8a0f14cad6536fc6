/** The lift-out backend as a state machine over box parts (backend.py, OpenFibsemBackend). */
module BackendModel {
  import opened Geometry
  import opened BoxSubtraction

  datatype Role = Source | Sample | Needle | Target | Deposition | Coupon

  /** A MeshPart. Every mesh the backend holds is a box mesh, so its bounds stand for it;
      an empty purpose is the source's None. */
  datatype Part = Part(name: string, role: Role, box: Bounds, purpose: string)

  datatype Change = Change(operation: string, purpose: string, bounds: Bounds, signedVolume: real)

  datatype State = State(
    parts: seq<Part>,
    stage: Vec,
    needle: Vec,
    inserted: bool,
    active: bool,
    collision: bool,
    changes: seq<Change>,
    operationNumber: nat)

  /** The scenario values the backend reads; ScenarioSpec rejects sample sides that are not positive. */
  datatype Scenario = Scenario(
    sampleCenter: Vec, sampleSize: Vec, bridgeCenter: Vec, bridgeSize: Vec,
    needleHome: Vec, targetPose: Vec, coupon: Vec)
  {
    predicate Valid() {
      && sampleSize.x > 0.0 && sampleSize.y > 0.0 && sampleSize.z > 0.0
      && bridgeSize.x > 0.0 && bridgeSize.y > 0.0 && bridgeSize.z > 0.0
    }
  }

  /** The bounds of box_mesh(center, size). */
  function BoxAt(center: Vec, size: Vec): Bounds {
    Bounds(Sub(center, Scale(size, 0.5)), Add(center, Scale(size, 0.5)))
  }

  function SampleBox(sc: Scenario): Bounds { BoxAt(sc.sampleCenter, sc.sampleSize) }

  function InitialParts(sc: Scenario): seq<Part> {
    var c, s := sc.sampleCenter, sc.sampleSize;
    var top := c.z - s.z / 2.0 - 0.25;
    [Part("source_base", Source,
          BoxAt(Vec(c.x, c.y, top - 5.0), Vec(Max(40.0, s.x * 2.0), Max(30.0, s.y * 2.0), 10.0)), ""),
     Part("source_bridge", Source,
          BoxAt(Sub(sc.bridgeCenter, Vec(0.0, 0.0, 0.25)), Add(sc.bridgeSize, Vec(0.0, 0.0, 0.5))), ""),
     Part("sample", Sample, SampleBox(sc), ""),
     Part("needle", Needle, BoxAt(Sub(sc.needleHome, Vec(3.0, 0.0, 0.0)), Vec(6.0, 2.0, 2.0)), ""),
     Part("target", Target,
          BoxAt(Sub(sc.targetPose, Vec(s.x / 2.0 + 3.0, 0.0, 0.0)), Vec(6.0, Max(20.0, s.y * 2.0), Max(12.0, s.z))), ""),
     Part("coupon", Coupon, BoxAt(Sub(sc.coupon, Vec(0.0, 0.0, 1.0)), Vec(14.0, 14.0, 2.0)), "")]
  }

  function Initial(sc: Scenario): State {
    State(InitialParts(sc), ORIGIN, sc.needleHome, false, false, false, [], 0)
  }

  // ---- Part-list operations --------------------------------------------------------------

  function Filter(parts: seq<Part>, keep: Part -> bool): seq<Part> {
    if parts == [] then []
    else
      var rest := Filter(parts[..|parts| - 1], keep);
      if keep(parts[|parts| - 1]) then rest + [parts[|parts| - 1]] else rest
  }

  predicate IsSample(p: Part) { p.role == Sample }

  predicate IsOther(p: Part) { p.role != Sample }

  predicate Joins(p: Part, purpose: string) { p.role == Deposition && p.purpose == purpose }

  predicate HasPurpose(parts: seq<Part>, purpose: string) { exists p <- parts :: Joins(p, purpose) }

  predicate HasBridge(parts: seq<Part>) { exists p <- parts :: p.name == "source_bridge" }

  /** The sample follows the needle once the bridge is gone and a needle joint exists. */
  predicate Carries(parts: seq<Part>) { !HasBridge(parts) && HasPurpose(parts, "needle_joint") }

  predicate Follows(p: Part, carry: bool) {
    p.role == Needle || (carry && (p.role == Sample || Joins(p, "needle_joint")))
  }

  function MovePart(p: Part, delta: Vec, carry: bool): Part {
    if Follows(p, carry) then p.(box := Translate(p.box, delta)) else p
  }

  function MoveParts(parts: seq<Part>, delta: Vec, carry: bool): seq<Part> {
    if parts == [] then []
    else MoveParts(parts[..|parts| - 1], delta, carry) + [MovePart(parts[|parts| - 1], delta, carry)]
  }

  function Digit(n: nat): char
    requires n < 10
  {
    "0123456789"[n]
  }

  function Decimal(n: nat): string {
    if n < 10 then [Digit(n)] else Decimal(n / 10) + [Digit(n % 10)]
  }

  function FragmentName(name: string, index: nat): string { name + "_cut_" + Decimal(index) }

  /** The enumerate(fragments, start=1) comprehension of _cut_sample. */
  function FragmentParts(name: string, boxes: seq<Bounds>): (r: seq<Part>)
    ensures |r| == |boxes|
    ensures forall i :: 0 <= i < |r| ==> r[i] == Part(FragmentName(name, i + 1), Sample, boxes[i], "")
  {
    seq(|boxes|, i requires 0 <= i < |boxes| => Part(FragmentName(name, i + 1), Sample, boxes[i], ""))
  }

  function CutPart(p: Part, cutter: Bounds): seq<Part>
    requires WellFormed(cutter) && WellFormed(p.box)
  {
    if p.role != Sample || !Overlaps(p.box, cutter, 0.0) then [p]
    else FragmentParts(p.name, SubtractBounds(p.box, cutter))
  }

  function CutParts(parts: seq<Part>, cutter: Bounds): seq<Part>
    requires WellFormed(cutter) && forall p <- parts :: WellFormed(p.box)
  {
    if parts == [] then []
    else CutParts(parts[..|parts| - 1], cutter) + CutPart(parts[|parts| - 1], cutter)
  }

  lemma CutPartWellFormed(p: Part, cutter: Bounds)
    requires WellFormed(cutter) && WellFormed(p.box)
    ensures forall q <- CutPart(p, cutter) :: WellFormed(q.box)
  {
    if p.role == Sample && Overlaps(p.box, cutter, 0.0) {
      var boxes := SubtractBounds(p.box, cutter);
      forall b <- boxes ensures WellFormed(b) {
        if !Grazes(p.box, cutter) {
          KeepSplits(Slabs(p.box, Intersection(p.box, cutter)));
        }
      }
    }
  }

  // ---- Steps -----------------------------------------------------------------------------

  datatype Request =
    | MoveStage(target: Vec)
    | InsertNeedle(at: Vec)
    | MoveNeedle(to: Vec)
    | RetractNeedle
    | RunCut(purpose: string, bounds: Bounds)
    | RunDeposition(purpose: string, bounds: Bounds)
    | StopPattern
    | Cancel
    | ForceSafe

  /** Where the simulator runtime raises, if it does: while milling, or when called after the update. */
  datatype Fault = NoFault | PatternFault | RuntimeFault

  function MoveNeedleGeometry(s: State, position: Vec): State {
    var delta := Sub(position, s.needle);
    var carry := Carries(s.parts);
    var moved := Abs(delta.x) > SLIVER || Abs(delta.y) > SLIVER || Abs(delta.z) > SLIVER;
    s.(collision := s.collision || (carry && HasPurpose(s.parts, "target_joint") && moved),
       parts := MoveParts(s.parts, delta, carry),
       needle := position)
  }

  predicate Bridged(p: Part, cutter: Bounds) { p.name == "source_bridge" && Overlaps(p.box, cutter, 0.0) }

  predicate JointIn(p: Part, cutter: Bounds) {
    && p.role == Deposition && Overlaps(p.box, cutter, 0.0)
    && (p.purpose == "needle_joint" || p.purpose == "target_joint")
  }

  function CutByPurpose(parts: seq<Part>, purpose: string, cutter: Bounds): seq<Part>
    requires WellFormed(cutter) && forall p <- parts :: WellFormed(p.box)
  {
    if purpose == "source_separation" then Filter(parts, p => !Bridged(p, cutter))
    else if purpose == "needle_separation" then Filter(parts, p => !JointIn(p, cutter))
    else if purpose == "trench" || purpose == "polish" || purpose == "u_cut" then CutParts(parts, cutter)
    else parts
  }

  function DepositionPart(purpose: string, number: nat, bounds: Bounds): Part {
    Part(purpose + "_" + Decimal(number), Deposition, bounds, purpose)
  }

  /** The state after _begin_pattern. A pattern of zero volume fails right after it, as
      MaterialChange rejects a zero signed volume. */
  function Begin(s: State): State { s.(operationNumber := s.operationNumber + 1, active := true) }

  function Release(parts: seq<Part>): seq<Part> {
    if HasPurpose(parts, "target_joint") then Filter(parts, p => !Joins(p, "needle_joint")) else parts
  }

  /** A cut or deposition request carries bounds that the Bounds constructor accepted. */
  predicate BoundsBuilt(r: Request) { r.RunCut? || r.RunDeposition? ==> WellFormed(r.bounds) }

  function Step(sc: Scenario, s: State, r: Request, f: Fault): State
    requires BoundsBuilt(r) && forall p <- s.parts :: WellFormed(p.box)
  {
    match r
    case MoveStage(target) => s.(stage := target)
    case InsertNeedle(at) => MoveNeedleGeometry(s.(inserted := true), at)
    case MoveNeedle(to) => MoveNeedleGeometry(s, to)
    case RetractNeedle => MoveNeedleGeometry(s, sc.needleHome).(inserted := false)
    case RunCut(purpose, bounds) =>
      if f == PatternFault || Volume(bounds) <= 0.0 then Begin(s)
      else Begin(s).(
        changes := s.changes + [Change("cut", purpose, bounds, -Volume(bounds))],
        parts := CutByPurpose(s.parts, purpose, bounds),
        active := f == RuntimeFault)
    case RunDeposition(purpose, bounds) =>
      if f == PatternFault || Volume(bounds) <= 0.0 then Begin(s)
      else if purpose == "" then
        Begin(s).(changes := s.changes + [Change("deposition", purpose, bounds, Volume(bounds))])
      else Begin(s).(
        changes := s.changes + [Change("deposition", purpose, bounds, Volume(bounds))],
        parts := s.parts + [DepositionPart(purpose, s.operationNumber + 1, bounds)],
        active := f == RuntimeFault)
    case StopPattern => if f == NoFault then s.(active := false) else s
    case Cancel => if f == NoFault then s.(active := false) else s
    case ForceSafe =>
      var home := if s.inserted
        then MoveNeedleGeometry(s.(parts := Release(s.parts)), sc.needleHome).(inserted := false)
        else s;
      if s.inserted && f != NoFault then home else home.(active := false)
  }
}
