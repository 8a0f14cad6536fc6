/** OpenFibsemBackend: the methods that update the part list in place, proved against BackendModel.Step. */
module Backend {
  import opened Geometry
  import opened BoxSubtraction
  import opened BackendModel
  import R = BackendRuns

  lemma MoveOneMore(parts: seq<Part>, i: nat, delta: Vec, carry: bool)
    requires i < |parts| && WellFormed(parts[i].box)
    ensures MoveParts(parts[..i + 1], delta, carry) == MoveParts(parts[..i], delta, carry) + [MovePart(parts[i], delta, carry)]
    ensures WellFormed(MovePart(parts[i], delta, carry).box)
  {
    assert parts[..i + 1][..i] == parts[..i];
  }

  lemma CutOneMore(parts: seq<Part>, i: nat, cutter: Bounds)
    requires i < |parts| && WellFormed(cutter) && forall p <- parts :: WellFormed(p.box)
    ensures CutParts(parts[..i + 1], cutter) == CutParts(parts[..i], cutter) + CutPart(parts[i], cutter)
    ensures forall p <- CutPart(parts[i], cutter) :: WellFormed(p.box)
  {
    hide WellFormed, CutPart;
    assert parts[..i + 1][..i] == parts[..i];
    CutPartWellFormed(parts[i], cutter);
  }

  lemma NothingToCut(cutter: Bounds)
    requires WellFormed(cutter)
    ensures CutParts([], cutter) == []
  {
  }

  lemma NothingToMove(delta: Vec, carry: bool)
    ensures MoveParts([], delta, carry) == []
  {
  }

  class OpenFibsemBackend {
    const scenario: Scenario
    var parts: seq<Part>
    var stage: Vec
    var needle: Vec
    var needleInserted: bool
    var active: bool
    var collision: bool
    var changes: seq<Change>
    var operationNumber: nat

    ghost predicate Valid()
      reads this
    {
      forall p <- parts :: WellFormed(p.box)
    }

    ghost function Model(): State
      reads this
    {
      State(parts, stage, needle, needleInserted, active, collision, changes, operationNumber)
    }

    constructor (sc: Scenario)
      requires sc.Valid()
      ensures Valid() && scenario == sc && Model() == Initial(sc)
    {
      scenario := sc;
      parts := InitialParts(sc);
      stage, needle := ORIGIN, sc.needleHome;
      needleInserted, active, collision := false, false, false;
      changes, operationNumber := [], 0;
    }

    method MoveStage(requested: Vec, relative: bool)
      requires Valid()
      modifies this`stage
      ensures Model() == Step(scenario, old(Model()),
        Request.MoveStage(if relative then Add(old(stage), requested) else requested), NoFault)
    {
      stage := if relative then Add(stage, requested) else requested;
    }

    method MoveNeedleTo(position: Vec)
      requires Valid()
      modifies this`parts, this`needle, this`collision
      ensures Valid() && Model() == MoveNeedleGeometry(old(Model()), position)
    {
      hide WellFormed, MoveParts, MovePart, HasPurpose, HasBridge;
      var delta := Sub(position, needle);
      var carry := Carries(parts);
      if carry && HasPurpose(parts, "target_joint")
         && (Abs(delta.x) > SLIVER || Abs(delta.y) > SLIVER || Abs(delta.z) > SLIVER) {
        collision := true;
      }
      ghost var torn := collision;
      var moved: seq<Part> := [];
      NothingToMove(delta, carry);
      for i := 0 to |parts|
        invariant parts == old(parts) && needle == old(needle) && collision == torn
        invariant moved == MoveParts(parts[..i], delta, carry)
        invariant forall p <- moved :: WellFormed(p.box)
      {
        MoveOneMore(parts, i, delta, carry);
        moved := moved + [MovePart(parts[i], delta, carry)];
      }
      assert parts[..|parts|] == parts;
      parts, needle := moved, position;
    }

    method InsertManipulator(position: Vec)
      requires Valid()
      modifies this
      ensures Valid()
      ensures Model() == Step(scenario, old(Model()), InsertNeedle(position), NoFault)
    {
      needleInserted := true;
      MoveNeedleTo(position);
    }

    method MoveManipulator(requested: Vec, relative: bool)
      requires Valid()
      modifies this
      ensures Valid()
      ensures Model() == Step(scenario, old(Model()),
        MoveNeedle(if relative then Add(old(needle), requested) else requested), NoFault)
    {
      MoveNeedleTo(if relative then Add(needle, requested) else requested);
    }

    method RetractManipulator()
      requires Valid()
      modifies this
      ensures Valid() && Model() == Step(scenario, old(Model()), RetractNeedle, NoFault)
    {
      MoveNeedleTo(scenario.needleHome);
      needleInserted := false;
    }

    /** A list comprehension over the parts. */
    method Select(source: seq<Part>, keep: Part -> bool) returns (r: seq<Part>)
      requires forall p <- source :: WellFormed(p.box)
      ensures r == Filter(source, keep) && forall p <- r :: WellFormed(p.box)
      ensures forall p :: p in r <==> p in source && keep(p)
    {
      r := [];
      for i := 0 to |source|
        invariant r == Filter(source[..i], keep) && forall p <- r :: WellFormed(p.box)
      {
        assert source[..i + 1][..i] == source[..i];
        if keep(source[i]) {
          r := r + [source[i]];
        }
      }
      assert source[..|source|] == source;
      R.FilterMembers(source, keep);
    }

    method CutSample(cutter: Bounds)
      requires Valid() && WellFormed(cutter)
      modifies this`parts
      ensures Valid() && parts == CutParts(old(parts), cutter)
    {
      hide WellFormed, CutParts, Overlaps, SubtractBounds;
      var output: seq<Part> := [];
      NothingToCut(cutter);
      for i := 0 to |parts|
        invariant parts == old(parts)
        invariant output == CutParts(parts[..i], cutter)
        invariant forall p <- output :: WellFormed(p.box)
      {
        CutOneMore(parts, i, cutter);
        var part := parts[i];
        if part.role != Sample || !Overlaps(part.box, cutter, 0.0) {
          output := output + [part];
        } else {
          output := output + FragmentParts(part.name, SubtractBounds(part.box, cutter));
        }
      }
      assert parts[..|parts|] == parts;
      parts := output;
    }

    /** _run_cut. `ok` is false where the source raises. */
    method RunCut(purpose: string, bounds: Bounds, fault: Fault) returns (ok: bool)
      requires Valid() && WellFormed(bounds)
      modifies this
      ensures Valid() && Model() == Step(scenario, old(Model()), Request.RunCut(purpose, bounds), fault)
      ensures fault != PatternFault && Volume(bounds) > 0.0 && purpose == "source_separation" ==>
        forall p :: p in parts <==> p in old(parts) && !(p.name == "source_bridge" && Overlaps(p.box, bounds, 0.0))
      ensures fault != PatternFault && Volume(bounds) > 0.0 && purpose == "needle_separation" ==>
        forall p :: p in parts <==>
          p in old(parts) && !(p.role == Deposition && p.purpose in ["needle_joint", "target_joint"] && Overlaps(p.box, bounds, 0.0))
      ensures ok <==> fault == NoFault && Volume(bounds) > 0.0
    {
      hide Volume, WellFormed, Filter, CutParts, DepositionPart;
      operationNumber, active := operationNumber + 1, true;
      if fault == PatternFault || Volume(bounds) <= 0.0 {
        return false;
      }
      changes := changes + [Change("cut", purpose, bounds, -Volume(bounds))];
      if purpose == "source_separation" {
        parts := Select(parts, p => !Bridged(p, bounds));
      } else if purpose == "needle_separation" {
        parts := Select(parts, p => !JointIn(p, bounds));
      } else if purpose == "trench" || purpose == "polish" || purpose == "u_cut" {
        CutSample(bounds);
      }
      if fault == RuntimeFault {
        return false;
      }
      active := false;
      return true;
    }

    /** _run_deposition. `ok` is false where the source raises. */
    method RunDeposition(purpose: string, bounds: Bounds, fault: Fault) returns (ok: bool)
      requires Valid() && WellFormed(bounds)
      modifies this
      ensures Valid() && Model() == Step(scenario, old(Model()), Request.RunDeposition(purpose, bounds), fault)
      ensures ok <==> fault == NoFault && Volume(bounds) > 0.0 && purpose != ""
    {
      hide Volume, WellFormed, Decimal;
      operationNumber, active := operationNumber + 1, true;
      if fault == PatternFault || Volume(bounds) <= 0.0 {
        return false;
      }
      changes := changes + [Change("deposition", purpose, bounds, Volume(bounds))];
      if purpose == "" {
        return false;
      }
      parts := parts + [DepositionPart(purpose, operationNumber, bounds)];
      if fault == RuntimeFault {
        return false;
      }
      active := false;
      return true;
    }

    method StopPattern(fault: Fault)
      requires Valid()
      modifies this`active
      ensures Model() == Step(scenario, old(Model()), Request.StopPattern, fault)
    {
      if fault == NoFault {
        active := false;
      }
    }

    method Cancel(fault: Fault)
      requires Valid()
      modifies this`active
      ensures Model() == Step(scenario, old(Model()), Request.Cancel, fault)
    {
      if fault == NoFault {
        active := false;
      }
    }

    method ForceSafe(fault: Fault)
      requires Valid()
      modifies this
      ensures Valid() && Model() == Step(scenario, old(Model()), Request.ForceSafe, fault)
    {
      hide WellFormed, Filter, HasPurpose, MoveNeedleGeometry;
      if needleInserted {
        if HasPurpose(parts, "target_joint") {
          parts := Select(parts, p => !Joins(p, "needle_joint"));
        }
        MoveNeedleTo(scenario.needleHome);
        needleInserted := false;
        if fault != NoFault {
          return;
        }
      }
      active := false;
    }
  }
}
