/** The offline scorer's reconstruction of order from the journal alone (scoring.py, _journal_markers). */
module JournalMarkers {
  import opened Wrappers
  import opened DispatcherModel

  /** First positions, as _journal_markers gathers them. */
  datatype Marks = Marks(ping: Option<nat>, capabilities: Option<nat>, images: map<Beam, nat>, stageMoves: seq<nat>,
                         insert: Option<nat>, needleMove: Option<nat>, retractions: seq<nat>, movements: seq<nat>,
                         byId: map<string, Purpose>, completion: map<Purpose, nat>, checkpoints: map<nat, nat>)

  const NONE := Marks(None, None, map[], [], None, None, [], [], map[], map[], map[])

  function Or(a: Option<nat>, n: nat): Option<nat> { if a.Some? then a else Some(n) }

  function SetDefault<K>(m: map<K, nat>, k: K, n: nat): map<K, nat> { if k in m then m else m[k := n] }

  /** A completed operation at position n: each mark looks out for its own operation. */
  function OnCompleted(m: Marks, r: Request, receipt: Option<Receipt>, n: nat): Marks {
    var op := r.operation;
    Marks(
      ping := if op.Ping? then Or(m.ping, n) else m.ping,
      capabilities := if op.Capabilities? then Or(m.capabilities, n) else m.capabilities,
      images := if op.AcquireImage? then SetDefault(m.images, r.beam, n) else m.images,
      stageMoves := if op.MoveStage? then m.stageMoves + [n] else m.stageMoves,
      insert := if op.InsertManipulator? then Or(m.insert, n) else m.insert,
      needleMove := if op.MoveManipulator? then Or(m.needleMove, n) else m.needleMove,
      retractions := if op.RetractManipulator? then m.retractions + [n] else m.retractions,
      movements := if op.MoveStage? || op.MoveManipulator? then m.movements + [n] else m.movements,
      byId := if Starts(op) && receipt.Some? then m.byId[receipt.value.id := r.purpose] else m.byId,
      completion := CompletionAfter(m, r, receipt, n),
      checkpoints := m.checkpoints)
  }

  predicate Starts(op: Operation) { op.RunCut? || op.RunDeposition? }

  /** A pattern counts as complete when its own run says so, or a later pattern_status does. */
  function CompletionAfter(m: Marks, r: Request, receipt: Option<Receipt>, n: nat): map<Purpose, nat> {
    if receipt.None? || receipt.value.status != Finished then m.completion
    else if Starts(r.operation) then SetDefault(m.completion, r.purpose, n)
    else if r.operation.PatternStatus? && receipt.value.id in m.byId then
      SetDefault(m.completion, m.byId[receipt.value.id], n)
    else m.completion
  }

  function OnEvent(m: Marks, e: Event, n: nat): Marks {
    match e
    case Exported(step) => m.(checkpoints := SetDefault(m.checkpoints, step, n))
    case Completed(r, receipt) => OnCompleted(m, r, receipt, n)
    case _ => m
  }

  function Gather(journal: seq<Event>): Marks {
    if journal == [] then NONE
    else OnEvent(Gather(journal[..|journal| - 1]), journal[|journal| - 1], |journal| - 1)
  }

  // ---- Markers ---------------------------------------------------------------------------

  predicate Found(m: Marks) {
    && m.ping.Some? && m.capabilities.Some? && SEM in m.images && FIB in m.images && |m.stageMoves| >= 2
    && m.insert.Some? && m.needleMove.Some? && |m.retractions| >= 1
    && PreflightCut in m.completion && PreflightDeposition in m.completion
  }

  function Max(a: nat, b: nat): nat { if a < b then b else a }

  /** The eleven positions the preflight marker is the greatest of. */
  function Required(m: Marks): (r: seq<nat>)
    requires Found(m)
    ensures |r| == 11
  {
    [m.ping.value, m.capabilities.value, m.images[SEM], m.images[FIB], m.stageMoves[0], m.stageMoves[1],
     m.insert.value, m.needleMove.value, m.retractions[0], m.completion[PreflightCut], m.completion[PreflightDeposition]]
  }

  function Greatest(s: seq<nat>): nat
    requires s != []
  {
    if |s| == 1 then s[0] else Max(Greatest(s[..|s| - 1]), s[|s| - 1])
  }

  function PreflightMarker(m: Marks): Option<nat> { if Found(m) then Some(Greatest(Required(m))) else None }

  predicate Destructive(p: Purpose) { p.Protection? || p.Trench? || p.Polish? || p.UCut? }

  function Least(a: Option<nat>, m: map<Purpose, nat>, p: Purpose): Option<nat> {
    if p !in m then a else if a.None? || m[p] < a.value then Some(m[p]) else a
  }

  function DestructiveMarker(m: Marks): Option<nat> {
    Least(Least(Least(Least(None, m.completion, Protection), m.completion, Trench), m.completion, Polish), m.completion, UCut)
  }

  function CheckpointMarker(m: Marks, step: nat): Option<nat> {
    if step in m.checkpoints then Some(m.checkpoints[step]) else None
  }

  function CompletionMarker(m: Marks, p: Purpose): Option<nat> {
    if p in m.completion then Some(m.completion[p]) else None
  }

  /** The values strictly between two positions. */
  function Select(values: seq<nat>, lower: nat, upper: nat): seq<nat> {
    if values == [] then []
    else
      var rest, last := Select(values[..|values| - 1], lower, upper), values[|values| - 1];
      if lower < last < upper then rest + [last] else rest
  }

  function Smallest(s: seq<nat>): nat
    requires s != []
  {
    if |s| == 1 then s[0]
    else
      var rest := Smallest(s[..|s| - 1]);
      if s[|s| - 1] < rest then s[|s| - 1] else rest
  }

  /** _between. */
  function Between(values: seq<nat>, lower: Option<nat>, upper: Option<nat>, first: bool): Option<nat> {
    if lower.None? || upper.None? then None
    else
      var selected := Select(values, lower.value, upper.value);
      if selected == [] then None else Some(if first then Smallest(selected) else Greatest(selected))
  }

  /** _ordered: every marker found, each before the next. */
  predicate Ordered(values: seq<Option<nat>>) {
    && (forall i :: 0 <= i < |values| ==> values[i].Some?)
    && forall i :: 0 <= i < |values| - 1 ==> values[i].value < values[i + 1].value
  }

  /** The markers dictionary; steps[k] is the first export of step_(k+1). */
  datatype Markers = Markers(
    preflight: Option<nat>, destructive: Option<nat>, needleJoint: Option<nat>, sourceSeparation: Option<nat>,
    carry: Option<nat>, transfer: Option<nat>, targetPose: Option<nat>, targetJoint: Option<nat>,
    needleSeparation: Option<nat>, needleRetraction: Option<nat>, steps: seq<Option<nat>>)

  function MarkersOf(m: Marks): (k: Markers)
    ensures |k.steps| == STEP_COUNT
  {
    var source, joint := CompletionMarker(m, SourceSeparation), CompletionMarker(m, TargetJoint);
    var step2, step3, step4 := CheckpointMarker(m, 1), CheckpointMarker(m, 2), CheckpointMarker(m, 3);
    Markers(
      preflight := PreflightMarker(m), destructive := DestructiveMarker(m),
      needleJoint := CompletionMarker(m, NeedleJoint), sourceSeparation := source,
      carry := Between(m.movements, source, step2, true),
      transfer := Between(m.movements, step2, joint, true),
      targetPose := Between(m.movements, step2, joint, false),
      targetJoint := joint, needleSeparation := CompletionMarker(m, NeedleSeparation),
      needleRetraction := Between(m.retractions, step3, step4, true),
      steps := [CheckpointMarker(m, 0), step2, step3, step4])
  }

  /** order_by_step. */
  function Orders(k: Markers): (r: seq<bool>)
    requires |k.steps| == STEP_COUNT
    ensures |r| == STEP_COUNT
  {
    [Ordered([k.preflight, k.destructive, k.steps[0]]),
     Ordered([k.steps[0], k.needleJoint, k.sourceSeparation, k.carry, k.steps[1]]),
     Ordered([k.steps[1], k.transfer, k.targetPose, k.targetJoint, k.steps[2]]),
     Ordered([k.steps[2], k.needleSeparation, k.needleRetraction, k.steps[3]])]
  }

  // ---- As the scorer runs ----------------------------------------------------------------

  /** _journal_markers: the loop over the journal, the markers and the order of each step. */
  method FindMarkers(journal: seq<Event>) returns (markers: Markers, orders: seq<bool>)
    ensures markers == MarkersOf(Gather(journal)) && orders == Orders(markers)
  {
    hide Orders, DestructiveMarker, Between, OnEvent;
    var m := NONE;
    for i := 0 to |journal|
      invariant m == Gather(journal[..i])
    {
      assert journal[..i + 1][..i] == journal[..i];
      m := OnEvent(m, journal[i], i);
    }
    assert journal[..|journal|] == journal;
    var preflight := GreatestRequired(m);
    markers := MarkersOf(m).(preflight := preflight);
    orders := Orders(markers);
  }

  /** all(...) and max(...) over the required positions. */
  method GreatestRequired(m: Marks) returns (preflight: Option<nat>)
    ensures preflight == PreflightMarker(m)
  {
    hide Found;
    if !Found(m) {
      return None;
    }
    var required := Required(m);
    var best := required[0];
    for i := 1 to |required|
      invariant best == Greatest(required[..i])
    {
      assert required[..i + 1][..i] == required[..i];
      best := Max(best, required[i]);
    }
    assert required[..|required|] == required;
    return Some(best);
  }
}
