/** The lift-out dispatcher's gate (instrumented_microscope.py, with the checkpoint export of service.py) as a
    function of its state, one request and the backend's reply. */
module DispatcherModel {
  import opened Wrappers

  datatype Operation =
    | Ping | Capabilities | AcquireImage | GetStagePosition | MoveStage | StopStage
    | GetManipulatorState | InsertManipulator | MoveManipulator | RetractManipulator | StopManipulator
    | RunCut | RunDeposition | PatternStatus | StopPattern | Checkpoint
    | Unknown(name: string)

  datatype Beam = SEM | FIB | OtherBeam

  datatype Purpose =
    | PreflightCut | Trench | Polish | UCut | SourceSeparation | NeedleSeparation
    | PreflightDeposition | Protection | NeedleJoint | TargetJoint

  predicate IsCut(p: Purpose) {
    p.PreflightCut? || p.Trench? || p.Polish? || p.UCut? || p.SourceSeparation? || p.NeedleSeparation?
  }

  predicate IsPreflight(p: Purpose) { p.PreflightCut? || p.PreflightDeposition? }

  datatype Status = Queued | Running | Finished | Stopped | Broken

  datatype Receipt = Receipt(id: string, status: Status)

  /** A request as the handlers see it. `digestible`: its arguments have a canonical digest. `valid`: its key
      set, types, ranges and motion safety pass. `near`: a stage target is close to the stage's first position. */
  datatype Request = Request(operation: Operation, digestible: bool, valid: bool, beam: Beam, near: bool,
                             purpose: Purpose, id: string, step: nat)

  /** The backend returns, raises something dispatch maps to a rejection, or raises anything else. A pattern
      operation's value may fail to be a receipt, and any value may have no canonical digest. */
  datatype Reply = Value(receipt: Option<Receipt>, digestible: bool) | Mapped | Raised

  datatype Event =
    | Requested(operation: Operation)
    | Rejected(operation: Operation)
    | Failed(operation: Operation)
    | Completed(request: Request, receipt: Option<Receipt>)
    | FreezeRequested(step: nat)
    | Exported(step: nat)
    | Frozen(step: nat)
    | Other

  /** _PreflightState. */
  datatype Preflight = Preflight(ping: bool, capabilities: bool, beams: set<Beam>, stageMoved: bool, stageReturned: bool,
                                 needleInserted: bool, needleMoved: bool, needleRetracted: bool,
                                 couponCut: bool, couponDeposition: bool)

  const UNTRIED := Preflight(false, false, {}, false, false, false, false, false, false, false)

  predicate Complete(p: Preflight) {
    && p.ping && p.capabilities && p.beams == {SEM, FIB} && p.stageMoved && p.stageReturned
    && p.needleInserted && p.needleMoved && p.needleRetracted && p.couponCut && p.couponDeposition
  }

  datatype Pattern = Pattern(purpose: Purpose, status: Status)

  const STEP_COUNT: nat := 4

  datatype State = State(preflight: Preflight, checkpointIndex: nat, patterns: map<string, Pattern>)

  const FIRST := State(UNTRIED, 0, map[])

  /** How a handler ends, with the events it wrote on the way. */
  datatype Outcome = Outcome(state: State, events: seq<Event>, end: End)
  datatype End = Done(receipt: Option<Receipt>) | Refused | Broke

  function Coupon(p: Preflight, purpose: Purpose): Preflight {
    if purpose == PreflightCut then p.(couponCut := true)
    else if purpose == PreflightDeposition then p.(couponDeposition := true)
    else p
  }

  function Unanswered(s: State, reply: Reply): Outcome
    requires !reply.Value?
  {
    Outcome(s, [], if reply.Mapped? then Refused else Broke)
  }

  /** The handlers that set flags of the preflight. */
  function Flagged(p: Preflight, r: Request): Preflight {
    var op, moved := r.operation, p.stageMoved || !r.near;
    p.(ping := p.ping || op.Ping?,
       capabilities := p.capabilities || op.Capabilities?,
       beams := if op.AcquireImage? then p.beams + {r.beam} else p.beams,
       stageMoved := if op.MoveStage? then moved else p.stageMoved,
       stageReturned := p.stageReturned || (op.MoveStage? && moved && r.near),
       needleInserted := p.needleInserted || op.InsertManipulator?,
       needleMoved := p.needleMoved || op.MoveManipulator?,
       needleRetracted := p.needleRetracted || (op.RetractManipulator? && p.needleInserted))
  }

  /** What a handler refuses before it reaches the backend. */
  predicate Admissible(s: State, r: Request) {
    && r.valid
    && match r.operation
       case AcquireImage => r.beam != OtherBeam
       case MoveManipulator => s.preflight.needleInserted || Complete(s.preflight)
       case RunCut => IsCut(r.purpose) && (IsPreflight(r.purpose) || Complete(s.preflight))
       case RunDeposition => !IsCut(r.purpose) && (IsPreflight(r.purpose) || Complete(s.preflight))
       case PatternStatus => r.id in s.patterns
       case StopPattern => r.id in s.patterns
       case Checkpoint =>
         && Complete(s.preflight)
         && (forall id <- s.patterns :: !s.patterns[id].status.Queued? && !s.patterns[id].status.Running?)
         && s.checkpointIndex < STEP_COUNT && r.step == s.checkpointIndex
       case _ => true
  }

  /** _record_new_pattern and _operation_id after the backend has answered. */
  function Received(s: State, r: Request, receipt: Option<Receipt>): Outcome {
    if receipt.None? || receipt.value.id == "" then Outcome(s, [], Broke)
    else
      var id, status := receipt.value.id, receipt.value.status;
      if r.operation.RunCut? || r.operation.RunDeposition? then
        if id in s.patterns then Outcome(s, [], Broke)
        else Recorded(s, id, r.purpose, status, receipt)
      else if id != r.id || id !in s.patterns then Outcome(s, [], Broke)
      else if r.operation.StopPattern? && (status.Queued? || status.Running?) then Outcome(s, [], Broke)
      else Recorded(s, id, s.patterns[id].purpose, status, receipt)
  }

  function Recorded(s: State, id: string, purpose: Purpose, status: Status, receipt: Option<Receipt>): Outcome {
    Outcome(s.(patterns := s.patterns[id := Pattern(purpose, status)],
               preflight := if status == Finished then Coupon(s.preflight, purpose) else s.preflight),
            [], Done(receipt))
  }

  predicate HandlesPattern(operation: Operation) {
    operation.RunCut? || operation.RunDeposition? || operation.PatternStatus? || operation.StopPattern?
  }

  function Handle(s: State, r: Request, reply: Reply): Outcome {
    if !Admissible(s, r) then Outcome(s, [], Refused)
    else if r.operation.Checkpoint? then
      if reply.Value? then
        Outcome(s.(checkpointIndex := s.checkpointIndex + 1),
                [FreezeRequested(r.step), Exported(r.step), Frozen(r.step)], Done(None))
      else Outcome(s, [FreezeRequested(r.step)], Broke)
    else if !reply.Value? then Unanswered(s, reply)
    else if HandlesPattern(r.operation) then Received(s, r, reply.receipt)
    else Outcome(s.(preflight := Flagged(s.preflight, r)), [], Done(None))
  }

  /** The record that closes a request. A result without a canonical digest makes dispatch raise once the handler
      is done, before any record. */
  function Ending(r: Request, end: End, reply: Reply): seq<Event> {
    match end
    case Done(receipt) => if reply.Value? && !reply.digestible then [] else [Completed(r, receipt)]
    case Refused => [Rejected(r.operation)]
    case Broke => [Failed(r.operation)]
  }

  /** dispatch: the next state and what the journal gains. */
  function Dispatched(s: State, r: Request, reply: Reply): (State, seq<Event>) {
    if !r.digestible || r.operation.Unknown? then (s, [Rejected(r.operation)])
    else
      var o := Handle(s, r, reply);
      (o.state, [Requested(r.operation)] + o.events + Ending(r, o.end, reply))
  }
}
