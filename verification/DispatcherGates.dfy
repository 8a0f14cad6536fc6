/** The dispatcher's gates, read off the journal: in every run, which requests get through, which are refused, and
    what each leaves on record. */
module DispatcherGates {
  import opened Wrappers
  import opened DispatcherModel
  import opened DispatcherTheorems

  // ---- What is on record -------------------------------------------------------------------

  ghost predicate Ever(j: seq<Event>, what: Event -> bool) { exists i :: 0 <= i < |j| && what(j[i]) }

  /** Something of the first kind, and later something of the second. */
  ghost predicate Then(j: seq<Event>, first: Event -> bool, second: Event -> bool) {
    exists i, k :: 0 <= i < k < |j| && first(j[i]) && second(j[k])
  }

  function Did(operation: Operation): Event -> bool { (e: Event) => e.Completed? && e.request.operation == operation }

  function Imaged(beam: Beam): Event -> bool {
    (e: Event) => e.Completed? && e.request.operation == AcquireImage && e.request.beam == beam
  }

  /** A stage move away from its first position, or back to it. */
  function Moved(near: bool): Event -> bool { (e: Event) => e.Completed? && e.request.operation == MoveStage && e.request.near == near }

  predicate Runs(operation: Operation) { operation == RunCut || operation == RunDeposition }

  predicate Follows(operation: Operation) { operation == PatternStatus || operation == StopPattern }

  /** The receipt with this id that event e brings. */
  function ReceiptOf(e: Event, id: string): Option<Receipt> {
    if e.Completed? && (Runs(e.request.operation) || Follows(e.request.operation)) && e.receipt.Some? && e.receipt.value.id == id
    then e.receipt else None
  }

  /** The purpose of the pattern that bears this id. */
  function PurposeOf(j: seq<Event>, id: string): Option<Purpose> {
    if j == [] then None
    else
      var e := j[|j| - 1];
      if ReceiptOf(e, id).Some? && Runs(e.request.operation) then Some(e.request.purpose) else PurposeOf(j[..|j| - 1], id)
  }

  /** Its status in the last receipt on record. */
  function StatusOf(j: seq<Event>, id: string): Option<Status> {
    if j == [] then None
    else
      var r := ReceiptOf(j[|j| - 1], id);
      if r.Some? then Some(r.value.status) else StatusOf(j[..|j| - 1], id)
  }

  /** Event e, after h, reports a pattern of this purpose as completed. */
  predicate Finishes(h: seq<Event>, e: Event, purpose: Purpose) {
    && e.Completed? && e.receipt.Some? && e.receipt.value.status == Finished
    && ((Runs(e.request.operation) && e.request.purpose == purpose)
        || (Follows(e.request.operation) && PurposeOf(h, e.receipt.value.id) == Some(purpose)))
  }

  ghost predicate EverFinished(j: seq<Event>, purpose: Purpose) { exists i :: 0 <= i < |j| && Finishes(j[..i], j[i], purpose) }

  /** The ten acts of the preflight. */
  ghost predicate PreflightActs(j: seq<Event>) {
    && Ever(j, Did(Ping)) && Ever(j, Did(Capabilities)) && Ever(j, Imaged(SEM)) && Ever(j, Imaged(FIB))
    && Ever(j, Moved(false)) && Then(j, Moved(false), Moved(true))
    && Ever(j, Did(InsertManipulator)) && Ever(j, Did(MoveManipulator)) && Then(j, Did(InsertManipulator), Did(RetractManipulator))
    && EverFinished(j, PreflightCut) && EverFinished(j, PreflightDeposition)
  }

  function Exports(j: seq<Event>): nat {
    if j == [] then 0 else Exports(j[..|j| - 1]) + if j[|j| - 1].Exported? then 1 else 0
  }

  ghost predicate NoneActive(j: seq<Event>) {
    forall id: string :: StatusOf(j, id) != Some(Queued) && StatusOf(j, id) != Some(Running)
  }

  // ---- One more event ----------------------------------------------------------------------

  lemma EverNext(j: seq<Event>, e: Event, what: Event -> bool)
    ensures Ever(j + [e], what) <==> Ever(j, what) || what(e)
  {
    var k := j + [e];
    assert k[|j|] == e && forall i :: 0 <= i < |j| ==> k[i] == j[i];
    if Ever(j, what) {
      var i :| 0 <= i < |j| && what(j[i]);
      assert what(k[i]);
    }
    if what(e) {
      assert what(k[|j|]);
    }
  }

  lemma ThenNext(j: seq<Event>, e: Event, first: Event -> bool, second: Event -> bool)
    ensures Then(j + [e], first, second) <==> Then(j, first, second) || (Ever(j, first) && second(e))
  {
    var k, n := j + [e], |j|;
    assert k[n] == e && forall i :: 0 <= i < n ==> k[i] == j[i];
    if Then(j, first, second) {
      var a, b :| 0 <= a < b < n && first(j[a]) && second(j[b]);
      assert first(k[a]) && second(k[b]);
    }
    if Ever(j, first) && second(e) {
      var a :| 0 <= a < n && first(j[a]);
      assert first(k[a]) && second(k[n]);
    }
    if Then(k, first, second) && !Then(j, first, second) {
      var a, b :| 0 <= a < b < |k| && first(k[a]) && second(k[b]);
      assert first(j[a]) && b == n;
    }
  }

  lemma PatternsNext(j: seq<Event>, e: Event, id: string)
    ensures PurposeOf(j + [e], id)
         == if ReceiptOf(e, id).Some? && Runs(e.request.operation) then Some(e.request.purpose) else PurposeOf(j, id)
    ensures StatusOf(j + [e], id) == if ReceiptOf(e, id).Some? then Some(ReceiptOf(e, id).value.status) else StatusOf(j, id)
  {
    hide ReceiptOf;
    assert (j + [e])[..|j|] == j;
    HasReceipt(e, id);
  }

  lemma HasReceipt(e: Event, id: string)
    ensures ReceiptOf(e, id).Some? ==> e.Completed?
  {
  }

  lemma FinishedNext(j: seq<Event>, e: Event, purpose: Purpose)
    ensures EverFinished(j + [e], purpose) <==> EverFinished(j, purpose) || Finishes(j, e, purpose)
  {
    hide Finishes;
    var k, n := j + [e], |j|;
    assert k[n] == e && k[..n] == j;
    if EverFinished(j, purpose) {
      var i :| 0 <= i < n && Finishes(j[..i], j[i], purpose);
      SamePrefix(j, e, i);
      assert Finishes(k[..i], k[i], purpose);
    }
    if Finishes(j, e, purpose) {
      assert Finishes(k[..n], k[n], purpose);
    }
    if EverFinished(k, purpose) && !Finishes(j, e, purpose) {
      var i :| 0 <= i < |k| && Finishes(k[..i], k[i], purpose);
      SamePrefix(j, e, i);
      assert Finishes(j[..i], j[i], purpose);
    }
  }

  lemma SamePrefix(j: seq<Event>, e: Event, i: nat)
    requires i <= |j|
    ensures (j + [e])[..i] == j[..i] && (i < |j| ==> (j + [e])[i] == j[i])
  {
  }

  lemma ExportsNext(j: seq<Event>, e: Event)
    ensures Exports(j + [e]) == Exports(j) + if e.Exported? then 1 else 0
  {
    assert (j + [e])[..|j|] == j;
  }

  // ---- The state is what is on record -------------------------------------------------------

  ghost predicate ActsRead(p: Preflight, j: seq<Event>) {
    && (p.ping <==> Ever(j, Did(Ping))) && (p.capabilities <==> Ever(j, Did(Capabilities)))
    && (forall b :: b in p.beams <==> Ever(j, Imaged(b))) && !Ever(j, Imaged(OtherBeam))
    && (p.stageMoved <==> Ever(j, Moved(false))) && (p.stageReturned <==> Then(j, Moved(false), Moved(true)))
    && (p.needleInserted <==> Ever(j, Did(InsertManipulator))) && (p.needleMoved <==> Ever(j, Did(MoveManipulator)))
    && (p.needleRetracted <==> Then(j, Did(InsertManipulator), Did(RetractManipulator)))
  }

  ghost predicate FlagsRead(p: Preflight, j: seq<Event>) {
    && ActsRead(p, j)
    && (p.couponCut <==> EverFinished(j, PreflightCut)) && (p.couponDeposition <==> EverFinished(j, PreflightDeposition))
  }

  ghost predicate PatternsRead(patterns: map<string, Pattern>, j: seq<Event>) {
    forall id: string ::
      && PurposeOf(j, id) == (if id in patterns then Some(patterns[id].purpose) else None)
      && StatusOf(j, id) == (if id in patterns then Some(patterns[id].status) else None)
  }

  ghost predicate StateRead(s: State, j: seq<Event>) {
    FlagsRead(s.preflight, j) && PatternsRead(s.patterns, j) && s.checkpointIndex == Exports(j)
  }

  /** A record of another kind tells nothing. */
  lemma QuietRead(s: State, j: seq<Event>, e: Event)
    requires StateRead(s, j) && !e.Completed? && !e.Exported?
    ensures StateRead(s, j + [e])
  {
    hide FlagsRead, PatternsRead;
    QuietFlags(s.preflight, j, e);
    QuietPatterns(s.patterns, j, e);
    ExportsNext(j, e);
  }

  lemma QuietFlags(p: Preflight, j: seq<Event>, e: Event)
    requires FlagsRead(p, j) && !e.Completed?
    ensures FlagsRead(p, j + [e])
  {
    hide Ever, Then, EverFinished;
    FlagsNext(j, e);
    forall b ensures b in p.beams <==> Ever(j + [e], Imaged(b)) {
      EverNext(j, e, Imaged(b));
    }
  }

  /** All readings of the flags after one more event. */
  lemma FlagsNext(j: seq<Event>, e: Event)
    ensures forall operation :: Ever(j + [e], Did(operation)) <==> Ever(j, Did(operation)) || Did(operation)(e)
    ensures Ever(j + [e], Imaged(OtherBeam)) <==> Ever(j, Imaged(OtherBeam)) || Imaged(OtherBeam)(e)
    ensures Ever(j + [e], Moved(false)) <==> Ever(j, Moved(false)) || Moved(false)(e)
    ensures Then(j + [e], Moved(false), Moved(true)) <==> Then(j, Moved(false), Moved(true)) || (Ever(j, Moved(false)) && Moved(true)(e))
    ensures Then(j + [e], Did(InsertManipulator), Did(RetractManipulator)) <==>
      Then(j, Did(InsertManipulator), Did(RetractManipulator)) || (Ever(j, Did(InsertManipulator)) && Did(RetractManipulator)(e))
    ensures forall purpose :: EverFinished(j + [e], purpose) <==> EverFinished(j, purpose) || Finishes(j, e, purpose)
  {
    hide Ever, Then, EverFinished, Finishes, Did, Imaged, Moved;
    forall operation ensures Ever(j + [e], Did(operation)) <==> Ever(j, Did(operation)) || Did(operation)(e) {
      EverNext(j, e, Did(operation));
    }
    EverNext(j, e, Imaged(OtherBeam));
    EverNext(j, e, Moved(false));
    ThenNext(j, e, Moved(false), Moved(true));
    ThenNext(j, e, Did(InsertManipulator), Did(RetractManipulator));
    forall purpose ensures EverFinished(j + [e], purpose) <==> EverFinished(j, purpose) || Finishes(j, e, purpose) {
      FinishedNext(j, e, purpose);
    }
  }

  lemma QuietPatterns(patterns: map<string, Pattern>, j: seq<Event>, e: Event)
    requires PatternsRead(patterns, j) && !e.Completed?
    ensures PatternsRead(patterns, j + [e])
  {
    hide PurposeOf, StatusOf;
    forall id: string ensures PurposeOf(j + [e], id) == PurposeOf(j, id) && StatusOf(j + [e], id) == StatusOf(j, id) {
      PatternsNext(j, e, id);
    }
  }

  lemma ExportRead(s: State, j: seq<Event>, step: nat)
    requires StateRead(s, j)
    ensures StateRead(s.(checkpointIndex := s.checkpointIndex + 1), j + [Exported(step)])
  {
    hide FlagsRead, PatternsRead;
    QuietFlags(s.preflight, j, Exported(step));
    QuietPatterns(s.patterns, j, Exported(step));
    ExportsNext(j, Exported(step));
  }

  /** A completed request that is no pattern's sets the flags its record shows. */
  lemma PlainRead(s: State, j: seq<Event>, r: Request)
    requires StateRead(s, j) && !HandlesPattern(r.operation) && (r.operation == AcquireImage ==> r.beam != OtherBeam)
    ensures StateRead(s.(preflight := Flagged(s.preflight, r)), j + [Completed(r, None)])
  {
    hide FlagsRead, PatternsRead, Flagged;
    var e := Completed(r, None);
    PlainFlags(s.preflight, j, r);
    PlainPatterns(s.patterns, j, r);
    ExportsNext(j, e);
  }

  lemma PlainPatterns(patterns: map<string, Pattern>, j: seq<Event>, r: Request)
    requires PatternsRead(patterns, j)
    ensures PatternsRead(patterns, j + [Completed(r, None)])
  {
    hide PurposeOf, StatusOf;
    var e := Completed(r, None);
    forall id: string ensures PurposeOf(j + [e], id) == PurposeOf(j, id) && StatusOf(j + [e], id) == StatusOf(j, id) {
      PatternsNext(j, e, id);
    }
  }

  lemma PlainFlags(p: Preflight, j: seq<Event>, r: Request)
    requires FlagsRead(p, j) && !HandlesPattern(r.operation) && (r.operation == AcquireImage ==> r.beam != OtherBeam)
    ensures FlagsRead(Flagged(p, r), j + [Completed(r, None)])
  {
    hide Ever, Then, EverFinished;
    var e := Completed(r, None);
    FlagsNext(j, e);
    forall b ensures b in Flagged(p, r).beams <==> Ever(j + [e], Imaged(b)) {
      EverNext(j, e, Imaged(b));
    }
  }

  /** A completed pattern request records the receipt, and a finished coupon its flag. */
  lemma PatternRead(s: State, j: seq<Event>, r: Request, receipt: Option<Receipt>)
    requires StateRead(s, j) && HandlesPattern(r.operation) && Received(s, r, receipt).end.Done?
    ensures StateRead(Received(s, r, receipt).state, j + [Completed(r, receipt)])
  {
    hide FlagsRead, PatternsRead, Coupon, PurposeOf;
    var e, t := Completed(r, receipt), Received(s, r, receipt).state;
    ReceivedShape(s, r, receipt);
    KnownPurpose(s.patterns, j, receipt.value.id);
    ReceiptPatterns(s.patterns, j, r, receipt, if Runs(r.operation) then r.purpose else s.patterns[receipt.value.id].purpose);
    ReceiptFlags(s.preflight, j, r, receipt, if Runs(r.operation) then r.purpose else s.patterns[receipt.value.id].purpose);
    ExportsNext(j, e);
  }

  lemma ReceivedShape(s: State, r: Request, receipt: Option<Receipt>)
    requires HandlesPattern(r.operation) && Received(s, r, receipt).end.Done?
    ensures receipt.Some? && receipt.value.id != "" && (Runs(r.operation) || Follows(r.operation)) && !(Runs(r.operation) && Follows(r.operation))
    ensures Follows(r.operation) ==> receipt.value.id in s.patterns
    ensures
      var id, status := receipt.value.id, receipt.value.status;
      var purpose := if Runs(r.operation) then r.purpose else s.patterns[id].purpose;
      Received(s, r, receipt).state == s.(
        patterns := s.patterns[id := Pattern(purpose, status)],
        preflight := if status == Finished then Coupon(s.preflight, purpose) else s.preflight)
  {
    hide Coupon;
  }

  lemma KnownPurpose(patterns: map<string, Pattern>, j: seq<Event>, id: string)
    requires PatternsRead(patterns, j)
    ensures id in patterns ==> PurposeOf(j, id) == Some(patterns[id].purpose)
  {
    hide PurposeOf, StatusOf;
  }

  lemma ReceiptPatterns(patterns: map<string, Pattern>, j: seq<Event>, r: Request, receipt: Option<Receipt>, purpose: Purpose)
    requires PatternsRead(patterns, j) && receipt.Some? && (Runs(r.operation) || Follows(r.operation))
    requires if Runs(r.operation) then purpose == r.purpose
             else receipt.value.id in patterns && purpose == patterns[receipt.value.id].purpose
    ensures PatternsRead(patterns[receipt.value.id := Pattern(purpose, receipt.value.status)], j + [Completed(r, receipt)])
  {
    hide PurposeOf, StatusOf, Runs, Follows;
    var e := Completed(r, receipt);
    var more := patterns[receipt.value.id := Pattern(purpose, receipt.value.status)];
    forall id: string
      ensures PurposeOf(j + [e], id) == (if id in more then Some(more[id].purpose) else None)
      ensures StatusOf(j + [e], id) == (if id in more then Some(more[id].status) else None)
    {
      PatternsNext(j, e, id);
    }
  }

  /** A pattern's record shows no other act. */
  lemma PatternShows(j: seq<Event>, e: Event)
    requires e.Completed? && (Runs(e.request.operation) || Follows(e.request.operation))
    ensures Ever(j + [e], Did(Ping)) <==> Ever(j, Did(Ping))
    ensures Ever(j + [e], Did(Capabilities)) <==> Ever(j, Did(Capabilities))
    ensures Ever(j + [e], Did(InsertManipulator)) <==> Ever(j, Did(InsertManipulator))
    ensures Ever(j + [e], Did(MoveManipulator)) <==> Ever(j, Did(MoveManipulator))
    ensures forall b :: Ever(j + [e], Imaged(b)) <==> Ever(j, Imaged(b))
    ensures Ever(j + [e], Moved(false)) <==> Ever(j, Moved(false))
    ensures Then(j + [e], Moved(false), Moved(true)) <==> Then(j, Moved(false), Moved(true))
    ensures Then(j + [e], Did(InsertManipulator), Did(RetractManipulator)) <==> Then(j, Did(InsertManipulator), Did(RetractManipulator))
  {
    hide Ever, Then, EverFinished, Finishes;
    FlagsNext(j, e);
    forall b ensures Ever(j + [e], Imaged(b)) <==> Ever(j, Imaged(b)) {
      EverNext(j, e, Imaged(b));
    }
  }

  lemma ReceiptActs(p: Preflight, j: seq<Event>, e: Event, q: Preflight)
    requires ActsRead(p, j) && e.Completed? && (Runs(e.request.operation) || Follows(e.request.operation))
    requires q == p.(couponCut := q.couponCut, couponDeposition := q.couponDeposition)
    ensures ActsRead(q, j + [e])
  {
    hide Ever, Then, Did, Imaged, Moved;
    PatternShows(j, e);
  }

  /** A receipt finishes at most the pattern it is for. */
  lemma FinishesIs(j: seq<Event>, r: Request, receipt: Option<Receipt>, purpose: Purpose)
    requires receipt.Some? && (Runs(r.operation) || Follows(r.operation))
    requires if Runs(r.operation) then purpose == r.purpose else PurposeOf(j, receipt.value.id) == Some(purpose)
    ensures forall x :: Finishes(j, Completed(r, receipt), x) <==> receipt.value.status == Finished && x == purpose
  {
    hide PurposeOf;
  }

  lemma CouponIs(p: Preflight, purpose: Purpose, done: bool)
    ensures (if done then Coupon(p, purpose) else p)
         == p.(couponCut := p.couponCut || (done && purpose == PreflightCut),
               couponDeposition := p.couponDeposition || (done && purpose == PreflightDeposition))
  {
  }

  lemma ReceiptFlags(p: Preflight, j: seq<Event>, r: Request, receipt: Option<Receipt>, purpose: Purpose)
    requires FlagsRead(p, j) && receipt.Some? && (Runs(r.operation) || Follows(r.operation))
    requires if Runs(r.operation) then purpose == r.purpose else PurposeOf(j, receipt.value.id) == Some(purpose)
    ensures FlagsRead(if receipt.value.status == Finished then Coupon(p, purpose) else p, j + [Completed(r, receipt)])
  {
    hide ActsRead, EverFinished, PurposeOf, Finishes, Runs, Follows, Coupon;
    var e, done := Completed(r, receipt), receipt.value.status == Finished;
    CouponIs(p, purpose, done);
    var q := if done then Coupon(p, purpose) else p;
    ReceiptActs(p, j, e, q);
    FinishesIs(j, r, receipt, purpose);
    CouponsRead(p, j, e, q, done, purpose);
  }

  lemma CouponsRead(p: Preflight, j: seq<Event>, e: Event, q: Preflight, done: bool, purpose: Purpose)
    requires FlagsRead(p, j) && ActsRead(q, j + [e])
    requires forall x :: Finishes(j, e, x) <==> done && x == purpose
    requires q.couponCut == (p.couponCut || (done && purpose == PreflightCut))
    requires q.couponDeposition == (p.couponDeposition || (done && purpose == PreflightDeposition))
    ensures FlagsRead(q, j + [e])
  {
    hide ActsRead, EverFinished, Finishes;
    FinishedNext(j, e, PreflightCut);
    FinishedNext(j, e, PreflightDeposition);
  }

  // ---- One call ----------------------------------------------------------------------------

  lemma CallRead(s: State, j: seq<Event>, c: Call)
    requires StateRead(s, j) && !Undigested(c)
    ensures StateRead(Dispatched(s, c.request, c.reply).0, j + Dispatched(s, c.request, c.reply).1)
  {
    hide StateRead, Handle, Flagged, Received, Admissible;
    var r, reply := c.request, c.reply;
    if !r.digestible || r.operation.Unknown? {
      QuietRead(s, j, Rejected(r.operation));
    } else {
      var o := Handle(s, r, reply);
      QuietRead(s, j, Requested(r.operation));
      var k := j + [Requested(r.operation)];
      HandleShape(s, r, reply);
      if !Admissible(s, r) || !reply.Value? {
        RefusedRead(s, j, r, reply);
      } else if r.operation.Checkpoint? {
        CheckpointRead(s, j, r, reply);
      } else if HandlesPattern(r.operation) {
        if o.end.Done? {
          ReceivedReceipt(s, r, reply.receipt);
          PatternRead(s, k, r, reply.receipt);
          assert j + ([Requested(r.operation)] + [] + [Completed(r, reply.receipt)]) == k + [Completed(r, reply.receipt)];
        } else {
          RefusedRead(s, j, r, reply);
        }
      } else {
        BeamAllowed(s, r);
        PlainRead(s, k, r);
        assert j + ([Requested(r.operation)] + [] + [Completed(r, None)]) == k + [Completed(r, None)];
      }
    }
  }

  lemma BeamAllowed(s: State, r: Request)
    requires Admissible(s, r)
    ensures r.operation == AcquireImage ==> r.beam != OtherBeam
  {
    hide Complete;
  }

  lemma ReceivedReceipt(s: State, r: Request, receipt: Option<Receipt>)
    requires Received(s, r, receipt).end.Done?
    ensures Received(s, r, receipt).end.receipt == receipt
  {
    hide Coupon;
  }

  /** What Handle comes to, case by case. */
  lemma HandleShape(s: State, r: Request, reply: Reply)
    ensures !Admissible(s, r) ==> Handle(s, r, reply) == Outcome(s, [], Refused)
    ensures Admissible(s, r) && r.operation.Checkpoint? && reply.Value? ==>
      Handle(s, r, reply) == Outcome(s.(checkpointIndex := s.checkpointIndex + 1),
                                     [FreezeRequested(r.step), Exported(r.step), Frozen(r.step)], Done(None))
    ensures Admissible(s, r) && r.operation.Checkpoint? && !reply.Value? ==>
      Handle(s, r, reply) == Outcome(s, [FreezeRequested(r.step)], Broke)
    ensures Admissible(s, r) && !r.operation.Checkpoint? && !reply.Value? ==>
      Handle(s, r, reply) == Outcome(s, [], if reply.Mapped? then Refused else Broke)
    ensures Admissible(s, r) && !r.operation.Checkpoint? && reply.Value? && HandlesPattern(r.operation) ==>
      Handle(s, r, reply) == Received(s, r, reply.receipt) && Received(s, r, reply.receipt).events == []
      && (Received(s, r, reply.receipt).end.Done? || Received(s, r, reply.receipt) == Outcome(s, [], Broke))
    ensures Admissible(s, r) && !r.operation.Checkpoint? && reply.Value? && !HandlesPattern(r.operation) ==>
      Handle(s, r, reply) == Outcome(s.(preflight := Flagged(s.preflight, r)), [], Done(None))
  {
    hide Admissible, Flagged, Coupon;
  }

  lemma RefusedRead(s: State, j: seq<Event>, r: Request, reply: Reply)
    requires StateRead(s, j)
    requires
      var o := Handle(s, r, reply);
      o.state == s && !o.end.Done? && (o.events == [] || o.events == [FreezeRequested(r.step)])
    ensures StateRead(s, j + ([Requested(r.operation)] + Handle(s, r, reply).events + Ending(r, Handle(s, r, reply).end, reply)))
  {
    hide StateRead, Handle;
    var o := Handle(s, r, reply);
    var last := if o.end.Refused? then Rejected(r.operation) else Failed(r.operation);
    QuietRead(s, j, Requested(r.operation));
    var k := j + [Requested(r.operation)];
    if o.events == [] {
      QuietRead(s, k, last);
      assert j + ([Requested(r.operation)] + [] + [last]) == k + [last];
    } else {
      QuietRead(s, k, FreezeRequested(r.step));
      QuietRead(s, k + [FreezeRequested(r.step)], last);
      assert j + ([Requested(r.operation)] + [FreezeRequested(r.step)] + [last]) == k + [FreezeRequested(r.step)] + [last];
    }
  }

  lemma CheckpointRead(s: State, j: seq<Event>, r: Request, reply: Reply)
    requires StateRead(s, j) && Admissible(s, r) && r.operation.Checkpoint? && reply.Value? && reply.digestible
    ensures StateRead(Handle(s, r, reply).state,
                      j + ([Requested(r.operation)] + Handle(s, r, reply).events + Ending(r, Handle(s, r, reply).end, reply)))
  {
    hide StateRead, Handle, Admissible, Flagged;
    HandleShape(s, r, reply);
    var t := s.(checkpointIndex := s.checkpointIndex + 1);
    var k := j + [Requested(r.operation), FreezeRequested(r.step)];
    QuietRead(s, j, Requested(r.operation));
    assert k == j + [Requested(r.operation)] + [FreezeRequested(r.step)];
    QuietRead(s, j + [Requested(r.operation)], FreezeRequested(r.step));
    ExportRead(s, k, r.step);
    QuietRead(t, k + [Exported(r.step)], Frozen(r.step));
    var n := k + [Exported(r.step), Frozen(r.step)];
    assert n == k + [Exported(r.step)] + [Frozen(r.step)];
    NothingFlagged(t.preflight, r);
    PlainRead(t, n, r);
    Regrouped(j, Requested(r.operation), FreezeRequested(r.step), Exported(r.step), Frozen(r.step), [Completed(r, None)]);
  }

  lemma NothingFlagged(p: Preflight, r: Request)
    requires r.operation.Checkpoint?
    ensures Flagged(p, r) == p
  {
  }

  predicate AllDigested(calls: seq<Call>) { forall i :: 0 <= i < |calls| ==> !Undigested(calls[i]) }

  /** Over every run whose results all have a digest, the dispatcher's state is what the journal has on record. */
  lemma {:induction false} RunRead(calls: seq<Call>)
    requires AllDigested(calls)
    ensures StateRead(Run(calls).0, Run(calls).1)
  {
    hide Dispatched, StateRead;
    if calls == [] {
      NothingOnRecord();
    } else {
      var init, last := calls[..|calls| - 1], calls[|calls| - 1];
      RunRead(init);
      CallRead(Run(init).0, Run(init).1, last);
    }
  }

  lemma NothingOnRecord()
    ensures StateRead(FIRST, [])
  {
  }

  // ---- The gates ---------------------------------------------------------------------------

  const CUTS := {PreflightCut, Trench, Polish, UCut, SourceSeparation, NeedleSeparation}
  const DEPOSITIONS := {PreflightDeposition, Protection, NeedleJoint, TargetJoint}

  /** What a request needs on record to get through to the backend. */
  ghost predicate Admitted(j: seq<Event>, r: Request) {
    && r.digestible && !r.operation.Unknown? && r.valid
    && (r.operation == AcquireImage ==> r.beam == SEM || r.beam == FIB)
    && (r.operation == MoveManipulator ==> Ever(j, Did(InsertManipulator)))
    && (r.operation == RunCut ==> r.purpose in CUTS && (r.purpose == PreflightCut || PreflightActs(j)))
    && (r.operation == RunDeposition ==> r.purpose in DEPOSITIONS && (r.purpose == PreflightDeposition || PreflightActs(j)))
    && (Follows(r.operation) ==> PurposeOf(j, r.id).Some?)
    && (r.operation == Checkpoint ==> PreflightActs(j) && NoneActive(j) && r.step == Exports(j) < 4)
  }

  lemma CompleteIs(p: Preflight, j: seq<Event>)
    requires FlagsRead(p, j)
    ensures Complete(p) <==> PreflightActs(j)
    ensures p.needleInserted <==> Ever(j, Did(InsertManipulator))
    ensures Complete(p) ==> p.needleInserted
  {
    hide Ever, Then, EverFinished;
    if PreflightActs(j) {
      assert p.beams == {SEM, FIB} by {
        forall b ensures b in p.beams <==> b in {SEM, FIB} {
          if b == OtherBeam {
            assert !Ever(j, Imaged(b));
          }
        }
      }
    }
  }

  lemma ActiveIs(patterns: map<string, Pattern>, j: seq<Event>)
    requires PatternsRead(patterns, j)
    ensures NoneActive(j) <==> forall id <- patterns :: !patterns[id].status.Queued? && !patterns[id].status.Running?
  {
    hide PurposeOf, StatusOf;
  }

  /** A request the dispatcher looks at passes its gate exactly when the record admits it. */
  lemma GateIs(s: State, j: seq<Event>, r: Request)
    requires StateRead(s, j) && r.digestible && !r.operation.Unknown?
    ensures Admissible(s, r) <==> Admitted(j, r)
  {
    hide FlagsRead, PatternsRead, Complete, PreflightActs, NoneActive, Ever, PurposeOf;
    CompleteIs(s.preflight, j);
    ActiveIs(s.patterns, j);
    PurposeKnown(s.patterns, j, r.id);
  }

  lemma PurposeKnown(patterns: map<string, Pattern>, j: seq<Event>, id: string)
    requires PatternsRead(patterns, j)
    ensures PurposeOf(j, id).Some? <==> id in patterns
  {
    hide PurposeOf, StatusOf;
  }

  /** The receipt a pattern request must bring: of a new pattern, or of the one it asked about. */
  ghost predicate Accepted(j: seq<Event>, r: Request, receipt: Option<Receipt>) {
    && receipt.Some? && receipt.value.id != ""
    && (Runs(r.operation) ==> PurposeOf(j, receipt.value.id).None?)
    && (Follows(r.operation) ==> receipt.value.id == r.id)
    && (r.operation == StopPattern ==> receipt.value.status != Queued && receipt.value.status != Running)
  }

  /** What one call adds to the journal, from the journal alone. */
  ghost predicate Adds(j: seq<Event>, c: Call, more: seq<Event>) {
    var r, reply, op := c.request, c.reply, c.request.operation;
    if !r.digestible || op.Unknown? then more == [Rejected(op)]
    else if !Admitted(j, r) then more == [Requested(op), Rejected(op)]
    else if op == Checkpoint then
      if !reply.Value? then more == [Requested(op), FreezeRequested(r.step), Failed(op)]
      else more == [Requested(op), FreezeRequested(r.step), Exported(r.step), Frozen(r.step)]
                   + (if reply.digestible then [Completed(r, None)] else [])
    else if reply.Mapped? then more == [Requested(op), Rejected(op)]
    else if reply.Raised? then more == [Requested(op), Failed(op)]
    else if Runs(op) || Follows(op) then
      if !Accepted(j, r, reply.receipt) then more == [Requested(op), Failed(op)]
      else more == [Requested(op)] + (if reply.digestible then [Completed(r, reply.receipt)] else [])
    else more == [Requested(op)] + (if reply.digestible then [Completed(r, None)] else [])
  }

  lemma AcceptedIs(s: State, j: seq<Event>, r: Request, receipt: Option<Receipt>)
    requires StateRead(s, j) && HandlesPattern(r.operation) && (Follows(r.operation) ==> r.id in s.patterns)
    ensures Received(s, r, receipt).end.Done? <==> Accepted(j, r, receipt)
  {
    hide FlagsRead, PatternsRead, Coupon, PurposeOf;
    if receipt.Some? {
      PurposeKnown(s.patterns, j, receipt.value.id);
    }
  }

  lemma StateAdds(s: State, j: seq<Event>, c: Call)
    requires StateRead(s, j)
    ensures Adds(j, c, Dispatched(s, c.request, c.reply).1)
  {
    hide StateRead, Handle, Flagged, Received, Admissible, Admitted, Accepted;
    var r, reply := c.request, c.reply;
    if r.digestible && !r.operation.Unknown? {
      GateIs(s, j, r);
      HandleShape(s, r, reply);
      if Admissible(s, r) && reply.Value? && HandlesPattern(r.operation) {
        FollowsKnown(s, r);
        AcceptedIs(s, j, r, reply.receipt);
        if Received(s, r, reply.receipt).end.Done? {
          ReceivedReceipt(s, r, reply.receipt);
        }
      }
    }
  }

  lemma FollowsKnown(s: State, r: Request)
    requires Admissible(s, r)
    ensures Follows(r.operation) ==> r.id in s.patterns
  {
    hide Complete;
  }

  /** In every run whose results so far have digests, what a call adds to the journal follows from the journal. */
  lemma GateLaw(calls: seq<Call>, c: Call)
    requires AllDigested(calls)
    ensures
      var j, k := Run(calls).1, Run(calls + [c]).1;
      |j| <= |k| && k[..|j|] == j && Adds(j, c, k[|j|..])
  {
    hide Dispatched, StateRead, Adds;
    RunRead(calls);
    assert (calls + [c])[..|calls|] == calls;
    var (s, j) := Run(calls);
    StateAdds(s, j, c);
    var more := Dispatched(s, c.request, c.reply).1;
    assert Run(calls + [c]).1 == j + more && (j + more)[|j|..] == more;
  }

  /** So a checkpoint that the backend carries out is exported exactly when the request is well formed, the preflight
      is on record, no pattern stands queued or running, and the step is the next of the four. */
  lemma CheckpointGate(calls: seq<Call>, c: Call)
    requires AllDigested(calls) && c.request.operation == Checkpoint && c.reply.Value?
    ensures
      var r, j, k := c.request, Run(calls).1, Run(calls + [c]).1;
      |j| <= |k| && k[..|j|] == j
      && (Exported(r.step) in k[|j|..] <==>
            r.digestible && r.valid && PreflightActs(j) && NoneActive(j) && r.step == Exports(j) && r.step < 4)
  {
    hide Run, PreflightActs, NoneActive, Exports;
    GateLaw(calls, c);
  }
}
