/** Why the agreement of dispatcher and scorer needs every completion to be reported. The dispatcher accepts a
    stop_pattern that reports "completed" as finishing a coupon, and the scorer does not look at stops; and a result
    without a canonical digest has taken effect when dispatch raises, with nothing in the journal to show for it. */
module StopCompletion {
  import opened Wrappers
  import opened DispatcherModel
  import opened JournalMarkers
  import opened DispatcherTheorems

  function Ask(op: Operation): Request { Request(op, true, true, SEM, false, PreflightCut, "", 0) }

  function Told(id: string, status: Status): Reply { Value(Some(Receipt(id, status)), true) }

  /** Everything of the preflight but the coupons. */
  function Warmup(): seq<Request> {
    [Ask(Ping), Ask(Capabilities), Ask(AcquireImage), Ask(AcquireImage).(beam := FIB),
     Ask(MoveStage), Ask(MoveStage).(near := true), Ask(InsertManipulator), Ask(MoveManipulator), Ask(RetractManipulator)]
  }

  function Calls(requests: seq<Request>): seq<Call> {
    if requests == [] then []
    else Calls(requests[..|requests| - 1]) + [Call(requests[|requests| - 1], Value(None, true))]
  }

  /** The deposition coupon completes; the cut coupon is still running when it is stopped, and the stop says it
      completed; then a trench is cut. */
  function Rest(): seq<Call> {
    [Call(Ask(RunDeposition).(purpose := PreflightDeposition), Told("d", Finished)),
     Call(Ask(RunCut), Told("c", Running)),
     Call(Ask(StopPattern).(id := "c"), Told("c", Finished)),
     Call(Ask(RunCut).(purpose := Trench), Told("t", Finished))]
  }

  const WARM := Preflight(true, true, {SEM, FIB}, true, true, true, true, true, false, false)

  lemma OneCall(calls: seq<Call>, c: Call)
    ensures
      var (s, j) := Run(calls);
      && Run(calls + [c]).0 == Dispatched(s, c.request, c.reply).0
      && Gather(Run(calls + [c]).1) == Marked(Gather(j), s, c, |j|)
  {
    hide Dispatched, Gather, Marked;
    assert (calls + [c])[..|calls|] == calls;
    CallMarks(Run(calls).0, Run(calls).1, c);
  }

  /** Where a run stands, as far as the counterexample goes. */
  ghost predicate At(calls: seq<Call>, p: Preflight, patterns: map<string, Pattern>) {
    && Run(calls).0 == State(p, 0, patterns)
    && PreflightCut !in Gather(Run(calls).1).completion
  }

  /** A request that only sets a flag, and is not refused for its arguments. */
  predicate Flags(r: Request) {
    && r.digestible && r.valid && !HandlesPattern(r.operation) && !r.operation.Checkpoint?
    && !r.operation.Unknown? && r.beam != OtherBeam
  }

  lemma FlagCall(calls: seq<Call>, p: Preflight, r: Request)
    requires At(calls, p, map[]) && Flags(r) && (r.operation.MoveManipulator? ==> p.needleInserted)
    ensures At(calls + [Call(r, Value(None, true))], Flagged(p, r), map[])
  {
    hide Gather, Run, Flagged, Complete;
    OneCall(calls, Call(r, Value(None, true)));
  }

  ghost function FlagsAfter(requests: seq<Request>): Preflight {
    if requests == [] then UNTRIED else Flagged(FlagsAfter(requests[..|requests| - 1]), requests[|requests| - 1])
  }

  lemma {:induction false} FlagsRun(requests: seq<Request>)
    requires forall i :: 0 <= i < |requests| ==> Flags(requests[i])
    requires forall i :: 0 <= i < |requests| && requests[i].operation.MoveManipulator? ==>
      i > 0 && requests[i - 1].operation.InsertManipulator?
    ensures At(Calls(requests), FlagsAfter(requests), map[])
  {
    hide At, Flags;
    if requests == [] {
      StartsAt();
    } else {
      var n := |requests| - 1;
      FlagsRun(requests[..n]);
      assert n > 0 ==> requests[..n][n - 1] == requests[n - 1];
      FlagCall(Calls(requests[..n]), FlagsAfter(requests[..n]), requests[n]);
    }
  }

  lemma StartsAt()
    ensures At([], UNTRIED, map[])
  {
  }

  const WARM_3 := UNTRIED.(ping := true, capabilities := true, beams := {SEM})
  const WARM_6 := WARM_3.(beams := {SEM, FIB}, stageMoved := true, stageReturned := true)

  lemma WarmupStarts()
    ensures FlagsAfter(Warmup()[..3]) == WARM_3
  {
    hide FlagsAfter;
    var w := Warmup();
    assert w[..0] == [];
    NoFlags();
    FlagsNext(w, 0);
    FlagsNext(w, 1);
    FlagsNext(w, 2);
  }

  lemma WarmupGoesOn()
    ensures FlagsAfter(Warmup()[..6]) == WARM_6
  {
    hide FlagsAfter;
    var w := Warmup();
    WarmupStarts();
    FlagsNext(w, 3);
    FlagsNext(w, 4);
    FlagsNext(w, 5);
  }

  lemma WarmupFlags()
    ensures FlagsAfter(Warmup()) == WARM
  {
    hide FlagsAfter;
    var w := Warmup();
    WarmupGoesOn();
    FlagsNext(w, 6);
    FlagsNext(w, 7);
    FlagsNext(w, 8);
    assert w[..9] == w;
  }

  lemma NoFlags()
    ensures FlagsAfter([]) == UNTRIED
  {
  }

  lemma FlagsNext(requests: seq<Request>, k: nat)
    requires k < |requests|
    ensures FlagsAfter(requests[..k + 1]) == Flagged(FlagsAfter(requests[..k]), requests[k])
  {
    hide Flagged;
    assert requests[..k + 1][..k] == requests[..k];
  }

  lemma WarmupIsFlags()
    ensures
      var w := Warmup();
      && (forall i :: 0 <= i < |w| ==> Flags(w[i]))
      && (forall i :: 0 <= i < |w| && w[i].operation.MoveManipulator? ==> i > 0 && w[i - 1].operation.InsertManipulator?)
  {
  }

  lemma Warm()
    ensures At(Calls(Warmup()), WARM, map[])
  {
    hide At, FlagsAfter, Flags, Warmup;
    WarmupFlags();
    WarmupIsFlags();
    FlagsRun(Warmup());
  }

  const DEPOSITED := map["d" := Pattern(PreflightDeposition, Finished)]
  const CUTTING := DEPOSITED["c" := Pattern(PreflightCut, Running)]
  const CUT := DEPOSITED["c" := Pattern(PreflightCut, Finished)]

  lemma Deposit()
    ensures At(Calls(Warmup()) + [Rest()[0]], WARM.(couponDeposition := true), DEPOSITED)
  {
    hide Gather, Run, Complete;
    Warm();
    OneCall(Calls(Warmup()), Rest()[0]);
    assert |"d"| == 1 && map[]["d" := Pattern(PreflightDeposition, Finished)] == DEPOSITED;
  }

  lemma StartCut()
    ensures At(Calls(Warmup()) + [Rest()[0]] + [Rest()[1]], WARM.(couponDeposition := true), CUTTING)
  {
    hide Gather, Run, Complete;
    Deposit();
    OneCall(Calls(Warmup()) + [Rest()[0]], Rest()[1]);
    assert |"c"| == 1 && "c" !in DEPOSITED by { assert "c"[0] != "d"[0]; }
  }

  lemma StopCut()
    ensures At(Calls(Warmup()) + [Rest()[0]] + [Rest()[1]] + [Rest()[2]], WARM.(couponDeposition := true, couponCut := true), CUT)
  {
    hide Gather, Run, Complete;
    StartCut();
    OneCall(Calls(Warmup()) + [Rest()[0]] + [Rest()[1]], Rest()[2]);
    assert |"c"| == 1 && CUTTING["c" := Pattern(PreflightCut, Finished)] == CUT;
  }

  /** With one stop that reports completion, the scorer finds a destructive operation and no preflight. */
  lemma StopBreaksAgreement()
    ensures
      var m := Gather(Run(Calls(Warmup()) + [Rest()[0]] + [Rest()[1]] + [Rest()[2]] + [Rest()[3]]).1);
      DestructiveMarker(m).Some? && PreflightMarker(m).None?
  {
    hide Gather, Run;
    StopCut();
    OneCall(Calls(Warmup()) + [Rest()[0]] + [Rest()[1]] + [Rest()[2]], Rest()[3]);
    assert |"t"| == 1 && "t" !in CUT by { assert "t"[0] != "d"[0] && "t"[0] != "c"[0]; }
  }

  /** The cut coupon completes at once, in an answer without a digest. */
  const UNSEEN := Call(Ask(RunCut), Value(Some(Receipt("c", Finished)), false))

  lemma UnseenCut()
    ensures At(Calls(Warmup()) + [Rest()[0]] + [UNSEEN], WARM.(couponDeposition := true, couponCut := true), CUT)
  {
    hide Gather, Run, Complete;
    Deposit();
    OneCall(Calls(Warmup()) + [Rest()[0]], UNSEEN);
    assert |"c"| == 1 && "c" !in DEPOSITED by { assert "c"[0] != "d"[0]; }
  }

  /** With one answer that has no digest, the same happens. */
  lemma UndigestedBreaksAgreement()
    ensures
      var m := Gather(Run(Calls(Warmup()) + [Rest()[0]] + [UNSEEN] + [Rest()[3]]).1);
      DestructiveMarker(m).Some? && PreflightMarker(m).None?
  {
    hide Gather, Run;
    UnseenCut();
    OneCall(Calls(Warmup()) + [Rest()[0]] + [UNSEEN], Rest()[3]);
    assert |"t"| == 1 && "t" !in CUT by { assert "t"[0] != "d"[0] && "t"[0] != "c"[0]; }
  }
}
