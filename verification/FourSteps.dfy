/** A run of the dispatcher that passes all four checkpoints, with the scorer's four orders true. */
module FourSteps {
  import opened Wrappers
  import opened DispatcherModel
  import opened JournalMarkers
  import opened DispatcherTheorems
  import opened StopCompletion

  /** Pattern identifiers, told apart by their length. */
  function Id(n: nat): (s: string)
    ensures |s| == n
  {
    seq(n, _ => 'p')
  }

  /** Where a run stands: flags, step, at most k patterns, all finished, and what the scorer has gathered. */
  ghost predicate Stands(calls: seq<Call>, p: Preflight, step: nat, k: nat, n: nat, completion: map<Purpose, nat>,
                         movements: seq<nat>, retractions: seq<nat>, checkpoints: map<nat, nat>)
  {
    var (s, j) := Run(calls);
    var m := Gather(j);
    && s.preflight == p && s.checkpointIndex == step && |j| == n
    && (forall id <- s.patterns :: |id| <= k && s.patterns[id].status == Finished)
    && m.completion == completion && m.movements == movements && m.retractions == retractions && m.checkpoints == checkpoints
    && Reported(calls)
  }

  lemma OneMore(calls: seq<Call>, c: Call)
    ensures
      var (s, j) := Run(calls);
      && Run(calls + [c]) == (Dispatched(s, c.request, c.reply).0, j + Dispatched(s, c.request, c.reply).1)
      && Gather(Run(calls + [c]).1) == Marked(Gather(j), s, c, |j|)
    ensures Reported(calls) && !StopCompletes(c) && !Undigested(c) ==> Reported(calls + [c])
  {
    hide Dispatched, Gather, Marked;
    assert (calls + [c])[..|calls|] == calls;
    CallMarks(Run(calls).0, Run(calls).1, c);
  }

  function PatternCall(purpose: Purpose, k: nat): Call {
    Call(Ask(if IsCut(purpose) then RunCut else RunDeposition).(purpose := purpose), Told(Id(k + 1), Finished))
  }

  lemma PatternStands(calls: seq<Call>, p: Preflight, step: nat, k: nat, n: nat, completion: map<Purpose, nat>,
                      movements: seq<nat>, retractions: seq<nat>, checkpoints: map<nat, nat>, purpose: Purpose)
    requires Stands(calls, p, step, k, n, completion, movements, retractions, checkpoints)
    requires (IsPreflight(purpose) || Complete(p)) && purpose !in completion
    ensures Stands(calls + [PatternCall(purpose, k)], Coupon(p, purpose), step, k + 1, n + 2, completion[purpose := n + 1],
                   movements, retractions, checkpoints)
  {
    hide Gather, Run, Complete, Coupon, Reported;
    OneMore(calls, PatternCall(purpose, k));
  }

  const MOVE := Call(Ask(MoveStage), Value(None, true))
  const RETRACT := Call(Ask(RetractManipulator), Value(None, true))

  function CheckpointCall(step: nat): Call { Call(Ask(Checkpoint).(step := step), Value(None, true)) }

  lemma MoveStands(calls: seq<Call>, p: Preflight, step: nat, k: nat, n: nat, completion: map<Purpose, nat>,
                   movements: seq<nat>, retractions: seq<nat>, checkpoints: map<nat, nat>)
    requires Stands(calls, p, step, k, n, completion, movements, retractions, checkpoints) && p.stageMoved
    ensures Stands(calls + [MOVE], p, step, k, n + 2, completion, movements + [n + 1], retractions, checkpoints)
  {
    hide Gather, Run, Complete, Reported;
    OneMore(calls, MOVE);
  }

  lemma RetractStands(calls: seq<Call>, p: Preflight, step: nat, k: nat, n: nat, completion: map<Purpose, nat>,
                      movements: seq<nat>, retractions: seq<nat>, checkpoints: map<nat, nat>)
    requires Stands(calls, p, step, k, n, completion, movements, retractions, checkpoints) && p.needleRetracted
    ensures Stands(calls + [RETRACT], p, step, k, n + 2, completion, movements, retractions + [n + 1], checkpoints)
  {
    hide Gather, Run, Complete, Reported;
    OneMore(calls, RETRACT);
  }

  lemma CheckpointStands(calls: seq<Call>, p: Preflight, step: nat, k: nat, n: nat, completion: map<Purpose, nat>,
                         movements: seq<nat>, retractions: seq<nat>, checkpoints: map<nat, nat>)
    requires Stands(calls, p, step, k, n, completion, movements, retractions, checkpoints)
    requires Complete(p) && step < 4 && step !in checkpoints
    ensures Stands(calls + [CheckpointCall(step)], p, step + 1, k, n + 5, completion, movements, retractions, checkpoints[step := n + 2])
  {
    hide Gather, Run, Complete, Reported;
    OneMore(calls, CheckpointCall(step));
  }

  // ---- The preflight -----------------------------------------------------------------------

  lemma {:induction false} WarmMarks(requests: seq<Request>)
    requires forall i :: 0 <= i < |requests| ==> Flags(requests[i])
    ensures Reported(Calls(requests))
    ensures Gather(Run(Calls(requests)).1).completion == map[] && Gather(Run(Calls(requests)).1).checkpoints == map[]
  {
    if requests == [] {
      NothingMarked();
    } else {
      hide Gather, Run, Reported, Flags;
      var init, r := requests[..|requests| - 1], requests[|requests| - 1];
      WarmMarks(init);
      OneMore(Calls(init), Call(r, Value(None, true)));
      FlagMarks(Gather(Run(Calls(init)).1), Run(Calls(init)).0, r, |Run(Calls(init)).1|);
    }
  }

  lemma NothingMarked()
    ensures Reported([]) && Gather(Run([]).1).completion == map[] && Gather(Run([]).1).checkpoints == map[]
  {
  }

  lemma FlagMarks(m: Marks, s: State, r: Request, n: nat)
    requires Flags(r)
    ensures
      var q := Marked(m, s, Call(r, Value(None, true)), n);
      q.completion == m.completion && q.checkpoints == m.checkpoints
    ensures !StopCompletes(Call(r, Value(None, true))) && !Undigested(Call(r, Value(None, true)))
  {
    hide Complete;
  }

  lemma WarmStands() returns (n: nat, movements: seq<nat>, retractions: seq<nat>)
    ensures Stands(Calls(Warmup()), WARM, 0, 0, n, map[], movements, retractions, map[])
  {
    hide Gather, Run, Reported, Flags, Warmup;
    Warm();
    WarmupIsFlags();
    WarmMarks(Warmup());
    var j := Run(Calls(Warmup())).1;
    n, movements, retractions := |j|, Gather(j).movements, Gather(j).retractions;
  }

  const READY := WARM.(couponCut := true, couponDeposition := true)

  lemma PreflightStands() returns (calls: seq<Call>, n: nat, completion: map<Purpose, nat>, movements: seq<nat>, retractions: seq<nat>)
    ensures Stands(calls, READY, 0, 2, n, completion, movements, retractions, map[])
    ensures completion.Keys == {PreflightCut, PreflightDeposition} && forall v <- retractions :: v < n
  {
    hide Stands, WARM;
    n, movements, retractions := WarmStands();
    calls := Calls(Warmup());
    PatternStands(calls, WARM, 0, 0, n, map[], movements, retractions, map[], PreflightCut);
    calls := calls + [PatternCall(PreflightCut, 0)];
    var first := map[PreflightCut := n + 1];
    assert map[][PreflightCut := n + 1] == first;
    PatternStands(calls, Coupon(WARM, PreflightCut), 0, 1, n + 2, first, movements, retractions, map[], PreflightDeposition);
    calls := calls + [PatternCall(PreflightDeposition, 1)];
    completion, n := first[PreflightDeposition := n + 3], n + 4;
    CouponsReady();
    RetractionsBelow(calls, READY, 0, 2, n, completion, movements, retractions, map[]);
  }

  lemma CouponsReady()
    ensures Coupon(Coupon(WARM, PreflightCut), PreflightDeposition) == READY && Complete(READY) && READY.stageMoved && READY.needleRetracted
  {
  }

  lemma RetractionsBelow(calls: seq<Call>, p: Preflight, step: nat, k: nat, n: nat, completion: map<Purpose, nat>,
                         movements: seq<nat>, retractions: seq<nat>, checkpoints: map<nat, nat>)
    requires Stands(calls, p, step, k, n, completion, movements, retractions, checkpoints)
    ensures forall v <- retractions :: v < n
  {
    hide Gather, Run, FlagsShown, PatternsShown, Gated, CompletionsAfter, CheckpointsOk;
    RunInvariant(calls);
  }

  // ---- The four steps ----------------------------------------------------------------------

  /** The same calls in every order-relevant respect: n is where the preflight ends. */
  lemma StepOne(calls: seq<Call>, n: nat, c: map<Purpose, nat>, mv: seq<nat>, rt: seq<nat>) returns (more: seq<Call>)
    requires Stands(calls, READY, 0, 2, n, c, mv, rt, map[]) && c.Keys == {PreflightCut, PreflightDeposition}
    ensures Stands(more, READY, 1, 3, n + 7, c[Trench := n + 1], mv, rt, map[0 := n + 4])
  {
    hide Stands, READY;
    CouponsReady();
    PatternStands(calls, READY, 0, 2, n, c, mv, rt, map[], Trench);
    more := calls + [PatternCall(Trench, 2)];
    NoCoupon(Trench);
    CheckpointStands(more, READY, 0, 3, n + 2, c[Trench := n + 1], mv, rt, map[]);
    more := more + [CheckpointCall(0)];
    assert map[][0 := n + 4] == map[0 := n + 4];
  }

  lemma NoCoupon(purpose: Purpose)
    requires !IsPreflight(purpose)
    ensures Coupon(READY, purpose) == READY
  {
  }

  lemma StepTwo(calls: seq<Call>, n: nat, c: map<Purpose, nat>, mv: seq<nat>, rt: seq<nat>, cp: map<nat, nat>) returns (more: seq<Call>)
    requires Stands(calls, READY, 1, 3, n, c, mv, rt, cp) && cp.Keys == {0} && c.Keys == {PreflightCut, PreflightDeposition, Trench}
    ensures Stands(more, READY, 2, 5, n + 11, c[NeedleJoint := n + 1][SourceSeparation := n + 3], mv + [n + 5], rt, cp[1 := n + 8])
  {
    hide Stands, READY;
    CouponsReady();
    NoCoupon(NeedleJoint);
    NoCoupon(SourceSeparation);
    PatternStands(calls, READY, 1, 3, n, c, mv, rt, cp, NeedleJoint);
    more := calls + [PatternCall(NeedleJoint, 3)];
    var c1 := c[NeedleJoint := n + 1];
    PatternStands(more, READY, 1, 4, n + 2, c1, mv, rt, cp, SourceSeparation);
    more := more + [PatternCall(SourceSeparation, 4)];
    var c2 := c1[SourceSeparation := n + 3];
    MoveStands(more, READY, 1, 5, n + 4, c2, mv, rt, cp);
    more := more + [MOVE];
    CheckpointStands(more, READY, 1, 5, n + 6, c2, mv + [n + 5], rt, cp);
    more := more + [CheckpointCall(1)];
  }

  lemma StepThree(calls: seq<Call>, n: nat, c: map<Purpose, nat>, mv: seq<nat>, rt: seq<nat>, cp: map<nat, nat>) returns (more: seq<Call>)
    requires Stands(calls, READY, 2, 5, n, c, mv, rt, cp) && cp.Keys == {0, 1} && TargetJoint !in c
    ensures Stands(more, READY, 3, 6, n + 11, c[TargetJoint := n + 5], mv + [n + 1] + [n + 3], rt, cp[2 := n + 8])
  {
    hide Stands, READY;
    CouponsReady();
    NoCoupon(TargetJoint);
    MoveStands(calls, READY, 2, 5, n, c, mv, rt, cp);
    more := calls + [MOVE];
    MoveStands(more, READY, 2, 5, n + 2, c, mv + [n + 1], rt, cp);
    more := more + [MOVE];
    PatternStands(more, READY, 2, 5, n + 4, c, mv + [n + 1] + [n + 3], rt, cp, TargetJoint);
    more := more + [PatternCall(TargetJoint, 5)];
    CheckpointStands(more, READY, 2, 6, n + 6, c[TargetJoint := n + 5], mv + [n + 1] + [n + 3], rt, cp);
    more := more + [CheckpointCall(2)];
  }

  lemma StepFour(calls: seq<Call>, n: nat, c: map<Purpose, nat>, mv: seq<nat>, rt: seq<nat>, cp: map<nat, nat>) returns (more: seq<Call>)
    requires Stands(calls, READY, 3, 6, n, c, mv, rt, cp) && cp.Keys == {0, 1, 2} && NeedleSeparation !in c
    ensures Stands(more, READY, 4, 7, n + 9, c[NeedleSeparation := n + 1], mv, rt + [n + 3], cp[3 := n + 6])
  {
    hide Stands, READY;
    CouponsReady();
    NoCoupon(NeedleSeparation);
    PatternStands(calls, READY, 3, 6, n, c, mv, rt, cp, NeedleSeparation);
    more := calls + [PatternCall(NeedleSeparation, 6)];
    var c1 := c[NeedleSeparation := n + 1];
    RetractStands(more, READY, 3, 7, n + 2, c1, mv, rt, cp);
    more := more + [RETRACT];
    CheckpointStands(more, READY, 3, 7, n + 4, c1, mv, rt + [n + 3], cp);
    more := more + [CheckpointCall(3)];
  }

  /** What the scorer reads at the end, positions counted from the end of the preflight. */
  ghost predicate Finishes(m: Marks, n: nat) {
    && m.checkpoints == map[0 := n + 4][1 := n + 15][2 := n + 26][3 := n + 35]
    && Trench in m.completion && m.completion[Trench] == n + 1 && Protection !in m.completion && Polish !in m.completion && UCut !in m.completion
    && NeedleJoint in m.completion && m.completion[NeedleJoint] == n + 8
    && SourceSeparation in m.completion && m.completion[SourceSeparation] == n + 10
    && TargetJoint in m.completion && m.completion[TargetJoint] == n + 23
    && NeedleSeparation in m.completion && m.completion[NeedleSeparation] == n + 30
    && n + 12 in m.movements && n + 19 in m.movements && n + 21 in m.movements
    && n + 32 in m.retractions && forall v <- m.retractions :: v < n || v == n + 32
  }

  /** The marks after the first two steps, and after all four. */
  function HalfDone(c: map<Purpose, nat>, n: nat): (r: map<Purpose, nat>)
    requires c.Keys == {PreflightCut, PreflightDeposition}
    ensures TargetJoint !in r && NeedleSeparation !in r
  {
    c[Trench := n + 1][NeedleJoint := n + 8][SourceSeparation := n + 10]
  }

  function AllDone(c: map<Purpose, nat>, n: nat): map<Purpose, nat>
    requires c.Keys == {PreflightCut, PreflightDeposition}
  {
    HalfDone(c, n)[TargetJoint := n + 23][NeedleSeparation := n + 30]
  }

  lemma FirstHalf() returns (calls: seq<Call>, n: nat, c: map<Purpose, nat>, mv: seq<nat>, rt: seq<nat>)
    ensures c.Keys == {PreflightCut, PreflightDeposition} && forall v <- rt :: v < n
    ensures Stands(calls, READY, 2, 5, n + 18, HalfDone(c, n), mv + [n + 12], rt, map[0 := n + 4][1 := n + 15])
  {
    hide READY, Stands;
    calls, n, c, mv, rt := PreflightStands();
    calls := StepOne(calls, n, c, mv, rt);
    calls := StepTwo(calls, n + 7, c[Trench := n + 1], mv, rt, map[0 := n + 4]);
  }

  lemma SecondHalf(before: seq<Call>, n: nat, c: map<Purpose, nat>, mv: seq<nat>, rt: seq<nat>, cp: map<nat, nat>) returns (calls: seq<Call>)
    requires Stands(before, READY, 2, 5, n + 18, c, mv, rt, cp) && cp.Keys == {0, 1} && TargetJoint !in c && NeedleSeparation !in c
    ensures Stands(calls, READY, 4, 7, n + 38, c[TargetJoint := n + 23][NeedleSeparation := n + 30], mv + [n + 19] + [n + 21],
                   rt + [n + 32], cp[2 := n + 26][3 := n + 35])
  {
    hide READY, Stands;
    calls := StepThree(before, n + 18, c, mv, rt, cp);
    calls := StepFour(calls, n + 29, c[TargetJoint := n + 23], mv + [n + 19] + [n + 21], rt, cp[2 := n + 26]);
  }

  lemma AllFourRun() returns (calls: seq<Call>, n: nat)
    ensures Reported(calls) && Run(calls).0.checkpointIndex == 4 && Finishes(Gather(Run(calls).1), n)
  {
    hide READY, Stands, HalfDone, Finishes;
    var c, mv, rt;
    calls, n, c, mv, rt := FirstHalf();
    var cp := map[0 := n + 4][1 := n + 15];
    calls := SecondHalf(calls, n, HalfDone(c, n), mv + [n + 12], rt, cp);
    EndMarks(calls, n, c, mv, rt);
  }

  lemma EndMarks(calls: seq<Call>, n: nat, c: map<Purpose, nat>, mv: seq<nat>, rt: seq<nat>)
    requires c.Keys == {PreflightCut, PreflightDeposition} && forall v <- rt :: v < n
    requires Stands(calls, READY, 4, 7, n + 38, AllDone(c, n), mv + [n + 12] + [n + 19] + [n + 21], rt + [n + 32],
                    map[0 := n + 4][1 := n + 15][2 := n + 26][3 := n + 35])
    ensures Reported(calls) && Run(calls).0.checkpointIndex == 4 && Finishes(Gather(Run(calls).1), n)
  {
    hide READY, Gather, Run, Reported;
    var movements := mv + [n + 12] + [n + 19] + [n + 21];
    assert movements[|mv|] == n + 12 && movements[|mv| + 1] == n + 19 && movements[|mv| + 2] == n + 21;
    assert (rt + [n + 32])[|rt|] == n + 32;
  }

  /** One run in which all four steps are exported and the scorer finds all four in order. */
  lemma FourStepsInOrder() returns (calls: seq<Call>)
    ensures Reported(calls) && Run(calls).0.checkpointIndex == STEP_COUNT
    ensures
      var k := MarkersOf(Gather(Run(calls).1));
      && (forall i :: 0 <= i < 4 ==> k.steps[i].Some?)
      && Orders(k) == [true, true, true, true]
  {
    hide Gather, Run, Reported, Orders, Finishes;
    var n;
    calls, n := AllFourRun();
    var j := Run(calls).1;
    InOrder(j, n);
    StepOneOrder(calls);
    StepTwoOrder(j);
    StepThreeOrder(j);
    StepFourOrder(j);
  }

  lemma InOrder(j: seq<Event>, n: nat)
    requires Finishes(Gather(j), n)
    ensures
      var m, k := Gather(j), MarkersOf(Gather(j));
      && (forall i :: 0 <= i < 4 ==> k.steps[i].Some?)
      && Before(k.destructive, k.steps[0])
      && Before(k.steps[0], k.needleJoint) && Before(k.needleJoint, k.sourceSeparation)
      && (exists v <- m.movements :: Amid(v, k.sourceSeparation, k.steps[1]))
      && Before(k.targetJoint, k.steps[2])
      && (exists u <- m.movements, v <- m.movements :: u < v && Amid(u, k.steps[1], k.targetJoint) && Amid(v, k.steps[1], k.targetJoint))
      && Before(k.steps[2], k.needleSeparation)
      && (exists v <- m.retractions :: Amid(v, k.needleSeparation, k.steps[3]))
      && (forall v <- m.retractions :: Amid(v, k.steps[2], k.steps[3]) ==> Before(k.needleSeparation, Some(v)))
  {
    hide Gather, Between, PreflightMarker;
    var m, k := Gather(j), MarkersOf(Gather(j));
    assert Amid(n + 12, k.sourceSeparation, k.steps[1]);
    assert Amid(n + 19, k.steps[1], k.targetJoint) && Amid(n + 21, k.steps[1], k.targetJoint);
    assert Amid(n + 32, k.needleSeparation, k.steps[3]);
  }
}
