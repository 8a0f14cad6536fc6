/** Over every run, what the offline scorer reads from the journal agrees with what the dispatcher enforced. */
module DispatcherTheorems {
  import opened Wrappers
  import opened DispatcherModel
  import opened JournalMarkers

  datatype Call = Call(request: Request, reply: Reply)

  function Run(calls: seq<Call>): (State, seq<Event>) {
    if calls == [] then (FIRST, [])
    else
      var (s, j) := Run(calls[..|calls| - 1]);
      var last := calls[|calls| - 1];
      var (t, events) := Dispatched(s, last.request, last.reply);
      (t, j + events)
  }

  /** No stop_pattern reports a completed pattern, as the real backend's never does (backend.py, _stop_pattern),
      and every result has a canonical digest. */
  predicate Reported(calls: seq<Call>) { forall i :: 0 <= i < |calls| ==> !StopCompletes(calls[i]) && !Undigested(calls[i]) }

  predicate StopCompletes(c: Call) {
    c.request.operation.StopPattern? && c.reply.Value? && c.reply.receipt.Some? && c.reply.receipt.value.status == Finished
  }

  predicate Undigested(c: Call) { c.reply.Value? && !c.reply.digestible }

  // ---- What one call adds to the marks ----------------------------------------------------

  lemma GatherOne(j: seq<Event>, e: Event)
    ensures Gather(j + [e]) == OnEvent(Gather(j), e, |j|)
  {
    hide OnEvent;
    assert (j + [e])[..|j|] == j;
  }

  lemma GatherTwo(j: seq<Event>, a: Event, b: Event)
    ensures Gather(j + [a, b]) == OnEvent(OnEvent(Gather(j), a, |j|), b, |j| + 1)
  {
    hide OnEvent, Gather;
    assert j + [a, b] == j + [a] + [b];
    GatherOne(j, a);
    GatherOne(j + [a], b);
  }

  /** The marks after one call. */
  function Marked(m: Marks, s: State, c: Call, n: nat): Marks {
    if !c.request.digestible || c.request.operation.Unknown? || !Handle(s, c.request, c.reply).end.Done? then m
    else if c.request.operation.Checkpoint? then m.(checkpoints := SetDefault(m.checkpoints, c.request.step, n + 2))
    else if Undigested(c) then m
    else OnCompleted(m, c.request, Handle(s, c.request, c.reply).end.receipt, n + 1)
  }

  lemma ExportMarks(j: seq<Event>, k: nat)
    ensures Gather(j + [Requested(Checkpoint), FreezeRequested(k)] + [Exported(k), Frozen(k)])
         == Gather(j).(checkpoints := SetDefault(Gather(j).checkpoints, k, |j| + 2))
  {
    hide Gather, OnEvent, SetDefault;
    var m, n := Gather(j), |j|;
    GatherTwo(j, Requested(Checkpoint), FreezeRequested(k));
    GatherTwo(j + [Requested(Checkpoint), FreezeRequested(k)], Exported(k), Frozen(k));
    UnmarkedEvent(m, Requested(Checkpoint), n);
    UnmarkedEvent(m, FreezeRequested(k), n + 1);
    ExportedEvent(m, k, n + 2);
    UnmarkedEvent(OnEvent(m, Exported(k), n + 2), Frozen(k), n + 3);
  }

  lemma CheckpointMarks(j: seq<Event>, k: nat, ending: seq<Event>)
    requires |ending| <= 1 && forall i :: 0 <= i < |ending| ==> ending[i].Completed? && ending[i].request.operation.Checkpoint?
    ensures Gather(j + ([Requested(Checkpoint)] + [FreezeRequested(k), Exported(k), Frozen(k)] + ending))
         == Gather(j).(checkpoints := SetDefault(Gather(j).checkpoints, k, |j| + 2))
  {
    hide Gather, OnEvent, SetDefault;
    var all := j + [Requested(Checkpoint), FreezeRequested(k)] + [Exported(k), Frozen(k)];
    Regrouped(j, Requested(Checkpoint), FreezeRequested(k), Exported(k), Frozen(k), ending);
    ExportMarks(j, k);
    if ending == [] {
      assert all + ending == all;
    } else {
      assert ending == [ending[0]];
      GatherOne(all, ending[0]);
      UnmarkedEvent(Gather(all), ending[0], |all|);
    }
  }

  lemma Regrouped<T>(j: seq<T>, a: T, b: T, c: T, d: T, e: seq<T>)
    ensures j + ([a] + [b, c, d] + e) == j + [a, b] + [c, d] + e
  {
    assert [a] + [b, c, d] + e == [a, b] + [c, d] + e;
    assert j + ([a, b] + [c, d] + e) == j + [a, b] + [c, d] + e;
  }

  lemma UnmarkedEvent(m: Marks, e: Event, n: nat)
    requires e.Requested? || e.FreezeRequested? || e.Frozen? || (e.Completed? && e.request.operation.Checkpoint?)
    ensures OnEvent(m, e, n) == m
  {
  }

  lemma ExportedEvent(m: Marks, k: nat, n: nat)
    ensures OnEvent(m, Exported(k), n) == m.(checkpoints := SetDefault(m.checkpoints, k, n))
  {
  }

  lemma SilentMarks(j: seq<Event>, op: Operation, events: seq<Event>, last: Event)
    requires events == [] || (|events| == 1 && events[0].FreezeRequested?)
    requires last.Rejected? || last.Failed?
    ensures Gather(j + ([Requested(op)] + events + [last])) == Gather(j)
  {
    hide Gather;
    if events == [] {
      assert j + ([Requested(op)] + events + [last]) == j + [Requested(op), last];
      GatherTwo(j, Requested(op), last);
    } else {
      assert j + ([Requested(op)] + events + [last]) == j + [Requested(op), events[0]] + [last];
      GatherTwo(j, Requested(op), events[0]);
      GatherOne(j + [Requested(op), events[0]], last);
    }
  }

  lemma HandleEvents(s: State, r: Request, reply: Reply)
    ensures
      var o := Handle(s, r, reply);
      && (o.end.Done? && r.operation.Checkpoint? ==>
            o.events == [FreezeRequested(r.step), Exported(r.step), Frozen(r.step)])
      && (o.end.Done? && !r.operation.Checkpoint? ==> o.events == [])
      && (!o.end.Done? ==> o.events == [] || (|o.events| == 1 && o.events[0].FreezeRequested?))
  {
    hide Complete;
  }

  lemma CallMarks(s: State, j: seq<Event>, c: Call)
    ensures Gather(j + Dispatched(s, c.request, c.reply).1) == Marked(Gather(j), s, c, |j|)
  {
    hide Gather, Handle, OnCompleted;
    var r, o := c.request, Handle(s, c.request, c.reply);
    if !r.digestible || r.operation.Unknown? {
      GatherOne(j, Rejected(r.operation));
    } else {
      HandleEvents(s, r, c.reply);
      var ending := Ending(r, o.end, c.reply);
      if !o.end.Done? {
        SilentMarks(j, r.operation, o.events, if o.end.Refused? then Rejected(r.operation) else Failed(r.operation));
      } else if r.operation.Checkpoint? {
        CheckpointMarks(j, r.step, ending);
      } else if Undigested(c) {
        assert j + ([Requested(r.operation)] + o.events + ending) == j + [Requested(r.operation)];
        GatherOne(j, Requested(r.operation));
      } else {
        assert j + ([Requested(r.operation)] + o.events + ending) == j + [Requested(r.operation), ending[0]];
        GatherTwo(j, Requested(r.operation), ending[0]);
      }
    }
  }

  // ---- The invariant ---------------------------------------------------------------------

  /** Every flag the dispatcher has set rests on an event the scorer finds. */
  ghost predicate FlagsShown(p: Preflight, m: Marks) {
    && (p.ping ==> m.ping.Some?) && (p.capabilities ==> m.capabilities.Some?)
    && (forall b <- p.beams :: b in m.images)
    && (p.stageMoved ==> |m.stageMoves| >= 1) && (p.stageReturned ==> |m.stageMoves| >= 2)
    && (p.needleInserted ==> m.insert.Some?) && (p.needleMoved ==> m.needleMove.Some?)
    && (p.needleRetracted ==> |m.retractions| >= 1)
    && (p.couponCut ==> PreflightCut in m.completion) && (p.couponDeposition ==> PreflightDeposition in m.completion)
  }

  ghost predicate PatternsShown(s: State, m: Marks) {
    && s.patterns.Keys == m.byId.Keys
    && forall id <- s.patterns :: s.patterns[id].purpose == m.byId[id]
  }

  predicate Below(a: Option<nat>, n: nat) { a.Some? ==> a.value < n }

  ghost predicate Bounded(m: Marks, n: nat) {
    && Below(m.ping, n) && Below(m.capabilities, n) && (forall b <- m.images :: m.images[b] < n)
    && (forall i :: 0 <= i < |m.stageMoves| ==> m.stageMoves[i] < n)
    && Below(m.insert, n) && Below(m.needleMove, n) && (forall i :: 0 <= i < |m.retractions| ==> m.retractions[i] < n)
    && (forall p <- m.completion :: m.completion[p] < n) && (forall k <- m.checkpoints :: m.checkpoints[k] < n)
  }

  /** Nothing outside the preflight was started before it was complete. */
  ghost predicate Gated(s: State) {
    forall id <- s.patterns :: IsPreflight(s.patterns[id].purpose) || Complete(s.preflight)
  }

  ghost predicate After(m: Marks, q: nat) { PreflightMarker(m).Some? && PreflightMarker(m).value < q }

  ghost predicate CompletionsAfter(m: Marks) {
    forall p <- m.completion :: IsPreflight(p) || After(m, m.completion[p])
  }

  /** The checkpoints found are the steps passed so far, in order, after the preflight. */
  ghost predicate CheckpointsOk(s: State, m: Marks) {
    && (forall k: nat :: k in m.checkpoints <==> k < s.checkpointIndex)
    && s.checkpointIndex <= STEP_COUNT
    && (forall i: nat, k: nat :: i < k < s.checkpointIndex ==> m.checkpoints[i] < m.checkpoints[k])
    && (forall k: nat :: k < s.checkpointIndex ==> After(m, m.checkpoints[k]))
  }

  ghost predicate Invariant(s: State, m: Marks, n: nat) {
    FlagsShown(s.preflight, m) && PatternsShown(s, m) && Bounded(m, n) && Gated(s) && CompletionsAfter(m) && CheckpointsOk(s, m)
  }

  // ---- Preservation ----------------------------------------------------------------------

  predicate Kept(a: Option<nat>, b: Option<nat>) { a.Some? ==> b == a }

  ghost predicate KeptMap<K(!new)>(m: map<K, nat>, q: map<K, nat>) { forall k <- m :: k in q && q[k] == m[k] }

  predicate KeptSeq(a: seq<nat>, b: seq<nat>) { |a| <= |b| && b[..|a|] == a }

  /** Marks only gain entries, and stage moves only at the end. */
  ghost predicate Grows(m: Marks, q: Marks) {
    && Kept(m.ping, q.ping) && Kept(m.capabilities, q.capabilities) && KeptMap(m.images, q.images)
    && KeptSeq(m.stageMoves, q.stageMoves)
    && Kept(m.insert, q.insert) && Kept(m.needleMove, q.needleMove) && KeptSeq(m.retractions, q.retractions)
    && KeptMap(m.completion, q.completion)
  }

  lemma MarkerStays(m: Marks, q: Marks)
    requires Grows(m, q) && PreflightMarker(m).Some?
    ensures PreflightMarker(q) == PreflightMarker(m)
  {
    hide Greatest;
    assert forall i :: 0 <= i < |m.stageMoves| ==> q.stageMoves[..|m.stageMoves|][i] == q.stageMoves[i];
    assert forall i :: 0 <= i < |m.retractions| ==> q.retractions[..|m.retractions|][i] == q.retractions[i];
    assert Required(m) == Required(q);
  }

  lemma {:induction false} GreatestBelow(s: seq<nat>, n: nat)
    requires s != [] && forall i :: 0 <= i < |s| ==> s[i] < n
    ensures Greatest(s) < n
  {
    if |s| > 1 {
      GreatestBelow(s[..|s| - 1], n);
    }
  }

  lemma MarkerBelow(m: Marks, n: nat)
    requires Bounded(m, n)
    ensures PreflightMarker(m).Some? ==> PreflightMarker(m).value < n
  {
    if Found(m) {
      GreatestBelow(Required(m), n);
    }
  }

  lemma CompleteIsFound(s: State, m: Marks)
    requires FlagsShown(s.preflight, m) && Complete(s.preflight)
    ensures PreflightMarker(m).Some?
  {
    assert SEM in s.preflight.beams && FIB in s.preflight.beams;
  }

  lemma CompletedGrows(m: Marks, r: Request, receipt: Option<Receipt>, n: nat)
    ensures Grows(m, OnCompleted(m, r, receipt, n))
  {
    hide CompletionAfter, Or, SetDefault, Kept, KeptMap, KeptSeq;
    SameGrows(m);
    OrKeeps(m.ping, n);
    OrKeeps(m.capabilities, n);
    OrKeeps(m.insert, n);
    OrKeeps(m.needleMove, n);
    MovesKept(m.retractions, n);
    MovesKept(m.stageMoves, n);
    DefaultKeeps(m.images, r.beam, n);
    CompletionKept(m, r, receipt, n);
  }

  lemma SameGrows(m: Marks)
    ensures Grows(m, m)
  {
    assert m.stageMoves[..|m.stageMoves|] == m.stageMoves && m.retractions[..|m.retractions|] == m.retractions;
  }

  lemma OrKeeps(a: Option<nat>, n: nat)
    ensures Kept(a, Or(a, n))
  {
  }

  lemma MovesKept(s: seq<nat>, n: nat)
    ensures KeptSeq(s, s + [n])
  {
  }

  lemma DefaultKeeps<K(!new)>(m: map<K, nat>, k: K, n: nat)
    ensures KeptMap(m, SetDefault(m, k, n))
  {
  }

  lemma CompletionKept(m: Marks, r: Request, receipt: Option<Receipt>, n: nat)
    ensures KeptMap(m.completion, CompletionAfter(m, r, receipt, n))
  {
    hide SetDefault;
    DefaultKeeps(m.completion, r.purpose, n);
    if receipt.Some? && receipt.value.id in m.byId {
      DefaultKeeps(m.completion, m.byId[receipt.value.id], n);
    }
  }

  lemma CompletedBounded(m: Marks, r: Request, receipt: Option<Receipt>, n: nat)
    requires Bounded(m, n)
    ensures Bounded(OnCompleted(m, r, receipt, n), n + 1)
  {
    var q := OnCompleted(m, r, receipt, n);
    forall i | 0 <= i < |q.stageMoves| ensures q.stageMoves[i] < n + 1 {
      assert i < |m.stageMoves| ==> q.stageMoves[i] == m.stageMoves[i];
    }
    forall i | 0 <= i < |q.retractions| ensures q.retractions[i] < n + 1 {
      assert i < |m.retractions| ==> q.retractions[i] == m.retractions[i];
    }
  }

  /** A flag handler's flag is shown by its own completion event. */
  lemma FlagStep(s: State, m: Marks, r: Request, n: nat)
    requires FlagsShown(s.preflight, m)
    ensures FlagsShown(Flagged(s.preflight, r), OnCompleted(m, r, None, n))
  {
    assert CompletionAfter(m, r, None, n) == m.completion;
  }

  lemma CouponShown(p: Preflight, m: Marks, purpose: Purpose, n: nat)
    requires FlagsShown(p, m)
    ensures FlagsShown(Coupon(p, purpose), m.(completion := SetDefault(m.completion, purpose, n)))
  {
    hide SetDefault;
    DefaultHas(m.completion, purpose, n);
  }

  lemma DefaultHas<K(!new)>(m: map<K, nat>, k: K, n: nat)
    ensures k in SetDefault(m, k, n) && forall x <- m :: x in SetDefault(m, k, n)
  {
  }

  lemma FlagsStay(p: Preflight, m: Marks, q: Marks)
    requires FlagsShown(p, m) && q == m.(byId := q.byId, checkpoints := q.checkpoints)
    ensures FlagsShown(p, q)
  {
  }

  /** A pattern handler's record is shown by its own completion event. */
  lemma PatternStep(s: State, m: Marks, c: Call, n: nat)
    requires PatternsShown(s, m) && HandlesPattern(c.request.operation)
    requires c.reply.Value? && Received(s, c.request, c.reply.receipt).end.Done?
    ensures
      var o := Received(s, c.request, c.reply.receipt);
      o.end.receipt == c.reply.receipt && PatternsShown(o.state, OnCompleted(m, c.request, c.reply.receipt, n))
  {
    hide Coupon;
  }

  /** So is its coupon, unless a stop completed the pattern. */
  lemma CouponStep(s: State, m: Marks, c: Call, n: nat)
    requires FlagsShown(s.preflight, m) && PatternsShown(s, m) && HandlesPattern(c.request.operation)
    requires c.reply.Value? && !StopCompletes(c) && Received(s, c.request, c.reply.receipt).end.Done?
    ensures FlagsShown(Received(s, c.request, c.reply.receipt).state.preflight, OnCompleted(m, c.request, c.reply.receipt, n))
  {
    hide Coupon, FlagsShown, SetDefault;
    var r, receipt := c.request, c.reply.receipt.value;
    var q := OnCompleted(m, r, c.reply.receipt, n);
    var purpose := if r.operation.RunCut? || r.operation.RunDeposition? then r.purpose else s.patterns[r.id].purpose;
    FlagsStay(s.preflight, m, m.(byId := q.byId));
    CouponShown(s.preflight, m.(byId := q.byId), purpose, n);
  }

  /** A pattern counted as complete is one the dispatcher has on its list. */
  lemma PatternCompletion(s: State, m: Marks, c: Call, n: nat, p: Purpose)
    requires PatternsShown(s, m) && HandlesPattern(c.request.operation) && c.reply.Value?
    requires Admissible(s, c.request) && Received(s, c.request, c.reply.receipt).end.Done?
    requires p in OnCompleted(m, c.request, c.reply.receipt, n).completion && p !in m.completion
    ensures OnCompleted(m, c.request, c.reply.receipt, n).completion[p] == n
    ensures Gated(s) ==> IsPreflight(p) || Complete(s.preflight)
  {
  }

  lemma FlagsMonotone(s: State, r: Request, reply: Reply)
    requires Complete(s.preflight) && Admissible(s, r)
    ensures Complete(Handle(s, r, reply).state.preflight)
  {
  }

  lemma GatedStep(s: State, c: Call)
    requires Gated(s) && HandlesPattern(c.request.operation) && c.reply.Value? && Admissible(s, c.request)
    ensures Gated(Received(s, c.request, c.reply.receipt).state)
  {
    if Complete(s.preflight) {
      FlagsMonotone(s, c.request, c.reply);
    }
  }

  lemma PlainMarks(m: Marks, r: Request, n: nat)
    requires !HandlesPattern(r.operation)
    ensures OnCompleted(m, r, None, n).byId == m.byId && OnCompleted(m, r, None, n).completion == m.completion
  {
  }

  lemma CheckpointMarksStay(m: Marks, r: Request, receipt: Option<Receipt>, n: nat)
    ensures OnCompleted(m, r, receipt, n).checkpoints == m.checkpoints
  {
  }

  lemma PatternsStay(s: State, t: State, m: Marks, q: Marks)
    requires PatternsShown(s, m) && s.patterns == t.patterns && m.byId == q.byId
    ensures PatternsShown(t, q)
  {
  }

  /** A marker found stays where it is. */
  lemma AfterStays(m: Marks, q: Marks, k: nat)
    requires Grows(m, q) && After(m, k)
    ensures After(q, k)
  {
    hide Grows, PreflightMarker;
    MarkerStays(m, q);
  }

  lemma CompletionsStep(s: State, m: Marks, c: Call, n: nat)
    requires Invariant(s, m, n) && !c.request.operation.Checkpoint? && Handle(s, c.request, c.reply).end.Done?
    ensures CompletionsAfter(OnCompleted(m, c.request, Handle(s, c.request, c.reply).end.receipt, n))
  {
    hide FlagsShown, PatternsShown, Bounded, OnCompleted, Complete, PreflightMarker, Received, CheckpointsOk;
    var o := Handle(s, c.request, c.reply);
    var q := OnCompleted(m, c.request, o.end.receipt, n);
    CompletedGrows(m, c.request, o.end.receipt, n);
    forall p <- q.completion ensures IsPreflight(p) || After(q, q.completion[p]) {
      if p in m.completion {
        if !IsPreflight(p) {
          AfterStays(m, q, m.completion[p]);
        }
      } else if HandlesPattern(c.request.operation) {
        PatternStep(s, m, c, n);
        PatternCompletion(s, m, c, n, p);
        if !IsPreflight(p) {
          CompleteIsFound(s, m);
          MarkerBelow(m, n);
          AfterStays(m, q, n);
        }
      } else {
        PlainMarks(m, c.request, n);
      }
    }
  }

  lemma CheckpointsStay(s: State, t: State, m: Marks, q: Marks)
    requires CheckpointsOk(s, m) && t.checkpointIndex == s.checkpointIndex && q.checkpoints == m.checkpoints && Grows(m, q)
    ensures CheckpointsOk(t, q)
  {
    hide Grows, After;
    forall k: nat | k < t.checkpointIndex ensures After(q, q.checkpoints[k]) {
      AfterStays(m, q, m.checkpoints[k]);
    }
  }

  lemma HandledInvariant(s: State, m: Marks, c: Call, n: nat)
    requires Invariant(s, m, n) && !StopCompletes(c) && !c.request.operation.Checkpoint?
    requires Handle(s, c.request, c.reply).end.Done?
    ensures Invariant(Handle(s, c.request, c.reply).state, OnCompleted(m, c.request, Handle(s, c.request, c.reply).end.receipt, n), n + 1)
  {
    hide FlagsShown, PatternsShown, Bounded, OnCompleted, Complete, Grows, PreflightMarker, Received, Flagged;
    var o := Handle(s, c.request, c.reply);
    var q := OnCompleted(m, c.request, o.end.receipt, n);
    if HandlesPattern(c.request.operation) {
      PatternStep(s, m, c, n);
      CouponStep(s, m, c, n);
      GatedStep(s, c);
    } else {
      FlagStep(s, m, c.request, n);
      PlainMarks(m, c.request, n);
      PatternsStay(s, o.state, m, q);
      if Complete(s.preflight) {
        FlagsMonotone(s, c.request, c.reply);
      }
    }
    CompletedGrows(m, c.request, o.end.receipt, n);
    CompletedBounded(m, c.request, o.end.receipt, n);
    CompletionsStep(s, m, c, n);
    CheckpointMarksStay(m, c.request, o.end.receipt, n);
    ReceivedKeepsIndex(s, c.request, c.reply);
    CheckpointsStay(s, o.state, m, q);
  }

  lemma ReceivedKeepsIndex(s: State, r: Request, reply: Reply)
    ensures Handle(s, r, reply).state.checkpointIndex
         == s.checkpointIndex + if r.operation.Checkpoint? && Handle(s, r, reply).end.Done? then 1 else 0
  {
  }

  lemma DefaultBounded(m: Marks, k: nat, n: nat)
    requires Bounded(m, n)
    ensures Bounded(m.(checkpoints := SetDefault(m.checkpoints, k, n)), n + 1)
  {
  }

  lemma CompletionsStay(m: Marks, q: Marks)
    requires CompletionsAfter(m) && Grows(m, q) && q.completion == m.completion
    ensures CompletionsAfter(q)
  {
    hide Grows, After;
    forall p <- q.completion ensures IsPreflight(p) || After(q, q.completion[p]) {
      if !IsPreflight(p) {
        AfterStays(m, q, m.completion[p]);
      }
    }
  }

  lemma NextCheckpoint(s: State, t: State, m: Marks, q: Marks, n: nat)
    requires CheckpointsOk(s, m) && Bounded(m, n) && After(m, n) && Grows(m, q) && s.checkpointIndex < STEP_COUNT
    requires t.checkpointIndex == s.checkpointIndex + 1 && q.checkpoints == SetDefault(m.checkpoints, s.checkpointIndex, n)
    ensures CheckpointsOk(t, q)
  {
    hide Grows, After, Below;
    assert q.checkpoints == m.checkpoints[s.checkpointIndex := n];
    AfterStays(m, q, n);
    forall k: nat | k < s.checkpointIndex ensures After(q, q.checkpoints[k]) {
      AfterStays(m, q, m.checkpoints[k]);
    }
  }

  lemma CheckpointGrows(m: Marks, c: map<nat, nat>)
    ensures Grows(m, m.(checkpoints := c))
  {
    SameGrows(m);
  }

  /** A checkpoint is passed only when the preflight is complete, and only the next one. */
  lemma CheckpointInvariant(s: State, m: Marks, c: Call, n: nat)
    requires Invariant(s, m, n) && c.request.operation.Checkpoint? && Handle(s, c.request, c.reply).end.Done?
    ensures Invariant(Handle(s, c.request, c.reply).state, m.(checkpoints := SetDefault(m.checkpoints, c.request.step, n)), n + 1)
  {
    hide Complete, PreflightMarker, FlagsShown, PatternsShown, Bounded, CompletionsAfter, CheckpointsOk, SetDefault, Grows;
    var t, q := Handle(s, c.request, c.reply).state, m.(checkpoints := SetDefault(m.checkpoints, c.request.step, n));
    CompleteIsFound(s, m);
    MarkerBelow(m, n);
    CheckpointGrows(m, q.checkpoints);
    FlagsStay(s.preflight, m, q);
    PatternsStay(s, t, m, q);
    DefaultBounded(m, c.request.step, n);
    CompletionsStay(m, q);
    NextCheckpoint(s, t, m, q, n);
  }

  lemma LaterBound(s: State, m: Marks, n: nat, k: nat)
    requires Invariant(s, m, n) && n <= k
    ensures Invariant(s, m, k)
  {
  }

  lemma CallInvariant(s: State, j: seq<Event>, c: Call)
    requires Invariant(s, Gather(j), |j|) && !StopCompletes(c) && !Undigested(c)
    ensures
      var (t, events) := Dispatched(s, c.request, c.reply);
      Invariant(t, Gather(j + events), |j + events|)
  {
    hide Gather, Handle, Invariant, OnCompleted;
    var r, m, n := c.request, Gather(j), |j|;
    var (t, events) := Dispatched(s, r, c.reply);
    CallMarks(s, j, c);
    if !r.digestible || r.operation.Unknown? {
      LaterBound(s, m, n, n + 1);
    } else {
      HandleEvents(s, r, c.reply);
      var o := Handle(s, r, c.reply);
      if !o.end.Done? {
        RefusedKeeps(s, r, c.reply);
        LaterBound(s, m, n, |j + events|);
      } else if r.operation.Checkpoint? {
        LaterBound(s, m, n, n + 2);
        CheckpointInvariant(s, m, c, n + 2);
        LaterBound(o.state, Gather(j + events), n + 3, n + 5);
      } else {
        LaterBound(s, m, n, n + 1);
        HandledInvariant(s, m, c, n + 1);
      }
    }
  }

  lemma RefusedKeeps(s: State, r: Request, reply: Reply)
    requires !Handle(s, r, reply).end.Done?
    ensures Handle(s, r, reply).state == s
  {
    hide Complete;
  }

  lemma {:induction false} RunInvariant(calls: seq<Call>)
    requires Reported(calls)
    ensures
      var (s, j) := Run(calls);
      Invariant(s, Gather(j), |j|)
  {
    hide Dispatched, Invariant, Gather;
    if calls == [] {
      FirstInvariant();
    } else {
      var init, last := calls[..|calls| - 1], calls[|calls| - 1];
      RunInvariant(init);
      CallInvariant(Run(init).0, Run(init).1, last);
    }
  }

  lemma FirstInvariant()
    ensures Invariant(FIRST, Gather([]), 0)
  {
  }

  // ---- Theorems --------------------------------------------------------------------------

  /** Whenever the scorer finds a completed pattern outside the preflight, or a checkpoint, it also finds the
      preflight, strictly earlier. */
  lemma PreflightComesFirst(calls: seq<Call>)
    requires Reported(calls)
    ensures
      var m := Gather(Run(calls).1);
      && (forall p <- m.completion :: !IsPreflight(p) ==> After(m, m.completion[p]))
      && (DestructiveMarker(m).Some? ==> After(m, DestructiveMarker(m).value))
      && (forall k: nat :: CheckpointMarker(m, k).Some? ==> After(m, CheckpointMarker(m, k).value))
  {
    hide Gather, Run, FlagsShown, PatternsShown, Bounded, Gated, PreflightMarker;
    RunInvariant(calls);
    var m := Gather(Run(calls).1);
    DestructiveIsCompletion(m);
  }

  lemma DestructiveIsCompletion(m: Marks)
    ensures DestructiveMarker(m).Some? ==>
      exists p <- m.completion :: Destructive(p) && m.completion[p] == DestructiveMarker(m).value
  {
  }

  /** The checkpoints the scorer finds are step_1 up to some step, in increasing order, and as many as the
      dispatcher has counted. */
  lemma CheckpointsArePrefix(calls: seq<Call>)
    requires Reported(calls)
    ensures
      var (s, j) := Run(calls);
      var m := Gather(j);
      && s.checkpointIndex <= STEP_COUNT
      && (forall k: nat :: CheckpointMarker(m, k).Some? <==> k < s.checkpointIndex)
      && (forall i: nat, k: nat :: i < k < s.checkpointIndex ==> CheckpointMarker(m, i).value < CheckpointMarker(m, k).value)
  {
    hide Gather, Run, FlagsShown, PatternsShown, Bounded, Gated, PreflightMarker, After;
    RunInvariant(calls);
  }

  lemma {:induction false} SelectHas(values: seq<nat>, lower: nat, upper: nat)
    ensures forall v :: v in Select(values, lower, upper) <==> v in values && lower < v < upper
  {
    if values != [] {
      SelectHas(values[..|values| - 1], lower, upper);
      assert values == values[..|values| - 1] + [values[|values| - 1]];
    }
  }

  lemma {:induction false} ExtremesAre(s: seq<nat>)
    requires s != []
    ensures Smallest(s) in s && Greatest(s) in s && forall v <- s :: Smallest(s) <= v <= Greatest(s)
  {
    var init, last := s[..|s| - 1], s[|s| - 1];
    assert s == init + [last];
    if |s| > 1 {
      ExtremesAre(init);
    }
  }

  // ---- The order of each step ------------------------------------------------------------

  predicate Before(a: Option<nat>, b: Option<nat>) { a.Some? && b.Some? && a.value < b.value }

  predicate Amid(v: nat, lower: Option<nat>, upper: Option<nat>) { Before(lower, Some(v)) && Before(Some(v), upper) }

  lemma OrderedThree(a: Option<nat>, b: Option<nat>, c: Option<nat>)
    ensures Ordered([a, b, c]) <==> Before(a, b) && Before(b, c)
  {
    var s := [a, b, c];
    assert s[0] == a && s[1] == b && s[2] == c;
    if Before(a, b) && Before(b, c) {
      assert forall i :: 0 <= i < |s| ==> s[i].Some?;
    }
    if Ordered(s) {
      assert s[0].value < s[0 + 1].value && s[1].value < s[1 + 1].value;
    }
  }

  lemma {:induction false} OrderedSplits(s: seq<Option<nat>>, a: Option<nat>, b: Option<nat>)
    ensures Ordered(s + [a, b]) <==> Ordered(s + [a]) && Before(a, b)
  {
    var t, u, n := s + [a, b], s + [a], |s|;
    assert t[n] == a && t[n + 1] == b;
    if Ordered(t) {
      assert t[n].value < t[n + 1].value;
      forall i | 0 <= i < |u| ensures u[i] == t[i] {
      }
      forall i | 0 <= i < |u| - 1 ensures u[i].value < u[i + 1].value {
        assert t[i].value < t[i + 1].value;
      }
    }
    if Ordered(u) && Before(a, b) {
      forall i | 0 <= i < |t| ensures t[i].Some? {
        assert i <= n ==> t[i] == u[i];
      }
      forall i | 0 <= i < |t| - 1 ensures t[i].value < t[i + 1].value {
        if i < n {
          assert u[i].value < u[i + 1].value;
        }
      }
    }
  }

  lemma OrderedFour(a: Option<nat>, b: Option<nat>, c: Option<nat>, d: Option<nat>)
    ensures Ordered([a, b, c, d]) <==> Before(a, b) && Before(b, c) && Before(c, d)
  {
    hide Ordered, Before;
    OrderedSplits([a, b], c, d);
    assert [a, b] + [c, d] == [a, b, c, d] && [a, b] + [c] == [a, b, c];
    OrderedThree(a, b, c);
  }

  lemma OrderedFive(a: Option<nat>, b: Option<nat>, c: Option<nat>, d: Option<nat>, e: Option<nat>)
    ensures Ordered([a, b, c, d, e]) <==> Before(a, b) && Before(b, c) && Before(c, d) && Before(d, e)
  {
    hide Ordered, Before;
    OrderedSplits([a, b, c], d, e);
    assert [a, b, c] + [d, e] == [a, b, c, d, e] && [a, b, c] + [d] == [a, b, c, d];
    OrderedFour(a, b, c, d);
  }

  /** Over every run the order for step_1 comes down to one comparison. */
  lemma StepOneOrder(calls: seq<Call>)
    requires Reported(calls)
    ensures
      var k := MarkersOf(Gather(Run(calls).1));
      Orders(k)[0] <==> Before(k.destructive, k.steps[0])
  {
    hide Gather, Run, PreflightMarker, DestructiveMarker, CheckpointMarker, Between, Ordered;
    PreflightComesFirst(calls);
    var k := MarkersOf(Gather(Run(calls).1));
    OrderedThree(k.preflight, k.destructive, k.steps[0]);
  }

  /** _between finds the first or last value strictly between two positions, if there is one. */
  lemma BetweenIs(values: seq<nat>, lower: Option<nat>, upper: Option<nat>, first: bool)
    ensures
      var b := Between(values, lower, upper, first);
      && (b.None? <==> forall v <- values :: !Amid(v, lower, upper))
      && (b.Some? ==>
            && b.value in values && Amid(b.value, lower, upper)
            && forall v <- values :: Amid(v, lower, upper) ==> if first then b.value <= v else v <= b.value)
  {
    hide Select, Smallest, Greatest;
    if lower.Some? && upper.Some? {
      var selected := Select(values, lower.value, upper.value);
      SelectHas(values, lower.value, upper.value);
      forall v ensures v in selected <==> v in values && Amid(v, lower, upper) {
      }
      if selected != [] {
        ExtremesAre(selected);
        assert selected[0] in selected;
      }
    }
  }

  /** In every journal, step_2 is in order exactly when the needle joint and the source cut follow step_1 in this
      order and something moved between the cut and the export. */
  lemma StepTwoOrder(journal: seq<Event>)
    ensures
      var m := Gather(journal);
      var k := MarkersOf(m);
      Orders(k)[1] <==>
        && Before(k.steps[0], k.needleJoint) && Before(k.needleJoint, k.sourceSeparation)
        && exists v <- m.movements :: Amid(v, k.sourceSeparation, k.steps[1])
  {
    hide Gather, PreflightMarker, DestructiveMarker, CheckpointMarker, CompletionMarker, Between, Ordered;
    var m := Gather(journal);
    var k := MarkersOf(m);
    BetweenIs(m.movements, k.sourceSeparation, k.steps[1], true);
    OrderedFive(k.steps[0], k.needleJoint, k.sourceSeparation, k.carry, k.steps[1]);
  }

  /** Step_3 is in order exactly when two movements separate step_2 from the joint, which precedes the export. */
  lemma StepThreeOrder(journal: seq<Event>)
    ensures
      var m := Gather(journal);
      var k := MarkersOf(m);
      Orders(k)[2] <==>
        && Before(k.targetJoint, k.steps[2])
        && exists u <- m.movements, v <- m.movements :: u < v && Amid(u, k.steps[1], k.targetJoint) && Amid(v, k.steps[1], k.targetJoint)
  {
    hide Gather, PreflightMarker, DestructiveMarker, CheckpointMarker, CompletionMarker, Between, Ordered;
    var m := Gather(journal);
    var k := MarkersOf(m);
    BetweenIs(m.movements, k.steps[1], k.targetJoint, true);
    BetweenIs(m.movements, k.steps[1], k.targetJoint, false);
    OrderedFive(k.steps[1], k.transfer, k.targetPose, k.targetJoint, k.steps[2]);
  }

  /** Step_4 is in order exactly when the joint is cut after step_3 and the needle is retracted between the cut
      and the export, but not between step_3 and the cut. */
  lemma StepFourOrder(journal: seq<Event>)
    ensures
      var m := Gather(journal);
      var k := MarkersOf(m);
      Orders(k)[3] <==>
        && Before(k.steps[2], k.needleSeparation)
        && (exists v <- m.retractions :: Amid(v, k.needleSeparation, k.steps[3]))
        && forall v <- m.retractions :: Amid(v, k.steps[2], k.steps[3]) ==> Before(k.needleSeparation, Some(v))
  {
    hide Gather, PreflightMarker, DestructiveMarker, CheckpointMarker, CompletionMarker, Between, Ordered;
    var m := Gather(journal);
    var k := MarkersOf(m);
    BetweenIs(m.retractions, k.steps[2], k.steps[3], true);
    OrderedFour(k.steps[2], k.needleSeparation, k.needleRetraction, k.steps[3]);
  }
}
