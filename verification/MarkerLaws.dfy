/** What the scorer's markers are, said of the journal itself: first records, lists of records, and for the preflight
    the moment from which everything it needs is on record (scoring.py, _journal_markers). */
module MarkerLaws {
  import opened Wrappers
  import opened DispatcherModel
  import opened JournalMarkers
  import opened DispatcherTheorems
  import G = DispatcherGates

  /** x is the first record of this kind, if there is one. */
  ghost predicate IsFirst(j: seq<Event>, what: Event -> bool, x: Option<nat>) {
    match x
    case None => !G.Ever(j, what)
    case Some(i) => i < |j| && what(j[i]) && forall k :: 0 <= k < i ==> !what(j[k])
  }

  /** The numbers of all records of this kind, in order. */
  function Places(j: seq<Event>, what: Event -> bool): seq<nat> {
    if j == [] then []
    else
      var before := Places(j[..|j| - 1], what);
      if what(j[|j| - 1]) then before + [|j| - 1] else before
  }

  lemma {:induction false} PlacesAre(j: seq<Event>, what: Event -> bool)
    ensures forall i: nat :: i in Places(j, what) <==> i < |j| && what(j[i])
    ensures forall a, b :: 0 <= a < b < |Places(j, what)| ==> Places(j, what)[a] < Places(j, what)[b]
  {
    if j != [] {
      var init, n := j[..|j| - 1], |j| - 1;
      PlacesAre(init, what);
      assert forall i :: 0 <= i < n ==> init[i] == j[i];
      var before, all := Places(init, what), Places(j, what);
      forall i: nat ensures i in all <==> i < |j| && what(j[i]) {
        assert i in all <==> i in before || (what(j[n]) && i == n);
      }
      forall a | 0 <= a < |before| ensures before[a] < n {
        assert before[a] in before;
      }
    }
  }

  /** Event e, after h, is what the scorer takes for the completion of a pattern of this purpose. */
  predicate Ends(h: seq<Event>, e: Event, purpose: Purpose) {
    && e.Completed? && e.receipt.Some? && e.receipt.value.status == Finished
    && ((G.Runs(e.request.operation) && e.request.purpose == purpose)
        || (e.request.operation == PatternStatus && G.PurposeOf(h, e.receipt.value.id) == Some(purpose)))
  }

  ghost predicate Ended(j: seq<Event>, purpose: Purpose) { exists i :: 0 <= i < |j| && Ends(j[..i], j[i], purpose) }

  ghost predicate FirstEnd(j: seq<Event>, purpose: Purpose, x: Option<nat>) {
    match x
    case None => !Ended(j, purpose)
    case Some(i) => i < |j| && Ends(j[..i], j[i], purpose) && forall k :: 0 <= k < i ==> !Ends(j[..k], j[k], purpose)
  }

  function Exports(step: nat): Event -> bool { (e: Event) => e == Exported(step) }

  function Moves(): Event -> bool {
    (e: Event) => e.Completed? && (e.request.operation == MoveStage || e.request.operation == MoveManipulator)
  }

  function At<K>(m: map<K, nat>, k: K): Option<nat> { if k in m then Some(m[k]) else None }

  /** What each of the scorer's marks is. */
  ghost predicate MarksAre(j: seq<Event>, m: Marks) {
    && IsFirst(j, G.Did(Ping), m.ping) && IsFirst(j, G.Did(Capabilities), m.capabilities)
    && (forall b :: IsFirst(j, G.Imaged(b), At(m.images, b)))
    && m.stageMoves == Places(j, G.Did(MoveStage)) && m.retractions == Places(j, G.Did(RetractManipulator))
    && m.movements == Places(j, Moves())
    && IsFirst(j, G.Did(InsertManipulator), m.insert) && IsFirst(j, G.Did(MoveManipulator), m.needleMove)
    && (forall id: string :: G.PurposeOf(j, id) == if id in m.byId then Some(m.byId[id]) else None)
    && (forall p :: FirstEnd(j, p, At(m.completion, p)))
    && (forall k: nat :: IsFirst(j, Exports(k), At(m.checkpoints, k)))
  }

  // ---- One more record ---------------------------------------------------------------------

  lemma FirstNext(j: seq<Event>, e: Event, what: Event -> bool, x: Option<nat>)
    requires IsFirst(j, what, x)
    ensures IsFirst(j + [e], what, if x.Some? then x else if what(e) then Some(|j|) else None)
  {
    var k := j + [e];
    G.EverNext(j, e, what);
    assert k[|j|] == e && forall i :: 0 <= i < |j| ==> k[i] == j[i];
  }

  lemma PlacesNext(j: seq<Event>, e: Event, what: Event -> bool)
    ensures Places(j + [e], what) == Places(j, what) + if what(e) then [|j|] else []
  {
    assert (j + [e])[..|j|] == j;
  }

  lemma EndedNext(j: seq<Event>, e: Event, p: Purpose)
    ensures Ended(j + [e], p) <==> Ended(j, p) || Ends(j, e, p)
  {
    hide Ends;
    var k, n := j + [e], |j|;
    assert k[n] == e && k[..n] == j;
    if Ended(j, p) {
      var i :| 0 <= i < n && Ends(j[..i], j[i], p);
      G.SamePrefix(j, e, i);
      assert Ends(k[..i], k[i], p);
    }
    if Ends(j, e, p) {
      assert Ends(k[..n], k[n], p);
    }
    if Ended(k, p) && !Ends(j, e, p) {
      var i :| 0 <= i < |k| && Ends(k[..i], k[i], p);
      G.SamePrefix(j, e, i);
      assert Ends(j[..i], j[i], p);
    }
  }

  lemma EndNext(j: seq<Event>, e: Event, p: Purpose, x: Option<nat>)
    requires FirstEnd(j, p, x)
    ensures FirstEnd(j + [e], p, if x.Some? then x else if Ends(j, e, p) then Some(|j|) else None)
  {
    hide Ends;
    var k, n := j + [e], |j|;
    assert k[n] == e && k[..n] == j;
    EndedNext(j, e, p);
    forall i | 0 <= i < n ensures Ends(k[..i], k[i], p) <==> Ends(j[..i], j[i], p) {
      G.SamePrefix(j, e, i);
    }
  }

  lemma CompletionIs(m: Marks, j: seq<Event>, r: Request, receipt: Option<Receipt>, p: Purpose, n: nat)
    requires forall id: string :: G.PurposeOf(j, id) == if id in m.byId then Some(m.byId[id]) else None
    ensures At(CompletionAfter(m, r, receipt, n), p)
         == if p in m.completion then At(m.completion, p) else if Ends(j, Completed(r, receipt), p) then Some(n) else None
  {
    hide G.PurposeOf;
  }

  lemma CompletedMarks(j: seq<Event>, m: Marks, r: Request, receipt: Option<Receipt>)
    requires MarksAre(j, m)
    ensures MarksAre(j + [Completed(r, receipt)], OnCompleted(m, r, receipt, |j|))
  {
    hide IsFirst, Places, FirstEnd, CompletionAfter, Ends, G.PurposeOf, SetDefault, G.Did, G.Imaged, Moves, Exports;
    var e, n, q := Completed(r, receipt), |j|, OnCompleted(m, r, receipt, |j|);
    KindsOf(r, receipt);
    FirstNext(j, e, G.Did(Ping), m.ping);
    FirstNext(j, e, G.Did(Capabilities), m.capabilities);
    FirstNext(j, e, G.Did(InsertManipulator), m.insert);
    FirstNext(j, e, G.Did(MoveManipulator), m.needleMove);
    PlacesNext(j, e, G.Did(MoveStage));
    PlacesNext(j, e, G.Did(RetractManipulator));
    PlacesNext(j, e, Moves());
    forall b ensures IsFirst(j + [e], G.Imaged(b), At(q.images, b)) {
      FirstNext(j, e, G.Imaged(b), At(m.images, b));
      DefaultAt(m.images, r.beam, n, b);
    }
    forall id: string ensures G.PurposeOf(j + [e], id) == if id in q.byId then Some(q.byId[id]) else None {
      G.PatternsNext(j, e, id);
      ById(m, r, receipt, n, id);
    }
    forall p ensures FirstEnd(j + [e], p, At(q.completion, p)) {
      EndNext(j, e, p, At(m.completion, p));
      CompletionIs(m, j, r, receipt, p, n);
    }
    forall k: nat ensures IsFirst(j + [e], Exports(k), At(q.checkpoints, k)) {
      FirstNext(j, e, Exports(k), At(m.checkpoints, k));
    }
  }

  lemma KindsOf(r: Request, receipt: Option<Receipt>)
    ensures
      var e := Completed(r, receipt);
      && (forall op :: G.Did(op)(e) <==> r.operation == op)
      && (forall b :: G.Imaged(b)(e) <==> r.operation == AcquireImage && r.beam == b)
      && (Moves()(e) <==> r.operation == MoveStage || r.operation == MoveManipulator)
      && (forall k: nat :: !Exports(k)(e))
  {
  }

  lemma DefaultAt<K>(m: map<K, nat>, k: K, n: nat, x: K)
    ensures At(SetDefault(m, k, n), x) == if x in m then At(m, x) else if x == k then Some(n) else None
  {
  }

  lemma ById(m: Marks, r: Request, receipt: Option<Receipt>, n: nat, id: string)
    ensures
      var q, e := OnCompleted(m, r, receipt, n), Completed(r, receipt);
      (if id in q.byId then Some(q.byId[id]) else None)
        == if G.ReceiptOf(e, id).Some? && G.Runs(r.operation) then Some(r.purpose) else if id in m.byId then Some(m.byId[id]) else None
  {
    hide CompletionAfter, SetDefault, Or;
  }

  lemma OtherMarks(j: seq<Event>, m: Marks, e: Event)
    requires MarksAre(j, m) && !e.Completed?
    ensures MarksAre(j + [e], OnEvent(m, e, |j|))
  {
    hide IsFirst, Places, FirstEnd, Ends, G.PurposeOf, SetDefault, G.Did, G.Imaged, Moves, Exports;
    var q := OnEvent(m, e, |j|);
    OtherKinds(j, e);
    FirstNext(j, e, G.Did(Ping), m.ping);
    FirstNext(j, e, G.Did(Capabilities), m.capabilities);
    FirstNext(j, e, G.Did(InsertManipulator), m.insert);
    FirstNext(j, e, G.Did(MoveManipulator), m.needleMove);
    PlacesNext(j, e, G.Did(MoveStage));
    PlacesNext(j, e, G.Did(RetractManipulator));
    PlacesNext(j, e, Moves());
    forall b ensures IsFirst(j + [e], G.Imaged(b), At(q.images, b)) {
      FirstNext(j, e, G.Imaged(b), At(m.images, b));
    }
    forall id: string ensures G.PurposeOf(j + [e], id) == G.PurposeOf(j, id) {
      G.PatternsNext(j, e, id);
      G.HasReceipt(e, id);
    }
    forall p ensures FirstEnd(j + [e], p, At(q.completion, p)) {
      EndNext(j, e, p, At(m.completion, p));
    }
    forall k: nat ensures IsFirst(j + [e], Exports(k), At(q.checkpoints, k)) {
      FirstNext(j, e, Exports(k), At(m.checkpoints, k));
      if e.Exported? {
        DefaultAt(m.checkpoints, e.step, |j|, k);
      }
    }
  }

  lemma OtherKinds(j: seq<Event>, e: Event)
    requires !e.Completed?
    ensures (forall op :: !G.Did(op)(e)) && (forall b :: !G.Imaged(b)(e)) && !Moves()(e) && (forall p :: !Ends(j, e, p))
    ensures forall k: nat :: Exports(k)(e) <==> e.Exported? && e.step == k
  {
  }

  /** Over every journal the scorer's marks are the first records, and all records, of each kind. */
  lemma {:induction false} GatherLaw(j: seq<Event>)
    ensures MarksAre(j, Gather(j))
  {
    if j == [] {
      NoMarks();
      NothingGathered();
    } else {
      hide MarksAre, OnCompleted, OnEvent, Gather;
      var init, e := j[..|j| - 1], j[|j| - 1];
      assert j == init + [e];
      GatherLaw(init);
      GatherOne(init, e);
      if e.Completed? {
        EventIsCompleted(Gather(init), e, |init|);
        CompletedMarks(init, Gather(init), e.request, e.receipt);
      } else {
        OtherMarks(init, Gather(init), e);
      }
    }
  }

  lemma NothingGathered()
    ensures Gather([]) == NONE
  {
  }

  lemma EventIsCompleted(m: Marks, e: Event, n: nat)
    requires e.Completed?
    ensures OnEvent(m, e, n) == OnCompleted(m, e.request, e.receipt, n)
  {
  }

  lemma NoMarks()
    ensures MarksAre([], NONE)
  {
  }

  // ---- The preflight's moment --------------------------------------------------------------

  lemma ExportedBounded(m: Marks, k: nat, n: nat)
    requires Bounded(m, n)
    ensures Bounded(m.(checkpoints := SetDefault(m.checkpoints, k, n)), n + 1)
  {
  }

  lemma LaterBounded(m: Marks, n: nat)
    requires Bounded(m, n)
    ensures Bounded(m, n + 1)
  {
  }

  lemma {:induction false} GatherBounded(j: seq<Event>)
    ensures Bounded(Gather(j), |j|)
  {
    if j != [] {
      hide Bounded, OnCompleted, SetDefault;
      var init, e, n := j[..|j| - 1], j[|j| - 1], |j| - 1;
      GatherBounded(init);
      var m := Gather(init);
      match e
      case Completed(r, receipt) => CompletedBounded(m, r, receipt, n);
      case Exported(k) => ExportedBounded(m, k, n);
      case _ => LaterBounded(m, n);
    }
  }

  /** When a completed request leaves nothing missing, it brought what was missing, and its number is among the eleven. */
  lemma BringsLast(m: Marks, r: Request, receipt: Option<Receipt>, n: nat)
    requires !Found(m) && Found(OnCompleted(m, r, receipt, n))
    ensures exists i :: 0 <= i < 11 && Required(OnCompleted(m, r, receipt, n))[i] == n
  {
    hide CompletionAfter;
    var q := OnCompleted(m, r, receipt, n);
    var s := Required(q);
    CompletionNew(m, r, receipt, n);
    if m.ping.None? { assert s[0] == n; }
    else if m.capabilities.None? { assert s[1] == n; }
    else if SEM !in m.images { assert s[2] == n; }
    else if FIB !in m.images { assert s[3] == n; }
    else if |m.stageMoves| < 2 { assert s[5] == n; }
    else if m.insert.None? { assert s[6] == n; }
    else if m.needleMove.None? { assert s[7] == n; }
    else if |m.retractions| < 1 { assert s[8] == n; }
    else if PreflightCut !in m.completion { assert s[9] == n; }
    else { assert s[10] == n; }
  }

  lemma CompletionNew(m: Marks, r: Request, receipt: Option<Receipt>, n: nat)
    ensures forall p <- CompletionAfter(m, r, receipt, n) :: p in m.completion || CompletionAfter(m, r, receipt, n)[p] == n
  {
  }

  lemma GreatestIs(s: seq<nat>, n: nat)
    requires s != [] && (forall i :: 0 <= i < |s| ==> s[i] <= n) && exists i :: 0 <= i < |s| && s[i] == n
    ensures Greatest(s) == n
  {
    hide Greatest;
    ExtremesAre(s);
    var i :| 0 <= i < |s| && s[i] == n;
    assert s[i] in s;
    var k :| 0 <= k < |s| && s[k] == Greatest(s);
  }

  /** Everything the preflight marker waits for. */
  ghost predicate Shown(j: seq<Event>) {
    && G.Ever(j, G.Did(Ping)) && G.Ever(j, G.Did(Capabilities)) && G.Ever(j, G.Imaged(SEM)) && G.Ever(j, G.Imaged(FIB))
    && |Places(j, G.Did(MoveStage))| >= 2 && G.Ever(j, G.Did(InsertManipulator)) && G.Ever(j, G.Did(MoveManipulator))
    && |Places(j, G.Did(RetractManipulator))| >= 1 && Ended(j, PreflightCut) && Ended(j, PreflightDeposition)
  }

  lemma FoundIs(j: seq<Event>)
    ensures Found(Gather(j)) <==> Shown(j)
  {
    hide Gather, Places, G.Did, G.Imaged, Ends, G.PurposeOf;
    GatherLaw(j);
    var m := Gather(j);
    FirstSome(j, G.Did(Ping), m.ping);
    FirstSome(j, G.Did(Capabilities), m.capabilities);
    FirstSome(j, G.Imaged(SEM), At(m.images, SEM));
    FirstSome(j, G.Imaged(FIB), At(m.images, FIB));
    FirstSome(j, G.Did(InsertManipulator), m.insert);
    FirstSome(j, G.Did(MoveManipulator), m.needleMove);
    EndSome(j, PreflightCut, At(m.completion, PreflightCut));
    EndSome(j, PreflightDeposition, At(m.completion, PreflightDeposition));
  }

  lemma FirstSome(j: seq<Event>, what: Event -> bool, x: Option<nat>)
    requires IsFirst(j, what, x)
    ensures x.Some? <==> G.Ever(j, what)
  {
  }

  lemma EndSome(j: seq<Event>, p: Purpose, x: Option<nat>)
    requires FirstEnd(j, p, x)
    ensures x.Some? <==> Ended(j, p)
  {
    hide Ends;
  }

  /** The preflight marker is the number of the record with which the last of its eleven needs comes in: they are all
      on record with it and were not before it. */
  lemma {:induction false} PreflightMoment(j: seq<Event>)
    ensures
      match PreflightMarker(Gather(j))
      case None => !Shown(j)
      case Some(q) => q < |j| && Shown(j[..q + 1]) && !Shown(j[..q])
  {
    hide Gather, Shown, Greatest, Required, Found;
    FoundIs(j);
    if Found(Gather(j)) {
      NotAtOnce(j);
      var init, e, n := j[..|j| - 1], j[|j| - 1], |j| - 1;
      FoundIs(init);
      assert j == init + [e] && j[..n] == init && j[..n + 1] == j;
      PreflightMoment(init);
      GatherOne(init, e);
      if Found(Gather(init)) {
        EventGrows(Gather(init), e, n);
        MarkerIs(Gather(init));
        MarkerStays(Gather(init), Gather(j));
        var q := PreflightMarker(Gather(init)).value;
        assert j[..q + 1] == init[..q + 1] && j[..q] == init[..q];
      } else {
        OnlyCompleted(Gather(init), e, n);
        BringsLast(Gather(init), e.request, e.receipt, n);
        GatherBounded(j);
        RequiredBelow(Gather(j), |j|);
        GreatestIs(Required(Gather(j)), n);
        MarkerIs(Gather(j));
      }
    } else {
      MarkerIs(Gather(j));
    }
  }

  lemma MarkerIs(m: Marks)
    ensures PreflightMarker(m) == if Found(m) then Some(Greatest(Required(m))) else None
  {
  }

  lemma NotAtOnce(j: seq<Event>)
    requires Found(Gather(j))
    ensures j != []
  {
  }

  lemma EventGrows(m: Marks, e: Event, n: nat)
    ensures Grows(m, OnEvent(m, e, n))
  {
    hide OnCompleted, Grows;
    SameGrows(m);
    if e.Completed? {
      CompletedGrows(m, e.request, e.receipt, n);
    } else if e.Exported? {
      CheckpointGrows(m, SetDefault(m.checkpoints, e.step, n));
    }
  }

  lemma OnlyCompleted(m: Marks, e: Event, n: nat)
    requires !Found(m) && Found(OnEvent(m, e, n))
    ensures e.Completed? && OnEvent(m, e, n) == OnCompleted(m, e.request, e.receipt, n)
  {
  }

  lemma RequiredBelow(m: Marks, n: nat)
    requires Found(m) && Bounded(m, n)
    ensures forall i :: 0 <= i < |Required(m)| ==> Required(m)[i] < n
  {
  }

  /** The destructive marker is the first completion of a pattern that changes the region of interest. */
  lemma DestructiveFirst(j: seq<Event>)
    ensures
      match DestructiveMarker(Gather(j))
      case None => forall p :: Destructive(p) ==> !Ended(j, p)
      case Some(q) =>
        && q < |j| && (exists p :: Destructive(p) && Ends(j[..q], j[q], p))
        && forall p, k :: Destructive(p) && 0 <= k < q ==> !Ends(j[..k], j[k], p)
  {
    hide Gather, Ends, DestructiveMarker, Destructive, MarksAre;
    GatherLaw(j);
    var m := Gather(j);
    LeastOfFour(m);
    forall p ensures FirstEnd(j, p, At(m.completion, p)) {
      CompletionOf(j, m, p);
    }
    if DestructiveMarker(m).Some? {
      var q := DestructiveMarker(m).value;
      var p :| Destructive(p) && p in m.completion && m.completion[p] == q;
      assert FirstEnd(j, p, At(m.completion, p));
      forall x, k | Destructive(x) && 0 <= k < q && k < |j| ensures !Ends(j[..k], j[k], x) {
        assert FirstEnd(j, x, At(m.completion, x));
      }
    } else {
      forall p | Destructive(p) ensures !Ended(j, p) {
        assert FirstEnd(j, p, At(m.completion, p));
      }
    }
  }

  lemma CompletionOf(j: seq<Event>, m: Marks, p: Purpose)
    requires MarksAre(j, m)
    ensures FirstEnd(j, p, At(m.completion, p))
  {
    hide IsFirst, Places, FirstEnd, G.PurposeOf, G.Did, G.Imaged, Moves, Exports;
  }

  lemma LeastOfFour(m: Marks)
    ensures
      match DestructiveMarker(m)
      case None => forall p :: Destructive(p) ==> p !in m.completion
      case Some(q) =>
        && (exists p :: Destructive(p) && p in m.completion && m.completion[p] == q)
        && forall p :: Destructive(p) && p in m.completion ==> q <= m.completion[p]
  {
    assert forall p :: Destructive(p) <==> p == Protection || p == Trench || p == Polish || p == UCut;
  }
}
