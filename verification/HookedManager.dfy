/** Why the session check needs its clause on resource managers: one connection opens a manager and a resource,
    writes to the manager with an instrument hook running, closes both and leaves. Nothing is forced, yet the
    check fails. */
module HookedManager {
  import opened Wrappers
  import opened Wire
  import opened BrokerJournal
  import opened BrokerModel
  import opened BrokerRuns
  import opened BrokerScripts
  import P = Projection
  import V = ProjectionTheorems

  const M: Token := "m"
  const R: Token := "r"

  const OPEN_ARGS := map["session" := WStr(M), "resource_name" := WStr("x"), "access_mode" := WInt(0), "open_timeout" := WInt(0)]
  const WRITE_ARGS := map["session" := WStr(M), "data" := WBytes([])]
  const CLOSE_RESOURCE := map["session" := WStr(R)]
  const CLOSE_MANAGER := map["session" := WStr(M)]

  const OK := Returned(1, WInt(0), [HookReport(Before, "x", "psu"), HookReport(After, "x", "psu")])

  const MANAGER := Session(M, 1, ResourceManager)
  const RESOURCE := Session(R, 1, Resource)

  /** The blocks the broker writes for the five calls and the disconnection. */
  function Opening(): seq<Event> {
    [RpcRequest(0, Clear(OpenManager), Arguments(map[])), SessionOpen(0, M, ResourceManager),
     RpcResult(0, Clear(OpenManager), WStr(M)),
     RpcRequest(0, Clear(Open), Arguments(OPEN_ARGS)), SessionOpen(0, R, Resource), RpcResult(0, Clear(Open), WStr(R))]
  }

  function Writing(): seq<Event> {
    [RpcRequest(0, Clear(Write), Arguments(WRITE_ARGS)), ScpiWrite(0), HookEvent(0, Before, M, "x", "psu"),
     HookEvent(0, After, M, "x", "psu"), ScpiWriteResult(0), RpcResult(0, Clear(Write), WInt(0))]
  }

  function Closing(): seq<Event> {
    [RpcRequest(0, Clear(Close), Arguments(CLOSE_RESOURCE)), SessionClose(0, R, Resource), RpcResult(0, Clear(Close), WNone),
     RpcRequest(0, Clear(Close), Arguments(CLOSE_MANAGER)), SessionClose(0, M, ResourceManager), RpcResult(0, Clear(Close), WNone),
     ConnectionClose(0, 0)]
  }

  /** Everything up to the disconnection, and the whole journal. */
  function Traffic(): seq<Event> { Prelude() + Opening() + Writing() + Closing() }

  function Journal(): seq<Event> { Traffic() + Ending(LIFECYCLE_STEPS) }

  // ---- The run ---------------------------------------------------------------------------

  const W: Token := "w"
  const C: Token := "c"
  const D: Token := "d"

  function PeerWith(sessions: seq<Session>): Peer { Peer(10001, sessions, false) }

  lemma OpeningIsWritten()
    ensures
      var one := Dispatched(0, NEWCOMER, OpenManager, map[], false, OK, M);
      var two := Dispatched(0, PeerWith([MANAGER]), Open, OPEN_ARGS, false, OK, R);
      && Opening() == one.events + two.events && !one.crashed && !two.crashed
      && one.peer == PeerWith([MANAGER]) && two.peer == PeerWith([MANAGER, RESOURCE])
  {
    assert MANAGER in [MANAGER];
    assert OPEN_ARGS.Keys == {"session", "resource_name", "access_mode", "open_timeout"};
  }

  lemma WritingIsWritten()
    ensures
      var e := Dispatched(0, PeerWith([MANAGER, RESOURCE]), Write, WRITE_ARGS, false, OK, W);
      Writing() == e.events && !e.crashed && e.peer == PeerWith([MANAGER, RESOURCE])
  {
    assert MANAGER in [MANAGER, RESOURCE];
    assert WRITE_ARGS.Keys == {"session", "data"};
    assert HookEvents(0, M, OK.hooks) == [HookEvent(0, Before, M, "x", "psu"), HookEvent(0, After, M, "x", "psu")];
  }

  lemma ClosingIsWritten()
    ensures
      var one := Dispatched(0, PeerWith([MANAGER, RESOURCE]), Close, CLOSE_RESOURCE, false, OK, C);
      var two := Dispatched(0, PeerWith([MANAGER]), Close, CLOSE_MANAGER, false, OK, D);
      && Closing() == one.events + two.events + [ConnectionClose(0, 0)] && !one.crashed && !two.crashed
      && one.peer == PeerWith([MANAGER]) && two.peer == PeerWith([])
  {
    assert RESOURCE in [MANAGER, RESOURCE] && MANAGER in [MANAGER];
    assert CLOSE_RESOURCE.Keys == {"session"} && CLOSE_MANAGER.Keys == {"session"};
    WithoutResource();
  }

  lemma WithoutResource()
    ensures Without([MANAGER, RESOURCE], R) == [MANAGER] && Without([MANAGER], M) == []
    ensures KindOf([MANAGER, RESOURCE], R) == Resource && KindOf([MANAGER], M) == ResourceManager
  {
    assert M[0] != R[0] && [MANAGER, RESOURCE][..1] == [MANAGER] && [MANAGER][..0] == [] && Without([], R) == [];
    assert RESOURCE in [MANAGER, RESOURCE] && MANAGER in [MANAGER];
  }

  lemma Distinct()
    ensures M != R && W !in {M, R} && C !in {M, R, W} && D !in {M, R, W, C}
  {
    assert M[0] == 'm' && R[0] == 'r' && W[0] == 'w' && C[0] == 'c' && D[0] == 'd';
  }

  lemma Opens() returns (moves: seq<Move>)
    ensures Run(moves) == Solo(Prelude() + Opening(), PeerWith([MANAGER, RESOURCE]), READY, {M, R})
  {
    hide Run, Dispatched, Opening;
    Distinct();
    OpeningIsWritten();
    var start := Arrives();
    var one := Calls(start, Run(start), OpenManager, map[], OK, M);
    moves := Calls(one, Run(one), Open, OPEN_ARGS, OK, R);
    assert {} + {M} + {R} == {M, R};
    var a := Dispatched(0, NEWCOMER, OpenManager, map[], false, OK, M).events;
    var b := Dispatched(0, PeerWith([MANAGER]), Open, OPEN_ARGS, false, OK, R).events;
    assert Prelude() + a + b == Prelude() + (a + b);
  }

  lemma Writes() returns (moves: seq<Move>)
    ensures Run(moves) == Solo(Prelude() + Opening() + Writing(), PeerWith([MANAGER, RESOURCE]), READY, {M, R, W})
  {
    hide Run, Dispatched, Opening, Writing;
    Distinct();
    WritingIsWritten();
    var before := Opens();
    moves := Calls(before, Run(before), Write, WRITE_ARGS, OK, W);
    assert {M, R} + {W} == {M, R, W};
  }

  lemma Closes() returns (moves: seq<Move>)
    ensures Run(moves) == Solo(Traffic(), Peer(10001, [], true), READY, {M, R, W, C, D})
  {
    hide Run, Dispatched, Opening, Writing, Closing;
    Distinct();
    ClosingIsWritten();
    var before := Writes();
    var one := Calls(before, Run(before), Close, CLOSE_RESOURCE, OK, C);
    var two := Calls(one, Run(one), Close, CLOSE_MANAGER, OK, D);
    moves := Leaves(two, Run(two));
    assert {M, R, W} + {C} + {D} == {M, R, W, C, D};
    var j := Prelude() + Opening() + Writing();
    var a := Dispatched(0, PeerWith([MANAGER, RESOURCE]), Close, CLOSE_RESOURCE, false, OK, C).events;
    var b := Dispatched(0, PeerWith([MANAGER]), Close, CLOSE_MANAGER, false, OK, D).events;
    assert j + a + b + [ConnectionClose(0, 0)] == j + (a + b + [ConnectionClose(0, 0)]);
  }

  /** A finished run of the broker writes this journal. */
  lemma Finishes() returns (moves: seq<Move>)
    ensures Run(moves).phase == LIFECYCLE_STEPS && Run(moves).journal == Journal()
  {
    hide Run, Traffic;
    var before := Closes();
    moves := Ends(before, Run(before), LIFECYCLE_STEPS);
  }

  // ---- The projection, record by record --------------------------------------------------

  const FIRST := P.Profile(0, None, None, false, false, false)
  const SECOND := P.Profile(0, Some("x"), None, false, false, false)
  const HOOKED := P.Profile(0, Some("x"), Some("psu"), false, false, false)

  function Opened(token: Token, raw: nat): P.Draft { P.Draft(raw, P.OpenResource, Some(token), None, None, true, 0) }
  function Closed(token: Token, raw: nat): P.Draft { P.Draft(raw, P.CloseResource, Some(token), None, Some(P.Candidate), true, 0) }
  function Wrote(raw: nat): P.Draft { P.Draft(raw, P.WriteCommand, Some(M), Some([]), None, true, 0) }

  /** The projection between calls: no request, write or hook is open. */
  function Rest(manager: P.Profile, resource: P.Profile, drafts: seq<P.Draft>): P.State {
    P.START.(order := [M, R], profiles := map[M := manager, R := resource], drafts := drafts)
  }

  lemma Push(j: seq<Event>, e: Event)
    requires P.Fold(j).Some?
    ensures P.Fold(j + [e]) == P.Step(P.Fold(j).value, e, |j| + 1)
  {
    hide P.Step;
    assert (j + [e])[..|j|] == j;
  }

  lemma Push3(j: seq<Event>, s: P.State, a: Event, b: Event, c: Event, s1: P.State, s2: P.State, s3: P.State)
    requires P.Fold(j) == Some(s) && P.Step(s, a, |j| + 1) == Some(s1)
    requires P.Step(s1, b, |j| + 2) == Some(s2) && P.Step(s2, c, |j| + 3) == Some(s3)
    ensures P.Fold(j + [a, b, c]) == Some(s3)
  {
    hide P.Step, P.Fold;
    Push(j, a);
    Push(j + [a], b);
    Push(j + [a] + [b], c);
    assert j + [a, b, c] == j + [a] + [b] + [c];
  }

  /** The records before the first call change nothing. */
  lemma AfterPrelude()
    ensures P.Fold(Prelude()) == Some(P.START)
  {
    hide P.Fold;
    var e := Prelude();
    FoldNone();
    Push3([], P.START, e[0], e[1], e[2], P.START, P.START, P.START);
    Push([] + [e[0], e[1], e[2]], e[3]);
    Push([] + [e[0], e[1], e[2]] + [e[3]], e[4]);
    assert e == [] + [e[0], e[1], e[2]] + [e[3]] + [e[4]];
  }

  lemma AfterManager()
    ensures P.Fold(Prelude() + Opening()[..3]) == Some(P.START.(order := [M], profiles := map[M := FIRST]))
  {
    hide P.Fold;
    var e := Opening();
    AfterPrelude();
    var s1 := P.START.(requests := map[0 := e[0]]);
    var s3 := P.START.(order := [M], profiles := map[M := FIRST]);
    assert s1.requests - {0} == map[] && |M| == 1 && [] + [M] == [M];
    Push3(Prelude(), P.START, e[0], e[1], e[2], s1, s1, s3);
    assert e[..3] == [e[0], e[1], e[2]];
  }

  lemma FoldNone()
    ensures P.Fold([]) == Some(P.START)
  {
  }

  lemma AfterOpening()
    ensures P.Fold(Prelude() + Opening()) == Some(Rest(FIRST, SECOND, [Opened(R, 11)]))
  {
    hide P.Fold;
    var e := Opening();
    AfterManager();
    var s := P.START.(order := [M], profiles := map[M := FIRST]);
    var s1 := s.(requests := map[0 := e[3]]);
    assert s1.requests - {0} == map[] && |R| == 1 && |M| == 1 && M[0] != R[0] && [M] + [R] == [M, R];
    assert |OPEN_ARGS["resource_name"].text| == 1 && [] + [Opened(R, 11)] == [Opened(R, 11)];
    assert s.profiles[R := SECOND] == map[M := FIRST, R := SECOND];
    Push3(Prelude() + e[..3], s, e[3], e[4], e[5], s1, s1, Rest(FIRST, SECOND, [Opened(R, 11)]));
    assert Prelude() + e == Prelude() + e[..3] + [e[3], e[4], e[5]];
  }

  function Hooking(): P.State {
    Rest(HOOKED, SECOND, [Opened(R, 11)]).(requests := map[0 := Writing()[0]], writes := map[M := P.Sent(12, [])], active := Some(M))
  }

  function Hooked(): P.State {
    Rest(HOOKED, SECOND, [Opened(R, 11), Wrote(15)]).(requests := map[0 := Writing()[0]])
  }

  lemma HookEnds()
    ensures P.OnHook(Hooking(), HookEvent(0, After, M, "x", "psu"), 15) == Some(Hooked())
  {
    var s := Hooking();
    assert |"x"| == 1 && |"psu"| == 3 && M != R by { assert M[0] != R[0]; }
    assert s.profiles[M := HOOKED] == s.profiles && s.writes - {M} == map[];
    assert [Opened(R, 11)] + [] + [Wrote(15)] == [Opened(R, 11), Wrote(15)];
  }

  lemma HookStarts()
    ensures P.OnHook(Rest(FIRST, SECOND, [Opened(R, 11)]).(requests := map[0 := Writing()[0]], writes := map[M := P.Sent(12, [])]),
                     HookEvent(0, Before, M, "x", "psu"), 14) == Some(Hooking())
  {
    assert |"x"| == 1 && |"psu"| == 3 && M != R by { assert M[0] != R[0]; }
    assert map[M := FIRST, R := SECOND][M := HOOKED] == map[M := HOOKED, R := SECOND];
  }

  lemma WriteSent()
    ensures P.OnRequest(Rest(FIRST, SECOND, [Opened(R, 11)]), Writing()[0], 12)
         == Rest(FIRST, SECOND, [Opened(R, 11)]).(requests := map[0 := Writing()[0]], writes := map[M := P.Sent(12, [])])
  {
  }

  lemma AfterWriting()
    ensures P.Fold(Prelude() + Opening() + Writing()) == Some(Rest(HOOKED, SECOND, [Opened(R, 11), Wrote(15)]))
  {
    hide P.Fold, P.OnHook, P.OnRequest;
    var j, e := Prelude() + Opening(), Writing();
    AfterOpening();
    WriteSent();
    HookStarts();
    HookEnds();
    var s := Rest(FIRST, SECOND, [Opened(R, 11)]);
    var s1 := s.(requests := map[0 := e[0]], writes := map[M := P.Sent(12, [])]);
    Push3(j, s, e[0], e[1], e[2], s1, s1, Hooking());
    assert j + e[..3] == j + [e[0], e[1], e[2]];
    assert Hooked().requests - {0} == map[];
    Push3(j + e[..3], Hooking(), e[3], e[4], e[5], Hooked(), Hooked(), Rest(HOOKED, SECOND, [Opened(R, 11), Wrote(15)]));
    assert j + e == j + e[..3] + [e[3], e[4], e[5]];
  }

  const CLOSED_FIRST := HOOKED.(closed := true)
  const CLOSED_SECOND := SECOND.(closed := true)

  lemma ResourceClosed(s1: P.State, s3: P.State)
    requires s1 == Rest(HOOKED, SECOND, [Opened(R, 11), Wrote(15)]).(requests := map[0 := Closing()[0]])
    requires s3 == Rest(HOOKED, CLOSED_SECOND, [Opened(R, 11), Wrote(15), Closed(R, 20)])
    ensures P.OnResult(s1, RpcResult(0, Clear(Close), WNone), 20) == Some(s3)
  {
    assert s1.requests - {0} == map[] && M != R by { assert M[0] != R[0]; }
    assert s1.drafts + [Closed(R, 20)] == s3.drafts && s1.profiles[R := CLOSED_SECOND] == s3.profiles;
  }

  lemma ManagerClosed(s4: P.State, s6: P.State)
    requires s4 == Rest(HOOKED, CLOSED_SECOND, [Opened(R, 11), Wrote(15), Closed(R, 20)]).(requests := map[0 := Closing()[3]])
    requires s6 == Rest(CLOSED_FIRST, CLOSED_SECOND, [Opened(R, 11), Wrote(15), Closed(R, 20), Closed(M, 23)])
    ensures P.OnResult(s4, RpcResult(0, Clear(Close), WNone), 23) == Some(s6)
  {
    assert s4.requests - {0} == map[] && M != R by { assert M[0] != R[0]; }
    assert s4.drafts + [Closed(M, 23)] == s6.drafts && s4.profiles[M := CLOSED_FIRST] == s6.profiles;
  }

  lemma AfterClosing()
    ensures P.Fold(Traffic())
         == Some(Rest(CLOSED_FIRST, CLOSED_SECOND, [Opened(R, 11), Wrote(15), Closed(R, 20), Closed(M, 23)]))
  {
    hide P.Fold, P.OnDisconnect, P.OnResult;
    var j, e := Prelude() + Opening() + Writing(), Closing();
    AfterWriting();
    var s := Rest(HOOKED, SECOND, [Opened(R, 11), Wrote(15)]);
    var s1 := s.(requests := map[0 := e[0]]);
    var s3 := Rest(HOOKED, CLOSED_SECOND, [Opened(R, 11), Wrote(15), Closed(R, 20)]);
    var s4 := s3.(requests := map[0 := e[3]]);
    var s6 := Rest(CLOSED_FIRST, CLOSED_SECOND, [Opened(R, 11), Wrote(15), Closed(R, 20), Closed(M, 23)]);
    ResourceClosed(s1, s3);
    ManagerClosed(s4, s6);
    Push3(j, s, e[0], e[1], e[2], s1, s1, s3);
    assert j + e[..3] == j + [e[0], e[1], e[2]];
    Push3(j + e[..3], s3, e[3], e[4], e[5], s4, s4, s6);
    assert j + e[..6] == j + e[..3] + [e[3], e[4], e[5]];
    Push(j + e[..6], e[6]);
    NothingToSweep(s6, 24);
    assert Traffic() == j + e[..6] + [e[6]];
  }

  lemma NothingToSweep(s: P.State, n: nat)
    requires s.order == [M, R] && M in s.profiles && R in s.profiles && s.profiles[M].closed && s.profiles[R].closed
    ensures P.OnDisconnect(s, 0, n) == s
  {
    var w := P.Sweep(s.profiles, {}, s.drafts, 0);
    assert s.order[..1] == [M] && [M][..0] == [];
    assert P.SweepAll(w, [], 0, n) == w && P.SweepAll(w, [M], 0, n) == w;
  }

  function Safe(raw: nat): P.Draft { P.Draft(raw, P.ForceSafe, None, None, Some(P.ForcedClose), true, 0) }

  function Drafts(): seq<P.Draft> { [Opened(R, 11), Wrote(15), Closed(R, 20), Closed(M, 23)] }

  /** The lifecycle after the traffic adds one record, for state.force_safe. */
  lemma {:induction false} AfterEnding(n: nat)
    requires READY <= n <= LIFECYCLE_STEPS
    ensures P.Fold(Traffic() + Ending(n))
         == Some(Rest(CLOSED_FIRST, CLOSED_SECOND, Drafts() + if n > P.FORCE_SAFE_STEP then [Safe(29)] else []))
  {
    hide P.Fold, Opened, Closed, Wrote;
    if n == READY {
      AfterClosing();
      assert Traffic() + Ending(n) == Traffic() && Drafts() + [] == Drafts();
    } else {
      AfterEnding(n - 1);
      assert Traffic() + Ending(n) == Traffic() + Ending(n - 1) + [Lifecycle(n - 1)];
      Push(Traffic() + Ending(n - 1), Lifecycle(n - 1));
      assert |Traffic()| == 24 && Drafts() + [] + [Safe(29)] == Drafts() + [Safe(29)];
    }
  }

  lemma NothingForced()
    ensures forall i :: 0 <= i < |Journal()| ==> !Journal()[i].ForcedCleanup?
  {
    assert forall i :: 0 <= i < |Ending(LIFECYCLE_STEPS)| ==> Ending(LIFECYCLE_STEPS)[i].Lifecycle?;
    assert forall i :: 0 <= i < |Traffic()| ==> !Traffic()[i].ForcedCleanup?;
  }

  lemma DraftsApart()
    ensures !P.Colliding(Drafts() + [Safe(29)])
  {
  }

  lemma Projects()
    ensures P.Project(Journal()).Some?
  {
    hide P.Fold, P.Sorted, P.Colliding;
    AfterEnding(LIFECYCLE_STEPS);
    DraftsApart();
    HookRecorded();
  }

  lemma HookRecorded()
    ensures P.HasState(Journal()) && Journal() != []
    ensures V.Said(Journal(), V.WasHooked(M)) && V.Said(Journal(), V.WasClosed(M, ResourceManager))
    ensures V.Said(Journal(), V.WasOpened(R, Resource))
  {
    var j := Journal();
    assert j[9] == SessionOpen(0, R, Resource);
    assert j[13] == HookEvent(0, Before, M, "x", "psu");
    assert j[21] == SessionClose(0, M, ResourceManager);
  }

  /** A finished run of the broker whose journal projects: a resource session was opened and no session of any
      kind was forced closed, and the session check fails, because a hook ran for the manager. */
  lemma HookedManagerFails() returns (moves: seq<Move>)
    ensures Run(moves).phase == LIFECYCLE_STEPS
    ensures P.Project(Run(moves).journal).Some? && !P.ActiveCloseAll(P.Project(Run(moves).journal).value)
    ensures V.Said(Run(moves).journal, V.WasOpened(R, Resource))
    ensures forall t, kind :: !V.Said(Run(moves).journal, V.WasForced(t, kind))
  {
    hide Run, P.Project, P.ActiveCloseAll, Journal;
    moves := Finishes();
    Projects();
    HookRecorded();
    V.RunVerdict(moves);
    NothingForced();
  }
}
