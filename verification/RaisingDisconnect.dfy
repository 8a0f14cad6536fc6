/** Why the accounting needs its condition: a library close that raises while a worker disconnects. The close it
    forced before is written again when the freeze disconnects the same peer, and no failure is on record. */
module RaisingDisconnect {
  import opened Wire
  import opened BrokerJournal
  import opened BrokerModel
  import opened BrokerBlocks
  import opened EvidenceVerifier
  import opened BrokerRuns
  import opened BrokerTheorems
  import opened BrokerCompletion
  import opened BrokerScripts

  const A: Token := "a"
  const B: Token := "b"

  const FIRST := Session(A, 1, ResourceManager)
  const SECOND := Session(B, 1, ResourceManager)

  const OK := Returned(1, WNone, [])

  function Opened(t: Token): seq<Event> {
    [RpcRequest(0, Clear(OpenManager), Arguments(map[])), SessionOpen(0, t, ResourceManager),
     RpcResult(0, Clear(OpenManager), WStr(t))]
  }

  lemma OpenedIs(peer: Peer, t: Token)
    requires peer.uid == 10001 && !peer.closed
    ensures
      var e := Dispatched(0, peer, OpenManager, map[], false, OK, t);
      e.events == Opened(t) && e.peer == peer.(sessions := peer.sessions + [Session(t, 1, ResourceManager)]) && !e.crashed
  {
  }

  function Before(): seq<Event> { Prelude() + Opened(A) + Opened(B) }

  const PEER := Peer(10001, [FIRST, SECOND], false)

  lemma TwoSessions() returns (moves: seq<Move>)
    ensures Run(moves) == Solo(Before(), PEER, READY, {A, B})
  {
    hide Run, Dispatched;
    var start := Arrives();
    OpenedIs(NEWCOMER, A);
    var one := Calls(start, Run(start), OpenManager, map[], OK, A);
    var peer := NEWCOMER.(sessions := [FIRST]);
    assert [] + [FIRST] == [FIRST] && Run(one).threads[0].peer == peer;
    assert |A| == 1 && |B| == 1 && A[0] != B[0];
    OpenedIs(peer, B);
    moves := Calls(one, Run(one), OpenManager, map[], OK, B);
    assert [FIRST] + [SECOND] == [FIRST, SECOND] && {} + {A} + {B} == {A, B};
  }

  /** The worker's disconnect forces the newer session closed, and the library raises on the older one. */
  lemma Raises() returns (moves: seq<Move>)
    ensures Run(moves) == Solo(Before() + [ForcedCleanup(0, B, ResourceManager)], PEER, READY, {A, B})
                            .(gone := {0}, repeated := 1)
  {
    hide Run;
    var before := TwoSessions();
    var m := Hangup(0, 1);
    RunBurst(before, m, 0);
    moves := before + Burst(Run(before), m, 0);
    assert PEER.sessions[1..] == [SECOND] && Cleanups(0, []) == [] && [SECOND][..0] == [];
    assert Departed(0, PEER, 1).events == [ForcedCleanup(0, B, ResourceManager)];
    assert {} + {0} == {0};
  }

  function Forced(): seq<Event> {
    [ForcedCleanup(0, B, ResourceManager), ForcedCleanup(0, A, ResourceManager), ConnectionClose(0, 2)]
  }

  lemma ForcedIs()
    ensures Departed(0, PEER, 2).events == Forced() && Departed(0, PEER, 2).peer == Peer(10001, [], true)
  {
    assert PEER.sessions[..1] == [FIRST] && [FIRST][..0] == [] && Cleanups(0, []) == [];
    assert Cleanups(0, [FIRST]) == [ForcedCleanup(0, A, ResourceManager)];
    assert Cleanups(0, PEER.sessions) == [ForcedCleanup(0, B, ResourceManager)] + Cleanups(0, [FIRST]);
  }

  /** The freeze then disconnects the peer once more: every worker is done and no failure is on record, two
      sessions were opened and three closes forced, and the accounting does not hold. */
  lemma AccountingBreaks() returns (moves: seq<Move>)
    ensures AllQuiet(Run(moves)) && !Run(moves).failed && !Run(moves).aborted && Run(moves).phase == FREEZING
    ensures TrustedFailure !in Run(moves).journal
    ensures Count(Run(moves).journal, SessionsOpened) == 2 && Count(Run(moves).journal, SessionsForced) == 3
    ensures !AccountingHolds(Run(moves).journal, SummaryOf(Run(moves)))
  {
    hide Run, AccountingHolds, Count, Cleanups;
    var before := Raises();
    RunOne(before, Advance);
    RunOne(before + [Advance], Advance);
    var there := before + [Advance] + [Advance];
    var m := Hangup(0, 2);
    RunBurst(there, m, 0);
    moves := there + Burst(Run(there), m, 0);
    ForcedIs();
    QuietAccounting(moves);
    assert Run(moves).journal == Written();
    Counts();
  }

  function Written(): seq<Event> {
    Before() + [ForcedCleanup(0, B, ResourceManager)] + [Lifecycle(4)] + [Lifecycle(5)] + Forced()
  }

  lemma {:induction false} CountAppend(x: seq<Event>, y: seq<Event>, k: Counter)
    ensures Count(x + y, k) == Count(x, k) + Count(y, k)
  {
    hide Hit;
    if y == [] {
      assert x + y == x;
    } else {
      assert (x + y)[..|x + y| - 1] == x + y[..|y| - 1];
      CountAppend(x, y[..|y| - 1], k);
    }
  }

  lemma CountOne(e: Event, k: Counter)
    ensures Count([e], k) == Hit(e, k)
  {
    hide Hit;
    assert [e][..0] == [];
  }

  lemma CountThree(a: Event, b: Event, c: Event, k: Counter)
    ensures Count([a, b, c], k) == Hit(a, k) + Hit(b, k) + Hit(c, k)
  {
    hide Hit, Count;
    assert [a, b, c] == [a] + [b] + [c];
    CountAppend([a] + [b], [c], k);
    CountAppend([a], [b], k);
    CountOne(a, k);
    CountOne(b, k);
    CountOne(c, k);
  }

  lemma CountOpened(t: Token, k: Counter)
    ensures Count(Opened(t), k) == if k == SessionsOpened || k == RpcRequests || k == RpcResults then 1 else 0
  {
    hide Count;
    var e := Opened(t);
    CountThree(e[0], e[1], e[2], k);
  }

  lemma CountPrelude(k: Counter)
    requires k == SessionsOpened || k == SessionsForced
    ensures Count(Prelude(), k) == 0
  {
    hide Count;
    assert Prelude() == [Lifecycle(0), Lifecycle(1), Lifecycle(2)] + [Lifecycle(3)] + [ConnectionOpen(0)];
    CountAppend([Lifecycle(0), Lifecycle(1), Lifecycle(2)] + [Lifecycle(3)], [ConnectionOpen(0)], k);
    CountAppend([Lifecycle(0), Lifecycle(1), Lifecycle(2)], [Lifecycle(3)], k);
    CountThree(Lifecycle(0), Lifecycle(1), Lifecycle(2), k);
    CountOne(Lifecycle(3), k);
    CountOne(ConnectionOpen(0), k);
  }

  lemma Counts()
    ensures Count(Written(), SessionsOpened) == 2 && Count(Written(), SessionsForced) == 3
    ensures TrustedFailure !in Written()
  {
    CountsOf(SessionsOpened);
    CountsOf(SessionsForced);
  }

  lemma CountsOf(k: Counter)
    requires k == SessionsOpened || k == SessionsForced
    ensures Count(Written(), k) == if k == SessionsOpened then 2 else 3
  {
    hide Count, Opened, Prelude;
    var forced := [ForcedCleanup(0, B, ResourceManager)];
    CountAppend(Before() + forced + [Lifecycle(4)] + [Lifecycle(5)], Forced(), k);
    CountAppend(Before() + forced + [Lifecycle(4)], [Lifecycle(5)], k);
    CountAppend(Before() + forced, [Lifecycle(4)], k);
    CountAppend(Before(), forced, k);
    CountAppend(Prelude() + Opened(A), Opened(B), k);
    CountAppend(Prelude(), Opened(A), k);
    CountPrelude(k);
    CountOpened(A, k);
    CountOpened(B, k);
    CountOne(forced[0], k);
    CountOne(Lifecycle(4), k);
    CountOne(Lifecycle(5), k);
    CountThree(Forced()[0], Forced()[1], Forced()[2], k);
  }
}
