/** Facts about the block of events one broker call writes: ownership, balance and shape. */
module BrokerBlocks {
  import opened Wire
  import opened BrokerJournal
  import opened BrokerModel
  import opened EvidenceVerifier

  // ---- Balances --------------------------------------------------------------------------

  /** Signed counts: sessions opened less closed, forced closes, connections opened and closed,
      requests less answers, resource queries less answers. */
  datatype Tally = Tally(sessions: int, forced: int, joined: int, departed: int, rpc: int, query: int)

  const ZERO := Tally(0, 0, 0, 0, 0, 0)

  function Plus(a: Tally, b: Tally): Tally {
    Tally(a.sessions + b.sessions, a.forced + b.forced, a.joined + b.joined, a.departed + b.departed,
          a.rpc + b.rpc, a.query + b.query)
  }

  function Minus(a: Tally, b: Tally): Tally {
    Tally(a.sessions - b.sessions, a.forced - b.forced, a.joined - b.joined, a.departed - b.departed,
          a.rpc - b.rpc, a.query - b.query)
  }

  function TallyOf(e: Event): Tally {
    match e
    case ConnectionOpen(_) => Tally(0, 0, 1, 0, 0, 0)
    case ConnectionClose(_, _) => Tally(0, 0, 0, 1, 0, 0)
    case RpcRequest(_, _, _) => Tally(0, 0, 0, 0, 1, 0)
    case RpcResult(_, _, _) => Tally(0, 0, 0, 0, -1, 0)
    case RpcReject(_, _, _) => Tally(0, 0, 0, 0, -1, 0)
    case QueryRequest(_) => Tally(0, 0, 0, 0, 0, 1)
    case QueryResult(_) => Tally(0, 0, 0, 0, 0, -1)
    case QueryReject(_) => Tally(0, 0, 0, 0, 0, -1)
    case SessionOpen(_, _, _) => Tally(1, 0, 0, 0, 0, 0)
    case SessionClose(_, _, _) => Tally(-1, 0, 0, 0, 0, 0)
    case ForcedCleanup(_, _, _) => Tally(-1, 1, 0, 0, 0, 0)
    case _ => Tally(0, 0, 0, 0, 0, 0)
  }

  function Sum(events: seq<Event>): Tally {
    if events == [] then ZERO else Plus(Sum(events[..|events| - 1]), TallyOf(events[|events| - 1]))
  }

  lemma {:induction false} SumAppend(a: seq<Event>, b: seq<Event>)
    ensures Sum(a + b) == Plus(Sum(a), Sum(b))
  {
    hide TallyOf;
    if b == [] {
      assert a + b == a;
    } else {
      assert (a + b)[..|a + b| - 1] == a + b[..|b| - 1];
      SumAppend(a, b[..|b| - 1]);
    }
  }

  lemma SumOne(e: Event)
    ensures Sum([e]) == TallyOf(e)
  {
    hide TallyOf;
    assert [e][..0] == [];
  }

  lemma SumTwo(a: Event, b: Event)
    ensures Sum([a, b]) == Plus(TallyOf(a), TallyOf(b))
  {
    hide TallyOf;
    assert [a, b] == [a] + [b];
    SumAppend([a], [b]);
    SumOne(a);
    SumOne(b);
  }

  /** The signed counts are differences of the verifier's counters. */
  lemma {:induction false} SumIsCounts(events: seq<Event>)
    ensures Sum(events) == Tally(
      Count(events, SessionsOpened) - Count(events, SessionsClosed) - Count(events, SessionsForced),
      Count(events, SessionsForced), Count(events, ConnectionsOpened), Count(events, ConnectionsClosed),
      Count(events, RpcRequests) - Count(events, RpcResults) - Count(events, RpcRejections),
      Count(events, ResourceQueries) - Count(events, ResourceQueryResults) - Count(events, ResourceQueryRejections))
  {
    if events != [] {
      hide TallyOf, CounterOf, Hit;
      SumIsCounts(events[..|events| - 1]);
      TallyIsHits(events[|events| - 1]);
    }
  }

  lemma TallyIsHits(e: Event)
    ensures TallyOf(e) == Tally(
      Hit(e, SessionsOpened) - Hit(e, SessionsClosed) - Hit(e, SessionsForced),
      Hit(e, SessionsForced), Hit(e, ConnectionsOpened), Hit(e, ConnectionsClosed),
      Hit(e, RpcRequests) - Hit(e, RpcResults) - Hit(e, RpcRejections),
      Hit(e, ResourceQueries) - Hit(e, ResourceQueryResults) - Hit(e, ResourceQueryRejections))
  {
  }

  // ---- Events inside a block -------------------------------------------------------------

  /** An event a connection's worker may write. */
  predicate Owned(e: Event, c: Connection) { e.ConnectionReject? || Concerns(e, c) }

  predicate AllOwned(events: seq<Event>, c: Connection) { forall e <- events :: Owned(e, c) }

  /** An event between request and answer that neither opens, closes nor blocks anything. */
  predicate Neutral(e: Event) { e.HookEvent? }

  lemma {:induction false} HooksAreNeutral(s: Scan, hooks: seq<Event>)
    requires forall i :: 0 <= i < |hooks| ==> Neutral(hooks[i])
    ensures Sum(hooks) == ZERO && ScanAll(s, hooks) == s
  {
    hide TallyOf, ScanStep, Neutral, Plus;
    if hooks != [] {
      HooksAreNeutral(s, hooks[..|hooks| - 1]);
      OneHookIsNeutral(s, hooks[|hooks| - 1]);
      PlusZero();
    }
  }

  lemma OneHookIsNeutral(s: Scan, e: Event)
    requires Neutral(e)
    ensures TallyOf(e) == ZERO && ScanStep(s, e) == s
  {
  }

  lemma ScanOne(s: Scan, e: Event)
    ensures ScanAll(s, [e]) == ScanStep(s, e)
  {
    assert [e][..0] == [];
  }

  lemma ScanTwo(s: Scan, a: Event, b: Event)
    ensures ScanAll(s, [a, b]) == ScanStep(ScanStep(s, a), b)
  {
    assert [a, b] == [a] + [b];
    ScanAppend(s, [a], [b]);
    ScanOne(s, a);
    ScanOne(ScanStep(s, a), b);
  }

  /** What the scan has collected when a call of the operation may end as it does. */
  predicate InnerShape(operation: Operation, s: Scan, end: End) {
    && s.Inside? && s.operation == Clear(operation)
    && match end
       case Completed(_) => ClosesWell(s, RpcResult(0, Clear(operation), WNone))
       case Rejected(_) => ClosesWell(s, RpcReject(0, Clear(operation), VisaError))
       case Crashed => true
  }

  // ---- _invoke ---------------------------------------------------------------------------

  lemma {:induction false} WithoutMembers(sessions: seq<Session>, token: Token)
    ensures forall s :: s in Without(sessions, token) <==> s in sessions && s.token != token
  {
    if sessions != [] {
      WithoutMembers(sessions[..|sessions| - 1], token);
      assert sessions == sessions[..|sessions| - 1] + [sessions[|sessions| - 1]];
    }
  }

  lemma {:induction false} WithoutUnique(sessions: seq<Session>, token: Token)
    requires UniqueTokens(sessions)
    ensures UniqueTokens(Without(sessions, token))
  {
    if sessions != [] {
      var init, last := sessions[..|sessions| - 1], sessions[|sessions| - 1];
      WithoutUnique(init, token);
      WithoutMembers(init, token);
      var r := Without(init, token);
      forall i | 0 <= i < |r| ensures r[i].token != last.token {
        assert r[i] in init;
      }
    }
  }

  lemma {:induction false} WithoutAbsent(sessions: seq<Session>, token: Token)
    requires forall i :: 0 <= i < |sessions| ==> sessions[i].token != token
    ensures Without(sessions, token) == sessions
  {
    if sessions != [] {
      WithoutAbsent(sessions[..|sessions| - 1], token);
    }
  }

  /** Popping a token that is present removes exactly one session. */
  lemma {:induction false} WithoutLength(sessions: seq<Session>, token: Token)
    requires UniqueTokens(sessions) && HasToken(sessions, token)
    ensures |Without(sessions, token)| == |sessions| - 1
  {
    var init, last := sessions[..|sessions| - 1], sessions[|sessions| - 1];
    if last.token == token {
      WithoutAbsent(init, token);
    } else {
      assert sessions == init + [last];
      WithoutLength(init, token);
    }
  }

  predicate UniqueTokens(sessions: seq<Session>) {
    forall i, j :: 0 <= i < j < |sessions| ==> sessions[i].token != sessions[j].token
  }

  /** What one call of _invoke may do, stated of its effect alone. */
  ghost predicate GoodInvocation(c: Connection, sessions: seq<Session>, operation: Operation, i: Invocation) {
    && AllOwned(i.events, c)
    && UniqueTokens(i.sessions)
    && Sum(i.events).(query := 0) == ZERO.(sessions := |i.sessions| - |sessions|)
    && (!i.end.Crashed? ==> Sum(i.events).query == 0)
    && InnerShape(operation, ScanAll(Inside(Clear(operation), []), i.events), i.end)
  }

  lemma QuietInvocation(c: Connection, sessions: seq<Session>, operation: Operation, end: End)
    requires UniqueTokens(sessions) && (end.Completed? ==> !ReadsOrWrites(Clear(operation)))
    ensures GoodInvocation(c, sessions, operation, Invocation([], sessions, end))
  {
  }

  lemma OneEvent(c: Connection, sessions: seq<Session>, operation: Operation, e: Event, after: seq<Session>, end: End)
    requires UniqueTokens(after) && Owned(e, c)
    requires TallyOf(e).(query := 0) == ZERO.(sessions := |after| - |sessions|)
    requires !end.Crashed? ==> TallyOf(e).query == 0
    requires InnerShape(operation, ScanStep(Inside(Clear(operation), []), e), end)
    ensures GoodInvocation(c, sessions, operation, Invocation([e], after, end))
  {
    hide TallyOf, ScanStep, InnerShape, Owned, UniqueTokens;
    SumOne(e);
    ScanOne(Inside(Clear(operation), []), e);
  }

  lemma TwoEvents(c: Connection, sessions: seq<Session>, operation: Operation, a: Event, b: Event, end: End)
    requires UniqueTokens(sessions) && Owned(a, c) && Owned(b, c) && Plus(TallyOf(a), TallyOf(b)) == ZERO
    requires InnerShape(operation, ScanStep(ScanStep(Inside(Clear(operation), []), a), b), end)
    ensures GoodInvocation(c, sessions, operation, Invocation([a, b], sessions, end))
  {
    hide TallyOf, ScanStep, InnerShape, Owned, UniqueTokens;
    SumTwo(a, b);
    ScanTwo(Inside(Clear(operation), []), a, b);
  }

  lemma QueryBalances(c: Connection, answer: Event)
    requires answer == QueryResult(c) || answer == QueryReject(c)
    ensures Plus(TallyOf(QueryRequest(c)), TallyOf(answer)) == ZERO
  {
    hide TallyOf;
    QueryTally(c);
    QueryAnswerTally(answer);
  }

  lemma QueryTally(c: Connection)
    ensures TallyOf(QueryRequest(c)) == Tally(0, 0, 0, 0, 0, 1)
  {
  }

  lemma QueryAnswerTally(answer: Event)
    requires answer.QueryResult? || answer.QueryReject?
    ensures TallyOf(answer) == Tally(0, 0, 0, 0, 0, -1)
  {
  }

  lemma Untracked(s: Scan, e: Event)
    requires !Tracked(e)
    ensures ScanStep(s, e) == s
  {
  }

  lemma QueryEvents(c: Connection, sessions: seq<Session>, answer: Event, end: End)
    requires UniqueTokens(sessions) && (answer == QueryResult(c) || answer == QueryReject(c))
    ensures GoodInvocation(c, sessions, ListResources, Invocation([QueryRequest(c), answer], sessions, end))
  {
    hide GoodInvocation, TallyOf, ScanStep;
    QueryBalances(c, answer);
    Untracked(Inside(Clear(ListResources), []), QueryRequest(c));
    Untracked(Inside(Clear(ListResources), []), answer);
    TwoEvents(c, sessions, ListResources, QueryRequest(c), answer, end);
  }

  lemma ReadAttempted(c: Connection, sessions: seq<Session>, end: End)
    requires UniqueTokens(sessions) && !end.Completed?
    ensures GoodInvocation(c, sessions, Read, Invocation([ScpiRead(c)], sessions, end))
  {
    hide GoodInvocation;
    OneEvent(c, sessions, Read, ScpiRead(c), sessions, end);
  }

  lemma ReadTally(c: Connection)
    ensures TallyOf(ScpiRead(c)) == ZERO
  {
  }

  lemma ReadResultTally(c: Connection)
    ensures TallyOf(ScpiReadResult(c)) == ZERO
  {
  }

  lemma ReadShape(c: Connection, end: End)
    requires !end.Rejected?
    ensures Owned(ScpiRead(c), c) && Owned(ScpiReadResult(c), c)
    ensures InnerShape(Read, ScanStep(ScanStep(Inside(Clear(Read), []), ScpiRead(c)), ScpiReadResult(c)), end)
  {
    assert ScanStep(Inside(Clear(Read), []), ScpiRead(c)) == Inside(Clear(Read), [ScpiRead(c)]);
  }

  lemma ReadAnswered(c: Connection, sessions: seq<Session>, end: End)
    requires UniqueTokens(sessions) && !end.Rejected?
    ensures GoodInvocation(c, sessions, Read, Invocation([ScpiRead(c), ScpiReadResult(c)], sessions, end))
  {
    hide *;
    ReadTally(c);
    ReadResultTally(c);
    PlusZero();
    ReadShape(c, end);
    TwoEvents(c, sessions, Read, ScpiRead(c), ScpiReadResult(c), end);
  }

  lemma WriteStart(c: Connection)
    ensures TallyOf(ScpiWrite(c)) == ZERO && TallyOf(ScpiWriteResult(c)) == ZERO
    ensures ScanStep(Inside(Clear(Write), []), ScpiWrite(c)) == Inside(Clear(Write), [ScpiWrite(c)])
    ensures ScanStep(Inside(Clear(Write), [ScpiWrite(c)]), ScpiWriteResult(c))
         == Inside(Clear(Write), [ScpiWrite(c), ScpiWriteResult(c)])
  {
  }

  lemma HookEventsNeutral(c: Connection, token: Token, hooks: seq<HookReport>)
    ensures forall i :: 0 <= i < |hooks| ==> Neutral(HookEvents(c, token, hooks)[i])
  {
  }

  lemma PlusZero()
    ensures Plus(ZERO, ZERO) == ZERO
  {
  }

  lemma WriteScan(c: Connection, token: Token, hooks: seq<HookReport>)
    ensures
      var attempt := [ScpiWrite(c)] + HookEvents(c, token, hooks);
      && Sum(attempt) == ZERO && ScanAll(Inside(Clear(Write), []), attempt) == Inside(Clear(Write), [ScpiWrite(c)])
  {
    hide *;
    var s, h := Inside(Clear(Write), []), HookEvents(c, token, hooks);
    HookEventsNeutral(c, token, hooks);
    PlusZero();
    WriteStart(c);
    SumAppend([ScpiWrite(c)], h);
    SumOne(ScpiWrite(c));
    ScanAppend(s, [ScpiWrite(c)], h);
    ScanOne(s, ScpiWrite(c));
    HooksAreNeutral(Inside(Clear(Write), [ScpiWrite(c)]), h);
  }

  lemma WriteAnswered(c: Connection, token: Token, hooks: seq<HookReport>)
    ensures
      var block := [ScpiWrite(c)] + HookEvents(c, token, hooks) + [ScpiWriteResult(c)];
      Sum(block) == ZERO && ScanAll(Inside(Clear(Write), []), block) == Inside(Clear(Write), [ScpiWrite(c), ScpiWriteResult(c)])
  {
    hide *;
    var attempt := [ScpiWrite(c)] + HookEvents(c, token, hooks);
    PlusZero();
    WriteScan(c, token, hooks);
    WriteStart(c);
    SumAppend(attempt, [ScpiWriteResult(c)]);
    SumOne(ScpiWriteResult(c));
    ScanAppend(Inside(Clear(Write), []), attempt, [ScpiWriteResult(c)]);
    ScanOne(Inside(Clear(Write), [ScpiWrite(c)]), ScpiWriteResult(c));
  }

  lemma WriteEvents(c: Connection, sessions: seq<Session>, token: Token, hooks: seq<HookReport>, answered: bool, end: End)
    requires UniqueTokens(sessions) && (end.Completed? ==> answered) && (end.Rejected? ==> !answered)
    ensures
      var attempt := [ScpiWrite(c)] + HookEvents(c, token, hooks);
      GoodInvocation(c, sessions, Write,
        Invocation(if answered then attempt + [ScpiWriteResult(c)] else attempt, sessions, end))
  {
    hide TallyOf, ScanStep, Sum, ScanAll;
    WriteScan(c, token, hooks);
    WriteAnswered(c, token, hooks);
  }

  lemma UniqueAppend(sessions: seq<Session>, s: Session)
    requires UniqueTokens(sessions) && !HasToken(sessions, s.token)
    ensures UniqueTokens(sessions + [s])
  {
    forall i | 0 <= i < |sessions| ensures sessions[i].token != s.token {
      assert sessions[i] in sessions;
    }
  }

  /** The events of _invoke belong to the connection, change the session balance by exactly the change in
      the session table, answer every resource query unless the call crashed, and have the SCPI shape
      their operation's answer requires. */
  lemma InvokeBlock(c: Connection, sessions: seq<Session>, operation: Operation, args: map<string, WireValue>,
                    reply: Reply, newToken: Token)
    requires UniqueTokens(sessions) && !HasToken(sessions, newToken) && Invocable(operation)
    ensures GoodInvocation(c, sessions, operation, Invoke(c, sessions, operation, args, reply, newToken))
  {
    hide GoodInvocation, WellTyped, KindOf, Without, HookEvents;
    if operation == OpenManager {
      OpenBlock(c, sessions, operation, args, reply, newToken);
    } else if "session" !in args || !args["session"].WStr? || !HasToken(sessions, args["session"].text) {
      OneEvent(c, sessions, operation, InvalidAccess(c), sessions, Rejected(InvalidSession));
    } else if !WellTyped(operation, args) {
      QuietInvocation(c, sessions, operation, Rejected(InvalidArguments));
    } else {
      TypedBlock(c, sessions, operation, args, reply, newToken);
    }
  }

  lemma OpenedSession(c: Connection, sessions: seq<Session>, operation: Operation, s: Session)
    requires UniqueTokens(sessions) && !HasToken(sessions, s.token) && !ReadsOrWrites(Clear(operation))
    ensures GoodInvocation(c, sessions, operation,
      Invocation([SessionOpen(c, s.token, s.kind)], sessions + [s], Completed(WStr(s.token))))
  {
    hide GoodInvocation;
    UniqueAppend(sessions, s);
    OneEvent(c, sessions, operation, SessionOpen(c, s.token, s.kind), sessions + [s], Completed(WStr(s.token)));
  }

  lemma OpenBlock(c: Connection, sessions: seq<Session>, operation: Operation, args: map<string, WireValue>,
                  reply: Reply, newToken: Token)
    requires UniqueTokens(sessions) && !HasToken(sessions, newToken) && operation == OpenManager
    ensures GoodInvocation(c, sessions, operation, Invoke(c, sessions, operation, args, reply, newToken))
  {
    hide GoodInvocation, UniqueTokens, HasToken;
    if args.Keys != {} {
      QuietInvocation(c, sessions, operation, Rejected(InvalidArguments));
    } else if reply.Returned? {
      OpenedSession(c, sessions, operation, Session(newToken, reply.handle, ResourceManager));
    } else {
      QuietInvocation(c, sessions, operation, Conclude(reply, WNone));
    }
  }

  lemma ClosedSession(c: Connection, sessions: seq<Session>, token: Token)
    requires UniqueTokens(sessions) && HasToken(sessions, token)
    ensures GoodInvocation(c, sessions, Close,
      Invocation([SessionClose(c, token, KindOf(sessions, token))], Without(sessions, token), Completed(WNone)))
  {
    hide GoodInvocation, KindOf;
    WithoutLength(sessions, token);
    WithoutUnique(sessions, token);
    OneEvent(c, sessions, Close, SessionClose(c, token, KindOf(sessions, token)), Without(sessions, token), Completed(WNone));
  }

  lemma TypedBlock(c: Connection, sessions: seq<Session>, operation: Operation, args: map<string, WireValue>,
                   reply: Reply, newToken: Token)
    requires UniqueTokens(sessions) && !HasToken(sessions, newToken) && Invocable(operation) && operation != OpenManager
    requires "session" in args && args["session"].WStr? && HasToken(sessions, args["session"].text) && WellTyped(operation, args)
    ensures GoodInvocation(c, sessions, operation, Invoke(c, sessions, operation, args, reply, newToken))
  {
    hide GoodInvocation, WellTyped, KindOf, Without, HookEvents, UniqueTokens, HasToken;
    var token := args["session"].text;
    match operation
    case ListResources =>
      if reply.Failed? {
        OneEvent(c, sessions, ListResources, QueryRequest(c), sessions, Crashed);
      } else if reply.Refused? && reply.why != ResourceQueryRejected {
        QuietInvocation(c, sessions, operation, Conclude(reply, WNone));
      } else {
        var i := Invoke(c, sessions, operation, args, reply, newToken);
        QueryEvents(c, sessions, i.events[1], i.end);
      }
    case Open =>
      if reply.Returned? {
        OpenedSession(c, sessions, operation, Session(newToken, reply.handle, Resource));
      } else {
        QuietInvocation(c, sessions, operation, Conclude(reply, WNone));
      }
    case Close =>
      if reply.Returned? {
        ClosedSession(c, sessions, token);
      } else {
        QuietInvocation(c, sessions, operation, Conclude(reply, WNone));
      }
    case Read =>
      if reply.Returned? {
        ReadAnswered(c, sessions, Completed(reply.value));
      } else {
        ReadAttempted(c, sessions, Conclude(reply, WNone));
      }
    case Write =>
      WriteEvents(c, sessions, token, reply.hooks, reply.Returned?,
                  Conclude(reply, if reply.Returned? then reply.value else WNone));
    case GetAttribute =>
      QuietInvocation(c, sessions, operation, Conclude(reply, if reply.Returned? then reply.value else WNone));
    case _ =>
      QuietInvocation(c, sessions, operation, Conclude(reply, WNone));
  }

  // ---- dispatch and disconnect -----------------------------------------------------------

  /** What one dispatch may do: a complete block whose balance is the change in the session table,
      unless the call crashed. */
  ghost predicate GoodEffect(c: Connection, peer: Peer, e: Effect) {
    && AllOwned(e.events, c)
    && UniqueTokens(e.peer.sessions)
    && e.peer.closed == peer.closed && e.peer.uid == peer.uid
    && Sum(e.events).(rpc := 0, query := 0) == ZERO.(sessions := |e.peer.sessions| - |peer.sessions|)
    && (!e.crashed ==> Sum(e.events).rpc == 0 && Sum(e.events).query == 0 && ScanAll(Between, e.events) == Between)
  }

  lemma RequestTally(c: Connection, a: Audited, args: Arguments)
    ensures TallyOf(RpcRequest(c, a, args)) == Tally(0, 0, 0, 0, 1, 0)
  {
  }

  lemma AnswerTally(e: Event)
    requires e.RpcResult? || e.RpcReject?
    ensures TallyOf(e) == Tally(0, 0, 0, 0, -1, 0)
  {
  }

  lemma OpenScan(c: Connection, a: Audited, args: Arguments, inner: seq<Event>)
    ensures ScanAll(Between, [RpcRequest(c, a, args)] + inner) == ScanAll(Inside(a, []), inner)
    ensures Sum([RpcRequest(c, a, args)] + inner) == Plus(Tally(0, 0, 0, 0, 1, 0), Sum(inner))
  {
    hide TallyOf, ScanAll, Sum;
    var request := RpcRequest(c, a, args);
    ScanAppend(Between, [request], inner);
    ScanOne(Between, request);
    SumAppend([request], inner);
    SumOne(request);
    RequestTally(c, a, args);
  }

  /** Request, inner events and a fitting answer make a balanced, well-shaped block. */
  lemma AnsweredBlock(c: Connection, a: Audited, args: Arguments, inner: seq<Event>, answer: Event)
    requires (answer.RpcResult? || answer.RpcReject?) && answer.operation == a
    requires ScanAll(Inside(a, []), inner).Inside? && ClosesWell(ScanAll(Inside(a, []), inner), answer)
    ensures ScanAll(Between, [RpcRequest(c, a, args)] + inner + [answer]) == Between
    ensures Sum([RpcRequest(c, a, args)] + inner + [answer]) == Sum(inner)
  {
    hide TallyOf, ScanAll, Sum, ClosesWell;
    var opening := [RpcRequest(c, a, args)] + inner;
    OpenScan(c, a, args, inner);
    ScanAppend(Between, opening, [answer]);
    ScanOne(ScanAll(Between, opening), answer);
    SumAppend(opening, [answer]);
    SumOne(answer);
    AnswerTally(answer);
  }

  lemma AnsweredEffect(c: Connection, peer: Peer, a: Audited, args: Arguments, inner: seq<Event>, answer: Event, after: Peer)
    requires (answer.RpcResult? || answer.RpcReject?) && answer.operation == a && answer.connection == c
    requires ScanAll(Inside(a, []), inner).Inside? && ClosesWell(ScanAll(Inside(a, []), inner), answer)
    requires AllOwned(inner, c) && UniqueTokens(after.sessions) && after.closed == peer.closed && after.uid == peer.uid
    requires Sum(inner) == ZERO.(sessions := |after.sessions| - |peer.sessions|)
    ensures GoodEffect(c, peer, Answered(RpcRequest(c, a, args), inner, answer, after))
  {
    hide TallyOf, ScanAll, Sum, ClosesWell, UniqueTokens;
    AnsweredBlock(c, a, args, inner, answer);
    OwnedBlock(c, a, args, inner, answer);
  }

  lemma OwnedBlock(c: Connection, a: Audited, args: Arguments, inner: seq<Event>, answer: Event)
    requires (answer.RpcResult? || answer.RpcReject?) && answer.connection == c && AllOwned(inner, c)
    ensures AllOwned([RpcRequest(c, a, args)] + inner + [answer], c) && AllOwned([RpcRequest(c, a, args)] + inner, c)
  {
  }

  lemma RejectedEffect(c: Connection, peer: Peer, a: Audited, args: Arguments, answer: Event)
    requires answer.RpcReject? || (answer.RpcResult? && !ReadsOrWrites(a))
    requires UniqueTokens(peer.sessions) && answer.connection == c && answer.operation == a
    ensures GoodEffect(c, peer, Answered(RpcRequest(c, a, args), [], answer, peer))
  {
    hide GoodEffect, TallyOf;
    AnsweredEffect(c, peer, a, args, [], answer, peer);
  }

  /** Every dispatch, whatever the peer asks and the library answers, has a good effect. */
  lemma DispatchBlock(c: Connection, peer: Peer, operation: Operation, args: map<string, WireValue>, limited: bool,
                      reply: Reply, newToken: Token)
    requires UniqueTokens(peer.sessions) && !HasToken(peer.sessions, newToken)
    ensures GoodEffect(c, peer, Dispatched(c, peer, operation, args, limited, reply, newToken))
  {
    hide GoodEffect, Invoke, UniqueTokens, HasToken;
    var a := if limited then Digest(operation) else Clear(operation);
    var arguments := if limited then RedactedArguments else Arguments(args);
    var e := Dispatched(c, peer, operation, args, limited, reply, newToken);
    if limited || peer.closed || operation == Hello || peer.uid != 10001 || !Invocable(operation) {
      RejectedEffect(c, peer, a, arguments, e.events[1]);
      assert e.events == [e.events[0]] + [] + [e.events[1]];
    } else {
      InvokedEffect(c, peer, operation, args, reply, newToken);
    }
  }

  lemma InvokedEffect(c: Connection, peer: Peer, operation: Operation, args: map<string, WireValue>,
                      reply: Reply, newToken: Token)
    requires UniqueTokens(peer.sessions) && !HasToken(peer.sessions, newToken)
    requires !peer.closed && peer.uid == 10001 && Invocable(operation)
    ensures GoodEffect(c, peer, Dispatched(c, peer, operation, args, false, reply, newToken))
  {
    hide Invoke, TallyOf, ScanAll, Sum, UniqueTokens, HasToken;
    var i := Invoke(c, peer.sessions, operation, args, reply, newToken);
    var a, after := Clear(operation), peer.(sessions := i.sessions);
    InvokeBlock(c, peer.sessions, operation, args, reply, newToken);
    var request := RpcRequest(c, a, Arguments(args));
    match i.end
    case Completed(value) =>
      AnsweredEffect(c, peer, a, Arguments(args), i.events, RpcResult(c, a, value), after);
    case Rejected(kind) =>
      AnsweredEffect(c, peer, a, Arguments(args), i.events, RpcReject(c, a, kind), after);
    case Crashed =>
      OpenScan(c, a, Arguments(args), i.events);
      OwnedBlock(c, a, Arguments(args), i.events, RpcReject(c, a, VisaError));
  }

  lemma {:induction false} StreamAppend(x: seq<Event>, y: seq<Event>, c: Connection)
    ensures Stream(x + y, c) == Stream(x, c) + Stream(y, c)
  {
    hide Tracked;
    if y == [] {
      assert x + y == x;
    } else {
      assert (x + y)[..|x + y| - 1] == x + y[..|y| - 1];
      StreamAppend(x, y[..|y| - 1], c);
    }
  }

  lemma StreamOne(e: Event, c: Connection)
    ensures Stream([e], c) == if Tracked(e) && e.connection == c then [e] else []
  {
    hide Tracked;
    assert [e][..0] == [];
  }

  lemma ForcedFacts(c: Connection, s: Session)
    ensures
      var e := ForcedCleanup(c, s.token, s.kind);
      TallyOf(e) == Tally(-1, 1, 0, 0, 0, 0) && Owned(e, c) && !Tracked(e)
  {
  }

  lemma CloseFacts(c: Connection, leaked: nat)
    ensures
      var e := ConnectionClose(c, leaked);
      TallyOf(e) == Tally(0, 0, 0, 1, 0, 0) && Owned(e, c) && !Tracked(e)
  {
  }

  lemma AllOwnedAppend(x: seq<Event>, y: seq<Event>, c: Connection)
    requires AllOwned(x, c) && AllOwned(y, c)
    ensures AllOwned(x + y, c)
  {
  }

  lemma AllOwnedOne(e: Event, c: Connection)
    requires Owned(e, c)
    ensures AllOwned([e], c)
  {
  }

  /** A sequence the scan never sees, with a given balance. */
  ghost predicate Unseen(events: seq<Event>, c: Connection, t: Tally) {
    AllOwned(events, c) && (forall d :: Stream(events, d) == []) && Sum(events) == t
  }

  lemma UnseenOne(e: Event, c: Connection)
    requires Owned(e, c) && !Tracked(e)
    ensures Unseen([e], c, TallyOf(e))
  {
    hide TallyOf, Tracked, Owned;
    AllOwnedOne(e, c);
    SumOne(e);
    forall d ensures Stream([e], d) == [] {
      StreamOne(e, d);
    }
  }

  lemma UnseenAppend(x: seq<Event>, y: seq<Event>, c: Connection, s: Tally, t: Tally)
    requires Unseen(x, c, s) && Unseen(y, c, t)
    ensures Unseen(x + y, c, Plus(s, t))
  {
    hide AllOwned, Sum, Stream;
    AllOwnedAppend(x, y, c);
    SumAppend(x, y);
    forall d ensures Stream(x + y, d) == [] {
      StreamAppend(x, y, d);
    }
  }

  lemma {:induction false} CleanupTally(c: Connection, sessions: seq<Session>)
    ensures Unseen(Cleanups(c, sessions), c, Tally(-|sessions|, |sessions|, 0, 0, 0, 0))
  {
    hide TallyOf, Unseen;
    if sessions == [] {
      UnseenNone(c);
    } else {
      var last, rest := sessions[|sessions| - 1], sessions[..|sessions| - 1];
      var e := ForcedCleanup(c, last.token, last.kind);
      CleanupTally(c, rest);
      ForcedFacts(c, last);
      UnseenOne(e, c);
      UnseenAppend([e], Cleanups(c, rest), c, TallyOf(e), Tally(-|rest|, |rest|, 0, 0, 0, 0));
    }
  }

  lemma UnseenNone(c: Connection)
    ensures Unseen([], c, ZERO)
  {
  }

  /** disconnect forces every remaining session closed, once each, and closes the connection. */
  lemma DisconnectBlock(c: Connection, peer: Peer)
    ensures Unseen(Disconnected(c, peer).events, c, Tally(-|peer.sessions|, |peer.sessions|, 0, 1, 0, 0))
  {
    hide TallyOf, Unseen, Cleanups;
    var close, n := ConnectionClose(c, |peer.sessions|), |peer.sessions|;
    CleanupTally(c, peer.sessions);
    CloseFacts(c, n);
    UnseenOne(close, c);
    UnseenAppend(Cleanups(c, peer.sessions), [close], c, Tally(-n, n, 0, 0, 0, 0), TallyOf(close));
  }

  /** What disconnect leaves out of balance: nothing when it succeeds, and otherwise every close it forced
      before it raised, since the session table still holds those sessions. */
  lemma DepartedBlock(c: Connection, peer: Peer, closes: nat)
    ensures
      var e, n := Departed(c, peer, closes), |peer.sessions|;
      if closes >= n then Unseen(e.events, c, Tally(-n, n, 0, 1, 0, 0))
      else Unseen(e.events, c, Tally(0 - closes, closes, 0, 0, 0, 0))
  {
    hide Unseen, Cleanups, Disconnected;
    if closes >= |peer.sessions| {
      DisconnectBlock(c, peer);
    } else {
      CleanupTally(c, peer.sessions[|peer.sessions| - closes..]);
    }
  }
}
