/** What one connection's events say happened to each of its sessions, read strictly: any event out of
    place voids the ledger. */
module SessionLedger {
  import opened Wire
  import opened BrokerJournal
  import opened BrokerModel
  import opened BrokerBlocks

  datatype Standing = Opening | Live | Closing | Released | Forced

  datatype Entry = Entry(kind: SessionKind, standing: Standing)

  datatype Waiting = Nothing | Request(operation: Audited, arguments: Arguments)

  /** `hooked` holds the sessions an instrument hook has started for. */
  datatype Ledger = Ledger(waiting: Waiting, entries: map<Token, Entry>, hooked: set<Token>) | Void

  const EMPTY := Ledger(Nothing, map[], {})

  predicate Stands(l: Ledger, t: Token, e: Entry) { l.Ledger? && t in l.entries && l.entries[t] == e }

  function Put(l: Ledger, t: Token, e: Entry): (r: Ledger)
    requires l.Ledger?
    ensures Stands(r, t, e)
  {
    l.(entries := l.entries[t := e])
  }

  function OpenedKind(a: Audited): SessionKind { if a == Clear(OpenManager) then ResourceManager else Resource }

  predicate Opens(a: Audited) { a == Clear(OpenManager) || a == Clear(Open) }

  /** The session a request names. */
  predicate Names(arguments: Arguments, t: Token) {
    arguments.Arguments? && "session" in arguments.entries && arguments.entries["session"] == WStr(t)
  }

  function Resulted(l: Ledger, operation: Audited, result: WireValue): Ledger
    requires l.Ledger? && l.waiting.Request?
  {
    if Opens(operation) then
      if result.WStr? && Stands(l, result.text, Entry(OpenedKind(operation), Opening)) then
        Put(l.(waiting := Nothing), result.text, Entry(OpenedKind(operation), Live))
      else Void
    else if operation == Clear(Close) then
      var a := l.waiting.arguments;
      if a.Arguments? && "session" in a.entries && a.entries["session"].WStr? then
        var t := a.entries["session"].text;
        if t in l.entries && l.entries[t].standing == Closing then
          Put(l.(waiting := Nothing), t, l.entries[t].(standing := Released))
        else Void
      else Void
    else l.(waiting := Nothing)
  }

  function Step(l: Ledger, e: Event): Ledger {
    if l.Void? then Void
    else match e
      case RpcRequest(_, operation, arguments) =>
        if l.waiting.Nothing? then l.(waiting := Request(operation, arguments)) else Void
      case RpcResult(_, operation, result) =>
        if l.waiting.Request? && l.waiting.operation == operation then Resulted(l, operation, result) else Void
      case RpcReject(_, _, _) => if l.waiting.Request? then l.(waiting := Nothing) else Void
      case SessionOpen(_, t, kind) => if t !in l.entries then Put(l, t, Entry(kind, Opening)) else Void
      case SessionClose(_, t, kind) => if Stands(l, t, Entry(kind, Live)) then Put(l, t, Entry(kind, Closing)) else Void
      case ForcedCleanup(_, t, kind) => if Stands(l, t, Entry(kind, Live)) then Put(l, t, Entry(kind, Forced)) else Void
      case HookEvent(_, hook, t, _, _) =>
        if t in l.entries && l.entries[t].standing == Live then
          (if hook == Before then l.(hooked := l.hooked + {t}) else l)
        else Void
      case ConnectionClose(_, _) =>
        if forall t <- l.entries :: l.entries[t].standing == Released || l.entries[t].standing == Forced then l else Void
      case _ => l
  }

  function Fold(l: Ledger, events: seq<Event>): Ledger {
    if events == [] then l else Step(Fold(l, events[..|events| - 1]), events[|events| - 1])
  }

  lemma {:induction false} FoldAppend(l: Ledger, a: seq<Event>, b: seq<Event>)
    ensures Fold(l, a + b) == Fold(Fold(l, a), b)
  {
    hide Step;
    if b == [] {
      assert a + b == a;
    } else {
      assert (a + b)[..|a + b| - 1] == a + b[..|b| - 1];
      FoldAppend(l, a, b[..|b| - 1]);
    }
  }

  lemma FoldOne(l: Ledger, e: Event)
    ensures Fold(l, [e]) == Step(l, e)
  {
    hide Step;
    assert [e][..0] == [];
  }

  lemma FoldThree(l: Ledger, a: Event, b: Event, c: Event)
    ensures Fold(l, [a] + [b] + [c]) == Step(Step(Step(l, a), b), c)
  {
    hide Step;
    FoldAppend(l, [a] + [b], [c]);
    FoldAppend(l, [a], [b]);
    FoldOne(l, a);
    FoldOne(Step(l, a), b);
    FoldOne(Step(Step(l, a), b), c);
  }

  // ---- The ledger between calls ----------------------------------------------------------

  /** The ledger of a connection at rest: its live entries are the session table. */
  ghost predicate AtRest(l: Ledger, sessions: seq<Session>) {
    && l.Ledger? && l.waiting == Nothing && l.hooked <= l.entries.Keys
    && (forall t <- l.entries :: l.entries[t].standing != Opening && l.entries[t].standing != Closing)
    && (forall t <- l.entries :: l.entries[t].standing == Live ==> HasToken(sessions, t))
    && (forall i :: 0 <= i < |sessions| ==> Stands(l, sessions[i].token, Entry(sessions[i].kind, Live)))
  }

  lemma {:induction false} KindOfMember(sessions: seq<Session>, token: Token)
    requires HasToken(sessions, token)
    ensures exists i :: 0 <= i < |sessions| && sessions[i].token == token && sessions[i].kind == KindOf(sessions, token)
  {
    var n := |sessions| - 1;
    if sessions[n].token != token {
      assert sessions == sessions[..n] + [sessions[n]];
      KindOfMember(sessions[..n], token);
    }
  }

  lemma HeldIsLive(l: Ledger, sessions: seq<Session>, token: Token)
    requires AtRest(l, sessions) && HasToken(sessions, token)
    ensures Stands(l, token, Entry(KindOf(sessions, token), Live))
  {
    hide KindOf;
    KindOfMember(sessions, token);
  }

  // ---- Blocks ----------------------------------------------------------------------------

  lemma OpenFold(l: Ledger, c: Connection, a: Audited, args: Arguments, t: Token)
    requires l.Ledger? && l.waiting == Nothing && Opens(a) && t !in l.entries
    ensures
      Fold(l, [RpcRequest(c, a, args)] + [SessionOpen(c, t, OpenedKind(a))] + [RpcResult(c, a, WStr(t))])
      == Put(l, t, Entry(OpenedKind(a), Live))
  {
    hide Fold;
    var r, o, d := RpcRequest(c, a, args), SessionOpen(c, t, OpenedKind(a)), RpcResult(c, a, WStr(t));
    FoldThree(l, r, o, d);
    var l1 := l.(waiting := Request(a, args));
    var l2 := Put(l1, t, Entry(OpenedKind(a), Opening));
    assert Step(l, r) == l1;
    assert Step(l1, o) == l2;
    assert l2.entries[t := Entry(OpenedKind(a), Live)] == l.entries[t := Entry(OpenedKind(a), Live)];
  }

  lemma CloseFold(l: Ledger, c: Connection, args: Arguments, t: Token, kind: SessionKind)
    requires l.Ledger? && l.waiting == Nothing && Stands(l, t, Entry(kind, Live)) && Names(args, t)
    ensures
      Fold(l, [RpcRequest(c, Clear(Close), args)] + [SessionClose(c, t, kind)] + [RpcResult(c, Clear(Close), WNone)])
      == Put(l, t, Entry(kind, Released))
  {
    hide Fold;
    var r, o, d := RpcRequest(c, Clear(Close), args), SessionClose(c, t, kind), RpcResult(c, Clear(Close), WNone);
    FoldThree(l, r, o, d);
    var l1 := l.(waiting := Request(Clear(Close), args));
    var l2 := Put(l1, t, Entry(kind, Closing));
    assert Step(l, r) == l1;
    assert Step(l1, o) == l2;
    assert l2.entries[t := Entry(kind, Released)] == l.entries[t := Entry(kind, Released)];
  }

  /** Events that change no session's standing. */
  predicate Plain(e: Event) {
    || e.QueryRequest? || e.QueryResult? || e.QueryReject? || e.InvalidAccess?
    || e.ScpiWrite? || e.ScpiWriteResult? || e.ScpiRead? || e.ScpiReadResult?
  }

  ghost predicate Calm(sessions: seq<Session>, events: seq<Event>) {
    forall i :: 0 <= i < |events| ==> Plain(events[i]) || (events[i].HookEvent? && HasToken(sessions, events[i].token))
  }

  ghost predicate SameEntries(l: Ledger, m: Ledger) {
    l.Ledger? && m.Ledger? && m.waiting == l.waiting && m.entries == l.entries
    && (l.hooked <= l.entries.Keys ==> m.hooked <= l.entries.Keys)
  }

  lemma {:induction false} CalmFold(l: Ledger, sessions: seq<Session>, events: seq<Event>)
    requires l.Ledger? && AtRest(l.(waiting := Nothing), sessions) && Calm(sessions, events)
    ensures SameEntries(l, Fold(l, events))
  {
    hide Step, AtRest, KindOf;
    if events != [] {
      var init, last := events[..|events| - 1], events[|events| - 1];
      CalmFold(l, sessions, init);
      if Plain(last) {
        PlainStep(Fold(l, init), last);
      } else {
        HeldIsLive(l.(waiting := Nothing), sessions, last.token);
        HookStep(Fold(l, init), last);
      }
    }
  }

  lemma PlainStep(l: Ledger, e: Event)
    requires Plain(e)
    ensures Step(l, e) == l
  {
  }

  lemma HookStep(l: Ledger, e: Event)
    requires l.Ledger? && e.HookEvent? && e.token in l.entries && l.entries[e.token].standing == Live
    ensures Step(l, e) == l.(hooked := l.hooked + if e.hook == Before then {e.token} else {})
  {
  }

  /** A call that neither opens nor closes leaves every standing alone. */
  lemma CalmBlock(l: Ledger, sessions: seq<Session>, c: Connection, a: Audited, args: Arguments,
                  inner: seq<Event>, answer: Event)
    requires AtRest(l, sessions) && Calm(sessions, inner)
    requires (answer.RpcResult? && answer.operation == a && !Opens(a) && a != Clear(Close)) || answer.RpcReject?
    ensures SameEntries(l, Fold(l, [RpcRequest(c, a, args)] + inner + [answer]))
  {
    hide Fold, AtRest, Calm;
    var r := RpcRequest(c, a, args);
    RestFacts(l, sessions);
    var l1 := l.(waiting := Request(a, args));
    FoldAppend(l, [r] + inner, [answer]);
    FoldAppend(l, [r], inner);
    FoldOne(l, r);
    RequestStep(l, c, a, args);
    assert l1.(waiting := Nothing) == l;
    CalmFold(l1, sessions, inner);
    var l2 := Fold(l1, inner);
    FoldOne(l2, answer);
    AnswerStep(l2, answer);
  }

  lemma RestFacts(l: Ledger, sessions: seq<Session>)
    requires AtRest(l, sessions)
    ensures l.Ledger? && l.waiting == Nothing && l.hooked <= l.entries.Keys
  {
  }

  lemma RequestStep(l: Ledger, c: Connection, a: Audited, args: Arguments)
    requires l.Ledger? && l.waiting == Nothing
    ensures Step(l, RpcRequest(c, a, args)) == l.(waiting := Request(a, args))
  {
  }

  lemma AnswerStep(l: Ledger, answer: Event)
    requires l.Ledger? && l.waiting.Request?
    requires (answer.RpcResult? && answer.operation == l.waiting.operation
              && !Opens(answer.operation) && answer.operation != Clear(Close)) || answer.RpcReject?
    ensures Step(l, answer) == l.(waiting := Nothing)
  {
  }

  // ---- dispatch --------------------------------------------------------------------------

  /** The three things _invoke can do to the session table when it does not crash. */
  ghost predicate DidOpen(c: Connection, sessions: seq<Session>, operation: Operation, newToken: Token, i: Invocation) {
    && Opens(Clear(operation)) && i.end == Completed(WStr(newToken))
    && i.events == [SessionOpen(c, newToken, OpenedKind(Clear(operation)))]
    && |i.sessions| == |sessions| + 1 && i.sessions[..|sessions|] == sessions
    && i.sessions[|sessions|].token == newToken && i.sessions[|sessions|].kind == OpenedKind(Clear(operation))
  }

  ghost predicate DidClose(c: Connection, sessions: seq<Session>, operation: Operation, args: map<string, WireValue>, i: Invocation) {
    && operation == Close && i.end == Completed(WNone)
    && "session" in args && args["session"].WStr? && HasToken(sessions, args["session"].text)
    && i.events == [SessionClose(c, args["session"].text, KindOf(sessions, args["session"].text))]
    && i.sessions == Without(sessions, args["session"].text)
  }

  ghost predicate DidNeither(sessions: seq<Session>, operation: Operation, i: Invocation) {
    && i.sessions == sessions && Calm(sessions, i.events)
    && (i.end.Completed? ==> !Opens(Clear(operation)) && operation != Close)
  }

  lemma HooksCalm(c: Connection, sessions: seq<Session>, token: Token, hooks: seq<HookReport>, answered: bool)
    requires HasToken(sessions, token)
    ensures
      var attempt := [ScpiWrite(c)] + HookEvents(c, token, hooks);
      Calm(sessions, attempt) && Calm(sessions, attempt + [ScpiWriteResult(c)])
  {
    hide HasToken;
  }

  lemma InvokeCases(c: Connection, sessions: seq<Session>, operation: Operation, args: map<string, WireValue>,
                    reply: Reply, newToken: Token)
    requires Invocable(operation)
    ensures
      var i := Invoke(c, sessions, operation, args, reply, newToken);
      || DidOpen(c, sessions, operation, newToken, i)
      || DidClose(c, sessions, operation, args, i)
      || DidNeither(sessions, operation, i)
  {
    hide WellTyped, KindOf, Without, HasToken;
    var i := Invoke(c, sessions, operation, args, reply, newToken);
    if operation == Write && "session" in args && args["session"].WStr? && HasToken(sessions, args["session"].text) {
      HooksCalm(c, sessions, args["session"].text, reply.hooks, reply.Returned?);
    }
  }

  lemma OpenKeeps(l: Ledger, sessions: seq<Session>, after: seq<Session>)
    requires AtRest(l, sessions) && |after| == |sessions| + 1 && after[..|sessions|] == sessions
    requires after[|sessions|].token !in l.entries
    ensures AtRest(Put(l, after[|sessions|].token, Entry(after[|sessions|].kind, Live)), after)
  {
    var s := after[|sessions|];
    var m := Put(l, s.token, Entry(s.kind, Live));
    forall t <- m.entries | m.entries[t].standing == Live ensures HasToken(after, t) {
      if t == s.token {
        assert after[|sessions|] in after;
      } else {
        var x :| x in sessions && x.token == t;
        assert x in after[..|sessions|];
      }
    }
    forall i | 0 <= i < |after| ensures Stands(m, after[i].token, Entry(after[i].kind, Live)) {
      if i < |sessions| {
        assert after[..|sessions|][i] == sessions[i];
      }
    }
  }

  lemma CloseKeeps(l: Ledger, sessions: seq<Session>, token: Token)
    requires AtRest(l, sessions) && HasToken(sessions, token)
    ensures AtRest(Put(l, token, Entry(KindOf(sessions, token), Released)), Without(sessions, token))
  {
    hide KindOf, Without;
    var after, m := Without(sessions, token), Put(l, token, Entry(KindOf(sessions, token), Released));
    HeldIsLive(l, sessions, token);
    WithoutMembers(sessions, token);
    forall t <- m.entries | m.entries[t].standing == Live ensures HasToken(after, t) {
      var x :| x in sessions && x.token == t;
      assert x in after;
    }
    forall i | 0 <= i < |after| ensures Stands(m, after[i].token, Entry(after[i].kind, Live)) {
      assert after[i] in sessions;
    }
  }

  lemma SameKeeps(l: Ledger, m: Ledger, sessions: seq<Session>)
    requires AtRest(l, sessions) && SameEntries(l, m)
    ensures AtRest(m, sessions)
  {
  }

  /** What one call may do to a ledger at rest: it stays at rest, with at most the new token added. */
  ghost predicate Kept(l: Ledger, m: Ledger, after: seq<Session>, newToken: Token) {
    AtRest(m, after) && l.Ledger? && m.entries.Keys <= l.entries.Keys + {newToken}
  }

  /** A dispatch that did not crash keeps the ledger at rest and in step with the session table. */
  lemma DispatchKeeps(l: Ledger, c: Connection, peer: Peer, operation: Operation, args: map<string, WireValue>, limited: bool,
                      reply: Reply, newToken: Token)
    requires AtRest(l, peer.sessions) && newToken !in l.entries
    ensures
      var e := Dispatched(c, peer, operation, args, limited, reply, newToken);
      !e.crashed ==> Kept(l, Fold(l, e.events), e.peer.sessions, newToken)
  {
    hide Fold, AtRest, Invoke, Step;
    var e := Dispatched(c, peer, operation, args, limited, reply, newToken);
    var a := if limited then Digest(operation) else Clear(operation);
    var arguments := if limited then RedactedArguments else Arguments(args);
    if limited || peer.closed || operation == Hello || peer.uid != 10001 || !Invocable(operation) {
      CalmBlock(l, peer.sessions, c, a, arguments, [], e.events[1]);
      assert e.events == [e.events[0]] + [] + [e.events[1]];
      SameKeeps(l, Fold(l, e.events), peer.sessions);
    } else {
      InvokedKeeps(l, c, peer, operation, args, reply, newToken);
    }
  }

  lemma InvokedKeeps(l: Ledger, c: Connection, peer: Peer, operation: Operation, args: map<string, WireValue>,
                     reply: Reply, newToken: Token)
    requires AtRest(l, peer.sessions) && newToken !in l.entries && !peer.closed && peer.uid == 10001 && Invocable(operation)
    ensures
      var e := Dispatched(c, peer, operation, args, false, reply, newToken);
      !e.crashed ==> Kept(l, Fold(l, e.events), e.peer.sessions, newToken)
  {
    hide Fold, AtRest, Invoke, Step, KindOf, Without, HasToken, Calm;
    var e := Dispatched(c, peer, operation, args, false, reply, newToken);
    var i := Invoke(c, peer.sessions, operation, args, reply, newToken);
    var a := Clear(operation);
    InvokeCases(c, peer.sessions, operation, args, reply, newToken);
    RestFacts(l, peer.sessions);
    if i.end.Crashed? {
    } else if DidOpen(c, peer.sessions, operation, newToken, i) {
      OpenFold(l, c, a, Arguments(args), newToken);
      OpenKeeps(l, peer.sessions, i.sessions);
    } else if DidClose(c, peer.sessions, operation, args, i) {
      var t := args["session"].text;
      HeldIsLive(l, peer.sessions, t);
      CloseFold(l, c, Arguments(args), t, KindOf(peer.sessions, t));
      CloseKeeps(l, peer.sessions, t);
    } else {
      var answer := e.events[|e.events| - 1];
      assert e.events == [RpcRequest(c, a, Arguments(args))] + i.events + [answer];
      CalmBlock(l, peer.sessions, c, a, Arguments(args), i.events, answer);
      SameKeeps(l, Fold(l, e.events), peer.sessions);
    }
  }

  // ---- disconnect ------------------------------------------------------------------------

  lemma ForceOne(l: Ledger, sessions: seq<Session>, c: Connection)
    requires AtRest(l, sessions) && UniqueTokens(sessions) && sessions != []
    ensures
      var last := sessions[|sessions| - 1];
      var m := Step(l, ForcedCleanup(c, last.token, last.kind));
      AtRest(m, sessions[..|sessions| - 1]) && m.entries.Keys == l.entries.Keys
  {
    var rest, last := sessions[..|sessions| - 1], sessions[|sessions| - 1];
    var m := Put(l, last.token, Entry(last.kind, Forced));
    assert Step(l, ForcedCleanup(c, last.token, last.kind)) == m;
    forall t <- m.entries | m.entries[t].standing == Live ensures HasToken(rest, t) {
      var x :| x in sessions && x.token == t;
      assert x in rest;
    }
    forall i | 0 <= i < |rest| ensures Stands(m, rest[i].token, Entry(rest[i].kind, Live)) {
      assert rest[i] == sessions[i];
    }
  }

  lemma {:induction false} CleanupFold(l: Ledger, c: Connection, sessions: seq<Session>)
    requires AtRest(l, sessions) && UniqueTokens(sessions)
    ensures
      var m := Fold(l, Cleanups(c, sessions));
      AtRest(m, []) && m.entries.Keys == l.entries.Keys
    decreases |sessions|
  {
    hide Step, AtRest;
    if sessions != [] {
      var rest, last := sessions[..|sessions| - 1], sessions[|sessions| - 1];
      var e := ForcedCleanup(c, last.token, last.kind);
      ForceOne(l, sessions, c);
      FoldAppend(l, [e], Cleanups(c, rest));
      FoldOne(l, e);
      CleanupFold(Step(l, e), c, rest);
    }
  }

  /** disconnect leaves no session live: each was released by its owner or forced. */
  lemma DisconnectKeeps(l: Ledger, c: Connection, peer: Peer)
    requires AtRest(l, peer.sessions) && UniqueTokens(peer.sessions)
    ensures
      var m := Fold(l, Disconnected(c, peer).events);
      AtRest(m, []) && m.entries.Keys == l.entries.Keys
  {
    hide Fold, Cleanups;
    CleanupFold(l, c, peer.sessions);
    var close := ConnectionClose(c, |peer.sessions|);
    FoldAppend(l, Cleanups(c, peer.sessions), [close]);
    FoldOne(Fold(l, Cleanups(c, peer.sessions)), close);
  }
}
