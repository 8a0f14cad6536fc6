/** What a caller of the broker is answered, when its session table changes and what the journal tells of the call,
    read off the request, the table and the library's answer (broker.py, dispatch and _invoke). */
module BrokerAnswers {
  import opened Wrappers
  import opened Wire
  import opened BrokerJournal
  import opened BrokerModel
  import opened BrokerBlocks

  /** What the caller of dispatch gets: a value, an error kind, or the exception. */
  datatype Answer = Accepted(value: WireValue) | Denied(kind: ErrorKind) | Raised

  /** The value or error kind a call's last record tells. */
  function AnswerOf(e: Effect): Answer {
    if e.crashed || e.events == [] then Raised
    else
      match e.events[|e.events| - 1]
      case RpcResult(_, _, value) => Accepted(value)
      case RpcReject(_, _, kind) => Denied(kind)
      case _ => Raised
  }

  // ---- Arguments -------------------------------------------------------------------------

  /** What an argument must be: any value, a number not below a bound, any number, bytes, or a non-empty text. */
  datatype Slot = Anything | AtLeast(minimum: int) | Number | Octets | Text

  /** The argument names of each operation on a session, with what each must be. */
  function Schema(operation: Operation): map<string, Slot> {
    match operation
    case ListResources => map["session" := Text, "query" := Text]
    case Open => map["session" := Text, "resource_name" := Text, "access_mode" := AtLeast(0), "open_timeout" := AtLeast(0)]
    case Close => map["session" := Text]
    case Read => map["session" := Text, "count" := AtLeast(1)]
    case Write => map["session" := Text, "data" := Octets]
    case GetAttribute => map["session" := Text, "attribute" := Number]
    case SetAttribute => map["session" := Text, "attribute" := Number, "attribute_state" := Anything]
    case DisableEvent => map["session" := Text, "event_type" := Number, "mechanism" := Number]
    case DiscardEvents => map["session" := Text, "event_type" := Number, "mechanism" := Number]
    case _ => map[]
  }

  predicate Fills(slot: Slot, v: WireValue) {
    match slot
    case Anything => true
    case AtLeast(minimum) => v.WInt? && minimum <= v.number
    case Number => v.WInt?
    case Octets => v.WBytes?
    case Text => v.WStr? && v.text != ""
  }

  /** The names are the schema's, and each value but the session's, which is looked up instead, fills its slot. */
  predicate Fits(operation: Operation, args: map<string, WireValue>) {
    args.Keys == Schema(operation).Keys && forall k <- args :: k == "session" || Fills(Schema(operation)[k], args[k])
  }

  predicate OnSession(operation: Operation) { !operation.Hello? && !operation.Other? && !operation.OpenManager? }

  lemma FitsIff(operation: Operation, args: map<string, WireValue>)
    requires OnSession(operation)
    ensures WellTyped(operation, args) <==> Fits(operation, args)
  {
    var s := Schema(operation);
    match operation
    case ListResources => assert s.Keys == {"session", "query"};
    case Open => assert s.Keys == {"session", "resource_name", "access_mode", "open_timeout"};
    case Close => assert s.Keys == {"session"};
    case Read => assert s.Keys == {"session", "count"};
    case Write => assert s.Keys == {"session", "data"};
    case GetAttribute => assert s.Keys == {"session", "attribute"};
    case SetAttribute => assert s.Keys == {"session", "attribute", "attribute_state"};
    case DisableEvent => assert s.Keys == {"session", "event_type", "mechanism"};
    case DiscardEvents => assert s.Keys == {"session", "event_type", "mechanism"};
  }

  // ---- Who is served ---------------------------------------------------------------------

  const CANDIDATE := 10001
  const READINESS := 11001

  /** Neither a limit nor an earlier disconnect stops the call. */
  predicate Heard(peer: Peer, limited: bool) { !limited && !peer.closed }

  predicate Holds(peer: Peer, args: map<string, WireValue>) {
    "session" in args && args["session"].WStr? && exists s <- peer.sessions :: s.token == args["session"].text
  }

  /** The library is asked. */
  predicate Asked(peer: Peer, operation: Operation, args: map<string, WireValue>, limited: bool) {
    && Heard(peer, limited) && peer.uid == CANDIDATE
    && ((operation.OpenManager? && args.Keys == {}) || (OnSession(operation) && Holds(peer, args) && Fits(operation, args)))
  }

  /** What a call that the library answered with `value` is answered. */
  function Told(operation: Operation, value: WireValue, newToken: Token): WireValue {
    if operation.OpenManager? || operation.Open? then WStr(newToken)
    else if operation.Read? || operation.Write? || operation.GetAttribute? || operation.ListResources? then value
    else WNone
  }

  predicate BadArguments(peer: Peer, operation: Operation, args: map<string, WireValue>, limited: bool) {
    && Heard(peer, limited)
    && ((operation.Hello? && args.Keys != {})
        || (operation.OpenManager? && peer.uid == CANDIDATE && args.Keys != {})
        || (OnSession(operation) && peer.uid == CANDIDATE && Holds(peer, args) && !Fits(operation, args)))
  }

  predicate NoMatch(operation: Operation, reply: Reply) { operation.ListResources? && reply.Returned? && reply.value == WTuple([]) }

  /** Every answer, with exactly the cases in which it is given. */
  predicate Answers(peer: Peer, operation: Operation, args: map<string, WireValue>, limited: bool, reply: Reply,
                    newToken: Token, r: Answer)
  {
    var asked := Asked(peer, operation, args, limited);
    && (r == Denied(RequestLimit) <==> limited)
    && (r == Denied(ClosedConnection) <==> !limited && peer.closed)
    && (r == Denied(Unauthorized) <==>
          Heard(peer, limited) && if operation.Hello? then args.Keys == {} && peer.uid !in {CANDIDATE, READINESS} else peer.uid != CANDIDATE)
    && (r == Denied(UnknownOperation) <==> Heard(peer, limited) && peer.uid == CANDIDATE && operation.Other?)
    && (r == Denied(InvalidSession) <==> WrongSession(peer, operation, args, limited))
    && (r == Denied(InvalidArguments) <==>
          BadArguments(peer, operation, args, limited) || (asked && reply.Refused? && reply.why == InvalidArgument))
    && (r == Denied(VisaError) <==>
          asked && (NoMatch(operation, reply) || (reply.Refused? && (reply.why == VisaIOError || reply.why == CommandRejected))))
    && (r == Denied(InvalidResourceQuery) <==> asked && reply.Refused? && reply.why == ResourceQueryRejected)
    && (r == Raised <==> asked && reply.Failed?)
    && (asked && reply.Returned? && !NoMatch(operation, reply) ==> r == Accepted(Told(operation, reply.value, newToken)))
    && (Heard(peer, limited) && operation.Hello? && args.Keys == {} && peer.uid in {CANDIDATE, READINESS}
        ==> r == Accepted(OPERATION_NAMES))
  }

  // ---- hello -----------------------------------------------------------------------------

  /** The name of an operation on the wire. */
  function WireName(operation: Operation): string {
    match operation
    case Hello => "hello"
    case OpenManager => "open_default_resource_manager"
    case ListResources => "list_resources"
    case Open => "open"
    case Close => "close"
    case Read => "read"
    case Write => "write"
    case GetAttribute => "get_attribute"
    case SetAttribute => "set_attribute"
    case DisableEvent => "disable_event"
    case DiscardEvents => "discard_events"
    case Other(name) => name
  }

  /** Lexicographic order of texts. */
  predicate Earlier(a: string, b: string) {
    b != [] && (a == [] || a[0] < b[0] || (a[0] == b[0] && Earlier(a[1..], b[1..])))
  }

  /** hello answers the names of the operations it serves, each once, in alphabetical order. */
  lemma HelloNames()
    ensures OPERATION_NAMES.WTuple? && |OPERATION_NAMES.items| == 10 && forall i :: 0 <= i < 10 ==> OPERATION_NAMES.items[i].WStr?
    ensures forall i :: 0 <= i < 9 ==> Earlier(OPERATION_NAMES.items[i].text, OPERATION_NAMES.items[i + 1].text)
    ensures forall operation: Operation :: Invocable(operation) ==> WStr(WireName(operation)) in OPERATION_NAMES.items
  {
    hide Earlier;
    NamesAre();
    Alphabetical();
    AllNamed();
  }

  lemma NamesAre()
    ensures OPERATION_NAMES.WTuple?
    ensures
      var n := OPERATION_NAMES.items;
      && |n| == 10
      && n[0] == WStr("close") && n[1] == WStr("disable_event") && n[2] == WStr("discard_events") && n[3] == WStr("get_attribute")
      && n[4] == WStr("list_resources") && n[5] == WStr("open") && n[6] == WStr("open_default_resource_manager")
      && n[7] == WStr("read") && n[8] == WStr("set_attribute") && n[9] == WStr("write")
  {
  }

  lemma Alphabetical()
    ensures Earlier("close", "disable_event") && Earlier("disable_event", "discard_events")
    ensures Earlier("discard_events", "get_attribute") && Earlier("get_attribute", "list_resources")
    ensures Earlier("list_resources", "open") && Earlier("open", "open_default_resource_manager")
    ensures Earlier("open_default_resource_manager", "read") && Earlier("read", "set_attribute") && Earlier("set_attribute", "write")
  {
    hide Earlier;
    FirstDiffers("close", "disable_event", 0);
    FirstDiffers("disable_event", "discard_events", 3);
    FirstDiffers("discard_events", "get_attribute", 0);
    FirstDiffers("get_attribute", "list_resources", 0);
    FirstDiffers("list_resources", "open", 0);
    FirstDiffers("open", "open_default_resource_manager", 4);
    FirstDiffers("open_default_resource_manager", "read", 0);
    FirstDiffers("read", "set_attribute", 0);
    FirstDiffers("set_attribute", "write", 0);
  }

  lemma AllNamed()
    ensures forall operation: Operation :: Invocable(operation) ==> WStr(WireName(operation)) in OPERATION_NAMES.items
  {
    hide OPERATION_NAMES;
    NamesAre();
    var n := OPERATION_NAMES.items;
    forall operation: Operation | Invocable(operation) ensures WStr(WireName(operation)) in n {
      assert n[0] in n && n[1] in n && n[2] in n && n[3] in n && n[4] in n;
      assert n[5] in n && n[6] in n && n[7] in n && n[8] in n && n[9] in n;
    }
  }

  lemma {:induction false} FirstDiffers(a: string, b: string, k: nat)
    requires k <= |a| && k < |b| && a[..k] == b[..k] && (k == |a| || a[k] < b[k])
    ensures Earlier(a, b)
  {
    if k > 0 {
      assert a[..k][0] == a[0] && b[..k][0] == b[0];
      assert a[1..][..k - 1] == a[..k][1..] && b[1..][..k - 1] == b[..k][1..];
      FirstDiffers(a[1..], b[1..], k - 1);
    }
  }

  // ---- The session table -----------------------------------------------------------------

  /** The table after a call: a session the library opened is added at the end with its handle, one it closed is
      taken out, and nothing else ever changes. */
  ghost predicate Tables(peer: Peer, operation: Operation, args: map<string, WireValue>, limited: bool, reply: Reply,
                         newToken: Token, after: Peer)
  {
    var served := Asked(peer, operation, args, limited) && reply.Returned?;
    && after.uid == peer.uid && after.closed == peer.closed
    && (served && (operation.OpenManager? || operation.Open?) ==>
          after.sessions == peer.sessions
            + [Session(newToken, reply.handle, if operation.OpenManager? then ResourceManager else Resource)])
    && (served && operation.Close? ==>
          forall i :: 0 <= i < |peer.sessions| && peer.sessions[i].token == args["session"].text
            ==> after.sessions == peer.sessions[..i] + peer.sessions[i + 1..])
    && (!served || !(operation.OpenManager? || operation.Open? || operation.Close?) ==> after.sessions == peer.sessions)
  }

  lemma {:induction false} WithoutOthers(sessions: seq<Session>, token: Token)
    requires forall s <- sessions :: s.token != token
    ensures Without(sessions, token) == sessions
  {
    if sessions != [] {
      WithoutOthers(sessions[..|sessions| - 1], token);
      assert sessions == sessions[..|sessions| - 1] + [sessions[|sessions| - 1]];
    }
  }

  lemma {:induction false} WithoutOne(sessions: seq<Session>, token: Token, i: nat)
    requires UniqueTokens(sessions) && i < |sessions| && sessions[i].token == token
    ensures Without(sessions, token) == sessions[..i] + sessions[i + 1..]
  {
    var n := |sessions| - 1;
    var init := sessions[..n];
    assert sessions == init + [sessions[n]];
    if i == n {
      WithoutOthers(init, token);
    } else {
      WithoutOne(init, token, i);
      assert sessions[i + 1..] == init[i + 1..] + [sessions[n]];
      assert init[..i] == sessions[..i];
    }
  }

  // ---- The journal -----------------------------------------------------------------------

  /** What a call the library was asked for writes between its request and its answer. */
  ghost predicate Served(c: Connection, peer: Peer, operation: Operation, args: map<string, WireValue>, reply: Reply,
                         newToken: Token, inner: seq<Event>)
    requires OnSession(operation) ==> Holds(peer, args)
  {
    match operation
    case Read => inner == [ScpiRead(c)] + (if reply.Returned? then [ScpiReadResult(c)] else [])
    case Write => Written(c, args["session"].text, reply, inner)
    case ListResources =>
      if reply.Refused? && reply.why != ResourceQueryRejected then inner == []
      else if reply.Failed? then inner == [QueryRequest(c)]
      else inner == [QueryRequest(c), if reply.Refused? || NoMatch(operation, reply) then QueryReject(c) else QueryResult(c)]
    case OpenManager => inner == if reply.Returned? then [SessionOpen(c, newToken, ResourceManager)] else []
    case Open => inner == if reply.Returned? then [SessionOpen(c, newToken, Resource)] else []
    case Close =>
      if reply.Returned? then
        && |inner| == 1 && inner[0].SessionClose? && inner[0].connection == c && inner[0].token == args["session"].text
        && forall s <- peer.sessions :: s.token == inner[0].token ==> s.kind == inner[0].sessionKind
      else inner == []
    case _ => inner == []
  }

  /** The attempt, every hook that ran, in order, and the result if there is one. */
  ghost predicate Written(c: Connection, token: Token, reply: Reply, inner: seq<Event>) {
    var n := |reply.hooks|;
    && |inner| == 1 + n + (if reply.Returned? then 1 else 0) && inner[0] == ScpiWrite(c)
    && (forall i :: 0 <= i < n ==>
          inner[1 + i] == HookEvent(c, reply.hooks[i].kind, token, reply.hooks[i].resource, reply.hooks[i].role))
    && (reply.Returned? ==> inner[1 + n] == ScpiWriteResult(c))
  }

  predicate WrongSession(peer: Peer, operation: Operation, args: map<string, WireValue>, limited: bool) {
    Heard(peer, limited) && peer.uid == CANDIDATE && OnSession(operation) && !Holds(peer, args)
  }

  ghost predicate Tells(c: Connection, peer: Peer, operation: Operation, args: map<string, WireValue>, limited: bool,
                        reply: Reply, newToken: Token, inner: seq<Event>)
  {
    if Asked(peer, operation, args, limited) then Served(c, peer, operation, args, reply, newToken, inner)
    else inner == if WrongSession(peer, operation, args, limited) then [InvalidAccess(c)] else []
  }

  /** The records of a call: the request, in clear unless a limit was exceeded, what the call did, and the answer. */
  ghost predicate Records(c: Connection, operation: Operation, args: map<string, WireValue>, limited: bool, r: Answer,
                          inner: seq<Event>, events: seq<Event>)
  {
    var audited := if limited then Digest(operation) else Clear(operation);
    events == [RpcRequest(c, audited, if limited then RedactedArguments else Arguments(args))] + inner
      + match r
        case Accepted(value) => [RpcResult(c, audited, value)]
        case Denied(kind) => [RpcReject(c, audited, kind)]
        case Raised => []
  }

  ghost predicate Journalled(c: Connection, peer: Peer, operation: Operation, args: map<string, WireValue>, limited: bool,
                             reply: Reply, newToken: Token, r: Answer, events: seq<Event>)
  {
    exists inner ::
      Tells(c, peer, operation, args, limited, reply, newToken, inner) && Records(c, operation, args, limited, r, inner, events)
  }

  // ---- One call --------------------------------------------------------------------------

  function EndAnswer(end: End): Answer {
    match end
    case Completed(value) => Accepted(value)
    case Rejected(kind) => Denied(kind)
    case Crashed => Raised
  }

  lemma HoldsIff(peer: Peer, args: map<string, WireValue>)
    ensures Holds(peer, args) <==> "session" in args && args["session"].WStr? && HasToken(peer.sessions, args["session"].text)
  {
  }

  /** What _invoke answers a candidate whose connection is open. */
  lemma InvokeAnswers(c: Connection, peer: Peer, operation: Operation, args: map<string, WireValue>, reply: Reply, newToken: Token)
    requires Invocable(operation) && peer.uid == CANDIDATE && !peer.closed
    ensures Answers(peer, operation, args, false, reply, newToken, EndAnswer(Invoke(c, peer.sessions, operation, args, reply, newToken).end))
  {
    hide WellTyped, Fits, KindOf, Without, HasToken, Holds, OPERATION_NAMES, HookEvents;
    HoldsIff(peer, args);
    if OnSession(operation) {
      FitsIff(operation, args);
    }
  }

  /** What it does to the table. */
  lemma InvokeTables(c: Connection, peer: Peer, operation: Operation, args: map<string, WireValue>, reply: Reply, newToken: Token)
    requires Invocable(operation) && peer.uid == CANDIDATE && !peer.closed && UniqueTokens(peer.sessions)
    ensures
      var i := Invoke(c, peer.sessions, operation, args, reply, newToken);
      Tables(peer, operation, args, false, reply, newToken, peer.(sessions := i.sessions))
  {
    hide WellTyped, Fits, KindOf, Without, HasToken, Holds, UniqueTokens, HookEvents;
    HoldsIff(peer, args);
    if OnSession(operation) {
      FitsIff(operation, args);
      if operation.Close? && Holds(peer, args) {
        var token := args["session"].text;
        forall k | 0 <= k < |peer.sessions| && peer.sessions[k].token == token
          ensures Without(peer.sessions, token) == peer.sessions[..k] + peer.sessions[k + 1..]
        {
          WithoutOne(peer.sessions, token, k);
        }
      }
    }
  }

  /** And what it writes. */
  lemma InvokeTells(c: Connection, peer: Peer, operation: Operation, args: map<string, WireValue>, reply: Reply, newToken: Token)
    requires Invocable(operation) && peer.uid == CANDIDATE && !peer.closed && UniqueTokens(peer.sessions)
    ensures Tells(c, peer, operation, args, false, reply, newToken, Invoke(c, peer.sessions, operation, args, reply, newToken).events)
  {
    hide WellTyped, Fits, KindOf, Without, HasToken, Holds, UniqueTokens, Written, HookEvents;
    HoldsIff(peer, args);
    if OnSession(operation) {
      FitsIff(operation, args);
      if Holds(peer, args) {
        var token := args["session"].text;
        WrittenIs(c, token, reply);
        forall s <- peer.sessions | s.token == token ensures s.kind == KindOf(peer.sessions, token) {
          KindOfOnly(peer.sessions, s);
        }
      }
    }
  }

  lemma WrittenIs(c: Connection, token: Token, reply: Reply)
    ensures
      var attempt := [ScpiWrite(c)] + HookEvents(c, token, reply.hooks);
      Written(c, token, reply, if reply.Returned? then attempt + [ScpiWriteResult(c)] else attempt)
  {
    var hooks, n := HookEvents(c, token, reply.hooks), |reply.hooks|;
    hide HookEvents;
    var attempt := [ScpiWrite(c)] + hooks;
    var inner := if reply.Returned? then attempt + [ScpiWriteResult(c)] else attempt;
    assert inner[..1 + n] == attempt;
    forall i | 0 <= i < n ensures inner[1 + i] == hooks[i] {
      assert inner[1 + i] == inner[..1 + n][1 + i];
    }
  }

  lemma {:induction false} KindOfOnly(sessions: seq<Session>, s: Session)
    requires UniqueTokens(sessions) && s in sessions
    ensures HasToken(sessions, s.token) && KindOf(sessions, s.token) == s.kind
  {
    var n := |sessions| - 1;
    var init := sessions[..n];
    assert sessions == init + [sessions[n]];
    if sessions[n].token != s.token {
      KindOfOnly(init, s);
    } else {
      var i :| 0 <= i <= n && sessions[i] == s;
      assert i == n;
    }
  }

  /** Every call, whoever makes it: its answer, the table it leaves and the records it writes. */
  lemma DispatchLaw(c: Connection, peer: Peer, operation: Operation, args: map<string, WireValue>, limited: bool,
                    reply: Reply, newToken: Token)
    ensures
      var e := Dispatched(c, peer, operation, args, limited, reply, newToken);
      && Answers(peer, operation, args, limited, reply, newToken, AnswerOf(e)) && (e.crashed <==> AnswerOf(e) == Raised)
      && (UniqueTokens(peer.sessions) ==>
            && Tables(peer, operation, args, limited, reply, newToken, e.peer)
            && Journalled(c, peer, operation, args, limited, reply, newToken, AnswerOf(e), e.events))
  {
    hide Dispatched, Invoke, Invocable, Heard, UniqueTokens, Answers, AnswerOf, Tables, Tells, Records;
    var e := Dispatched(c, peer, operation, args, limited, reply, newToken);
    if Invocable(operation) && peer.uid == CANDIDATE && Heard(peer, limited) {
      var i := Invoke(c, peer.sessions, operation, args, reply, newToken);
      ServedIs(c, peer, operation, args, limited, reply, newToken);
      HeardIs(peer, limited);
      InvokeAnswers(c, peer, operation, args, reply, newToken);
      if UniqueTokens(peer.sessions) {
        InvokeTables(c, peer, operation, args, reply, newToken);
        InvokeTells(c, peer, operation, args, reply, newToken);
      }
    } else {
      UnservedLaw(c, peer, operation, args, limited, reply, newToken);
    }
  }

  lemma HeardIs(peer: Peer, limited: bool)
    ensures Heard(peer, limited) ==> !limited && !peer.closed
  {
  }

  /** A call that reaches _invoke ends as _invoke does, with its events between request and answer. */
  lemma ServedIs(c: Connection, peer: Peer, operation: Operation, args: map<string, WireValue>, limited: bool,
                 reply: Reply, newToken: Token)
    requires Invocable(operation) && peer.uid == CANDIDATE && Heard(peer, limited)
    ensures
      var e := Dispatched(c, peer, operation, args, limited, reply, newToken);
      var i := Invoke(c, peer.sessions, operation, args, reply, newToken);
      && AnswerOf(e) == EndAnswer(i.end) && (e.crashed <==> AnswerOf(e) == Raised)
      && e.peer == peer.(sessions := i.sessions)
      && Records(c, operation, args, limited, AnswerOf(e), i.events, e.events)
  {
    hide Invoke, OPERATION_NAMES;
  }

  /** A call that never reaches _invoke. */
  lemma UnservedLaw(c: Connection, peer: Peer, operation: Operation, args: map<string, WireValue>, limited: bool,
                    reply: Reply, newToken: Token)
    requires !(Invocable(operation) && peer.uid == CANDIDATE && Heard(peer, limited))
    ensures
      var e := Dispatched(c, peer, operation, args, limited, reply, newToken);
      && Answers(peer, operation, args, limited, reply, newToken, AnswerOf(e)) && (e.crashed <==> AnswerOf(e) == Raised)
      && Tables(peer, operation, args, limited, reply, newToken, e.peer)
      && Tells(c, peer, operation, args, limited, reply, newToken, [])
      && Records(c, operation, args, limited, AnswerOf(e), [], e.events)
  {
    hide Fits, Holds, OPERATION_NAMES;
  }

  // ---- disconnect --------------------------------------------------------------------------

  lemma {:induction false} CleanupAt(c: Connection, sessions: seq<Session>, i: nat)
    requires i < |sessions|
    ensures |Cleanups(c, sessions)| == |sessions|
    ensures
      var s := sessions[|sessions| - 1 - i];
      Cleanups(c, sessions)[i] == ForcedCleanup(c, s.token, s.kind)
  {
    var init := sessions[..|sessions| - 1];
    if i == 0 {
      CleanupCount(c, init);
    } else {
      CleanupAt(c, init, i - 1);
    }
  }

  lemma {:induction false} CleanupCount(c: Connection, sessions: seq<Session>)
    ensures |Cleanups(c, sessions)| == |sessions|
  {
    if sessions != [] {
      CleanupCount(c, sessions[..|sessions| - 1]);
    }
  }

  /** A disconnect closes the sessions newest first, as many as the library lets it; when that is all of them it
      empties the table, ends the connection and says how many there were, and otherwise it leaves the table. */
  lemma DepartureLaw(c: Connection, peer: Peer, closes: nat)
    ensures
      var e, n := Departed(c, peer, closes), |peer.sessions|;
      var forced := if closes < n then closes else n;
      && |e.events| == forced + (if closes >= n then 1 else 0)
      && (forall i :: 0 <= i < forced ==>
            e.events[i] == ForcedCleanup(c, peer.sessions[n - 1 - i].token, peer.sessions[n - 1 - i].kind))
      && (closes >= n ==> e.events[n] == ConnectionClose(c, n) && e.peer == Peer(peer.uid, [], true) && !e.crashed)
      && (closes < n ==> e.peer == peer && e.crashed)
  {
    hide Cleanups;
    var n := |peer.sessions|;
    var kept := if closes < n then peer.sessions[n - closes..] else peer.sessions;
    CleanupCount(c, kept);
    forall i | 0 <= i < |kept| ensures Cleanups(c, kept)[i] == ForcedCleanup(c, peer.sessions[n - 1 - i].token, peer.sessions[n - 1 - i].kind) {
      CleanupAt(c, kept, i);
    }
  }
}
