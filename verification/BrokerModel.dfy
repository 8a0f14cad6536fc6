/** What one broker call writes to the journal and does to its connection (broker.py), with the VISA
    library's answer as an input. */
module BrokerModel {
  import opened Wire
  import opened BrokerJournal

  datatype Session = Session(token: Token, handle: int, kind: SessionKind)

  /** A ConnectionState; sessions keep the dictionary's insertion order. */
  datatype Peer = Peer(uid: int, sessions: seq<Session>, closed: bool)

  /** How the library may refuse a call, by the except clause that catches it. */
  datatype Refusal = VisaIOError | CommandRejected | ResourceQueryRejected | InvalidArgument

  function RejectKind(r: Refusal): ErrorKind {
    match r
    case VisaIOError => VisaError
    case CommandRejected => VisaError
    case ResourceQueryRejected => InvalidResourceQuery
    case InvalidArgument => InvalidArguments
  }

  datatype HookReport = HookReport(kind: HookKind, resource: string, role: string)

  /** The library's answer: a value, a refusal, or an exception no clause expects. A write may run
      instrument hooks first, whatever the answer. */
  datatype Reply =
    | Returned(handle: int, value: WireValue, hooks: seq<HookReport>)
    | Refused(why: Refusal, hooks: seq<HookReport>)
    | Failed(hooks: seq<HookReport>)

  /** OPERATIONS: what _invoke is reached for. */
  predicate Invocable(op: Operation) { !op.Hello? && !op.Other? }

  /** How _invoke ends. */
  datatype End = Completed(value: WireValue) | Rejected(kind: ErrorKind) | Crashed

  datatype Invocation = Invocation(events: seq<Event>, sessions: seq<Session>, end: End)

  predicate HasToken(sessions: seq<Session>, token: Token) { exists s <- sessions :: s.token == token }

  function KindOf(sessions: seq<Session>, token: Token): SessionKind
    requires HasToken(sessions, token)
  {
    if sessions[|sessions| - 1].token == token then sessions[|sessions| - 1].kind
    else
      assert sessions == sessions[..|sessions| - 1] + [sessions[|sessions| - 1]];
      KindOf(sessions[..|sessions| - 1], token)
  }

  /** state.sessions.pop(token) */
  function Without(sessions: seq<Session>, token: Token): seq<Session> {
    if sessions == [] then []
    else
      var rest := Without(sessions[..|sessions| - 1], token);
      if sessions[|sessions| - 1].token == token then rest else rest + [sessions[|sessions| - 1]]
  }

  function HookEvents(c: Connection, token: Token, hooks: seq<HookReport>): (r: seq<Event>)
    ensures |r| == |hooks|
    ensures forall i :: 0 <= i < |r| ==> r[i] == HookEvent(c, hooks[i].kind, token, hooks[i].resource, hooks[i].role)
  {
    seq(|hooks|, i requires 0 <= i < |hooks| => HookEvent(c, hooks[i].kind, token, hooks[i].resource, hooks[i].role))
  }

  predicate IsText(args: map<string, WireValue>, key: string) { key in args && args[key].WStr? && args[key].text != "" }

  predicate IsNumber(args: map<string, WireValue>, key: string, minimum: int) {
    key in args && args[key].WInt? && args[key].number >= minimum
  }

  /** The key set _exact demands and the types the operation then requires of its arguments. */
  predicate WellTyped(operation: Operation, args: map<string, WireValue>) {
    match operation
    case ListResources => args.Keys == {"session", "query"} && IsText(args, "query")
    case Open =>
      && args.Keys == {"session", "resource_name", "access_mode", "open_timeout"}
      && IsText(args, "resource_name") && IsNumber(args, "access_mode", 0) && IsNumber(args, "open_timeout", 0)
    case Close => args.Keys == {"session"}
    case Read => args.Keys == {"session", "count"} && IsNumber(args, "count", 1)
    case Write => args.Keys == {"session", "data"} && args["data"].WBytes?
    case GetAttribute => args.Keys == {"session", "attribute"} && args["attribute"].WInt?
    case SetAttribute =>
      args.Keys == {"session", "attribute", "attribute_state"} && args["attribute"].WInt?
    case _ =>
      args.Keys == {"session", "event_type", "mechanism"} && args["event_type"].WInt? && args["mechanism"].WInt?
  }

  /** How a library answer ends the call, once it is past argument checks. */
  function Conclude(reply: Reply, value: WireValue): End {
    match reply
    case Returned(_, _, _) => Completed(value)
    case Refused(why, _) => Rejected(RejectKind(why))
    case Failed(_) => Crashed
  }

  /** _invoke. `newToken` is the token _token would draw. */
  function Invoke(c: Connection, sessions: seq<Session>, operation: Operation, args: map<string, WireValue>,
                  reply: Reply, newToken: Token): Invocation
  {
    if operation == OpenManager then
      if args.Keys != {} then Invocation([], sessions, Rejected(InvalidArguments))
      else if reply.Returned? then
        Invocation([SessionOpen(c, newToken, ResourceManager)],
                   sessions + [Session(newToken, reply.handle, ResourceManager)], Completed(WStr(newToken)))
      else Invocation([], sessions, Conclude(reply, WNone))
    else if "session" !in args || !args["session"].WStr? || !HasToken(sessions, args["session"].text) then
      Invocation([InvalidAccess(c)], sessions, Rejected(InvalidSession))
    else if !WellTyped(operation, args) then Invocation([], sessions, Rejected(InvalidArguments))
    else
      var token := args["session"].text;
      match operation
      case ListResources =>
        if reply.Failed? then Invocation([QueryRequest(c)], sessions, Crashed)
        else if reply.Refused? && reply.why != ResourceQueryRejected then
          Invocation([], sessions, Rejected(RejectKind(reply.why)))
        else if reply.Refused? then
          Invocation([QueryRequest(c), QueryReject(c)], sessions, Rejected(InvalidResourceQuery))
        else if reply.value == WTuple([]) then
          Invocation([QueryRequest(c), QueryReject(c)], sessions, Rejected(VisaError))
        else Invocation([QueryRequest(c), QueryResult(c)], sessions, Completed(reply.value))
      case Open =>
        if reply.Returned? then
          Invocation([SessionOpen(c, newToken, Resource)],
                     sessions + [Session(newToken, reply.handle, Resource)], Completed(WStr(newToken)))
        else Invocation([], sessions, Conclude(reply, WNone))
      case Close =>
        if reply.Returned? then
          Invocation([SessionClose(c, token, KindOf(sessions, token))], Without(sessions, token), Completed(WNone))
        else Invocation([], sessions, Conclude(reply, WNone))
      case Read =>
        Invocation(if reply.Returned? then [ScpiRead(c), ScpiReadResult(c)] else [ScpiRead(c)],
                   sessions, Conclude(reply, if reply.Returned? then reply.value else WNone))
      case Write =>
        var attempt := [ScpiWrite(c)] + HookEvents(c, token, reply.hooks);
        Invocation(if reply.Returned? then attempt + [ScpiWriteResult(c)] else attempt,
                   sessions, Conclude(reply, if reply.Returned? then reply.value else WNone))
      case GetAttribute =>
        Invocation([], sessions, Conclude(reply, if reply.Returned? then reply.value else WNone))
      case _ => Invocation([], sessions, Conclude(reply, WNone))
  }

  /** Everything one dispatch appends for its connection, and the peer afterwards. After a crash the
      request is left without an answer. */
  datatype Effect = Effect(events: seq<Event>, peer: Peer, crashed: bool)

  function Answered(request: Event, inner: seq<Event>, answer: Event, peer: Peer): Effect {
    Effect([request] + inner + [answer], peer, false)
  }

  /** The sorted operation names hello answers with. */
  const OPERATION_NAMES: WireValue := WTuple(
    [WStr("close"), WStr("disable_event"), WStr("discard_events"), WStr("get_attribute"), WStr("list_resources"),
     WStr("open"), WStr("open_default_resource_manager"), WStr("read"), WStr("set_attribute"), WStr("write")])

  function Dispatched(c: Connection, peer: Peer, operation: Operation, args: map<string, WireValue>, limited: bool,
                      reply: Reply, newToken: Token): Effect
  {
    var audited := if limited then Digest(operation) else Clear(operation);
    var request := RpcRequest(c, audited, if limited then RedactedArguments else Arguments(args));
    var reject := (kind: ErrorKind) => Answered(request, [], RpcReject(c, audited, kind), peer);
    if limited then reject(RequestLimit)
    else if peer.closed then reject(ClosedConnection)
    else if operation == Hello then
      if args.Keys != {} then reject(InvalidArguments)
      else if peer.uid != 10001 && peer.uid != 11001 then reject(Unauthorized)
      else Answered(request, [], RpcResult(c, audited, OPERATION_NAMES), peer)
    else if peer.uid != 10001 then reject(Unauthorized)
    else if !Invocable(operation) then reject(UnknownOperation)
    else
      var i := Invoke(c, peer.sessions, operation, args, reply, newToken);
      var after := peer.(sessions := i.sessions);
      match i.end
      case Completed(value) => Answered(request, i.events, RpcResult(c, audited, value), after)
      case Rejected(kind) => Answered(request, i.events, RpcReject(c, audited, kind), after)
      case Crashed => Effect([request] + i.events, after, true)
  }

  /** The forced closes of disconnect, newest session first. */
  function Cleanups(c: Connection, sessions: seq<Session>): seq<Event> {
    if sessions == [] then []
    else
      var last := sessions[|sessions| - 1];
      [ForcedCleanup(c, last.token, last.kind)] + Cleanups(c, sessions[..|sessions| - 1])
  }

  function Disconnected(c: Connection, peer: Peer): Effect {
    Effect(Cleanups(c, peer.sessions) + [ConnectionClose(c, |peer.sessions|)],
           peer.(sessions := [], closed := true), false)
  }

  /** disconnect when the library closes `closes` of the sessions, newest first, and raises on the next one if
      there is one: the exception leaves the table, the flag and the leak count as they were. */
  function Departed(c: Connection, peer: Peer, closes: nat): Effect {
    if closes >= |peer.sessions| then Disconnected(c, peer)
    else Effect(Cleanups(c, peer.sessions[|peer.sessions| - closes..]), peer, true)
  }
}
