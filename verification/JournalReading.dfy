/** What a reader of the raw journal can say of one connection or one session at any point, without the projection's
    bookkeeping: requests still unanswered, the last bytes asked to be written, the hook that runs, and a session's
    owner, name, attributes and end. Each function looks for the last record that settles the question. */
module JournalReading {
  import opened Wrappers
  import opened Wire
  import opened BrokerJournal
  import P = Projection

  // ---- Calls -----------------------------------------------------------------------------

  /** The request of connection c that has no answer yet. */
  function Pending(j: seq<Event>, c: Connection): (r: Option<Event>)
    ensures r.Some? ==> r.value.RpcRequest? && r.value.connection == c
  {
    if j == [] then None
    else
      var e := j[|j| - 1];
      if e.RpcRequest? && e.connection == c then Some(e)
      else if (e.RpcResult? || e.RpcReject?) && e.connection == c then None
      else Pending(j[..|j| - 1], c)
  }

  /** The bytes a request asks to be written to session t. */
  function WriteOf(e: Event, t: Token): Option<seq<Byte>> {
    if e.RpcRequest? && e.operation == Clear(Write) && P.SessionOf(e.arguments) == Some(t) then
      match P.Argument(e.arguments, "data")
      case Some(WBytes(bytes)) => Some(bytes)
      case _ => None
    else None
  }

  /** The last write request for session t: its record number, from one, and its bytes. */
  function LastWrite(j: seq<Event>, t: Token): Option<P.Sent> {
    if j == [] then None
    else
      var bytes := WriteOf(j[|j| - 1], t);
      if bytes.Some? then Some(P.Sent(|j|, bytes.value)) else LastWrite(j[..|j| - 1], t)
  }

  /** The write request for session t that no hook's end and no reject has taken yet. */
  function Unwritten(j: seq<Event>, t: Token): Option<P.Sent> {
    if j == [] then None
    else
      var h, e := j[..|j| - 1], j[|j| - 1];
      if WriteOf(e, t).Some? then Some(P.Sent(|j|, WriteOf(e, t).value))
      else if (e.HookEvent? && e.hook != Before && Running(h) == Some(t)) || (e.RpcReject? && P.SessionOf(Answered(h, e)) == Some(t)) then None
      else Unwritten(h, t)
  }

  /** The session of the hook that has begun and not ended: the last hook record is its Before. */
  function Running(j: seq<Event>): Option<Token> {
    if j == [] then None
    else
      var e := j[|j| - 1];
      if !e.HookEvent? then Running(j[..|j| - 1])
      else if e.hook == Before then Some(e.token) else None
  }

  // ---- Sessions --------------------------------------------------------------------------

  /** The session a result opens. */
  function Starts(e: Event): Option<Token> {
    if e.RpcResult? && (e.operation == Clear(Open) || e.operation == Clear(OpenManager)) && e.result.WStr? then Some(e.result.text)
    else None
  }

  /** The arguments of the request that record e answers after h. */
  function Answered(h: seq<Event>, e: Event): Arguments
    requires e.RpcResult? || e.RpcReject?
  {
    match Pending(h, e.connection)
    case Some(q) => q.arguments
    case None => RedactedArguments
  }

  /** Record e, after h, reports that operation `name` was done on session t. */
  predicate Did(h: seq<Event>, e: Event, name: Operation, t: Token) {
    e.RpcResult? && e.operation == Clear(name) && P.SessionOf(Answered(h, e)) == Some(t)
  }

  predicate Sets(h: seq<Event>, e: Event, t: Token, attribute: int) {
    Did(h, e, SetAttribute, t) && P.Argument(Answered(h, e), "attribute") == Some(WInt(attribute))
  }

  /** The value session t's attribute was last set to since the session was opened. */
  function Setting(j: seq<Event>, t: Token, attribute: int): Option<WireValue> {
    if j == [] then None
    else
      var h, e := j[..|j| - 1], j[|j| - 1];
      if Starts(e) == Some(t) then None
      else if Sets(h, e, t, attribute) then P.Argument(Answered(h, e), "attribute_state")
      else Setting(h, t, attribute)
  }

  predicate IsNewline(value: Option<WireValue>) { value == Some(WInt(10)) || value == Some(WFloat(10.0)) }

  /** The session reads up to a newline: the character is set to it and switched on. */
  predicate Armed(j: seq<Event>, t: Token) {
    && IsNewline(Setting(j, t, P.TERMCHAR_ATTRIBUTE))
    && Setting(j, t, P.TERMCHAR_ENABLED_ATTRIBUTE) == Some(WBool(true))
  }

  function Owner(j: seq<Event>, t: Token): Option<Connection> {
    if j == [] then None
    else
      var e := j[|j| - 1];
      if Starts(e) == Some(t) then Some(e.connection) else Owner(j[..|j| - 1], t)
  }

  /** A hook record of session t: its own Before, or the end of the one that runs. */
  predicate Touches(h: seq<Event>, e: Event, t: Token) {
    e.HookEvent? && if e.hook == Before then e.token == t else Running(h) == Some(t)
  }

  /** The name a session's instrument goes by: the role its last hook gives, or else the resource it was opened for.
      A resource manager has none until a hook runs on it. */
  function Key(j: seq<Event>, t: Token): Option<string> {
    if j == [] then None
    else
      var h, e := j[..|j| - 1], j[|j| - 1];
      if Starts(e) == Some(t) then
        if e.operation == Clear(OpenManager) then None
        else
          match P.Argument(Answered(h, e), "resource_name")
          case Some(WStr(name)) => Some(name)
          case _ => None
      else if Touches(h, e, t) && Owner(h, t).Some? then Some(e.role)
      else Key(h, t)
  }

  /** Since it was opened the session was closed, or its connection ended when it had a name. */
  predicate Shut(j: seq<Event>, t: Token) {
    j != []
    && var h, e := j[..|j| - 1], j[|j| - 1];
       && Starts(e) != Some(t)
       && (Did(h, e, Close, t)
           || (e.ConnectionClose? && Owner(h, t) == Some(e.connection) && Key(h, t).Some?)
           || Shut(h, t))
  }

  /** Connection c's session t has a name and was not closed. */
  predicate Abandoned(j: seq<Event>, t: Token, c: Connection) { Owner(j, t) == Some(c) && Key(j, t).Some? && !Shut(j, t) }

  // ---- What a record becomes -------------------------------------------------------------

  /** The write that a hook's end, record e after h, reports. */
  function Ended(h: seq<Event>, e: Event): Option<P.Sent> {
    if e.HookEvent? && e.hook != Before && Running(h).Some? then LastWrite(h, Running(h).value) else None
  }

  /** Record e ends a hook of session t whose bytes end in a newline. */
  predicate EndsLine(h: seq<Event>, e: Event, t: Token) {
    && e.HookEvent? && e.hook != Before && Running(h) == Some(t)
    && Ended(h, e).Some? && Ended(h, e).value.payload != []
    && Ended(h, e).value.payload[|Ended(h, e).value.payload| - 1] == 10
  }

  predicate EndedLine(j: seq<Event>, t: Token) { exists k :: 0 <= k < |j| && EndsLine(j[..k], j[k], t) }

  predicate WasArmed(j: seq<Event>, t: Token) { exists k :: 0 <= k <= |j| && Armed(j[..k], t) }

  /** The operation a reject refuses, and the session it was for. */
  function Refused(h: seq<Event>, e: Event): Audited
    requires e.RpcReject?
  {
    match Pending(h, e.connection)
    case Some(q) => q.operation
    case None => e.operation
  }

  /** Record e after h, number |h| + 1, is reported as x. */
  predicate Becomes(h: seq<Event>, e: Event, x: P.Evidence) {
    var at := 10 * (|h| + 1);
    match x.operation
    case WriteCommand =>
      Ended(h, e).Some?
      && x == P.Evidence(at, P.WriteCommand, Running(h), Some(Ended(h, e).value.payload), None, e.hook == After)
    case SetWriteTermination =>
      Running(h).Some? && EndsLine(h, e, Running(h).value) && !EndedLine(h, Running(h).value)
      && x == P.Evidence(10 * Ended(h, e).value.raw + 1, P.SetWriteTermination, Running(h), Some([10]), None, true)
    case SetReadTermination =>
      x.token.Some? && Armed(h + [e], x.token.value) && !WasArmed(h, x.token.value)
      && x == P.Evidence(at, P.SetReadTermination, x.token, Some([10]), None, true)
    case SetTimeout =>
      x.token.Some? && Sets(h, e, x.token.value, P.TIMEOUT_ATTRIBUTE)
      && x == P.Evidence(at, P.SetTimeout, x.token, None, None, true)
    case VisaFailure =>
      e.RpcReject? && e.kind == VisaError && Refused(h, e) != Clear(Write)
      && x == P.Evidence(at, P.VisaFailure, P.SessionOf(Answered(h, e)), None, None, false)
    case RpcRejected =>
      e.RpcReject? && e.kind != VisaError
      && x == P.Evidence(at, P.RpcRejected, P.SessionOf(Answered(h, e)), None, None, false)
    case ProtocolRejected => e.ConnectionReject? && x == P.Evidence(at, P.ProtocolRejected, None, None, None, false)
    case ForceSafe => e == Lifecycle(8) && x == P.Evidence(at, P.ForceSafe, None, None, Some(P.ForcedClose), true)
    case OpenResource =>
      e.RpcResult? && e.operation == Clear(Open) && x == P.Evidence(at, P.OpenResource, Starts(e), None, None, true)
    case CloseResource =>
      x.token.Some? && Key(h, x.token.value).Some? && !Shut(h, x.token.value)
      && Did(h, e, Close, x.token.value)
      && x == P.Evidence(at, P.CloseResource, x.token, None, Some(P.Candidate), true)
  }

  predicate ForcedClose(x: P.Evidence) { x.operation == P.CloseResource && x.cleanup == Some(P.ForcedClose) }

  /** A session that connection e.connection leaves open when record e, a connection's end, comes after h. */
  predicate Leaves(h: seq<Event>, e: Event, t: Token) { e.ConnectionClose? && Abandoned(h, t, e.connection) }

  /** The sessions in the order in which they were first opened. */
  function Order(j: seq<Event>): seq<Token> {
    if j == [] then []
    else
      var before, t := Order(j[..|j| - 1]), Starts(j[|j| - 1]);
      if t.Some? && t.value !in before then before + [t.value] else before
  }

  /** Of the sessions listed, those the connection leaves open, the first of each name. */
  function FirstOfEach(h: seq<Event>, e: Event, order: seq<Token>): seq<Token> {
    if order == [] then []
    else
      var before, t := FirstOfEach(h, e, order[..|order| - 1]), order[|order| - 1];
      if Leaves(h, e, t) && forall i :: 0 <= i < |before| ==> Key(h, before[i]) != Key(h, t) then before + [t] else before
  }

  // ---- Which journals can be read ----------------------------------------------------------

  predicate Named(h: seq<Event>, t: Token, e: Event)
    requires e.HookEvent?
  {
    Owner(h, t).Some? ==> e.resource != "" && e.role != ""
  }

  /** Hooks do not nest, and end a write that was asked for; a result answers the pending request of its connection,
      in clear, with what its operation needs. Every other record can always be read. */
  predicate Legible(h: seq<Event>, e: Event) {
    match e
    case HookEvent(_, hook, t, _, _) =>
      if hook == Before then Running(h).None? && Named(h, t, e)
      else Running(h).Some? && Named(h, Running(h).value, e) && Unwritten(h, Running(h).value).Some?
    case RpcResult(c, operation, result) =>
      && Pending(h, c).Some? && Pending(h, c).value.operation == operation && operation.Clear?
      && (operation.name == OpenManager || operation.name == Open ==> result.WStr? && result.text != "")
      && (operation.name == Open ==>
            match P.Argument(Answered(h, e), "resource_name") case Some(WStr(name)) => name != "" case _ => false)
      && (operation.name == SetAttribute || operation.name == Close ==>
            match P.SessionOf(Answered(h, e)) case Some(t) => Owner(h, t).Some? case None => false)
      && (operation.name == SetAttribute ==>
            match P.Argument(Answered(h, e), "attribute") case Some(WInt(_)) => true case _ => false)
    case _ => true
  }

  ghost predicate AllLegible(j: seq<Event>) { forall k :: 0 <= k < |j| ==> Legible(j[..k], j[k]) }

  /** Nothing is left undone at the end. */
  ghost predicate Finished(j: seq<Event>) {
    Running(j).None? && (forall t :: Unwritten(j, t).None?) && forall c :: Pending(j, c).None?
  }
}
