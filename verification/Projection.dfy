/** The scorer's reading of a raw journal (projection.py) and the check that every opened session was closed
    by the candidate (partial_order.py). A session's digest is written as its token. */
module Projection {
  import opened Wrappers
  import opened Wire
  import opened BrokerJournal

  /** _Session. */
  datatype Profile = Profile(connection: Connection, resource: Option<string>, role: Option<string>, closed: bool,
                             termcharSeen: bool, termcharEnabled: bool)

  datatype Projected =
    | OpenResource | CloseResource | SetTimeout | SetReadTermination | SetWriteTermination
    | WriteCommand | VisaFailure | RpcRejected | ProtocolRejected | ForceSafe

  datatype Source = Candidate | ForcedClose

  /** _Draft: the raw record's sequence number, what it became, and for which session. */
  datatype Draft = Draft(raw: nat, operation: Projected, token: Option<Token>, request: Option<seq<Byte>>,
                         cleanup: Option<Source>, ok: bool, offset: nat)

  datatype Sent = Sent(raw: nat, payload: seq<Byte>)

  /** The loop's variables; `order` is the insertion order of the session dictionary. */
  datatype State = State(order: seq<Token>, profiles: map<Token, Profile>, requests: map<Connection, Event>,
                         writes: map<Token, Sent>, writeTermination: set<Token>, readTermination: set<Token>,
                         active: Option<Token>, drafts: seq<Draft>)

  const START := State([], map[], map[], map[], {}, {}, None, [])

  // ---- Arguments of a request ------------------------------------------------------------

  /** _optional_token_digest(args.get("session")) */
  function SessionOf(arguments: Arguments): Option<Token> {
    if arguments.Arguments? && "session" in arguments.entries && arguments.entries["session"].WStr?
    then Some(arguments.entries["session"].text) else None
  }

  function Argument(arguments: Arguments, key: string): Option<WireValue> {
    if arguments.Arguments? && key in arguments.entries then Some(arguments.entries[key]) else None
  }

  const TIMEOUT_ATTRIBUTE := 0x3FFF001A
  const TERMCHAR_ATTRIBUTE := 0x3FFF0018
  const TERMCHAR_ENABLED_ATTRIBUTE := 0x3FFF0038

  // ---- One record ------------------------------------------------------------------------

  function OnRequest(s: State, e: Event, sequence: nat): (r: State)
    requires e.RpcRequest?
  {
    var t, data := SessionOf(e.arguments), Argument(e.arguments, "data");
    s.(requests := s.requests[e.connection := e],
       writes := if e.operation == Clear(Write) && t.Some? && data.Some? && data.value.WBytes?
                 then s.writes[t.value := Sent(sequence, data.value.bytes)] else s.writes)
  }

  /** A hook names the instrument behind its session. */
  function Attributed(s: State, t: Token, e: Event): State
    requires e.HookEvent?
  {
    if t in s.profiles then
      s.(profiles := s.profiles[t := s.profiles[t].(resource := Some(e.resource), role := Some(e.role))])
    else s
  }

  predicate Attributable(s: State, t: Token, e: Event)
    requires e.HookEvent?
  {
    t in s.profiles ==> e.resource != "" && e.role != ""
  }

  function OnHook(s: State, e: Event, sequence: nat): Option<State>
    requires e.HookEvent?
  {
    if e.hook == Before then
      if s.active.Some? || !Attributable(s, e.token, e) then None
      else Some(Attributed(s, e.token, e).(active := Some(e.token)))
    else if s.active.None? || !Attributable(s, s.active.value, e) || s.active.value !in s.writes then None
    else
      var t := s.active.value;
      var sent := s.writes[t];
      var ends := sent.payload != [] && sent.payload[|sent.payload| - 1] == 10 && t !in s.writeTermination;
      var write := Draft(sequence, WriteCommand, Some(t), Some(sent.payload), None, e.hook == After, 0);
      Some(Attributed(s, t, e).(
        active := None, writes := s.writes - {t},
        writeTermination := if ends then s.writeTermination + {t} else s.writeTermination,
        drafts := s.drafts
          + (if ends then [Draft(sent.raw, SetWriteTermination, Some(t), Some([10]), None, true, 1)] else [])
          + [write]))
  }

  function Remembered(s: State, t: Token, p: Profile): State {
    s.(order := if t in s.profiles then s.order else s.order + [t], profiles := s.profiles[t := p])
  }

  function OnAttribute(s: State, arguments: Arguments, t: Token, sequence: nat): Option<State>
    requires t in s.profiles
  {
    var attribute, value := Argument(arguments, "attribute"), Argument(arguments, "attribute_state");
    if attribute.None? || !attribute.value.WInt? then None
    else
      var a, p := attribute.value.number, s.profiles[t];
      var q :=
        if a == TERMCHAR_ATTRIBUTE then
          p.(termcharSeen := value == Some(WInt(10)) || value == Some(WFloat(10.0)))
        else if a == TERMCHAR_ENABLED_ATTRIBUTE then p.(termcharEnabled := value == Some(WBool(true)))
        else p;
      var infers := t !in s.readTermination && q.termcharSeen && q.termcharEnabled;
      Some(s.(profiles := s.profiles[t := q],
              readTermination := if infers then s.readTermination + {t} else s.readTermination,
              drafts := s.drafts
                + if infers then [Draft(sequence, SetReadTermination, Some(t), Some([10]), None, true, 0)]
                  else if a == TIMEOUT_ATTRIBUTE then [Draft(sequence, SetTimeout, Some(t), None, None, true, 0)]
                  else []))
  }

  function OnResult(s: State, e: Event, sequence: nat): Option<State>
    requires e.RpcResult?
  {
    var c := e.connection;
    if c !in s.requests || !s.requests[c].RpcRequest? || s.requests[c].operation != e.operation || e.operation.Digest? then None
    else
      var arguments := s.requests[c].arguments;
      var after := s.(requests := s.requests - {c});
      match e.operation.name
      case OpenManager =>
        if !e.result.WStr? || e.result.text == "" then None
        else Some(Remembered(after, e.result.text, Profile(c, None, None, false, false, false)))
      case Open =>
        var name := Argument(arguments, "resource_name");
        if !e.result.WStr? || e.result.text == "" || name.None? || !name.value.WStr? || name.value.text == "" then None
        else
          var begun := Remembered(after, e.result.text, Profile(c, Some(name.value.text), None, false, false, false));
          Some(begun.(drafts := s.drafts + [Draft(sequence, OpenResource, Some(e.result.text), None, None, true, 0)]))
      case SetAttribute =>
        var t := SessionOf(arguments);
        if t.None? || t.value !in s.profiles then None else OnAttribute(after, arguments, t.value, sequence)
      case Close =>
        var t := SessionOf(arguments);
        if t.None? || t.value !in s.profiles then None
        else
          var p := s.profiles[t.value];
          Some(after.(profiles := s.profiles[t.value := p.(closed := true)],
                      drafts := if p.resource.Some? && !p.closed
                                then s.drafts + [Draft(sequence, CloseResource, t, None, Some(Candidate), true, 0)]
                                else s.drafts))
      case _ => Some(after)
  }

  /** A reject without a request is its own request. */
  function OnReject(s: State, e: Event, sequence: nat): State
    requires e.RpcReject?
  {
    var c := e.connection;
    var known := c in s.requests && s.requests[c].RpcRequest?;
    var t := if known then SessionOf(s.requests[c].arguments) else None;
    var operation := if known then s.requests[c].operation else e.operation;
    var after := s.(requests := s.requests - {c}, writes := if t.Some? then s.writes - {t.value} else s.writes);
    if e.kind == VisaError && operation == Clear(Write) then after
    else after.(drafts := s.drafts
      + [Draft(sequence, if e.kind == VisaError then VisaFailure else RpcRejected, t, None, None, false, 0)])
  }

  /** The key a forced close is reported under, once for each connection. */
  function KeyOf(p: Profile): string
    requires p.resource.Some?
  {
    if p.role.Some? && p.role.value != "" then p.role.value else p.resource.value
  }

  predicate Abandoned(p: Profile, c: Connection) { p.connection == c && p.resource.Some? && !p.closed }

  /** The sessions of a closing connection that nobody closed: all are marked, one draft for each key. */
  datatype Sweep = Sweep(profiles: map<Token, Profile>, keys: set<string>, drafts: seq<Draft>, offset: nat)

  function SweepOne(w: Sweep, t: Token, c: Connection, sequence: nat): Sweep {
    if t !in w.profiles || !Abandoned(w.profiles[t], c) then w
    else
      var p := w.profiles[t];
      var marked := w.(profiles := w.profiles[t := p.(closed := true)]);
      if KeyOf(p) in w.keys then marked
      else marked.(keys := w.keys + {KeyOf(p)}, offset := w.offset + 1,
                   drafts := w.drafts + [Draft(sequence, CloseResource, Some(t), None, Some(ForcedClose), true, w.offset)])
  }

  function SweepAll(w: Sweep, order: seq<Token>, c: Connection, sequence: nat): Sweep {
    if order == [] then w
    else SweepOne(SweepAll(w, order[..|order| - 1], c, sequence), order[|order| - 1], c, sequence)
  }

  function OnDisconnect(s: State, c: Connection, sequence: nat): State {
    var w := SweepAll(Sweep(s.profiles, {}, s.drafts, 0), s.order, c, sequence);
    s.(profiles := w.profiles, drafts := w.drafts)
  }

  /** state.force_safe is the lifecycle event numbered 8. */
  const FORCE_SAFE_STEP: nat := 8

  function Draw(s: State, sequence: nat, operation: Projected, ok: bool, cleanup: Option<Source>): State {
    s.(drafts := s.drafts + [Draft(sequence, operation, None, None, cleanup, ok, 0)])
  }

  function Step(s: State, e: Event, sequence: nat): Option<State> {
    match e
    case RpcRequest(_, _, _) => Some(OnRequest(s, e, sequence))
    case HookEvent(_, _, _, _, _) => OnHook(s, e, sequence)
    case RpcResult(_, _, _) => OnResult(s, e, sequence)
    case RpcReject(_, _, _) => Some(OnReject(s, e, sequence))
    case ConnectionReject => Some(Draw(s, sequence, ProtocolRejected, false, None))
    case ConnectionClose(c, _) => Some(OnDisconnect(s, c, sequence))
    case Lifecycle(n) =>
      Some(if n == FORCE_SAFE_STEP then Draw(s, sequence, ForceSafe, true, Some(ForcedClose)) else s)
    case _ => Some(s)
  }

  /** Records carry their position, counted from one, as sequence number. */
  function Fold(records: seq<Event>): Option<State> {
    if records == [] then Some(START)
    else
      var before := Fold(records[..|records| - 1]);
      if before.None? then None else Step(before.value, records[|records| - 1], |records|)
  }

  // ---- The projected records -------------------------------------------------------------

  datatype Evidence = Evidence(sequence: nat, operation: Projected, token: Option<Token>, request: Option<seq<Byte>>,
                               cleanup: Option<Source>, ok: bool)

  /** The part of _materialize that scoring order and session checks read. */
  function Materialize(d: Draft): Evidence {
    Evidence(d.raw * 10 + d.offset, d.operation, d.token, d.request, d.cleanup, d.ok)
  }

  function Inserted(x: Evidence, xs: seq<Evidence>): seq<Evidence> {
    if xs == [] || x.sequence < xs[0].sequence then [x] + xs else [xs[0]] + Inserted(x, xs[1..])
  }

  function Sorted(drafts: seq<Draft>): seq<Evidence> {
    if drafts == [] then [] else Inserted(Materialize(drafts[|drafts| - 1]), Sorted(drafts[..|drafts| - 1]))
  }

  predicate Colliding(drafts: seq<Draft>) {
    exists i, j :: 0 <= i < j < |drafts| && Materialize(drafts[i]).sequence == Materialize(drafts[j]).sequence
  }

  /** A trusted simulator state is on record. */
  predicate HasState(records: seq<Event>) {
    exists i :: 0 <= i < |records| && ((records[i].HookEvent? && records[i].hook == Before) || records[i] == Lifecycle(FORCE_SAFE_STEP))
  }

  function Project(records: seq<Event>): Option<seq<Evidence>> {
    if records == [] then Some([])
    else if !HasState(records) then None
    else
      var end := Fold(records);
      if end.None? || Colliding(end.value.drafts) then None
      else if end.value.active.Some? || end.value.writes != map[] || end.value.requests != map[] then None
      else Some(Sorted(end.value.drafts))
  }

  // ---- The session check -----------------------------------------------------------------

  ghost function OpenedTokens(records: seq<Evidence>): set<Token> {
    set i | 0 <= i < |records| && records[i].operation == OpenResource && records[i].token.Some? :: records[i].token.value
  }

  ghost function ActivelyClosed(records: seq<Evidence>): set<Token> {
    set i | 0 <= i < |records| && records[i].operation == CloseResource && records[i].cleanup == Some(Candidate)
            && records[i].token.Some? :: records[i].token.value
  }

  /** _active_close_all after normalize_events. */
  ghost predicate ActiveCloseAll(records: seq<Evidence>) {
    OpenedTokens(records) != {} && OpenedTokens(records) == ActivelyClosed(records)
  }
}
