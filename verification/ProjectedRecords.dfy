/** The projection reports exactly what the raw journal says: which record becomes which reported event, for every
    journal that projects. */
module ProjectedRecords {
  import opened Wrappers
  import opened Wire
  import opened BrokerJournal
  import opened JournalReading
  import P = Projection
  import V = ProjectionTheorems

  // ---- The readings after one more record -------------------------------------------------

  lemma NextCalls(h: seq<Event>, e: Event)
    ensures Running(h + [e]) == if !e.HookEvent? then Running(h) else if e.hook == Before then Some(e.token) else None
    ensures forall c :: (Pending(h + [e], c)
      == if e.RpcRequest? && e.connection == c then Some(e)
         else if (e.RpcResult? || e.RpcReject?) && e.connection == c then None
         else Pending(h, c))
    ensures forall t :: LastWrite(h + [e], t) == if WriteOf(e, t).Some? then Some(P.Sent(|h| + 1, WriteOf(e, t).value)) else LastWrite(h, t)
  {
    hide WriteOf;
    assert (h + [e])[..|h|] == h;
  }

  lemma NextSetting(h: seq<Event>, e: Event, t: Token, attribute: int)
    ensures Setting(h + [e], t, attribute) ==
      if Starts(e) == Some(t) then None
      else if Sets(h, e, t, attribute) then P.Argument(Answered(h, e), "attribute_state") else Setting(h, t, attribute)
  {
    hide Sets, Starts, Answered;
    assert (h + [e])[..|h|] == h;
  }

  lemma NextOwner(h: seq<Event>, e: Event, t: Token)
    ensures Owner(h + [e], t) == if Starts(e) == Some(t) then Some(e.connection) else Owner(h, t)
  {
    hide Starts;
    assert (h + [e])[..|h|] == h;
  }

  /** The name a result gives the session it opens. */
  function NamedBy(h: seq<Event>, e: Event): Option<string>
    requires e.RpcResult?
  {
    if e.operation == Clear(OpenManager) then None
    else
      match P.Argument(Answered(h, e), "resource_name")
      case Some(WStr(name)) => Some(name)
      case _ => None
  }

  lemma NextKey(h: seq<Event>, e: Event, t: Token)
    ensures Key(h + [e], t) ==
      if Starts(e) == Some(t) then NamedBy(h, e)
      else if Touches(h, e, t) && Owner(h, t).Some? then Some(e.role) else Key(h, t)
  {
    hide Touches, Answered, Owner;
    assert (h + [e])[..|h|] == h;
  }

  lemma NextShut(h: seq<Event>, e: Event, t: Token)
    ensures Shut(h + [e], t) <==>
      && Starts(e) != Some(t)
      && (Did(h, e, Close, t) || (e.ConnectionClose? && Owner(h, t) == Some(e.connection) && Key(h, t).Some?) || Shut(h, t))
  {
    hide Starts, Did, Owner, Key;
    assert (h + [e])[..|h|] == h;
  }

  lemma NextLines(h: seq<Event>, e: Event, t: Token)
    ensures EndedLine(h + [e], t) <==> EndedLine(h, t) || EndsLine(h, e, t)
    ensures WasArmed(h + [e], t) <==> WasArmed(h, t) || Armed(h + [e], t)
  {
    hide EndsLine, Armed;
    var j, n := h + [e], |h|;
    assert j[..n] == h && j[n] == e && j[..n + 1] == j;
    assert forall k :: 0 <= k < n ==> j[..k] == h[..k] && j[k] == h[k];
    if EndedLine(j, t) && !EndsLine(h, e, t) {
      var k :| 0 <= k < |j| && EndsLine(j[..k], j[k], t);
      assert k < n && EndsLine(h[..k], h[k], t);
    }
    if EndedLine(h, t) {
      var k :| 0 <= k < n && EndsLine(h[..k], h[k], t);
      assert EndsLine(j[..k], j[k], t);
    }
    if EndsLine(h, e, t) {
      assert EndsLine(j[..n], j[n], t);
    }
    if WasArmed(j, t) && !Armed(j, t) {
      var k :| 0 <= k <= |j| && Armed(j[..k], t);
      assert k <= n && j[..k] == h[..k];
    }
    if WasArmed(h, t) {
      var k :| 0 <= k <= n && Armed(h[..k], t);
      assert j[..k] == h[..k];
    }
  }

  // ---- The state holds what the readings say ----------------------------------------------

  ghost predicate CallsRead(j: seq<Event>, s: P.State) {
    && s.active == Running(j)
    && (forall c :: (if c in s.requests then Some(s.requests[c]) else None) == Pending(j, c))
    && (forall t <- s.writes :: LastWrite(j, t) == Some(s.writes[t]))
  }

  ghost predicate LinesRead(j: seq<Event>, s: P.State) {
    && (forall t :: t in s.writeTermination <==> EndedLine(j, t))
    && (forall t :: t in s.readTermination <==> WasArmed(j, t))
  }

  predicate ProfileRead(j: seq<Event>, p: P.Profile, t: Token) {
    && Owner(j, t) == Some(p.connection)
    && Key(j, t) == (if p.resource.Some? then Some(P.KeyOf(p)) else None)
    && (p.role.Some? ==> p.role.value != "" && p.resource.Some?)
    && p.closed == Shut(j, t)
    && p.termcharSeen == IsNewline(Setting(j, t, P.TERMCHAR_ATTRIBUTE))
    && p.termcharEnabled == (Setting(j, t, P.TERMCHAR_ENABLED_ATTRIBUTE) == Some(WBool(true)))
  }

  predicate Unknown(j: seq<Event>, t: Token) {
    && Owner(j, t) == None && Key(j, t) == None && !Shut(j, t)
    && Setting(j, t, P.TERMCHAR_ATTRIBUTE) == None && Setting(j, t, P.TERMCHAR_ENABLED_ATTRIBUTE) == None
  }

  predicate SessionRead(j: seq<Event>, s: P.State, t: Token) {
    && (t in s.order <==> t in s.profiles)
    && if t in s.profiles then ProfileRead(j, s.profiles[t], t) else Unknown(j, t)
  }

  ghost predicate SessionsRead(j: seq<Event>, s: P.State) { forall t :: SessionRead(j, s, t) }

  ghost predicate AllRead(j: seq<Event>, s: P.State) { CallsRead(j, s) && LinesRead(j, s) && SessionsRead(j, s) }

  // ---- Calls, hooks and pending writes ----------------------------------------------------

  lemma CallsStep(h: seq<Event>, e: Event, s: P.State, r: P.State)
    requires CallsRead(h, s) && P.Step(s, e, |h| + 1) == Some(r)
    ensures CallsRead(h + [e], r)
  {
    hide Pending, LastWrite, Running, P.Attributed, P.Attributable, P.SweepAll, P.Remembered;
    NextCalls(h, e);
    match e
    case RpcRequest(_, _, _) => RequestCalls(h, e, s);
    case HookEvent(_, _, _, _, _) => HookCalls(s, e, |h| + 1);
    case RpcResult(_, _, _) => ResultCalls(s, e, |h| + 1);
    case _ =>
  }

  lemma RequestCalls(h: seq<Event>, e: Event, s: P.State)
    requires CallsRead(h, s) && e.RpcRequest?
    ensures CallsRead(h + [e], P.OnRequest(s, e, |h| + 1))
  {
    hide Pending, LastWrite, Running;
    NextCalls(h, e);
    var r := P.OnRequest(s, e, |h| + 1);
    forall t <- r.writes ensures LastWrite(h + [e], t) == Some(r.writes[t]) {
      assert WriteOf(e, t).Some? ==> r.writes[t] == P.Sent(|h| + 1, WriteOf(e, t).value);
    }
  }

  /** A hook's end takes the write it ends. */
  lemma HookCalls(s: P.State, e: Event, n: nat)
    requires e.HookEvent? && P.OnHook(s, e, n).Some?
    ensures
      var r := P.OnHook(s, e, n).value;
      && r.requests == s.requests && (forall t <- r.writes :: t in s.writes && r.writes[t] == s.writes[t])
      && r.active == (if e.hook == Before then Some(e.token) else None)
      && (e.hook != Before ==> s.active.Some? && s.active.value in s.writes)
  {
  }

  /** A result answers its request and leaves hooks and writes alone. */
  lemma ResultCalls(s: P.State, e: Event, n: nat)
    requires e.RpcResult? && P.OnResult(s, e, n).Some?
    ensures
      var r := P.OnResult(s, e, n).value;
      && e.connection in s.requests && s.requests[e.connection].RpcRequest? && s.requests[e.connection].operation == e.operation
      && e.operation.Clear?
      && r.requests == s.requests - {e.connection} && r.writes == s.writes && r.active == s.active
      && r.writeTermination == s.writeTermination
  {
  }

  // ---- Sessions --------------------------------------------------------------------------

  /** Nothing about session t changes. */
  predicate Still(h: seq<Event>, e: Event, t: Token) {
    && Starts(e) != Some(t) && !Touches(h, e, t) && !Did(h, e, SetAttribute, t) && !Did(h, e, Close, t) && !e.ConnectionClose?
  }

  lemma StillSession(h: seq<Event>, e: Event, s: P.State, r: P.State, t: Token)
    requires SessionRead(h, s, t) && Still(h, e, t)
    requires (t in r.profiles <==> t in s.profiles) && (t in r.order <==> t in s.order)
    requires t in s.profiles ==> r.profiles[t] == s.profiles[t]
    ensures SessionRead(h + [e], r, t)
  {
    hide Setting, Owner, Key, Shut, Touches, Did, Starts, Answered;
    NextSetting(h, e, t, P.TERMCHAR_ATTRIBUTE);
    NextSetting(h, e, t, P.TERMCHAR_ENABLED_ATTRIBUTE);
    NextOwner(h, e, t);
    NextKey(h, e, t);
    NextShut(h, e, t);
  }

  /** A hook gives the session it runs for its role. */
  lemma TouchedSession(h: seq<Event>, e: Event, s: P.State, t: Token)
    requires SessionRead(h, s, t) && Touches(h, e, t) && P.Attributable(s, t, e)
    ensures SessionRead(h + [e], P.Attributed(s, t, e), t)
  {
    hide Setting, Owner, Key, Shut, Touches, Answered;
    NextSetting(h, e, t, P.TERMCHAR_ATTRIBUTE);
    NextSetting(h, e, t, P.TERMCHAR_ENABLED_ATTRIBUTE);
    NextOwner(h, e, t);
    NextKey(h, e, t);
    NextShut(h, e, t);
    IsHook(h, e, t);
  }

  lemma IsHook(h: seq<Event>, e: Event, t: Token)
    requires Touches(h, e, t)
    ensures e.HookEvent?
  {
  }

  lemma HookSessions(h: seq<Event>, e: Event, s: P.State, r: P.State)
    requires SessionsRead(h, s) && s.active == Running(h) && e.HookEvent? && P.OnHook(s, e, |h| + 1) == Some(r)
    ensures SessionsRead(h + [e], r)
  {
    hide Setting, Owner, Key, Shut, Answered, SessionRead;
    var x := if e.hook == Before then e.token else s.active.value;
    forall t ensures SessionRead(h + [e], r, t) {
      assert SessionRead(h, s, t);
      if t == x {
        TouchedSession(h, e, s, t);
        SameSession(h + [e], P.Attributed(s, x, e), r, t);
      } else {
        StillSession(h, e, s, r, t);
      }
    }
  }

  lemma SameSession(j: seq<Event>, s: P.State, r: P.State, t: Token)
    requires SessionRead(j, s, t) && s.order == r.order && s.profiles == r.profiles
    ensures SessionRead(j, r, t)
  {
  }

  /** A result that opens session t. */
  lemma OpenedSession(h: seq<Event>, e: Event, r: P.State, t: Token)
    requires e.RpcResult? && Starts(e) == Some(t) && t in r.order && t in r.profiles
    requires r.profiles[t] == P.Profile(e.connection, NamedBy(h, e), None, false, false, false)
    ensures SessionRead(h + [e], r, t)
  {
    hide Setting, Owner, Key, Shut, Answered, Touches, Did, NamedBy, Starts;
    NextSetting(h, e, t, P.TERMCHAR_ATTRIBUTE);
    NextSetting(h, e, t, P.TERMCHAR_ENABLED_ATTRIBUTE);
    NextOwner(h, e, t);
    NextKey(h, e, t);
    NextShut(h, e, t);
  }

  lemma ClosedSession(h: seq<Event>, e: Event, s: P.State, r: P.State, t: Token)
    requires SessionRead(h, s, t) && t in s.profiles && Did(h, e, Close, t) && r.order == s.order
    requires r.profiles == s.profiles[t := s.profiles[t].(closed := true)]
    ensures SessionRead(h + [e], r, t)
  {
    hide Setting, Owner, Key, Shut, Answered, Touches;
    NextSetting(h, e, t, P.TERMCHAR_ATTRIBUTE);
    NextSetting(h, e, t, P.TERMCHAR_ENABLED_ATTRIBUTE);
    NextOwner(h, e, t);
    NextKey(h, e, t);
    NextShut(h, e, t);
    NotHook(h, e, t);
  }

  lemma NotHook(h: seq<Event>, e: Event, t: Token)
    requires !e.HookEvent?
    ensures !Touches(h, e, t)
  {
  }

  /** The profile after an attribute was set. */
  function Adjusted(p: P.Profile, attribute: int, value: Option<WireValue>): P.Profile {
    if attribute == P.TERMCHAR_ATTRIBUTE then p.(termcharSeen := IsNewline(value))
    else if attribute == P.TERMCHAR_ENABLED_ATTRIBUTE then p.(termcharEnabled := value == Some(WBool(true)))
    else p
  }

  lemma SetSession(h: seq<Event>, e: Event, s: P.State, r: P.State, t: Token, attribute: int)
    requires SessionRead(h, s, t) && t in s.profiles && Sets(h, e, t, attribute) && r.order == s.order
    requires r.profiles == s.profiles[t := Adjusted(s.profiles[t], attribute, P.Argument(Answered(h, e), "attribute_state"))]
    ensures SessionRead(h + [e], r, t)
  {
    hide Setting, Owner, Key, Shut, Answered, Touches;
    NextSetting(h, e, t, P.TERMCHAR_ATTRIBUTE);
    NextSetting(h, e, t, P.TERMCHAR_ENABLED_ATTRIBUTE);
    NextOwner(h, e, t);
    NextKey(h, e, t);
    NextShut(h, e, t);
    NotHook(h, e, t);
  }

  /** A result that projects answers the pending request. */
  lemma ResultRequest(h: seq<Event>, e: Event, s: P.State)
    requires CallsRead(h, s) && e.RpcResult? && P.OnResult(s, e, |h| + 1).Some?
    ensures e.connection in s.requests && Pending(h, e.connection) == Some(s.requests[e.connection])
    ensures Answered(h, e) == s.requests[e.connection].arguments && e.operation.Clear?
  {
    hide Pending, P.OnResult;
    ResultCalls(s, e, |h| + 1);
  }

  lemma StartShape(h: seq<Event>, e: Event, s: P.State, r: P.State)
    requires CallsRead(h, s) && e.RpcResult? && P.OnResult(s, e, |h| + 1) == Some(r)
    requires e.operation == Clear(Open) || e.operation == Clear(OpenManager)
    ensures Starts(e).Some?
    ensures r.profiles == s.profiles[Starts(e).value := P.Profile(e.connection, NamedBy(h, e), None, false, false, false)]
    ensures r.order == if Starts(e).value in s.profiles then s.order else s.order + [Starts(e).value]
  {
    hide Pending, CallsRead, Answered;
    ResultRequest(h, e, s);
  }

  lemma CloseShape(h: seq<Event>, e: Event, s: P.State, r: P.State)
    requires CallsRead(h, s) && e.RpcResult? && P.OnResult(s, e, |h| + 1) == Some(r) && e.operation == Clear(Close)
    ensures forall t :: Did(h, e, Close, t) ==>
      t in s.profiles && r.order == s.order && r.profiles == s.profiles[t := s.profiles[t].(closed := true)]
    ensures exists t :: Did(h, e, Close, t)
  {
    hide Pending, CallsRead, Answered;
    ResultRequest(h, e, s);
    assert Did(h, e, Close, P.SessionOf(Answered(h, e)).value);
  }

  lemma SetShape(h: seq<Event>, e: Event, s: P.State, r: P.State)
    requires CallsRead(h, s) && e.RpcResult? && P.OnResult(s, e, |h| + 1) == Some(r) && e.operation == Clear(SetAttribute)
    ensures SetAttributeOf(h, e).Some?
    ensures forall t :: Did(h, e, SetAttribute, t) ==>
      && t in s.profiles && r.order == s.order && Sets(h, e, t, SetAttributeOf(h, e).value)
      && r.profiles == s.profiles[t := Adjusted(s.profiles[t], SetAttributeOf(h, e).value, P.Argument(Answered(h, e), "attribute_state"))]
    ensures exists t :: Did(h, e, SetAttribute, t)
  {
    hide Pending, CallsRead, Answered;
    ResultRequest(h, e, s);
    assert Did(h, e, SetAttribute, P.SessionOf(Answered(h, e)).value);
  }

  lemma OtherShape(h: seq<Event>, e: Event, s: P.State, r: P.State)
    requires e.RpcResult? && P.OnResult(s, e, |h| + 1) == Some(r)
    requires e.operation !in {Clear(Open), Clear(OpenManager), Clear(Close), Clear(SetAttribute)}
    ensures r.profiles == s.profiles && r.order == s.order && r.drafts == s.drafts && r.readTermination == s.readTermination
  {
  }

  /** The attribute a set_attribute request names. */
  function SetAttributeOf(h: seq<Event>, e: Event): Option<int>
    requires e.RpcResult?
  {
    match P.Argument(Answered(h, e), "attribute")
    case Some(WInt(a)) => Some(a)
    case _ => None
  }

  lemma ResultSessions(h: seq<Event>, e: Event, s: P.State, r: P.State)
    requires CallsRead(h, s) && SessionsRead(h, s) && e.RpcResult? && P.OnResult(s, e, |h| + 1) == Some(r)
    ensures SessionsRead(h + [e], r)
  {
    hide Setting, Owner, Key, Shut, Answered, SessionRead, NamedBy, CallsRead, P.OnResult, Adjusted, Touches, SetAttributeOf;
    ResultRequest(h, e, s);
    ResultCase(h, e, s, r);
    forall t ensures SessionRead(h + [e], r, t) {
      assert SessionRead(h, s, t);
      NotHook(h, e, t);
      OrderHolds(h, s, t);
      if Starts(e) == Some(t) {
        OpenedSession(h, e, r, t);
      } else if Did(h, e, Close, t) {
        ClosedSession(h, e, s, r, t);
      } else if Did(h, e, SetAttribute, t) {
        SetSession(h, e, s, r, t, SetAttributeOf(h, e).value);
      } else {
        StillSession(h, e, s, r, t);
      }
    }
  }

  lemma ResultCase(h: seq<Event>, e: Event, s: P.State, r: P.State)
    requires CallsRead(h, s) && e.RpcResult? && P.OnResult(s, e, |h| + 1) == Some(r)
    ensures Starts(e).Some? ==>
      && r.profiles == s.profiles[Starts(e).value := P.Profile(e.connection, NamedBy(h, e), None, false, false, false)]
      && r.order == if Starts(e).value in s.profiles then s.order else s.order + [Starts(e).value]
    ensures forall t :: Did(h, e, Close, t) ==>
      t in s.profiles && r.order == s.order && r.profiles == s.profiles[t := s.profiles[t].(closed := true)]
    ensures forall t :: Did(h, e, SetAttribute, t) ==>
      && t in s.profiles && r.order == s.order && SetAttributeOf(h, e).Some? && Sets(h, e, t, SetAttributeOf(h, e).value)
      && r.profiles == s.profiles[t := Adjusted(s.profiles[t], SetAttributeOf(h, e).value, P.Argument(Answered(h, e), "attribute_state"))]
    ensures Starts(e).Some? || (exists t :: Did(h, e, Close, t) || Did(h, e, SetAttribute, t)) || (r.profiles == s.profiles && r.order == s.order)
  {
    hide CallsRead, P.OnResult, NamedBy, Answered, Adjusted, SetAttributeOf, Sets;
    if e.operation == Clear(Open) || e.operation == Clear(OpenManager) {
      StartShape(h, e, s, r);
    } else if e.operation == Clear(Close) {
      CloseShape(h, e, s, r);
    } else if e.operation == Clear(SetAttribute) {
      SetShape(h, e, s, r);
    } else {
      OtherShape(h, e, s, r);
    }
  }

  lemma OrderHolds(j: seq<Event>, s: P.State, t: Token)
    requires SessionRead(j, s, t)
    ensures t in s.order <==> t in s.profiles
  {
  }

  // ---- A connection's end ----------------------------------------------------------------

  /** The sweep closes exactly the sessions it has passed that were abandoned, and drafts forced closes only. */
  ghost predicate SweptTo(profiles: map<Token, P.Profile>, order: seq<Token>, c: Connection, w: P.Sweep) {
    && w.profiles.Keys == profiles.Keys
    && forall t <- profiles ::
         w.profiles[t] == if t in order && P.Abandoned(profiles[t], c) then profiles[t].(closed := true) else profiles[t]
  }

  lemma {:induction false} SweepProfiles(w: P.Sweep, order: seq<Token>, c: Connection, n: nat)
    ensures SweptTo(w.profiles, order, c, P.SweepAll(w, order, c, n))
  {
    if order != [] {
      var init, t := order[..|order| - 1], order[|order| - 1];
      assert order == init + [t];
      SweepProfiles(w, init, c, n);
    }
  }

  lemma CloseSessions(h: seq<Event>, e: Event, s: P.State)
    requires SessionsRead(h, s) && e.ConnectionClose?
    ensures SessionsRead(h + [e], P.OnDisconnect(s, e.connection, |h| + 1))
  {
    hide Setting, Owner, Key, Shut, Answered, P.SweepAll, P.KeyOf;
    var c, r := e.connection, P.OnDisconnect(s, e.connection, |h| + 1);
    SweepProfiles(P.Sweep(s.profiles, {}, s.drafts, 0), s.order, c, |h| + 1);
    forall t ensures SessionRead(h + [e], r, t) {
      assert SessionRead(h, s, t);
      NextSetting(h, e, t, P.TERMCHAR_ATTRIBUTE);
      NextSetting(h, e, t, P.TERMCHAR_ENABLED_ATTRIBUTE);
      NextOwner(h, e, t);
      NextKey(h, e, t);
      NextShut(h, e, t);
      if t in s.profiles {
        KeyStays(s.profiles[t], r.profiles[t]);
      }
    }
  }

  lemma KeyStays(p: P.Profile, q: P.Profile)
    requires q == p || q == p.(closed := true)
    ensures p.resource.Some? ==> P.KeyOf(q) == P.KeyOf(p)
  {
  }

  lemma SessionsStep(h: seq<Event>, e: Event, s: P.State, r: P.State)
    requires CallsRead(h, s) && SessionsRead(h, s) && P.Step(s, e, |h| + 1) == Some(r)
    ensures SessionsRead(h + [e], r)
  {
    hide CallsRead, SessionsRead, P.OnHook, P.OnResult, P.OnDisconnect, P.OnReject, P.OnRequest, P.Draw;
    match e
    case HookEvent(_, _, _, _, _) =>
      ActiveIsRunning(h, s);
      HookSessions(h, e, s, r);
    case RpcResult(_, _, _) => ResultSessions(h, e, s, r);
    case ConnectionClose(_, _) => CloseSessions(h, e, s);
    case _ => QuietSessions(h, e, s, r);
  }

  lemma ActiveIsRunning(h: seq<Event>, s: P.State)
    requires CallsRead(h, s)
    ensures s.active == Running(h)
  {
  }

  lemma QuietSessions(h: seq<Event>, e: Event, s: P.State, r: P.State)
    requires SessionsRead(h, s) && !e.HookEvent? && !e.RpcResult? && !e.ConnectionClose? && P.Step(s, e, |h| + 1) == Some(r)
    ensures SessionsRead(h + [e], r)
  {
    hide SessionRead;
    forall t ensures SessionRead(h + [e], r, t) {
      assert SessionRead(h, s, t);
      OrderHolds(h, s, t);
      StillSession(h, e, s, r, t);
    }
  }

  // ---- Inferred terminations --------------------------------------------------------------

  lemma ArmedBySet(h: seq<Event>, e: Event, t: Token)
    ensures Armed(h + [e], t) && !Did(h, e, SetAttribute, t) ==> Armed(h, t)
    ensures Armed(h, t) ==> WasArmed(h, t)
  {
    hide Setting, Answered, Starts;
    NextSetting(h, e, t, P.TERMCHAR_ATTRIBUTE);
    NextSetting(h, e, t, P.TERMCHAR_ENABLED_ATTRIBUTE);
    assert h[..|h|] == h;
  }

  /** A known session is armed exactly when its profile has both flags. */
  lemma ArmedIs(j: seq<Event>, s: P.State, t: Token)
    requires SessionRead(j, s, t)
    ensures Armed(j, t) <==> t in s.profiles && s.profiles[t].termcharSeen && s.profiles[t].termcharEnabled
  {
    hide Setting, Owner, Key, Shut;
  }

  /** What a set_attribute result does besides the profile. */
  lemma SetTermination(h: seq<Event>, e: Event, s: P.State, r: P.State, t: Token)
    requires CallsRead(h, s) && e.RpcResult? && P.OnResult(s, e, |h| + 1) == Some(r) && Did(h, e, SetAttribute, t)
    ensures t in s.profiles && t in r.profiles && SetAttributeOf(h, e).Some?
    ensures
      var a, q := SetAttributeOf(h, e).value, r.profiles[t];
      var infers := t !in s.readTermination && q.termcharSeen && q.termcharEnabled;
      && r.readTermination == (if infers then s.readTermination + {t} else s.readTermination)
      && r.drafts == s.drafts
         + if infers then [P.Draft(|h| + 1, P.SetReadTermination, Some(t), Some([10]), None, true, 0)]
           else if a == P.TIMEOUT_ATTRIBUTE then [P.Draft(|h| + 1, P.SetTimeout, Some(t), None, None, true, 0)] else []
  {
    hide Pending, CallsRead, Answered;
    ResultRequest(h, e, s);
  }

  lemma StartOrClose(h: seq<Event>, e: Event, s: P.State, r: P.State)
    requires e.RpcResult? && P.OnResult(s, e, |h| + 1) == Some(r) && e.operation != Clear(SetAttribute)
    ensures r.readTermination == s.readTermination
  {
  }

  lemma ReadTerminations(h: seq<Event>, e: Event, s: P.State, r: P.State)
    requires CallsRead(h, s) && SessionsRead(h + [e], r) && LinesRead(h, s) && P.Step(s, e, |h| + 1) == Some(r)
    ensures forall t :: t in r.readTermination <==> WasArmed(h + [e], t)
  {
    hide CallsRead, SessionRead, EndedLine, WasArmed, Armed, P.OnResult, P.OnHook, P.OnReject, P.OnRequest, P.OnDisconnect, P.Draw;
    forall t ensures t in r.readTermination <==> WasArmed(h + [e], t) {
      NextLines(h, e, t);
      ArmedBySet(h, e, t);
      assert SessionRead(h + [e], r, t);
      ArmedIs(h + [e], r, t);
      if e.RpcResult? && e.operation == Clear(SetAttribute) {
        SetShape(h, e, s, r);
        var x :| Did(h, e, SetAttribute, x);
        SetTermination(h, e, s, r, x);
      } else {
        OtherTerminations(h, e, s, r);
      }
    }
  }

  lemma OtherTerminations(h: seq<Event>, e: Event, s: P.State, r: P.State)
    requires P.Step(s, e, |h| + 1) == Some(r) && !(e.RpcResult? && e.operation == Clear(SetAttribute))
    ensures r.readTermination == s.readTermination
  {
    hide P.SweepAll;
  }

  /** The end of a hook: the write it reports, after the termination it may show for the first time. */
  lemma HookEnd(h: seq<Event>, e: Event, s: P.State, r: P.State)
    requires CallsRead(h, s) && e.HookEvent? && e.hook != Before && P.OnHook(s, e, |h| + 1) == Some(r)
    ensures Running(h).Some? && Ended(h, e).Some? && s.active == Running(h)
    ensures
      var t, sent := Running(h).value, Ended(h, e).value;
      var first := EndsLine(h, e, t) && t !in s.writeTermination;
      && r.writeTermination == (if first then s.writeTermination + {t} else s.writeTermination)
      && r.drafts == s.drafts
         + (if first then [P.Draft(sent.raw, P.SetWriteTermination, Some(t), Some([10]), None, true, 1)] else [])
         + [P.Draft(|h| + 1, P.WriteCommand, Some(t), Some(sent.payload), None, e.hook == After, 0)]
  {
    hide LastWrite, Running, P.Attributed, P.Attributable, Pending;
  }

  lemma WriteTerminations(h: seq<Event>, e: Event, s: P.State, r: P.State)
    requires CallsRead(h, s) && LinesRead(h, s) && P.Step(s, e, |h| + 1) == Some(r)
    ensures forall t :: t in r.writeTermination <==> EndedLine(h + [e], t)
  {
    hide CallsRead, EndedLine, WasArmed, Armed, P.OnResult, P.OnHook, P.OnReject, P.OnRequest, P.OnDisconnect, P.Draw, Ended, Running;
    forall t ensures t in r.writeTermination <==> EndedLine(h + [e], t) {
      NextLines(h, e, t);
      if e.HookEvent? && e.hook != Before {
        HookEnd(h, e, s, r);
      } else {
        OtherLines(s, e, |h| + 1, r);
      }
    }
  }

  lemma OtherLines(s: P.State, e: Event, n: nat, r: P.State)
    requires P.Step(s, e, n) == Some(r) && !(e.HookEvent? && e.hook != Before)
    ensures r.writeTermination == s.writeTermination
  {
    hide P.SweepAll;
  }

  lemma ReadStep(h: seq<Event>, e: Event, s: P.State, r: P.State)
    requires AllRead(h, s) && P.Step(s, e, |h| + 1) == Some(r)
    ensures AllRead(h + [e], r)
  {
    hide CallsRead, SessionsRead, P.Step;
    CallsStep(h, e, s, r);
    SessionsStep(h, e, s, r);
    ReadTerminations(h, e, s, r);
    WriteTerminations(h, e, s, r);
  }

  // ---- The records of one event ------------------------------------------------------------

  ghost predicate Told(drafts: seq<P.Draft>, x: P.Evidence) { exists k :: 0 <= k < |drafts| && P.Materialize(drafts[k]) == x }

  /** The drafts event e adds are what it becomes, forced closes apart. */
  ghost predicate Adds(h: seq<Event>, e: Event, s: P.State, r: P.State, more: seq<P.Draft>) {
    r.drafts == s.drafts + more && forall x :: !ForcedClose(x) ==> (Becomes(h, e, x) <==> Told(more, x))
  }

  lemma ToldOne(d: P.Draft)
    ensures forall x :: Told([d], x) <==> x == P.Materialize(d)
    ensures forall x :: !Told([], x)
  {
    assert [d][0] == d;
  }

  lemma ToldTwo(d: P.Draft, f: P.Draft)
    ensures forall x :: Told([d, f], x) <==> x == P.Materialize(d) || x == P.Materialize(f)
  {
    assert [d, f][0] == d && [d, f][1] == f;
  }

  /** Which events can become what. */
  lemma BecomesBy(h: seq<Event>, e: Event, x: P.Evidence)
    requires Becomes(h, e, x)
    ensures x.operation == P.WriteCommand || x.operation == P.SetWriteTermination ==> e.HookEvent? && e.hook != Before
    ensures x.operation == P.SetReadTermination || x.operation == P.SetTimeout ==> x.token.Some? && Did(h, e, SetAttribute, x.token.value)
    ensures x.operation == P.VisaFailure || x.operation == P.RpcRejected ==> e.RpcReject?
    ensures x.operation == P.ProtocolRejected ==> e.ConnectionReject?
    ensures x.operation == P.ForceSafe ==> e == Lifecycle(8)
    ensures x.operation == P.OpenResource ==> e.RpcResult? && e.operation == Clear(Open)
    ensures x.operation == P.CloseResource ==> e.RpcResult? && e.operation == Clear(Close)
  {
    hide Armed, WasArmed, Answered, Ended, Running, Key, Shut, EndedLine, EndsLine;
    if x.operation == P.SetReadTermination {
      ArmedBySet(h, e, x.token.value);
    }
    if x.operation == P.SetWriteTermination {
      LineNeedsHook(h, e, Running(h).value);
    }
    if x.operation == P.WriteCommand {
      EndNeedsHook(h, e);
    }
  }

  lemma LineNeedsHook(h: seq<Event>, e: Event, t: Token)
    requires EndsLine(h, e, t)
    ensures e.HookEvent? && e.hook != Before
  {
  }

  lemma EndNeedsHook(h: seq<Event>, e: Event)
    requires Ended(h, e).Some?
    ensures e.HookEvent? && e.hook != Before && Running(h).Some?
  {
  }

  lemma HookAdds(h: seq<Event>, e: Event, s: P.State, r: P.State) returns (more: seq<P.Draft>)
    requires AllRead(h, s) && e.HookEvent? && e.hook != Before && P.OnHook(s, e, |h| + 1) == Some(r)
    ensures Adds(h, e, s, r, more)
  {
    hide CallsRead, SessionsRead, EndedLine, WasArmed, Ended, Running, P.OnHook, EndsLine, Armed, Sets, Answered, Told;
    HookEnd(h, e, s, r);
    var t, sent := Running(h).value, Ended(h, e).value;
    var ending := P.Draft(sent.raw, P.SetWriteTermination, Some(t), Some([10]), None, true, 1);
    var write := P.Draft(|h| + 1, P.WriteCommand, Some(t), Some(sent.payload), None, e.hook == After, 0);
    ToldOne(write);
    ToldTwo(ending, write);
    more := if EndsLine(h, e, t) && t !in s.writeTermination then [ending, write] else [write];
    assert s.drafts + [ending] + [write] == s.drafts + [ending, write] && s.drafts + [] + [write] == s.drafts + [write];
    forall x | !ForcedClose(x) ensures Becomes(h, e, x) <==> Told(more, x) {
      if Becomes(h, e, x) {
        BecomesBy(h, e, x);
      }
    }
  }

  lemma SetAdds(h: seq<Event>, e: Event, s: P.State, r: P.State, t: Token) returns (more: seq<P.Draft>)
    requires AllRead(h, s) && SessionRead(h + [e], r, t) && e.RpcResult? && P.OnResult(s, e, |h| + 1) == Some(r) && Did(h, e, SetAttribute, t)
    ensures Adds(h, e, s, r, more)
  {
    hide CallsRead, SessionRead, EndedLine, WasArmed, Ended, Running, P.OnResult, EndsLine, Armed, Answered, Told, P.TIMEOUT_ATTRIBUTE, Sets;
    SetTermination(h, e, s, r, t);
    ArmedIs(h + [e], r, t);
    var a := SetAttributeOf(h, e).value;
    var inferred := P.Draft(|h| + 1, P.SetReadTermination, Some(t), Some([10]), None, true, 0);
    var timeout := P.Draft(|h| + 1, P.SetTimeout, Some(t), None, None, true, 0);
    ToldOne(inferred);
    ToldOne(timeout);
    SetsWhat(h, e, t);
    TimeoutInfersNothing(h, e, t);
    more := if Armed(h + [e], t) && !WasArmed(h, t) then [inferred] else if a == P.TIMEOUT_ATTRIBUTE then [timeout] else [];
    forall x | !ForcedClose(x) ensures Becomes(h, e, x) <==> Told(more, x) {
      if Becomes(h, e, x) {
        BecomesBy(h, e, x);
        OneSession(h, e, SetAttribute, t);
      }
    }
  }

  lemma OneSession(h: seq<Event>, e: Event, name: Operation, t: Token)
    requires Did(h, e, name, t)
    ensures forall u, o :: Did(h, e, o, u) ==> u == t && o == name
  {
  }

  lemma SetsWhat(h: seq<Event>, e: Event, t: Token)
    requires Did(h, e, SetAttribute, t) && SetAttributeOf(h, e).Some?
    ensures forall u, a :: Sets(h, e, u, a) <==> u == t && a == SetAttributeOf(h, e).value
  {
    hide Answered;
  }

  /** Setting the timeout leaves the termination attributes alone, so it arms nothing. */
  lemma TimeoutInfersNothing(h: seq<Event>, e: Event, t: Token)
    ensures Sets(h, e, t, P.TIMEOUT_ATTRIBUTE) && Armed(h + [e], t) ==> WasArmed(h, t)
  {
    hide Setting, Answered, Starts;
    NextSetting(h, e, t, P.TERMCHAR_ATTRIBUTE);
    NextSetting(h, e, t, P.TERMCHAR_ENABLED_ATTRIBUTE);
    assert h[..|h|] == h;
  }

  lemma OpenAdds(h: seq<Event>, e: Event, s: P.State, r: P.State) returns (more: seq<P.Draft>)
    requires e.RpcResult? && P.OnResult(s, e, |h| + 1) == Some(r) && e.operation == Clear(Open)
    ensures Adds(h, e, s, r, more)
  {
    hide Armed, Sets, Answered, Told, Ended, Key, Shut, Running, EndsLine;
    more := [P.Draft(|h| + 1, P.OpenResource, Starts(e), None, None, true, 0)];
    ToldOne(more[0]);
    forall x | !ForcedClose(x) ensures Becomes(h, e, x) <==> Told(more, x) {
      if Becomes(h, e, x) {
        BecomesBy(h, e, x);
      }
    }
  }

  /** The drafts of a close's result. */
  lemma CloseDrafts(h: seq<Event>, e: Event, s: P.State, r: P.State, t: Token)
    requires CallsRead(h, s) && SessionRead(h, s, t) && e.RpcResult? && P.OnResult(s, e, |h| + 1) == Some(r) && Did(h, e, Close, t)
    ensures r.drafts == s.drafts
      + if Key(h, t).Some? && !Shut(h, t) then [P.Draft(|h| + 1, P.CloseResource, Some(t), None, Some(P.Candidate), true, 0)] else []
  {
    hide CallsRead, Answered, Key, Shut, Setting, Owner;
    ResultRequest(h, e, s);
  }

  lemma CloseAdds(h: seq<Event>, e: Event, s: P.State, r: P.State, t: Token) returns (more: seq<P.Draft>)
    requires AllRead(h, s) && e.RpcResult? && P.OnResult(s, e, |h| + 1) == Some(r) && Did(h, e, Close, t)
    ensures Adds(h, e, s, r, more)
  {
    hide CallsRead, SessionRead, LinesRead, Armed, Sets, Answered, Told, Ended, Key, Shut, Running, EndsLine, P.OnResult;
    assert SessionRead(h, s, t);
    CloseDrafts(h, e, s, r, t);
    var closing := P.Draft(|h| + 1, P.CloseResource, Some(t), None, Some(P.Candidate), true, 0);
    ToldOne(closing);
    more := if Key(h, t).Some? && !Shut(h, t) then [closing] else [];
    forall x | !ForcedClose(x) ensures Becomes(h, e, x) <==> Told(more, x) {
      if Becomes(h, e, x) {
        BecomesBy(h, e, x);
        OneSession(h, e, Close, t);
      }
    }
  }

  lemma RejectAdds(h: seq<Event>, e: Event, s: P.State, r: P.State) returns (more: seq<P.Draft>)
    requires CallsRead(h, s) && e.RpcReject? && P.OnReject(s, e, |h| + 1) == r
    ensures Adds(h, e, s, r, more)
  {
    hide Armed, Sets, Told, Ended, Key, Shut, Running, EndsLine, Pending;
    assert (if e.connection in s.requests then Some(s.requests[e.connection]) else None) == Pending(h, e.connection);
    var d := P.Draft(|h| + 1, if e.kind == VisaError then P.VisaFailure else P.RpcRejected,
                     P.SessionOf(Answered(h, e)), None, None, false, 0);
    NoSessionInRedacted();
    ToldOne(d);
    more := if e.kind == VisaError && Refused(h, e) == Clear(Write) then [] else [d];
    assert s.drafts + [] == s.drafts;
    forall x | !ForcedClose(x) ensures Becomes(h, e, x) <==> Told(more, x) {
      if Becomes(h, e, x) {
        BecomesBy(h, e, x);
      }
    }
  }

  lemma NoSessionInRedacted()
    ensures P.SessionOf(RedactedArguments) == None
  {
  }

  lemma DrawAdds(h: seq<Event>, e: Event, s: P.State, r: P.State) returns (more: seq<P.Draft>)
    requires e.ConnectionReject? || e == Lifecycle(8)
    requires P.Step(s, e, |h| + 1) == Some(r)
    ensures Adds(h, e, s, r, more)
  {
    hide Armed, Sets, Told, Ended, Key, Shut, Running, EndsLine, Answered;
    more := [if e.ConnectionReject? then P.Draft(|h| + 1, P.ProtocolRejected, None, None, None, false, 0)
             else P.Draft(|h| + 1, P.ForceSafe, None, None, Some(P.ForcedClose), true, 0)];
    ToldOne(more[0]);
    forall x | !ForcedClose(x) ensures Becomes(h, e, x) <==> Told(more, x) {
      if Becomes(h, e, x) {
        BecomesBy(h, e, x);
      }
    }
  }

  /** Every other event becomes nothing, a connection's end only forced closes. */
  predicate Silent(e: Event) {
    match e
    case RpcRequest(_, _, _) => true
    case HookEvent(_, hook, _, _, _) => hook == Before
    case RpcResult(_, operation, _) => operation !in {Clear(Open), Clear(Close), Clear(SetAttribute)}
    case RpcReject(_, _, _) => false
    case ConnectionReject => false
    case Lifecycle(n) => n != 8
    case ConnectionClose(_, _) => false
    case _ => true
  }

  lemma BecomesNothing(h: seq<Event>, e: Event, x: P.Evidence)
    requires Silent(e) || e.ConnectionClose?
    ensures !Becomes(h, e, x)
  {
    hide Becomes;
    if Becomes(h, e, x) {
      BecomesBy(h, e, x);
    }
  }

  lemma SilentAdds(h: seq<Event>, e: Event, s: P.State, r: P.State) returns (more: seq<P.Draft>)
    requires Silent(e) && P.Step(s, e, |h| + 1) == Some(r)
    ensures Adds(h, e, s, r, more)
  {
    hide Becomes, Told;
    more := [];
    assert s.drafts + [] == s.drafts;
    assert r.drafts == s.drafts by { SilentDrafts(s, e, |h| + 1, r); }
    forall x | !ForcedClose(x) ensures Becomes(h, e, x) <==> Told(more, x) {
      BecomesNothing(h, e, x);
      ToldNone(x);
    }
  }

  lemma ToldNone(x: P.Evidence)
    ensures !Told([], x)
  {
  }

  lemma SilentDrafts(s: P.State, e: Event, n: nat, r: P.State)
    requires Silent(e) && P.Step(s, e, n) == Some(r)
    ensures r.drafts == s.drafts
  {
  }

  lemma {:induction false} SweepAdds(w: P.Sweep, order: seq<Token>, c: Connection, n: nat)
    ensures
      var drafts := P.SweepAll(w, order, c, n).drafts;
      && |w.drafts| <= |drafts| && drafts[..|w.drafts|] == w.drafts
      && forall k :: |w.drafts| <= k < |drafts| ==> ForcedClose(P.Materialize(drafts[k]))
  {
    if order != [] {
      SweepAdds(w, order[..|order| - 1], c, n);
    }
  }

  lemma EndAdds(h: seq<Event>, e: Event, s: P.State) returns (more: seq<P.Draft>)
    requires e.ConnectionClose?
    ensures Adds(h, e, s, P.OnDisconnect(s, e.connection, |h| + 1), more)
  {
    hide Becomes, P.SweepAll;
    var r := P.OnDisconnect(s, e.connection, |h| + 1);
    SweepAdds(P.Sweep(s.profiles, {}, s.drafts, 0), s.order, e.connection, |h| + 1);
    more := r.drafts[|s.drafts|..];
    assert r.drafts == s.drafts + more;
    forall x | !ForcedClose(x) ensures Becomes(h, e, x) <==> Told(more, x) {
      BecomesNothing(h, e, x);
    }
  }

  lemma StepAdds(h: seq<Event>, e: Event, s: P.State, r: P.State) returns (more: seq<P.Draft>)
    requires AllRead(h, s) && AllRead(h + [e], r) && P.Step(s, e, |h| + 1) == Some(r)
    ensures Adds(h, e, s, r, more)
  {
    hide CallsRead, SessionRead, LinesRead, Adds, P.OnHook, P.OnResult, P.OnDisconnect, P.OnReject, P.OnRequest;
    if e.HookEvent? && e.hook != Before {
      more := HookAdds(h, e, s, r);
    } else if e.RpcResult? && e.operation == Clear(Open) {
      more := OpenAdds(h, e, s, r);
    } else if e.RpcResult? && e.operation == Clear(Close) {
      CloseShape(h, e, s, r);
      var t :| Did(h, e, Close, t);
      more := CloseAdds(h, e, s, r, t);
    } else if e.RpcResult? && e.operation == Clear(SetAttribute) {
      SetShape(h, e, s, r);
      var t :| Did(h, e, SetAttribute, t);
      assert SessionRead(h + [e], r, t);
      more := SetAdds(h, e, s, r, t);
    } else if e.RpcReject? {
      more := RejectAdds(h, e, s, r);
    } else if e.ConnectionReject? || e == Lifecycle(8) {
      more := DrawAdds(h, e, s, r);
    } else if e.ConnectionClose? {
      more := EndAdds(h, e, s);
    } else {
      more := SilentAdds(h, e, s, r);
    }
  }

  // ---- Whole journals ---------------------------------------------------------------------

  /** Some record of j is reported as x. */
  ghost predicate Reported(j: seq<Event>, x: P.Evidence) { exists k :: 0 <= k < |j| && Becomes(j[..k], j[k], x) }

  lemma ReportedNext(h: seq<Event>, e: Event, x: P.Evidence)
    ensures Reported(h + [e], x) <==> Reported(h, x) || Becomes(h, e, x)
  {
    hide Becomes;
    var j, n := h + [e], |h|;
    assert j[..n] == h && j[n] == e;
    assert forall k :: 0 <= k < n ==> j[..k] == h[..k] && j[k] == h[k];
    if Reported(h, x) {
      var k :| 0 <= k < n && Becomes(h[..k], h[k], x);
      assert Becomes(j[..k], j[k], x);
    }
    if Becomes(h, e, x) {
      assert Becomes(j[..n], j[n], x);
    }
  }

  lemma ToldMore(a: seq<P.Draft>, b: seq<P.Draft>, x: P.Evidence)
    ensures Told(a + b, x) <==> Told(a, x) || Told(b, x)
  {
    hide P.Materialize;
    if Told(a, x) {
      var k :| 0 <= k < |a| && P.Materialize(a[k]) == x;
      assert (a + b)[k] == a[k];
    }
    if Told(b, x) {
      var k :| 0 <= k < |b| && P.Materialize(b[k]) == x;
      assert (a + b)[|a| + k] == b[k];
    }
  }

  lemma NothingRead()
    ensures AllRead([], P.START) && forall x :: Told(P.START.drafts, x) <==> Reported([], x)
  {
  }

  lemma {:induction false} FoldReports(j: seq<Event>)
    requires P.Fold(j).Some?
    ensures AllRead(j, P.Fold(j).value)
    ensures forall x :: !ForcedClose(x) ==> (Told(P.Fold(j).value.drafts, x) <==> Reported(j, x))
  {
    if j == [] {
      NothingRead();
    } else {
      hide AllRead, P.Step, Told, Reported, Becomes, ForcedClose;
      var h, e := j[..|j| - 1], j[|j| - 1];
      assert j == h + [e];
      FoldReports(h);
      var s, r := P.Fold(h).value, P.Fold(j).value;
      ReadStep(h, e, s, r);
      var more := StepAdds(h, e, s, r);
      forall x | !ForcedClose(x) ensures Told(r.drafts, x) <==> Reported(j, x) {
        ReportedNext(h, e, x);
        ToldMore(s.drafts, more, x);
      }
    }
  }

  /** In every projection of any journal an event other than a forced close is reported exactly when some record
      becomes it. */
  lemma ProjectsExactly(j: seq<Event>, x: P.Evidence)
    requires j != [] && P.Project(j).Some? && !ForcedClose(x)
    ensures x in P.Project(j).value <==> Reported(j, x)
  {
    hide P.Sorted, Becomes, AllRead, P.Materialize;
    FoldReports(j);
    V.SortedMembers(P.Fold(j).value.drafts, x);
  }
}
