/** The projected verdict on session closing, measured against what the broker did. */
module ProjectionTheorems {
  import opened Wrappers
  import opened Wire
  import opened BrokerJournal
  import opened BrokerRuns
  import L = SessionLedger
  import P = Projection
  import T = BrokerTheorems

  // ---- The ledgers of a journal ----------------------------------------------------------

  function LedgerFor(j: seq<Event>, c: Connection): L.Ledger { L.Fold(L.EMPTY, Conn(j, c)) }

  ghost function Held(j: seq<Event>, c: Connection): set<Token> {
    if LedgerFor(j, c).Ledger? then LedgerFor(j, c).entries.Keys else {}
  }

  /** Every connection's events are in order, and no token belongs to two connections. */
  ghost predicate Lawful(j: seq<Event>) {
    && (forall c: nat :: LedgerFor(j, c).Ledger?)
    && (forall c: nat, d: nat :: c != d ==> Held(j, c) !! Held(j, d))
  }

  /** One more event moves one connection's ledger by one step. */
  lemma LedgerNext(j: seq<Event>, e: Event, c: Connection)
    ensures LedgerFor(j + [e], c) == if Concerns(e, c) then L.Step(LedgerFor(j, c), e) else LedgerFor(j, c)
  {
    hide Concerns, L.Step;
    ConnAppend(j, [e], c);
    ConnOne(e, c);
    if Concerns(e, c) {
      L.FoldAppend(L.EMPTY, Conn(j, c), [e]);
      L.FoldOne(LedgerFor(j, c), e);
    } else {
      assert Conn(j, c) + [] == Conn(j, c);
    }
  }

  lemma StepGrows(l: L.Ledger, e: Event)
    ensures L.Step(l, e).Ledger? ==> l.Ledger? && l.entries.Keys <= L.Step(l, e).entries.Keys
  {
  }

  lemma LawfulInit(j: seq<Event>, e: Event)
    requires Lawful(j + [e])
    ensures Lawful(j)
  {
    hide LedgerFor, L.Step;
    forall c: nat ensures LedgerFor(j, c).Ledger? && Held(j, c) <= Held(j + [e], c) {
      LedgerNext(j, e, c);
      StepGrows(LedgerFor(j, c), e);
      assert LedgerFor(j + [e], c).Ledger?;
    }
    forall c: nat, d: nat | c != d ensures Held(j, c) !! Held(j, d) {
      assert Held(j + [e], c) !! Held(j + [e], d);
    }
  }

  /** A hook only ever runs for a session past its opening. */
  ghost predicate HooksKnown(l: L.Ledger) {
    l.Ledger? ==> forall t <- l.hooked :: t in l.entries && l.entries[t].standing != L.Opening
  }

  lemma HooksKnownStep(l: L.Ledger, e: Event)
    requires HooksKnown(l)
    ensures HooksKnown(L.Step(l, e))
  {
  }

  lemma {:induction false} HooksKnownFold(events: seq<Event>)
    ensures HooksKnown(L.Fold(L.EMPTY, events))
  {
    hide L.Step, HooksKnown;
    if events == [] {
      assert HooksKnown(L.EMPTY) by { NoHooks(); }
    } else {
      HooksKnownFold(events[..|events| - 1]);
      HooksKnownStep(L.Fold(L.EMPTY, events[..|events| - 1]), events[|events| - 1]);
    }
  }

  lemma NoHooks()
    ensures HooksKnown(L.EMPTY)
  {
  }

  // ---- What the projection's variables mean ----------------------------------------------

  /** Connection c has opened t, and told its peer so. */
  predicate Known(l: L.Ledger, t: Token) { l.Ledger? && t in l.entries && l.entries[t].standing != L.Opening }

  predicate RequestAgrees(p: P.State, l: L.Ledger, c: Connection) {
    && l.Ledger?
    && match l.waiting
       case Nothing => c !in p.requests
       case Request(operation, arguments) => c in p.requests && p.requests[c] == RpcRequest(c, operation, arguments)
  }

  /** A session the candidate would be credited for closing: a resource, or a manager a hook ran for. */
  predicate Credited(l: L.Ledger, t: Token)
    requires Known(l, t)
  {
    l.entries[t].kind == Resource || t in l.hooked
  }

  ghost predicate ProfileAgrees(p: P.State, l: L.Ledger, c: Connection, t: Token)
    requires Known(l, t)
  {
    && t in p.profiles && p.profiles[t].connection == c
    && (p.profiles[t].resource.Some? <==> Credited(l, t))
    && (l.entries[t].standing == L.Live || l.entries[t].standing == L.Closing ==> !p.profiles[t].closed)
  }

  predicate Opened(drafts: seq<P.Draft>, t: Token) {
    exists i :: 0 <= i < |drafts| && drafts[i].operation == P.OpenResource && drafts[i].token == Some(t)
  }

  predicate Closed(drafts: seq<P.Draft>, t: Token) {
    exists i :: 0 <= i < |drafts| && drafts[i].operation == P.CloseResource && drafts[i].cleanup == Some(P.Candidate)
      && drafts[i].token == Some(t)
  }

  ghost predicate DraftAgrees(p: P.State, l: L.Ledger, t: Token) {
    && (Opened(p.drafts, t) <==> Known(l, t) && l.entries[t].kind == Resource)
    && (Closed(p.drafts, t) <==> Known(l, t) && l.entries[t].standing == L.Released && Credited(l, t))
  }

  ghost predicate Agree(p: P.State, j: seq<Event>) {
    && Lawful(j)
    && (forall c: nat :: RequestAgrees(p, LedgerFor(j, c), c))
    && (forall c: nat, t :: Known(LedgerFor(j, c), t) ==> ProfileAgrees(p, LedgerFor(j, c), c, t))
    && (forall t <- p.profiles :: Known(LedgerFor(j, p.profiles[t].connection), t))
    && (forall t <- p.profiles :: DraftAgrees(p, LedgerFor(j, p.profiles[t].connection), t))
    && (forall t :: t !in p.profiles ==> !Opened(p.drafts, t) && !Closed(p.drafts, t))
    && ActiveAgrees(p, j)
  }

  ghost predicate ActiveAgrees(p: P.State, j: seq<Event>) {
    p.active.Some? ==>
      && p.active.value in p.profiles
      && var l := LedgerFor(j, p.profiles[p.active.value].connection);
         l.Ledger? && p.active.value in l.hooked
  }

  /** From one journal to the next, at most connection c's ledger moves. */
  ghost predicate Moves(j: seq<Event>, k: seq<Event>, c: Connection, l: L.Ledger) {
    LedgerFor(k, c) == l && forall d: nat :: d != c ==> LedgerFor(k, d) == LedgerFor(j, d)
  }

  lemma EventMoves(j: seq<Event>, e: Event, c: Connection)
    requires Concerns(e, c)
    ensures Moves(j, j + [e], c, L.Step(LedgerFor(j, c), e))
  {
    hide LedgerFor, L.Step;
    forall d: nat ensures d == c ==> LedgerFor(j + [e], d) == L.Step(LedgerFor(j, c), e)
                  ensures d != c ==> LedgerFor(j + [e], d) == LedgerFor(j, d)
    {
      LedgerNext(j, e, d);
    }
  }

  /** New drafts that neither open nor close a session for the candidate. */
  predicate Incidental(d: P.Draft) {
    d.operation != P.OpenResource && (d.operation == P.CloseResource ==> d.cleanup != Some(P.Candidate))
  }

  ghost predicate OnlyIncidental(before: seq<P.Draft>, after: seq<P.Draft>) {
    && |before| <= |after| && after[..|before|] == before
    && forall i :: |before| <= i < |after| ==> Incidental(after[i])
  }

  lemma IncidentalTells(before: seq<P.Draft>, after: seq<P.Draft>, t: Token)
    requires OnlyIncidental(before, after)
    ensures Opened(before, t) <==> Opened(after, t)
    ensures Closed(before, t) <==> Closed(after, t)
  {
    assert forall i :: 0 <= i < |before| ==> after[i] == after[..|before|][i];
  }

  lemma OneDraft(drafts: seq<P.Draft>, d: P.Draft, t: Token)
    ensures Opened(drafts + [d], t) <==> Opened(drafts, t) || (d.operation == P.OpenResource && d.token == Some(t))
    ensures Closed(drafts + [d], t) <==>
      Closed(drafts, t) || (d.operation == P.CloseResource && d.cleanup == Some(P.Candidate) && d.token == Some(t))
  {
    var after := drafts + [d];
    assert forall i :: 0 <= i < |drafts| ==> after[i] == drafts[i];
    assert after[|drafts|] == d;
  }

  // ---- Steps -----------------------------------------------------------------------------

  /** Everything the projection keeps about other connections stays as it was. */
  ghost predicate Elsewhere(p: P.State, q: P.State, c: Connection) {
    && (forall d: nat :: d != c ==> (d in q.requests <==> d in p.requests))
    && (forall d: nat :: d != c && d in p.requests && d in q.requests ==> q.requests[d] == p.requests[d])
    && (forall t <- p.profiles :: t in q.profiles)
    && (forall t <- q.profiles :: q.profiles[t].connection != c ==> t in p.profiles && SameProfile(p.profiles[t], q.profiles[t]))
    && (forall t <- p.profiles :: p.profiles[t].connection != c ==> t in q.profiles && SameProfile(p.profiles[t], q.profiles[t]))
    && (forall t :: t !in q.profiles || q.profiles[t].connection != c ==>
          (Opened(q.drafts, t) <==> Opened(p.drafts, t)) && (Closed(q.drafts, t) <==> Closed(p.drafts, t)))
  }

  /** What is kept about connection c agrees with its ledger. */
  ghost predicate Here(q: P.State, c: Connection, l: L.Ledger) {
    && RequestAgrees(q, l, c)
    && (forall t :: Known(l, t) ==> ProfileAgrees(q, l, c, t))
    && (forall t <- q.profiles :: q.profiles[t].connection == c ==> Known(l, t))
    && (forall t <- q.profiles :: q.profiles[t].connection == c ==> DraftAgrees(q, l, t))
  }

  lemma AgreeHere(p: P.State, j: seq<Event>, c: Connection)
    requires Agree(p, j)
    ensures Here(p, c, LedgerFor(j, c))
  {
    hide LedgerFor, Lawful, RequestAgrees, ProfileAgrees, DraftAgrees, Known;
  }

  /** Agreement is kept connection by connection. */
  lemma AgreeUpdate(p: P.State, q: P.State, j: seq<Event>, k: seq<Event>, c: Connection, l: L.Ledger)
    requires Agree(p, j) && Lawful(k) && Moves(j, k, c, l) && Elsewhere(p, q, c) && Here(q, c, l) && ActiveAgrees(q, k)
    ensures Agree(q, k)
  {
    hide LedgerFor, Lawful, Opened, Closed, ActiveAgrees;
    forall d: nat ensures RequestAgrees(q, LedgerFor(k, d), d) {
      assert RequestAgrees(p, LedgerFor(j, d), d);
    }
    forall d: nat, t | Known(LedgerFor(k, d), t) ensures ProfileAgrees(q, LedgerFor(k, d), d, t) {
      if d != c {
        assert ProfileAgrees(p, LedgerFor(j, d), d, t);
      }
    }
    forall t <- q.profiles ensures Known(LedgerFor(k, q.profiles[t].connection), t)
                           ensures DraftAgrees(q, LedgerFor(k, q.profiles[t].connection), t) {
      if q.profiles[t].connection != c {
        assert DraftAgrees(p, LedgerFor(j, p.profiles[t].connection), t);
      }
    }
    forall t | t !in q.profiles ensures !Opened(q.drafts, t) && !Closed(q.drafts, t) {
      assert t !in p.profiles;
    }
  }

  /** A profile's marks for terminators may change; who it is and whether it is closed may not. */
  predicate SameProfile(a: P.Profile, b: P.Profile) {
    a.connection == b.connection && a.resource == b.resource && a.closed == b.closed
  }

  ghost predicate SameProfiles(p: P.State, q: P.State) {
    && p.profiles.Keys == q.profiles.Keys
    && forall t <- p.profiles :: SameProfile(p.profiles[t], q.profiles[t])
  }

  ghost predicate SameRequests(p: P.State, q: P.State, c: Connection) {
    && (forall d: nat :: d != c ==> (d in q.requests <==> d in p.requests))
    && (forall d: nat :: d != c && d in p.requests && d in q.requests ==> q.requests[d] == p.requests[d])
  }

  /** Only the request of connection c changes, and drafts that say nothing of opening or closing. */
  lemma AgreeSame(p: P.State, q: P.State, j: seq<Event>, k: seq<Event>, c: Connection, l: L.Ledger)
    requires Agree(p, j) && Lawful(k) && Moves(j, k, c, l)
    requires l.Ledger? && LedgerFor(j, c).Ledger?
    requires l.entries == LedgerFor(j, c).entries && l.hooked == LedgerFor(j, c).hooked
    requires RequestAgrees(q, l, c) && SameRequests(p, q, c) && SameProfiles(p, q)
    requires q.active == p.active && OnlyIncidental(p.drafts, q.drafts)
    ensures Agree(q, k)
  {
    hide LedgerFor, Lawful, Opened, Closed, OnlyIncidental, Agree, ActiveAgrees, RequestAgrees;
    forall t ensures (Opened(q.drafts, t) <==> Opened(p.drafts, t)) && (Closed(q.drafts, t) <==> Closed(p.drafts, t)) {
      IncidentalTells(p.drafts, q.drafts, t);
    }
    AgreeHere(p, j, c);
    forall t | Known(l, t) ensures ProfileAgrees(q, l, c, t) {
      assert ProfileAgrees(p, LedgerFor(j, c), c, t);
    }
    forall t <- q.profiles | q.profiles[t].connection == c ensures DraftAgrees(q, l, t) {
      assert DraftAgrees(p, LedgerFor(j, c), t);
    }
    ActiveStays(p, q, j, k, c, l);
    AgreeUpdate(p, q, j, k, c, l);
  }

  // ---- One lemma for each kind of event --------------------------------------------------

  /** The next journal's ledger of c, and that it is one. */
  lemma NextLedger(j: seq<Event>, e: Event, c: Connection) returns (l: L.Ledger)
    requires Lawful(j + [e]) && Concerns(e, c)
    ensures l == L.Step(LedgerFor(j, c), e) && l.Ledger? && LedgerFor(j, c).Ledger? && Moves(j, j + [e], c, l)
  {
    hide LedgerFor, L.Step;
    LawfulInit(j, e);
    EventMoves(j, e, c);
    l := L.Step(LedgerFor(j, c), e);
    assert LedgerFor(j + [e], c).Ledger?;
    assert LedgerFor(j, c).Ledger?;
  }

  lemma RequestCase(p: P.State, j: seq<Event>, e: Event, n: nat)
    requires Agree(p, j) && Lawful(j + [e]) && e.RpcRequest?
    ensures Agree(P.OnRequest(p, e, n), j + [e])
  {
    hide LedgerFor, Lawful, Agree;
    var l := NextLedger(j, e, e.connection);
    AgreeSame(p, P.OnRequest(p, e, n), j, j + [e], e.connection, l);
  }

  lemma RejectCase(p: P.State, j: seq<Event>, e: Event, n: nat)
    requires Agree(p, j) && Lawful(j + [e]) && e.RpcReject?
    ensures Agree(P.OnReject(p, e, n), j + [e])
  {
    hide LedgerFor, Lawful, Agree;
    var l := NextLedger(j, e, e.connection);
    AgreeSame(p, P.OnReject(p, e, n), j, j + [e], e.connection, l);
  }

  /** The request a result answers is the one the ledger waits on. */
  lemma ResultRequest(p: P.State, j: seq<Event>, e: Event)
    requires Agree(p, j) && Lawful(j + [e]) && e.RpcResult?
    ensures
      var l, c := LedgerFor(j, e.connection), e.connection;
      && l.Ledger? && l.waiting.Request? && l.waiting.operation == e.operation
      && c in p.requests && p.requests[c] == RpcRequest(c, e.operation, l.waiting.arguments)
  {
    hide LedgerFor, Lawful;
    var l := NextLedger(j, e, e.connection);
    assert RequestAgrees(p, LedgerFor(j, e.connection), e.connection);
  }

  lemma PlainResultCase(p: P.State, j: seq<Event>, e: Event, n: nat)
    requires Agree(p, j) && Lawful(j + [e]) && e.RpcResult? && !L.Opens(e.operation) && e.operation != Clear(Close)
    requires P.OnResult(p, e, n).Some?
    ensures Agree(P.OnResult(p, e, n).value, j + [e])
  {
    hide LedgerFor, Lawful, Agree;
    hide L.Step, P.OnResult;
    ResultRequest(p, j, e);
    var l := NextLedger(j, e, e.connection);
    L.AnswerStep(LedgerFor(j, e.connection), e);
    PlainResult(p, e, n);
    AgreeSame(p, P.OnResult(p, e, n).value, j, j + [e], e.connection, l);
  }

  lemma PlainResult(p: P.State, e: Event, n: nat)
    requires e.RpcResult? && !L.Opens(e.operation) && e.operation != Clear(Close) && P.OnResult(p, e, n).Some?
    ensures
      var q := P.OnResult(p, e, n).value;
      && e.connection !in q.requests && SameRequests(p, q, e.connection) && SameProfiles(p, q)
      && q.active == p.active && OnlyIncidental(p.drafts, q.drafts)
  {
  }

  // Opening ---------------------------------------------------------------------------------

  lemma OpeningStep(l: L.Ledger, e: Event)
    requires l.Ledger? && e.RpcResult? && L.Opens(e.operation) && L.Step(l, e).Ledger?
    ensures e.result.WStr?
    ensures
      var t, m := e.result.text, L.Step(l, e);
      && L.Stands(l, t, L.Entry(L.OpenedKind(e.operation), L.Opening))
      && m == l.(waiting := L.Nothing, entries := l.entries[t := L.Entry(L.OpenedKind(e.operation), L.Live)])
  {
  }

  /** Whoever holds a token the projection has met is the connection it met it on. */
  lemma OwnerKnows(p: P.State, j: seq<Event>, c: Connection, t: Token)
    requires Agree(p, j)
    ensures t in p.profiles && t in Held(j, c) ==> p.profiles[t].connection == c && Known(LedgerFor(j, c), t)
  {
    hide LedgerFor, Opened, Closed;
    if t in p.profiles && t in Held(j, c) {
      var d := p.profiles[t].connection;
      assert Known(LedgerFor(j, d), t);
      assert t in Held(j, d);
    }
  }

  /** A token being opened is new to the projection. */
  lemma OpeningIsNew(p: P.State, j: seq<Event>, c: Connection, t: Token, kind: SessionKind)
    requires Agree(p, j) && L.Stands(LedgerFor(j, c), t, L.Entry(kind, L.Opening))
    ensures t !in p.profiles && t !in LedgerFor(j, c).hooked
  {
    hide LedgerFor, L.Fold;
    OwnerKnows(p, j, c, t);
    LedgerHooks(j, c);
  }

  lemma LedgerHooks(j: seq<Event>, c: Connection)
    ensures HooksKnown(LedgerFor(j, c))
  {
    HooksKnownFold(Conn(j, c));
  }

  /** What a successful open leaves behind. */
  lemma OpeningResult(p: P.State, e: Event, n: nat)
    requires e.RpcResult? && L.Opens(e.operation) && P.OnResult(p, e, n).Some?
    ensures e.result.WStr?
    ensures
      var q, t := P.OnResult(p, e, n).value, e.result.text;
      && e.connection !in q.requests && SameRequests(p, q, e.connection) && q.active == p.active
      && t in q.profiles && q.profiles == p.profiles[t := q.profiles[t]]
      && q.profiles[t].connection == e.connection && !q.profiles[t].closed
      && (q.profiles[t].resource.Some? <==> L.OpenedKind(e.operation) == Resource)
      && q.drafts == p.drafts
         + if L.OpenedKind(e.operation) == Resource then [P.Draft(n, P.OpenResource, Some(t), None, None, true, 0)] else []
  {
  }

  lemma OpenCase(p: P.State, j: seq<Event>, e: Event, n: nat)
    requires Agree(p, j) && Lawful(j + [e]) && e.RpcResult? && L.Opens(e.operation) && P.OnResult(p, e, n).Some?
    ensures Agree(P.OnResult(p, e, n).value, j + [e])
  {
    hide LedgerFor, Lawful, L.Step, P.OnResult, Opened, Closed, Agree, L.Opens, L.OpenedKind, ActiveAgrees;
    var c, q := e.connection, P.OnResult(p, e, n).value;
    var l := NextLedger(j, e, c);
    var b, kind := LedgerFor(j, c), L.OpenedKind(e.operation);
    OpeningStep(b, e);
    var t := e.result.text;
    OpeningResult(p, e, n);
    OpeningIsNew(p, j, c, t, kind);
    AgreeHere(p, j, c);
    forall u ensures Opened(q.drafts, u) <==> Opened(p.drafts, u) || (u == t && kind == Resource)
             ensures Closed(q.drafts, u) <==> Closed(p.drafts, u) {
      if kind == Resource {
        OneDraft(p.drafts, P.Draft(n, P.OpenResource, Some(t), None, None, true, 0), u);
      } else {
        assert q.drafts == p.drafts;
      }
    }
    NewUnclaimed(p, j, t);
    forall u | Known(l, u) ensures ProfileAgrees(q, l, c, u) {
      if u != t {
        assert Known(b, u);
      }
    }
    forall u <- q.profiles | q.profiles[u].connection == c ensures Known(l, u) && DraftAgrees(q, l, u) {
      if u != t {
        assert DraftAgrees(p, b, u);
      }
    }
    ActiveStays(p, q, j, j + [e], c, l);
    AgreeUpdate(p, q, j, j + [e], c, l);
  }

  lemma NewUnclaimed(p: P.State, j: seq<Event>, t: Token)
    requires Agree(p, j) && t !in p.profiles
    ensures !Opened(p.drafts, t) && !Closed(p.drafts, t)
  {
  }

  /** The hook in progress keeps its session while hooks only accumulate. */
  lemma ActiveStays(p: P.State, q: P.State, j: seq<Event>, k: seq<Event>, c: Connection, l: L.Ledger)
    requires Agree(p, j) && Moves(j, k, c, l) && q.active == p.active
    requires l.Ledger? && LedgerFor(j, c).Ledger? && LedgerFor(j, c).hooked <= l.hooked
    requires forall t <- p.profiles :: t in q.profiles && q.profiles[t].connection == p.profiles[t].connection
    ensures ActiveAgrees(q, k)
  {
    hide LedgerFor, Lawful, Opened, Closed;
  }

  // Closing ---------------------------------------------------------------------------------

  lemma ClosingStep(l: L.Ledger, e: Event)
    requires l.Ledger? && e.RpcResult? && e.operation == Clear(Close) && L.Step(l, e).Ledger?
    ensures l.waiting.Request? && P.SessionOf(l.waiting.arguments).Some?
    ensures
      var t, m := P.SessionOf(l.waiting.arguments).value, L.Step(l, e);
      && t in l.entries && l.entries[t].standing == L.Closing
      && m == l.(waiting := L.Nothing, entries := l.entries[t := l.entries[t].(standing := L.Released)])
  {
  }

  lemma ClosingResult(p: P.State, e: Event, n: nat, t: Token)
    requires e.RpcResult? && e.operation == Clear(Close) && P.OnResult(p, e, n).Some?
    requires e.connection in p.requests && p.requests[e.connection].RpcRequest?
    requires P.SessionOf(p.requests[e.connection].arguments) == Some(t)
    ensures
      var q := P.OnResult(p, e, n).value;
      && t in p.profiles && e.connection !in q.requests && SameRequests(p, q, e.connection) && q.active == p.active
      && q.profiles == p.profiles[t := p.profiles[t].(closed := true)]
      && q.drafts == p.drafts
         + if p.profiles[t].resource.Some? && !p.profiles[t].closed
           then [P.Draft(n, P.CloseResource, Some(t), None, Some(P.Candidate), true, 0)] else []
  {
  }

  lemma CloseCase(p: P.State, j: seq<Event>, e: Event, n: nat)
    requires Agree(p, j) && Lawful(j + [e]) && e.RpcResult? && e.operation == Clear(Close) && P.OnResult(p, e, n).Some?
    ensures Agree(P.OnResult(p, e, n).value, j + [e])
  {
    hide LedgerFor, Lawful, L.Step, P.OnResult, Opened, Closed, Agree, ActiveAgrees, P.SessionOf;
    var c, q := e.connection, P.OnResult(p, e, n).value;
    var l := NextLedger(j, e, c);
    var b := LedgerFor(j, c);
    ResultRequest(p, j, e);
    ClosingStep(b, e);
    var t := P.SessionOf(b.waiting.arguments).value;
    ClosingResult(p, e, n, t);
    AgreeHere(p, j, c);
    assert Known(b, t);
    forall u ensures Opened(q.drafts, u) <==> Opened(p.drafts, u)
             ensures Closed(q.drafts, u) <==> Closed(p.drafts, u) || (u == t && Credited(b, t)) {
      if Credited(b, t) {
        OneDraft(p.drafts, P.Draft(n, P.CloseResource, Some(t), None, Some(P.Candidate), true, 0), u);
      } else {
        assert q.drafts == p.drafts;
      }
    }
    forall u | Known(l, u) ensures ProfileAgrees(q, l, c, u) {
      assert Known(b, u);
    }
    forall u <- q.profiles | q.profiles[u].connection == c ensures Known(l, u) && DraftAgrees(q, l, u) {
      assert DraftAgrees(p, b, u);
    }
    ActiveStays(p, q, j, j + [e], c, l);
    AgreeUpdate(p, q, j, j + [e], c, l);
  }

  // Hooks -----------------------------------------------------------------------------------

  lemma HookLedger(l: L.Ledger, e: Event)
    requires l.Ledger? && e.HookEvent? && L.Step(l, e).Ledger?
    ensures L.Stands(l, e.token, L.Entry(l.entries[e.token].kind, L.Live))
    ensures L.Step(l, e) == l.(hooked := l.hooked + if e.hook == Before then {e.token} else {})
  {
  }

  lemma StepIsHook(s: P.State, e: Event, n: nat)
    requires e.HookEvent?
    ensures P.Step(s, e, n) == P.OnHook(s, e, n)
  {
  }

  lemma HookStartCase(p: P.State, j: seq<Event>, e: Event, n: nat)
    requires Agree(p, j) && Lawful(j + [e]) && e.HookEvent? && e.hook == Before && P.OnHook(p, e, n).Some?
    ensures Agree(P.OnHook(p, e, n).value, j + [e])
  {
    hide LedgerFor, Lawful, L.Step, Opened, Closed, Agree;
    var c, q := e.connection, P.OnHook(p, e, n).value;
    var l := NextLedger(j, e, c);
    var b := LedgerFor(j, c);
    HookLedger(b, e);
    AgreeHere(p, j, c);
    assert Known(b, e.token);
    forall u | Known(l, u) ensures ProfileAgrees(q, l, c, u) {
      assert Known(b, u);
    }
    forall u <- q.profiles | q.profiles[u].connection == c ensures Known(l, u) && DraftAgrees(q, l, u) {
      assert DraftAgrees(p, b, u);
    }
    AgreeUpdate(p, q, j, j + [e], c, l);
  }

  /** The hook that ends belongs to the session whose hook began, so its profile already names a resource. */
  lemma HookEndCase(p: P.State, j: seq<Event>, e: Event, n: nat)
    requires Agree(p, j) && Lawful(j + [e]) && e.HookEvent? && e.hook != Before && P.OnHook(p, e, n).Some?
    ensures Agree(P.OnHook(p, e, n).value, j + [e])
  {
    hide LedgerFor, Lawful, L.Step, Opened, Closed, Agree, OnlyIncidental, RequestAgrees;
    var c, q, t := e.connection, P.OnHook(p, e, n).value, p.active.value;
    var l := NextLedger(j, e, c);
    var b := LedgerFor(j, c);
    HookLedger(b, e);
    ActiveIsCredited(p, j);
    var d := p.profiles[t].connection;
    HookEndDrafts(p, e, n);
    forall u ensures (Opened(q.drafts, u) <==> Opened(p.drafts, u)) && (Closed(q.drafts, u) <==> Closed(p.drafts, u)) {
      IncidentalTells(p.drafts, q.drafts, u);
    }
    assert l == b;
    MovesAnywhere(j, j + [e], c, d);
    AgreeHere(p, j, d);
    var m := LedgerFor(j, d);
    forall u | Known(m, u) ensures ProfileAgrees(q, m, d, u) {
      assert ProfileAgrees(p, m, d, u);
    }
    forall u <- q.profiles | q.profiles[u].connection == d ensures Known(m, u) && DraftAgrees(q, m, u) {
      assert DraftAgrees(p, m, u);
    }
    RequestStays(p, q, m, d);
    AgreeUpdate(p, q, j, j + [e], d, m);
  }

  lemma RequestStays(p: P.State, q: P.State, l: L.Ledger, c: Connection)
    requires RequestAgrees(p, l, c) && q.requests == p.requests
    ensures RequestAgrees(q, l, c)
  {
  }

  lemma MovesAnywhere(j: seq<Event>, k: seq<Event>, c: Connection, d: Connection)
    requires Moves(j, k, c, LedgerFor(j, c))
    ensures Moves(j, k, d, LedgerFor(j, d))
  {
    hide LedgerFor;
  }

  lemma ActiveIsCredited(p: P.State, j: seq<Event>)
    requires Agree(p, j) && p.active.Some?
    ensures
      var t := p.active.value;
      && t in p.profiles && p.profiles[t].resource.Some?
  {
    hide LedgerFor, Lawful, Opened, Closed;
    var t := p.active.value;
    var d := p.profiles[t].connection;
    assert Known(LedgerFor(j, d), t);
    assert ProfileAgrees(p, LedgerFor(j, d), d, t);
  }

  lemma HookEndDrafts(p: P.State, e: Event, n: nat)
    requires e.HookEvent? && e.hook != Before && P.OnHook(p, e, n).Some?
    ensures OnlyIncidental(p.drafts, P.OnHook(p, e, n).value.drafts)
  {
  }

  // Session records, disconnections and the rest ---------------------------------------------

  /** session.open, session.close and session.forced_cleanup change no profile and no credit. */
  lemma StandingStep(l: L.Ledger, e: Event)
    requires l.Ledger? && (e.SessionOpen? || e.SessionClose? || e.ForcedCleanup?) && L.Step(l, e).Ledger?
    ensures
      var m := L.Step(l, e);
      && m.waiting == l.waiting && m.hooked == l.hooked
      && (forall t :: Known(m, t) <==> Known(l, t))
      && (forall t :: Known(m, t) ==> m.entries[t].kind == l.entries[t].kind)
      && (forall t :: Known(m, t) ==> (m.entries[t].standing == L.Released <==> l.entries[t].standing == L.Released))
      && (forall t :: Known(m, t) && (m.entries[t].standing == L.Live || m.entries[t].standing == L.Closing) ==>
            l.entries[t].standing == L.Live || l.entries[t].standing == L.Closing)
  {
  }

  lemma StandingCase(p: P.State, j: seq<Event>, e: Event)
    requires Agree(p, j) && Lawful(j + [e]) && (e.SessionOpen? || e.SessionClose? || e.ForcedCleanup?)
    ensures Agree(p, j + [e])
  {
    hide LedgerFor, Lawful, L.Step, Opened, Closed, Agree, ActiveAgrees;
    var c := e.connection;
    var l := NextLedger(j, e, c);
    var b := LedgerFor(j, c);
    StandingStep(b, e);
    AgreeHere(p, j, c);
    forall t | Known(l, t) ensures ProfileAgrees(p, l, c, t) {
      assert ProfileAgrees(p, b, c, t);
    }
    forall t <- p.profiles | p.profiles[t].connection == c ensures Known(l, t) && DraftAgrees(p, l, t) {
      assert DraftAgrees(p, b, t);
    }
    ActiveStays(p, p, j, j + [e], c, l);
    AgreeUpdate(p, p, j, j + [e], c, l);
  }

  /** A sweep closes profiles of one connection and drafts only forced closes. */
  ghost predicate Swept(profiles: map<Token, P.Profile>, drafts: seq<P.Draft>, w: P.Sweep, c: Connection) {
    && w.profiles.Keys == profiles.Keys && OnlyIncidental(drafts, w.drafts)
    && (forall t <- profiles :: w.profiles[t] == profiles[t] || (profiles[t].connection == c
          && w.profiles[t] == profiles[t].(closed := true)))
  }

  lemma {:induction false} SweepKeeps(profiles: map<Token, P.Profile>, drafts: seq<P.Draft>, order: seq<Token>, c: Connection, n: nat)
    ensures Swept(profiles, drafts, P.SweepAll(P.Sweep(profiles, {}, drafts, 0), order, c, n), c)
  {
    if order != [] {
      SweepKeeps(profiles, drafts, order[..|order| - 1], c, n);
    }
  }

  lemma DisconnectStep(l: L.Ledger, e: Event)
    requires l.Ledger? && e.ConnectionClose? && L.Step(l, e).Ledger?
    ensures L.Step(l, e) == l
    ensures forall t <- l.entries :: l.entries[t].standing == L.Released || l.entries[t].standing == L.Forced
  {
  }

  lemma DisconnectCase(p: P.State, j: seq<Event>, e: Event, n: nat)
    requires Agree(p, j) && Lawful(j + [e]) && e.ConnectionClose?
    ensures Agree(P.OnDisconnect(p, e.connection, n), j + [e])
  {
    hide LedgerFor, Lawful, L.Step, Opened, Closed, Agree, ActiveAgrees, OnlyIncidental, P.SweepAll;
    var c, q := e.connection, P.OnDisconnect(p, e.connection, n);
    var l := NextLedger(j, e, c);
    DisconnectStep(LedgerFor(j, c), e);
    SweepKeeps(p.profiles, p.drafts, p.order, c, n);
    AgreeHere(p, j, c);
    forall u ensures (Opened(q.drafts, u) <==> Opened(p.drafts, u)) && (Closed(q.drafts, u) <==> Closed(p.drafts, u)) {
      IncidentalTells(p.drafts, q.drafts, u);
    }
    forall u | Known(l, u) ensures ProfileAgrees(q, l, c, u) {
      assert ProfileAgrees(p, l, c, u);
    }
    forall u <- q.profiles | q.profiles[u].connection == c ensures Known(l, u) && DraftAgrees(q, l, u) {
      assert DraftAgrees(p, l, u);
    }
    ActiveStays(p, q, j, j + [e], c, l);
    AgreeUpdate(p, q, j, j + [e], c, l);
  }

  /** Events the projection passes over and the ledger ignores. */
  predicate Passing(e: Event) { e.ConnectionOpen? || L.Plain(e) }

  lemma PassingCase(p: P.State, j: seq<Event>, e: Event)
    requires Agree(p, j) && Lawful(j + [e]) && Passing(e)
    ensures Agree(p, j + [e])
  {
    hide LedgerFor, Lawful, Agree;
    var l := NextLedger(j, e, e.connection);
    AgreeHere(p, j, e.connection);
    AgreeSame(p, p, j, j + [e], e.connection, l);
  }

  lemma UnconcernedCase(p: P.State, j: seq<Event>, e: Event, n: nat)
    requires Agree(p, j) && Lawful(j + [e]) && (e.Lifecycle? || e.ConnectionReject? || e == TrustedFailure)
    ensures Agree(P.Step(p, e, n).value, j + [e])
  {
    hide LedgerFor, Lawful, Agree;
    forall d: nat ensures LedgerFor(j + [e], d) == LedgerFor(j, d) {
      LedgerNext(j, e, d);
    }
    AgreeHere(p, j, 0);
    AgreeSame(p, P.Step(p, e, n).value, j, j + [e], 0, LedgerFor(j, 0));
  }

  lemma StepAgrees(p: P.State, j: seq<Event>, e: Event, n: nat)
    requires Agree(p, j) && Lawful(j + [e]) && P.Step(p, e, n).Some?
    ensures Agree(P.Step(p, e, n).value, j + [e])
  {
    hide Lawful, Agree, P.OnRequest, P.OnHook, P.OnResult, P.OnReject, P.OnDisconnect;
    match e
    case RpcRequest(_, _, _) => RequestCase(p, j, e, n);
    case HookEvent(_, hook, _, _, _) =>
      if hook == Before { HookStartCase(p, j, e, n); } else { HookEndCase(p, j, e, n); }
    case RpcResult(_, operation, _) =>
      if L.Opens(operation) { OpenCase(p, j, e, n); }
      else if operation == Clear(Close) { CloseCase(p, j, e, n); }
      else { PlainResultCase(p, j, e, n); }
    case RpcReject(_, _, _) => RejectCase(p, j, e, n);
    case ConnectionClose(_, _) => DisconnectCase(p, j, e, n);
    case SessionOpen(_, _, _) => StandingCase(p, j, e);
    case SessionClose(_, _, _) => StandingCase(p, j, e);
    case ForcedCleanup(_, _, _) => StandingCase(p, j, e);
    case Lifecycle(_) => UnconcernedCase(p, j, e, n);
    case ConnectionReject => UnconcernedCase(p, j, e, n);
    case TrustedFailure => UnconcernedCase(p, j, e, n);
    case _ => PassingCase(p, j, e);
  }

  lemma AgreeAtStart()
    requires Lawful([])
    ensures Agree(P.START, [])
  {
    forall c: nat ensures LedgerFor([], c) == L.EMPTY {
      ConnEmpty(c);
    }
  }

  lemma ConnEmpty(c: Connection)
    ensures Conn([], c) == []
  {
  }

  /** Over a whole lawful journal, a projection that goes through means what the ledgers say. */
  lemma {:induction false} FoldAgrees(j: seq<Event>)
    requires Lawful(j) && P.Fold(j).Some?
    ensures Agree(P.Fold(j).value, j)
  {
    hide Lawful, Agree, P.Step;
    if j == [] {
      AgreeAtStart();
    } else {
      var init, last := j[..|j| - 1], j[|j| - 1];
      assert j == init + [last];
      LawfulInit(init, last);
      FoldAgrees(init);
      StepAgrees(P.Fold(init).value, init, last, |j|);
    }
  }

  // ---- From ledgers back to the broker's own records --------------------------------------

  /** What the broker wrote about a token. */
  datatype Mark =
    | WasOpened(token: Token, kind: SessionKind)
    | WasForced(token: Token, kind: SessionKind)
    | WasClosed(token: Token, kind: SessionKind)
    | WasHooked(token: Token)

  function MarkOf(e: Event): Option<Mark> {
    match e
    case SessionOpen(_, t, kind) => Some(WasOpened(t, kind))
    case ForcedCleanup(_, t, kind) => Some(WasForced(t, kind))
    case SessionClose(_, t, kind) => Some(WasClosed(t, kind))
    case HookEvent(_, hook, t, _, _) => if hook == Before then Some(WasHooked(t)) else None
    case _ => None
  }

  predicate Said(events: seq<Event>, m: Mark) { exists i :: 0 <= i < |events| && MarkOf(events[i]) == Some(m) }

  /** The ledger says of a token exactly what the records do. */
  ghost predicate Tells(l: L.Ledger, events: seq<Event>, t: Token) {
    && l.Ledger?
    && (forall kind :: Said(events, WasOpened(t, kind)) <==> t in l.entries && l.entries[t].kind == kind)
    && (forall kind :: Said(events, WasForced(t, kind)) <==> t in l.entries && l.entries[t] == L.Entry(kind, L.Forced))
    && (forall kind :: Said(events, WasClosed(t, kind)) <==>
          t in l.entries && l.entries[t].kind == kind && (l.entries[t].standing == L.Closing || l.entries[t].standing == L.Released))
    && (Said(events, WasHooked(t)) <==> t in l.hooked)
  }

  lemma SaidOne(events: seq<Event>, e: Event, m: Mark)
    ensures Said(events + [e], m) <==> Said(events, m) || MarkOf(e) == Some(m)
  {
    hide MarkOf;
    var all := events + [e];
    assert forall i :: 0 <= i < |events| ==> all[i] == events[i];
    assert all[|events|] == e;
  }

  lemma TellsStep(l: L.Ledger, events: seq<Event>, e: Event, t: Token)
    requires Tells(l, events, t) && L.Step(l, e).Ledger?
    ensures Tells(L.Step(l, e), events + [e], t)
  {
    hide Said;
    forall m ensures Said(events + [e], m) <==> Said(events, m) || MarkOf(e) == Some(m) {
      SaidOne(events, e, m);
    }
  }

  lemma {:induction false} FoldTells(events: seq<Event>, t: Token)
    requires L.Fold(L.EMPTY, events).Ledger?
    ensures Tells(L.Fold(L.EMPTY, events), events, t)
  {
    hide L.Step, Tells;
    if events == [] {
      NothingSaid(t);
    } else {
      var init, last := events[..|events| - 1], events[|events| - 1];
      assert events == init + [last];
      StepGrows(L.Fold(L.EMPTY, init), last);
      FoldTells(init, t);
      TellsStep(L.Fold(L.EMPTY, init), init, last, t);
    }
  }

  lemma NothingSaid(t: Token)
    ensures Tells(L.EMPTY, [], t)
  {
  }

  lemma {:induction false} ConnMembers(events: seq<Event>, c: Connection, e: Event)
    ensures e in Conn(events, c) <==> e in events && Concerns(e, c)
  {
    hide Concerns;
    if events != [] {
      ConnMembers(events[..|events| - 1], c, e);
      assert events == events[..|events| - 1] + [events[|events| - 1]];
    }
  }

  // ---- The verdict -----------------------------------------------------------------------

  lemma {:induction false} InsertedMembers(x: P.Evidence, xs: seq<P.Evidence>, e: P.Evidence)
    ensures e in P.Inserted(x, xs) <==> e == x || e in xs
  {
    if xs == [] || x.sequence < xs[0].sequence {
    } else {
      InsertedMembers(x, xs[1..], e);
      assert xs == [xs[0]] + xs[1..];
    }
  }

  lemma {:induction false} SortedMembers(drafts: seq<P.Draft>, e: P.Evidence)
    ensures e in P.Sorted(drafts) <==> exists i :: 0 <= i < |drafts| && P.Materialize(drafts[i]) == e
  {
    if drafts != [] {
      var n := |drafts| - 1;
      SortedMembers(drafts[..n], e);
      InsertedMembers(P.Materialize(drafts[n]), P.Sorted(drafts[..n]), e);
      assert forall i :: 0 <= i < n ==> drafts[..n][i] == drafts[i];
    }
  }

  lemma SortedTells(drafts: seq<P.Draft>, t: Token)
    ensures t in P.OpenedTokens(P.Sorted(drafts)) <==> Opened(drafts, t)
    ensures t in P.ActivelyClosed(P.Sorted(drafts)) <==> Closed(drafts, t)
  {
    hide P.Sorted;
    var r := P.Sorted(drafts);
    forall i | 0 <= i < |r| ensures exists k :: 0 <= k < |drafts| && P.Materialize(drafts[k]) == r[i] {
      SortedMembers(drafts, r[i]);
    }
    forall k | 0 <= k < |drafts| ensures P.Materialize(drafts[k]) in r {
      SortedMembers(drafts, P.Materialize(drafts[k]));
    }
  }

  /** Every session was released by its owner or forced. */
  ghost predicate Settled(j: seq<Event>) {
    forall c: nat, t :: LedgerFor(j, c).Ledger? && t in LedgerFor(j, c).entries ==>
      LedgerFor(j, c).entries[t].standing == L.Released || LedgerFor(j, c).entries[t].standing == L.Forced
  }

  /** At least one resource session was opened; none was forced closed; and no resource manager that a hook
      had run for was closed by the candidate. */
  ghost predicate ClosedEverything(j: seq<Event>) {
    && (exists t :: Said(j, WasOpened(t, Resource)))
    && (forall t :: !Said(j, WasForced(t, Resource)))
    && (forall t :: !(Said(j, WasClosed(t, ResourceManager)) && Said(j, WasHooked(t))))
  }

  lemma SaidSomewhere(j: seq<Event>, m: Mark)
    ensures Said(j, m) <==> exists c: nat :: Said(Conn(j, c), m)
  {
    hide Conn, MarkOf;
    if Said(j, m) {
      var i :| 0 <= i < |j| && MarkOf(j[i]) == Some(m);
      var c := MarkedConnection(j[i]);
      ConnMembers(j, c, j[i]);
      var k :| 0 <= k < |Conn(j, c)| && Conn(j, c)[k] == j[i];
      assert Said(Conn(j, c), m);
    }
    forall c: nat, i | 0 <= i < |Conn(j, c)| ensures Conn(j, c)[i] in j {
      ConnMembers(j, c, Conn(j, c)[i]);
    }
  }

  lemma MarkedConnection(e: Event) returns (c: Connection)
    requires MarkOf(e).Some?
    ensures Concerns(e, c)
  {
    c := e.connection;
  }

  lemma LedgerTells(j: seq<Event>, c: Connection, t: Token)
    requires Lawful(j)
    ensures Tells(LedgerFor(j, c), Conn(j, c), t)
  {
    assert LedgerFor(j, c).Ledger?;
    FoldTells(Conn(j, c), t);
  }

  /** In a settled journal, what the records of one token say together. */
  lemma TokenRecords(j: seq<Event>, t: Token, c: Connection)
    requires Lawful(j) && Settled(j) && t in Held(j, c)
    ensures
      var e := LedgerFor(j, c).entries[t];
      && (forall kind :: Said(j, WasOpened(t, kind)) <==> e.kind == kind)
      && (forall kind :: Said(j, WasForced(t, kind)) <==> e == L.Entry(kind, L.Forced))
      && (forall kind :: Said(j, WasClosed(t, kind)) <==> e == L.Entry(kind, L.Released))
      && (Said(j, WasHooked(t)) <==> t in LedgerFor(j, c).hooked)
  {
    hide LedgerFor, Said, Conn, MarkOf;
    forall d: nat ensures Tells(LedgerFor(j, d), Conn(j, d), t) && (d != c ==> t !in Held(j, d)) {
      LedgerTells(j, d, t);
      assert d != c ==> Held(j, c) !! Held(j, d);
    }
    forall d: nat ensures t in LedgerFor(j, d).hooked ==> t in Held(j, d) {
      LedgerHooks(j, d);
    }
    forall m: Mark | m.token == t ensures Said(j, m) <==> Said(Conn(j, c), m) {
      SaidSomewhere(j, m);
    }
  }

  lemma NoRecords(j: seq<Event>, t: Token)
    requires Lawful(j) && forall c: nat :: t !in Held(j, c)
    ensures forall kind :: !Said(j, WasOpened(t, kind)) && !Said(j, WasForced(t, kind)) && !Said(j, WasClosed(t, kind))
  {
    hide LedgerFor, Said, Conn, MarkOf;
    forall d: nat ensures Tells(LedgerFor(j, d), Conn(j, d), t) && t !in Held(j, d) {
      LedgerTells(j, d, t);
    }
    forall kind ensures !Said(j, WasOpened(t, kind)) && !Said(j, WasForced(t, kind)) && !Said(j, WasClosed(t, kind)) {
      SaidSomewhere(j, WasOpened(t, kind));
      SaidSomewhere(j, WasForced(t, kind));
      SaidSomewhere(j, WasClosed(t, kind));
    }
  }

  lemma ProfileHeld(p: P.State, j: seq<Event>, t: Token)
    requires Agree(p, j)
    ensures t in p.profiles ==> t in Held(j, p.profiles[t].connection)
  {
  }

  /** Token by token: the projection drafts an opening for each resource session, and a candidate's close for
      each closed session that is a resource or had a hook. */
  lemma TokenVerdict(p: P.State, j: seq<Event>, t: Token)
    requires Agree(p, j) && Settled(j)
    ensures Opened(p.drafts, t) <==> Said(j, WasOpened(t, Resource))
    ensures Closed(p.drafts, t) <==> Said(j, WasClosed(t, Resource)) || (Said(j, WasClosed(t, ResourceManager)) && Said(j, WasHooked(t)))
    ensures Said(j, WasOpened(t, Resource)) ==> (Said(j, WasClosed(t, Resource)) <==> !Said(j, WasForced(t, Resource)))
    ensures Said(j, WasClosed(t, Resource)) || Said(j, WasForced(t, Resource)) ==> Said(j, WasOpened(t, Resource))
    ensures Said(j, WasClosed(t, ResourceManager)) ==> !Said(j, WasOpened(t, Resource))
  {
    hide LedgerFor, Said, Opened, Closed;
    if exists c: nat :: t in Held(j, c) {
      var c: nat :| t in Held(j, c);
      TokenRecords(j, t, c);
      assert Known(LedgerFor(j, c), t);
      assert ProfileAgrees(p, LedgerFor(j, c), c, t);
      assert DraftAgrees(p, LedgerFor(j, c), t);
    } else {
      NoRecords(j, t);
      ProfileHeld(p, j, t);
    }
  }

  /** Whenever a lawful, settled journal projects, the session check passes exactly when the broker's own
      records say everything was closed. */
  lemma SessionVerdict(j: seq<Event>)
    requires Lawful(j) && Settled(j) && P.Project(j).Some?
    ensures P.ActiveCloseAll(P.Project(j).value) <==> ClosedEverything(j)
  {
    hide Lawful, Settled, P.Fold, P.Sorted, Opened, Closed, Agree, P.OpenedTokens, P.ActivelyClosed;
    if j != [] {
      var p, r := P.Fold(j).value, P.Project(j).value;
      FoldAgrees(j);
      forall t ensures
        && (t in P.OpenedTokens(r) <==> Said(j, WasOpened(t, Resource)))
        && (t in P.ActivelyClosed(r) <==> Said(j, WasClosed(t, Resource)) || (Said(j, WasClosed(t, ResourceManager)) && Said(j, WasHooked(t))))
        && (Said(j, WasOpened(t, Resource)) ==> (Said(j, WasClosed(t, Resource)) <==> !Said(j, WasForced(t, Resource))))
        && (Said(j, WasClosed(t, Resource)) || Said(j, WasForced(t, Resource)) ==> Said(j, WasOpened(t, Resource)))
        && (Said(j, WasClosed(t, ResourceManager)) ==> !Said(j, WasOpened(t, Resource)))
      {
        TokenVerdict(p, j, t);
        SortedTells(p.drafts, t);
      }
    } else {
      EmptyVerdict();
    }
  }

  lemma EmptyVerdict()
    ensures !P.ActiveCloseAll([])
  {
    assert P.OpenedTokens([]) == {};
  }

  // ---- Broker runs -----------------------------------------------------------------------

  lemma QuietSeen(s: System, c: Connection)
    requires AllQuiet(s) && T.Untouched(s)
    ensures T.Seen(s, c) == Conn(s.journal, c) && T.LedgerOf(s, c) == LedgerFor(s.journal, c)
    ensures c >= |s.threads| ==> LedgerFor(s.journal, c) == L.EMPTY
    ensures T.Tokens(s, c) == Held(s.journal, c)
  {
    ConnEmpty(c);
    if c < |s.threads| {
      assert Quiet(s.threads[c]);
    }
  }

  /** A clean run whose workers are done leaves a lawful journal with every session settled. */
  lemma QuietRunSettles(moves: seq<Move>)
    requires AllQuiet(Run(moves)) && T.Clean(Run(moves))
    ensures Lawful(Run(moves).journal) && Settled(Run(moves).journal)
  {
    hide Run, LedgerFor, T.LedgerOf, Conn, Balanced, T.Phased, T.Alarmed, T.Untouched, T.Seen, T.Tokens, Held;
    var s := Run(moves);
    T.RunKeeps(moves);
    forall c: nat ensures LedgerFor(s.journal, c).Ledger?
                  ensures c >= |s.threads| ==> LedgerFor(s.journal, c) == L.EMPTY && Held(s.journal, c) == {}
                  ensures forall t <- LedgerFor(s.journal, c).entries :: LedgerFor(s.journal, c).entries[t].standing == L.Released
                            || LedgerFor(s.journal, c).entries[t].standing == L.Forced
                  ensures T.Tokens(s, c) == Held(s.journal, c)
    {
      QuietSeen(s, c);
      if c < |s.threads| {
        T.ThreadIsOk(s, c);
        assert T.ReadsOk(s, c);
        NoneLive(LedgerFor(s.journal, c));
      } else {
        EmptyHeld(s.journal, c);
      }
    }
    forall c: nat, d: nat | c != d ensures Held(s.journal, c) !! Held(s.journal, d) {
      if c < |s.threads| && d < |s.threads| {
        assert if c < d then T.Tokens(s, c) !! T.Tokens(s, d) else T.Tokens(s, d) !! T.Tokens(s, c);
      }
    }
  }

  lemma EmptyHeld(j: seq<Event>, c: Connection)
    requires LedgerFor(j, c) == L.EMPTY
    ensures Held(j, c) == {}
  {
    hide LedgerFor;
  }

  lemma NoneLive(l: L.Ledger)
    requires L.AtRest(l, [])
    ensures l.Ledger?
    ensures forall t <- l.entries :: l.entries[t].standing == L.Released || l.entries[t].standing == L.Forced
  {
  }

  /** For every finished run of the broker whose journal projects, the session check passes exactly when at
      least one resource session was opened, none was forced closed, and no hooked manager was closed. */
  lemma RunVerdict(moves: seq<Move>)
    requires Run(moves).phase == LIFECYCLE_STEPS && P.Project(Run(moves).journal).Some?
    ensures P.ActiveCloseAll(P.Project(Run(moves).journal).value) <==> ClosedEverything(Run(moves).journal)
  {
    hide Run, P.Project, P.ActiveCloseAll, ClosedEverything, Lawful, Settled, Balanced, T.Readable, T.Alarmed, ThreadsOk;
    T.RunKeeps(moves);
    QuietRunSettles(moves);
    SessionVerdict(Run(moves).journal);
  }
}
