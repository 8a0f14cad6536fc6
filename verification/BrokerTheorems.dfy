/** What every broker run keeps, and what the independent verifier therefore says of its journal. */
module BrokerTheorems {
  import opened Wire
  import opened BrokerJournal
  import opened BrokerModel
  import opened BrokerBlocks
  import A = BrokerAnswers
  import opened EvidenceVerifier
  import opened BrokerRuns
  import L = SessionLedger

  // ---- Everything a connection has done, written or not -----------------------------------

  function Seen(s: System, c: Connection): seq<Event> {
    Conn(s.journal, c) + if c < |s.threads| then Conn(s.threads[c].pending, c) else []
  }

  function LedgerOf(s: System, c: Connection): L.Ledger { L.Fold(L.EMPTY, Seen(s, c)) }

  /** Every token the connection has held. */
  function Tokens(s: System, c: Connection): set<Token> {
    if LedgerOf(s, c).Ledger? then LedgerOf(s, c).entries.Keys else {}
  }

  lemma SeenUnconcerned(s: System, e: Event, c: Connection)
    requires !Concerns(e, c)
    ensures Seen(Record(s, e), c) == Seen(s, c)
  {
    hide Concerns;
    ConnAppend(s.journal, [e], c);
    ConnOne(e, c);
  }

  lemma SeenPost(s: System, c: Connection, peer: Peer, block: seq<Event>)
    requires c < |s.threads| && s.threads[c].pending == []
    ensures Seen(Post(s, c, peer, block), c) == Seen(s, c) + Conn(block, c)
  {
  }

  lemma SeenElsewhere(s: System, c: Connection, peer: Peer, block: seq<Event>, d: Connection)
    requires c < |s.threads| && c != d
    ensures Seen(Post(s, c, peer, block), d) == Seen(s, d)
  {
  }

  /** Writing one event moves it from the worker to the journal and changes no connection's whole. */
  lemma SeenEmit(s: System, m: Move, d: Connection)
    requires ThreadsOk(s) && m.Emit? && Enabled(s, m)
    ensures Seen(Next(s, m), d) == Seen(s, d)
  {
    hide Conn, ThreadsOk;
    var t := s.threads[m.c];
    var e, rest := t.pending[0], t.pending[1..];
    assert t.pending == [e] + rest;
    ConnAppend(s.journal, [e], d);
    if d == m.c {
      ConnAppend([e], rest, d);
    } else {
      assert ThreadOk(s, m.c) by { ThreadIsOk(s, m.c); }
      assert [e] == t.pending[..1];
      ConnOther([e], m.c, d);
    }
  }

  lemma ThreadIsOk(s: System, c: Connection)
    requires ThreadsOk(s) && c < |s.threads|
    ensures ThreadOk(s, c)
  {
  }

  lemma SeenAccept(s: System, m: Move, d: Connection)
    requires m.Accept? && Enabled(s, m)
    ensures d != |s.threads| ==> Seen(Next(s, m), d) == Seen(s, d)
    ensures d == |s.threads| ==> Seen(Next(s, m), d) == Conn(s.journal, d) + [ConnectionOpen(d)]
  {
    hide Conn;
    var e, r := ConnectionOpen(|s.threads|), Next(s, m);
    ConnAppend(s.journal, [e], d);
    ConnOne(e, d);
    NothingConcerns(d);
    if d < |s.threads| {
      assert r.threads[d] == s.threads[d];
    }
    assert Conn(r.journal, d) == Conn(s.journal, d) + if d == |s.threads| then [e] else [];
  }

  lemma NothingConcerns(d: Connection)
    ensures Conn([], d) == []
  {
  }

  // ---- Every connection's ledger holds ----------------------------------------------------

  /** The ledger of everything connection c has done matches its session table. */
  ghost predicate ReadsOk(s: System, c: Connection)
    requires c < |s.threads|
  {
    && L.AtRest(LedgerOf(s, c), s.threads[c].peer.sessions)
    && LedgerOf(s, c).entries.Keys <= s.drawn
  }

  /** No two connections have held the same token. */
  ghost predicate Apart(s: System) {
    forall c: nat, d: nat :: c < d < |s.threads| ==> Tokens(s, c) !! Tokens(s, d)
  }

  ghost predicate Untouched(s: System) { forall c: nat :: c >= |s.threads| ==> Conn(s.journal, c) == [] }

  /** No trusted failure, and no disconnect that raised after it had forced a session. */
  predicate Clean(s: System) { !s.failed && s.repeated == 0 }

  ghost predicate Readable(s: System) {
    && Untouched(s)
    && (Clean(s) ==> Apart(s) && forall c: nat :: c < |s.threads| ==> ReadsOk(s, c))
  }

  /** ReadsOk looks at nothing but what the connection has done, its table and the tokens drawn. */
  lemma ReadsSame(s: System, r: System, c: Connection)
    requires c < |s.threads| && c < |r.threads| && ReadsOk(s, c)
    requires Seen(s, c) == Seen(r, c) && s.threads[c].peer == r.threads[c].peer && s.drawn <= r.drawn
    ensures ReadsOk(r, c)
  {
  }

  /** Nothing any connection has done changes. */
  lemma NothingSeen(s: System, r: System)
    requires Readable(s) && |s.threads| == |r.threads| && s.drawn <= r.drawn && Clean(s) == Clean(r)
    requires forall c: nat :: Seen(s, c) == Seen(r, c)
    requires forall c: nat :: c < |s.threads| ==> s.threads[c].peer == r.threads[c].peer
    ensures Readable(r)
  {
    hide Conn, L.Fold, ScanAll, L.AtRest, ReadsOk;
    forall c: nat | c >= |r.threads| ensures Conn(r.journal, c) == [] {
      assert Seen(s, c) == Conn(s.journal, c) + [];
      assert Seen(r, c) == Conn(r.journal, c) + [];
    }
    if Clean(s) {
      forall c: nat | c < |r.threads| ensures ReadsOk(r, c) {
        ReadsSame(s, r, c);
      }
      assert forall c: nat :: Tokens(r, c) == Tokens(s, c);
    }
  }

  /** One connection does more, with its ledger kept and at most one new token. */
  lemma OneSeen(s: System, r: System, c: Connection, newToken: Token)
    requires Readable(s) && c < |s.threads| && |s.threads| == |r.threads| && r.journal == s.journal
    requires Clean(r) ==> Clean(s)
    requires Clean(r) ==> ReadsOk(r, c) && newToken !in s.drawn && Tokens(r, c) <= Tokens(s, c) + {newToken}
    requires s.drawn <= r.drawn
    requires forall d: nat :: d != c ==> Seen(s, d) == Seen(r, d)
    requires forall d: nat :: d < |s.threads| && d != c ==> s.threads[d].peer == r.threads[d].peer
    ensures Readable(r)
  {
    hide Seen, L.Fold, ScanAll, L.AtRest, Conn;
    if Clean(r) {
      forall d: nat | d < |r.threads| ensures ReadsOk(r, d) {
        assert ReadsOk(s, d);
        if d != c {
          ReadsSame(s, r, d);
        }
      }
      forall a: nat, b: nat | a < b < |r.threads| ensures Tokens(r, a) !! Tokens(r, b) {
        assert ReadsOk(s, a) && ReadsOk(s, b);
        TokensDrawn(s, a);
        TokensDrawn(s, b);
        assert a != c ==> Tokens(r, a) == Tokens(s, a);
        assert b != c ==> Tokens(r, b) == Tokens(s, b);
        assert Tokens(s, a) !! Tokens(s, b);
      }
    }
  }

  lemma TokensDrawn(s: System, c: Connection)
    requires c < |s.threads| && ReadsOk(s, c)
    ensures Tokens(s, c) <= s.drawn && LedgerOf(s, c).Ledger?
  {
  }

  /** A block the ledger takes in its stride. */
  lemma PostReads(s: System, r: System, c: Connection, peer: Peer, block: seq<Event>)
    requires c < |s.threads| && s.threads[c].pending == [] && ReadsOk(s, c) && AllWritten(block, c)
    requires r.journal == s.journal && r.threads == Post(s, c, peer, block).threads
    requires L.AtRest(L.Fold(LedgerOf(s, c), block), peer.sessions)
    requires L.Fold(LedgerOf(s, c), block).entries.Keys <= r.drawn
    ensures ReadsOk(r, c) && LedgerOf(r, c) == L.Fold(LedgerOf(s, c), block)
  {
    hide Conn, ScanAll, L.Fold, L.AtRest, AllWritten;
    SeenPost(s, c, peer, block);
    assert Seen(r, c) == Seen(Post(s, c, peer, block), c);
    L.FoldAppend(L.EMPTY, Seen(s, c), Conn(block, c));
    ConnReads(Between, LedgerOf(s, c), block, c);
  }

  lemma CallReads(s: System, m: Move)
    requires ThreadsOk(s) && m.Call? && Enabled(s, m) && ReadsOk(s, m.c)
    ensures
      var r := Next(s, m);
      Clean(r) ==> ReadsOk(r, m.c) && Tokens(r, m.c) <= Tokens(s, m.c) + {m.newToken}
  {
    hide Dispatched, Seen, LedgerOf, TallyOf, Sum, Conn, AllOwned, UniqueTokens, HasToken, ScanAll, L.Fold, L.AtRest, AllWritten;
    var r, t := Next(s, m), s.threads[m.c];
    if Clean(r) {
      var e := Dispatched(m.c, t.peer, m.operation, m.args, m.limited, m.reply, m.newToken);
      FreshToken(s, m.c, m.newToken);
      DispatchBlock(m.c, t.peer, m.operation, m.args, m.limited, m.reply, m.newToken);
      AlarmWritten(s, e.events, m.c);
      L.RestFacts(LedgerOf(s, m.c), t.peer.sessions);
      L.DispatchKeeps(LedgerOf(s, m.c), m.c, t.peer, m.operation, m.args, m.limited, m.reply, m.newToken);
      PostReads(s, r, m.c, e.peer, e.events);
    }
  }

  /** A disconnect keeps the ledger when it succeeds, and when it raises before it has forced anything. */
  lemma HangupReads(s: System, m: Move)
    requires ThreadsOk(s) && m.Hangup? && Enabled(s, m) && ReadsOk(s, m.c)
    ensures Clean(Next(s, m)) ==> ReadsOk(Next(s, m), m.c) && Tokens(Next(s, m), m.c) == Tokens(s, m.c)
  {
    hide Disconnected, Seen, LedgerOf, TallyOf, Sum, Conn, AllOwned, UniqueTokens, ScanAll, L.Fold, L.AtRest, AllWritten, Cleanups;
    var r, t := Next(s, m), s.threads[m.c];
    var e := Departed(m.c, t.peer, m.closes);
    ThreadIsOk(s, m.c);
    HangupWritten(m.c, t.peer, m.closes);
    L.RestFacts(LedgerOf(s, m.c), t.peer.sessions);
    if m.closes >= |t.peer.sessions| {
      L.DisconnectKeeps(LedgerOf(s, m.c), m.c, t.peer);
      PostReads(s, r, m.c, e.peer, e.events);
      L.RestFacts(LedgerOf(r, m.c), []);
    } else if m.closes == 0 {
      NothingForced(m.c, t.peer);
      FoldNone(LedgerOf(s, m.c));
      PostReads(s, r, m.c, e.peer, []);
    }
  }

  lemma NothingForced(c: Connection, peer: Peer)
    requires peer.sessions != []
    ensures Departed(c, peer, 0).events == []
  {
  }

  lemma FoldNone(l: L.Ledger)
    ensures L.Fold(l, []) == l
  {
  }

  lemma NoticeReads(s: System, c: Connection, block: seq<Event>)
    requires Readable(s) && c < |s.threads| && s.threads[c].pending == []
    requires AllWritten(block, c) && (forall d: nat :: Conn(block, d) == [])
    ensures Readable(Post(s, c, s.threads[c].peer, block))
  {
    hide Conn, L.Fold, ScanAll, L.AtRest, ReadsOk, AllWritten, Readable;
    var r := Post(s, c, s.threads[c].peer, block);
    forall d: nat ensures Seen(s, d) == Seen(r, d) {
      if d == c {
        SeenPost(s, c, s.threads[c].peer, block);
      } else {
        SeenElsewhere(s, c, s.threads[c].peer, block, d);
      }
    }
    NothingSeen(s, r);
  }

  lemma NoticeUnseen(s: System, block: seq<Event>)
    requires block == [ConnectionReject] || block == Alarm(s)
    ensures forall d: nat :: Conn(block, d) == []
  {
    forall d: nat ensures Conn(block, d) == [] {
      ConnOne(ConnectionReject, d);
      ConnOne(TrustedFailure, d);
    }
  }

  lemma AcceptUntouched(s: System, m: Move)
    requires Untouched(s) && m.Accept? && Enabled(s, m)
    ensures Untouched(Next(s, m)) && Seen(Next(s, m), |s.threads|) == [ConnectionOpen(|s.threads|)]
  {
    hide Conn;
    var r, n := Next(s, m), |s.threads|;
    SeenAccept(s, m, n);
    forall c: nat | c > n ensures Conn(r.journal, c) == [] {
      SeenAccept(s, m, c);
      assert Seen(s, c) == Conn(s.journal, c) + [] && Seen(r, c) == Conn(r.journal, c) + [];
    }
  }

  lemma NewcomerOk(r: System, n: Connection)
    requires n < |r.threads| && r.threads[n].peer.sessions == [] && Seen(r, n) == [ConnectionOpen(n)]
    ensures ReadsOk(r, n) && Tokens(r, n) == {}
  {
    hide Seen, L.AtRest, L.Fold;
    NewcomerReads(n);
  }

  lemma TokensSame(s: System, r: System, c: Connection)
    requires Seen(s, c) == Seen(r, c)
    ensures Tokens(s, c) == Tokens(r, c)
  {
    hide Seen, L.Fold;
  }

  lemma AcceptReads(s: System, m: Move)
    requires Readable(s) && m.Accept? && Enabled(s, m)
    ensures Readable(Next(s, m))
  {
    hide Conn, Seen, ReadsOk, Tokens, Untouched;
    var r, n := Next(s, m), |s.threads|;
    AcceptUntouched(s, m);
    if Clean(s) {
      NewcomerOk(r, n);
      forall d: nat | d < n ensures ReadsOk(r, d) && Tokens(s, d) == Tokens(r, d) {
        SeenAccept(s, m, d);
        assert r.threads[d] == s.threads[d];
        ReadsSame(s, r, d);
        TokensSame(s, r, d);
      }
    }
  }

  lemma NewcomerReads(n: Connection)
    ensures L.Fold(L.EMPTY, [ConnectionOpen(n)]) == L.EMPTY && L.AtRest(L.EMPTY, [])
  {
    L.FoldOne(L.EMPTY, ConnectionOpen(n));
  }

  lemma ReadsKept(s: System, m: Move)
    requires Readable(s) && ThreadsOk(s) && Enabled(s, m)
    ensures Readable(Next(s, m))
  {
    hide Dispatched, Departed, Seen, LedgerOf, ReadsOk, ThreadOk, Conn, AllWritten, Alarm;
    var r := Next(s, m);
    match m
    case Advance => UnconcernedReads(s, Lifecycle(s.phase), r);
    case Accept(_) => AcceptReads(s, m);
    case Refuse => UnconcernedReads(s, ConnectionReject, r);
    case Call(c, _, _, _, _, newToken) =>
      if Clean(s) { CallReads(s, m); }
      ElsewhereSame(s, r, c);
      OneSeen(s, r, c, newToken);
    case Malformed(c) =>
      NoticeUnseen(s, [ConnectionReject]);
      RejectWritten(c);
      NoticeReads(s, c, [ConnectionReject]);
    case Fault(c) =>
      NoticeUnseen(s, Alarm(s));
      AlarmWritten(s, [], c);
      NoticeReads(s, c, Alarm(s));
      FaultReads(Post(s, c, s.threads[c].peer, Alarm(s)));
    case Hangup(c, _) =>
      if Clean(s) { HangupReads(s, m); }
      ElsewhereSame(s, r, c);
      var t: Token := Unused(s.drawn);
      OneSeen(s, r, c, t);
    case Emit(c) =>
      forall d: nat ensures Seen(s, d) == Seen(r, d) {
        SeenEmit(s, m, d);
      }
      NothingSeen(s, r);
  }

  lemma FaultReads(s: System)
    requires Readable(s)
    ensures Readable(s.(failed := true))
  {
  }

  lemma ElsewhereSame(s: System, r: System, c: Connection)
    requires c < |s.threads| && r.journal == s.journal && |r.threads| == |s.threads|
    requires r.threads == s.threads[c := r.threads[c]]
    ensures forall d: nat :: d != c ==> Seen(s, d) == Seen(r, d)
  {
  }

  lemma UnconcernedReads(s: System, e: Event, r: System)
    requires Readable(s) && (e.Lifecycle? || e.ConnectionReject?)
    requires r == Record(s, e).(phase := r.phase)
    ensures Readable(r)
  {
    hide Seen, Conn, Readable;
    forall d: nat ensures Seen(s, d) == Seen(r, d) {
      SeenUnconcerned(s, e, d);
      PhaseUnseen(Record(s, e), r, d);
    }
    NothingSeen(s, r);
  }

  lemma PhaseUnseen(s: System, r: System, c: Connection)
    requires r == s.(phase := r.phase)
    ensures Seen(s, c) == Seen(r, c)
  {
  }

  /** Some token outside a finite set: one longer than all of them. */
  ghost function Unused(drawn: set<Token>): (t: Token)
    ensures t !in drawn
  {
    seq(Longest(drawn) + 1, i => 'a')
  }

  ghost function Longest(drawn: set<Token>): (n: nat)
    ensures forall t <- drawn :: |t| <= n
  {
    if drawn == {} then 0
    else
      var t :| t in drawn;
      var n := Longest(drawn - {t});
      assert forall u <- drawn :: u == t || u in drawn - {t};
      if n < |t| then |t| else n
  }

  // ---- Every connection's events scan as blocks -------------------------------------------

  /** Without a trusted failure everything a connection has done scans as whole blocks, whatever its disconnects
      did. */
  ghost predicate Scanned(s: System) { !s.failed ==> forall c: nat :: ScanAll(Between, Seen(s, c)) == Between }

  lemma PostScan(s: System, r: System, c: Connection, peer: Peer, block: seq<Event>)
    requires Scanned(s) && c < |s.threads| && s.threads[c].pending == [] && AllWritten(block, c)
    requires r.journal == s.journal && r.threads == Post(s, c, peer, block).threads && (s.failed ==> r.failed)
    requires !r.failed ==> ScanAll(Between, block) == Between
    ensures Scanned(r)
  {
    hide ScanAll, Conn, AllWritten, Seen;
    if !r.failed {
      forall d: nat ensures ScanAll(Between, Seen(r, d)) == Between {
        SeenThreads(Post(s, c, peer, block), r, d);
        if d == c {
          SeenPost(s, c, peer, block);
          ScanAppend(Between, Seen(s, c), Conn(block, c));
          ConnReads(Between, L.EMPTY, block, c);
        } else {
          SeenElsewhere(s, c, peer, block, d);
        }
      }
    }
  }

  lemma SeenThreads(s: System, r: System, c: Connection)
    requires s.journal == r.journal && s.threads == r.threads
    ensures Seen(s, c) == Seen(r, c)
  {
  }

  /** A disconnect writes nothing the scan looks at. */
  lemma UnseenScans(c: Connection, peer: Peer, closes: nat)
    ensures ScanAll(Between, Departed(c, peer, closes).events) == Between
  {
    hide Departed, AllOwned, Sum, TallyOf, Conn, Stream;
    var e := Departed(c, peer, closes).events;
    DepartedBlock(c, peer, closes);
    HangupWritten(c, peer, closes);
    StreamReads(Between, e, c);
    ConnReads(Between, L.EMPTY, e, c);
    ScanNone();
  }

  lemma NoticeScans(s: System)
    ensures ScanAll(Between, [ConnectionReject]) == Between && ScanAll(Between, Alarm(s)) == Between
  {
    ScanOne(Between, ConnectionReject);
    ScanOne(Between, TrustedFailure);
    ScanNone();
  }

  lemma CallScans(s: System, m: Move)
    requires Scanned(s) && ThreadsOk(s) && m.Call? && Enabled(s, m)
    ensures Scanned(Next(s, m))
  {
    hide Dispatched, Scanned, TallyOf, Sum, AllOwned, UniqueTokens, HasToken, ScanAll, AllWritten, Alarm;
    var r, t := Next(s, m), s.threads[m.c];
    var e := Dispatched(m.c, t.peer, m.operation, m.args, m.limited, m.reply, m.newToken);
    FreshToken(s, m.c, m.newToken);
    DispatchBlock(m.c, t.peer, m.operation, m.args, m.limited, m.reply, m.newToken);
    AlarmWritten(s, e.events, m.c);
    PostScan(s, r, m.c, e.peer, if e.crashed then e.events + Alarm(s) else e.events);
  }

  lemma SameScans(s: System, r: System)
    requires Scanned(s) && s.failed == r.failed && forall c: nat :: Seen(s, c) == Seen(r, c)
    ensures Scanned(r)
  {
    hide Seen, ScanAll;
  }

  lemma AcceptScans(s: System, m: Move)
    requires Scanned(s) && m.Accept? && Enabled(s, m)
    ensures Scanned(Next(s, m))
  {
    hide ScanAll, Seen, Conn;
    var r, n := Next(s, m), |s.threads|;
    if !s.failed {
      forall d: nat ensures ScanAll(Between, Seen(r, d)) == Between {
        SeenAccept(s, m, d);
        if d == n {
          SeenNobody(s, n);
          ScanAppend(Between, Seen(s, n), [ConnectionOpen(n)]);
          ScanOne(Between, ConnectionOpen(n));
        }
      }
    }
  }

  lemma SeenNobody(s: System, c: Connection)
    requires c >= |s.threads|
    ensures Seen(s, c) == Conn(s.journal, c)
  {
  }

  lemma ScanKept(s: System, m: Move)
    requires Scanned(s) && ThreadsOk(s) && Enabled(s, m)
    ensures Scanned(Next(s, m))
  {
    hide Dispatched, Departed, Seen, ThreadsOk, Alarm, Scanned, ScanAll, AllWritten, Concerns;
    var r := Next(s, m);
    match m
    case Advance =>
      forall d: nat ensures Seen(s, d) == Seen(r, d) { UnconcernedSeen(s, Lifecycle(s.phase), r, d); }
      SameScans(s, r);
    case Accept(_) => AcceptScans(s, m);
    case Refuse =>
      forall d: nat ensures Seen(s, d) == Seen(r, d) { UnconcernedSeen(s, ConnectionReject, r, d); }
      SameScans(s, r);
    case Call(_, _, _, _, _, _) => CallScans(s, m);
    case Malformed(c) =>
      RejectWritten(c);
      NoticeScans(s);
      PostScan(s, r, c, s.threads[c].peer, [ConnectionReject]);
    case Fault(c) =>
      AlarmWritten(s, [], c);
      NoticeScans(s);
      PostScan(s, r, c, s.threads[c].peer, Alarm(s));
    case Hangup(c, closes) =>
      HangupWritten(c, s.threads[c].peer, closes);
      UnseenScans(c, s.threads[c].peer, closes);
      PostScan(s, r, c, Departed(c, s.threads[c].peer, closes).peer, Departed(c, s.threads[c].peer, closes).events);
    case Emit(c) =>
      forall d: nat ensures Seen(s, d) == Seen(r, d) { SeenEmit(s, m, d); }
      SameScans(s, r);
  }

  lemma UnconcernedSeen(s: System, e: Event, r: System, d: Connection)
    requires (e.Lifecycle? || e.ConnectionReject?) && r == Record(s, e).(phase := r.phase)
    ensures Seen(s, d) == Seen(r, d)
  {
    hide Seen, Conn;
    SeenUnconcerned(s, e, d);
    PhaseUnseen(Record(s, e), r, d);
  }

  // ---- Lifecycle and failures ------------------------------------------------------------

  ghost predicate Phased(s: System) {
    && s.phase <= LIFECYCLE_STEPS && Lifecycles(s.journal) == UpTo(s.phase)
    && (s.phase == 0 ==> s.journal == [])
    && (s.phase > 0 ==> s.journal != [] && s.journal[0] == Lifecycle(0))
    && (s.phase < READY ==> s.threads == [])
    && (s.phase >= FROZEN ==> AllQuiet(s) && s.journal[|s.journal| - 1] == Lifecycle(s.phase - 1))
    && (s.phase > FROZEN ==> !s.failed)
    && (s.phase > AUDIT ==> s.repeated == 0)
    && (s.aborted ==> s.phase == FREEZING)
  }

  lemma LifecycleOne(events: seq<Event>, e: Event)
    ensures Lifecycles(events + [e]) == Lifecycles(events) + if e.Lifecycle? then [e.step] else []
  {
    assert (events + [e])[..|events|] == events;
  }

  lemma UpToOne(n: nat)
    ensures UpTo(n) + [n] == UpTo(n + 1)
  {
  }

  lemma AdvancePhase(s: System, m: Move)
    requires Phased(s) && ThreadsOk(s) && Balanced(s) && m.Advance? && Enabled(s, m)
    ensures Phased(Next(s, m))
  {
    hide UpTo, Lifecycles, Balanced, AccountingHolds, ThreadsOk;
    LifecycleOne(s.journal, Lifecycle(s.phase));
    UpToOne(s.phase);
    LifecyclesNone();
    if s.phase == AUDIT {
      AccountingIff(s);
    }
  }

  lemma PhaseKept(s: System, m: Move)
    requires Phased(s) && ThreadsOk(s) && Balanced(s) && Enabled(s, m)
    ensures Phased(Next(s, m))
  {
    hide Dispatched, Departed, ThreadsOk, UpTo, Lifecycles, Alarm, Balanced, AccountingHolds;
    match m
    case Advance => AdvancePhase(s, m);
    case Accept(_) => LifecycleOne(s.journal, ConnectionOpen(|s.threads|));
    case Refuse => LifecycleOne(s.journal, ConnectionReject);
    case Emit(c) =>
      ThreadIsOk(s, c);
      LifecycleOne(s.journal, s.threads[c].pending[0]);
    case Call(_, _, _, _, _, _) =>
    case Malformed(_) =>
    case Fault(_) =>
    case Hangup(_, _) =>
  }

  lemma LifecyclesNone()
    ensures Lifecycles([]) == UpTo(0)
  {
  }

  ghost predicate Waiting(s: System) { exists c: nat :: c < |s.threads| && TrustedFailure in s.threads[c].pending }

  /** The alarm is written, or about to be, exactly in failed runs. */
  ghost predicate Alarmed(s: System) { s.failed <==> TrustedFailure in s.journal || Waiting(s) }

  lemma OwnedNoAlarm(events: seq<Event>, c: Connection)
    requires AllOwned(events, c)
    ensures TrustedFailure !in events
  {
  }

  /** A new block raises the alarm exactly when the run has just failed. */
  lemma PostAlarm(s: System, r: System, c: Connection, peer: Peer, block: seq<Event>)
    requires Alarmed(s) && c < |s.threads| && s.threads[c].pending == []
    requires r.threads == Post(s, c, peer, block).threads && r.journal == s.journal
    requires r.failed <==> s.failed || TrustedFailure in block
    ensures Alarmed(r)
  {
    if Waiting(s) {
      var d: nat :| d < |s.threads| && TrustedFailure in s.threads[d].pending;
      assert r.threads[d] == s.threads[d];
    }
    if TrustedFailure in block {
      assert TrustedFailure in r.threads[c].pending;
    }
    if Waiting(r) && TrustedFailure !in block {
      var d: nat :| d < |r.threads| && TrustedFailure in r.threads[d].pending;
      assert r.threads[d] == s.threads[d];
    }
  }

  lemma EmitAlarm(s: System, m: Move)
    requires Alarmed(s) && m.Emit? && Enabled(s, m)
    ensures Alarmed(Next(s, m))
  {
    var r, t := Next(s, m), s.threads[m.c];
    assert t.pending == [t.pending[0]] + t.pending[1..];
    if Waiting(s) {
      var d: nat :| d < |s.threads| && TrustedFailure in s.threads[d].pending;
      assert d == m.c || r.threads[d] == s.threads[d];
      assert TrustedFailure in r.journal || TrustedFailure in r.threads[d].pending;
    }
    if Waiting(r) {
      var d: nat :| d < |r.threads| && TrustedFailure in r.threads[d].pending;
      assert TrustedFailure in s.threads[d].pending;
    }
  }

  lemma RecordAlarm(s: System, r: System, e: Event)
    requires Alarmed(s) && e != TrustedFailure && r.journal == s.journal + [e] && r.failed == s.failed
    requires |r.threads| >= |s.threads| && r.threads[..|s.threads|] == s.threads
    requires forall c :: |s.threads| <= c < |r.threads| ==> r.threads[c].pending == []
    ensures Alarmed(r)
  {
    if Waiting(s) {
      var d: nat :| d < |s.threads| && TrustedFailure in s.threads[d].pending;
      assert r.threads[..|s.threads|][d] == r.threads[d];
    }
    if Waiting(r) {
      var d: nat :| d < |r.threads| && TrustedFailure in r.threads[d].pending;
      assert r.threads[..|s.threads|][d] == r.threads[d];
    }
  }

  lemma CallAlarm(s: System, m: Move)
    requires Alarmed(s) && ThreadsOk(s) && m.Call? && Enabled(s, m)
    ensures Alarmed(Next(s, m))
  {
    hide Dispatched, TallyOf, Sum, ScanAll, UniqueTokens, HasToken, Alarmed, AllOwned;
    var t := s.threads[m.c];
    var e := Dispatched(m.c, t.peer, m.operation, m.args, m.limited, m.reply, m.newToken);
    FreshToken(s, m.c, m.newToken);
    DispatchBlock(m.c, t.peer, m.operation, m.args, m.limited, m.reply, m.newToken);
    OwnedNoAlarm(e.events, m.c);
    PostAlarm(s, Next(s, m), m.c, e.peer, if e.crashed then e.events + Alarm(s) else e.events);
  }

  lemma AlarmKept(s: System, m: Move)
    requires Alarmed(s) && ThreadsOk(s) && Enabled(s, m)
    ensures Alarmed(Next(s, m))
  {
    hide Dispatched, Departed, ThreadsOk, Alarmed, Sum, TallyOf, AllOwned;
    var r := Next(s, m);
    match m
    case Advance => RecordAlarm(s, r, Lifecycle(s.phase));
    case Accept(_) => RecordAlarm(s, r, ConnectionOpen(|s.threads|));
    case Refuse => RecordAlarm(s, r, ConnectionReject);
    case Call(_, _, _, _, _, _) => CallAlarm(s, m);
    case Malformed(c) => PostAlarm(s, r, c, s.threads[c].peer, [ConnectionReject]);
    case Fault(c) => PostAlarm(s, r, c, s.threads[c].peer, Alarm(s));
    case Hangup(c, closes) =>
      var e := Departed(c, s.threads[c].peer, closes);
      DepartedBlock(c, s.threads[c].peer, closes);
      OwnedNoAlarm(e.events, c);
      PostAlarm(s, r, c, e.peer, e.events);
    case Emit(_) => EmitAlarm(s, m);
  }

  // ---- Theorems --------------------------------------------------------------------------

  ghost predicate Invariant(s: System) {
    ThreadsOk(s) && Balanced(s) && Readable(s) && Scanned(s) && Phased(s) && Alarmed(s)
  }

  /** What every step of every run keeps. */
  lemma {:induction false} RunKeeps(moves: seq<Move>)
    ensures Invariant(Run(moves))
  {
    if moves == [] {
      InitiallySound();
    } else {
      hide ThreadsOk, Balanced, Readable, Scanned, Phased, Alarmed, Enabled, Next;
      var s, m := Run(moves[..|moves| - 1]), moves[|moves| - 1];
      RunKeeps(moves[..|moves| - 1]);
      if Enabled(s, m) {
        ThreadsKept(s, m);
        BalanceKept(s, m);
        ReadsKept(s, m);
        ScanKept(s, m);
        PhaseKept(s, m);
        AlarmKept(s, m);
      }
    }
  }

  lemma InitiallySound()
    ensures Invariant(INITIAL)
  {
    hide ThreadsOk, Balanced, Readable, Scanned, Phased, Alarmed;
    EmptyBalance(INITIAL);
    InitialReads();
    InitialScans();
    InitialPhase();
  }

  lemma EmptyBalance(s: System)
    requires s.journal == [] && s.threads == [] && s.leaked == 0 && s.repeated == 0
    ensures Balanced(s)
  {
    hide Outstanding;
    NothingOutstanding(s);
  }

  lemma NothingOutstanding(s: System)
    requires s.journal == [] && s.threads == []
    ensures Outstanding(s) == ZERO
  {
    hide Sum, Owing, Plus;
    SumNone();
    OwingNone();
    PlusZero();
  }

  lemma OwingNone()
    ensures Owing([]) == ZERO
  {
  }

  lemma InitialReads()
    ensures Readable(INITIAL)
  {
    hide ReadsOk, LedgerOf, Tokens, Concerns;
  }

  lemma InitialScans()
    ensures Scanned(INITIAL)
  {
    hide ScanAll, Concerns;
    ScanNone();
  }

  lemma InitialPhase()
    ensures Phased(INITIAL) && Alarmed(INITIAL) && ThreadsOk(INITIAL)
  {
    hide Lifecycles, UpTo, ThreadOk;
    LifecyclesNone();
  }

  lemma QuietBalance(s: System)
    requires ThreadsOk(s) && Balanced(s) && AllQuiet(s)
    ensures Sum(s.journal).(rpc := 0, query := 0) == Tally(0 - s.repeated, s.leaked + s.repeated, |s.threads|, |s.threads|, 0, 0)
    ensures !s.failed ==> Sum(s.journal).rpc == 0 && Sum(s.journal).query == 0
  {
    hide Sum, Owing;
    forall c | 0 <= c < |s.threads| ensures s.threads[c].peer.sessions == [] {
      ThreadIsOk(s, c);
    }
    OwingQuiet(s.threads);
  }

  /** Once every worker is done and nothing failed, the counts add up exactly when no disconnect had forced a
      session before it raised. */
  lemma AccountingIff(s: System)
    requires ThreadsOk(s) && Balanced(s) && AllQuiet(s) && !s.failed
    ensures AccountingHolds(s.journal, SummaryOf(s)) <==> s.repeated == 0
  {
    hide Count, Sum, Outstanding, Balanced, ThreadsOk;
    QuietBalance(s);
    SumIsCounts(s.journal);
  }

  /** A disconnection in which the library closes a session and then raises on another. */
  predicate RaisesMidway(s: System, m: Move) {
    m.Hangup? && Enabled(s, m) && 0 < m.closes < |s.threads[m.c].peer.sessions|
  }

  ghost predicate NeverMidway(moves: seq<Move>) {
    forall i :: 0 <= i < |moves| ==> !RaisesMidway(Run(moves[..i]), moves[i])
  }

  lemma RepeatedStep(s: System, m: Move)
    requires Enabled(s, m)
    ensures Next(s, m).repeated == 0 <==> s.repeated == 0 && !RaisesMidway(s, m)
  {
    hide Dispatched, Departed, AccountingHolds;
  }

  lemma MidwaySplits(moves: seq<Move>, m: Move)
    ensures NeverMidway(moves + [m]) <==> NeverMidway(moves) && !RaisesMidway(Run(moves), m)
  {
    hide Run, RaisesMidway;
    var all, n := moves + [m], |moves|;
    assert all[..n] == moves && all[n] == m;
    assert forall i :: 0 <= i < n ==> all[..i] == moves[..i] && all[i] == moves[i];
  }

  lemma {:induction false} RepeatedIff(moves: seq<Move>)
    ensures Run(moves).repeated == 0 <==> NeverMidway(moves)
  {
    if moves != [] {
      hide Next, Enabled, RaisesMidway, NeverMidway;
      var init, m := moves[..|moves| - 1], moves[|moves| - 1];
      assert moves == init + [m];
      RepeatedIff(init);
      MidwaySplits(init, m);
      if Enabled(Run(init), m) {
        RepeatedStep(Run(init), m);
      } else {
        DisabledIsCalm(Run(init), m);
      }
    }
  }

  lemma DisabledIsCalm(s: System, m: Move)
    requires !Enabled(s, m)
    ensures !RaisesMidway(s, m)
  {
  }

  /** Over every run: once the workers are done without a trusted failure, all six accounting identities hold,
      and the service's own consistency error is not raised, if and only if no disconnect had forced a session
      before it raised. */
  lemma QuietAccounting(moves: seq<Move>)
    requires AllQuiet(Run(moves)) && !Run(moves).failed
    ensures AccountingHolds(Run(moves).journal, SummaryOf(Run(moves))) <==> Run(moves).repeated == 0
    ensures AccountingHolds(Run(moves).journal, SummaryOf(Run(moves))) <==> NeverMidway(moves)
  {
    hide Run, Balanced, ThreadsOk, AccountingHolds, NeverMidway;
    RunKeeps(moves);
    AccountingIff(Run(moves));
    RepeatedIff(moves);
  }

  /** Once every worker is done, every connection's stream is a sequence of well-formed blocks. */
  lemma QuietBlocks(moves: seq<Move>)
    requires AllQuiet(Run(moves)) && !Run(moves).failed
    ensures WellBlocked(Run(moves).journal)
  {
    hide ScanAll, Run, Stream, Conn, ThreadsOk, Balanced, Readable, Phased, Alarmed;
    var s := Run(moves);
    RunKeeps(moves);
    forall c: nat ensures ScanAll(Between, Stream(s.journal, c)) == Between {
      StreamReads(Between, s.journal, c);
      assert ScanAll(Between, Seen(s, c)) == Between;
      if c < |s.threads| {
        ConnNone(c);
        assert Seen(s, c) == Conn(s.journal, c);
      } else {
        SeenNobody(s, c);
      }
    }
  }

  lemma ScanNone()
    ensures ScanAll(Between, []) == Between
  {
  }

  lemma ConnNone(c: Connection)
    ensures Conn([], c) == []
  {
  }

  /** Every run that reaches its normal end is accepted by the independent verifier. */
  lemma RunAccepted(moves: seq<Move>)
    requires Run(moves).phase == LIFECYCLE_STEPS
    ensures Accepts(Run(moves).journal, SummaryOf(Run(moves)))
  {
    hide Run, ThreadsOk, Balanced, Readable, AccountingHolds, WellBlocked, Lifecycles, UpTo;
    RunKeeps(moves);
    QuietAccounting(moves);
    QuietBlocks(moves);
  }

  /** A run with a trusted failure is rejected once its workers are done, whatever is written after that and
      whatever its summary says. */
  lemma FailedRunRejected(moves: seq<Move>, rest: seq<Event>, summary: Summary)
    requires AllQuiet(Run(moves)) && Run(moves).failed
    ensures !Accepts(Run(moves).journal + rest, summary)
  {
    hide Run, ThreadsOk, Balanced, Readable, AccountingHolds, WellBlocked, LifecycleHolds;
    RunKeeps(moves);
  }

  // ---- Answers ---------------------------------------------------------------------------

  /** In every run each call answers, changes its table and writes its block as BrokerAnswers says. */
  lemma CallsAreLawful(moves: seq<Move>, m: Move)
    requires m.Call? && Enabled(Run(moves), m)
    ensures
      var s, r := Run(moves), Next(Run(moves), m);
      var p, after := s.threads[m.c].peer, r.threads[m.c];
      exists a: A.Answer, block ::
        && A.Answers(p, m.operation, m.args, m.limited, m.reply, m.newToken, a)
        && A.Tables(p, m.operation, m.args, m.limited, m.reply, m.newToken, after.peer)
        && A.Journalled(m.c, p, m.operation, m.args, m.limited, m.reply, m.newToken, a, block)
        && after.pending == block + if a == A.Raised then Alarm(s) else []
  {
    hide Run, Dispatched, A.Answers, A.Tables, A.Journalled, Balanced, Readable, Scanned, Phased, Alarmed;
    RunKeeps(moves);
    var s := Run(moves);
    var p := s.threads[m.c].peer;
    ThreadIsOk(s, m.c);
    A.DispatchLaw(m.c, p, m.operation, m.args, m.limited, m.reply, m.newToken);
    var e := Dispatched(m.c, p, m.operation, m.args, m.limited, m.reply, m.newToken);
    var a, block := A.AnswerOf(e), e.events;
    assert Next(s, m).threads[m.c].pending == block + if a == A.Raised then Alarm(s) else [];
    assert A.Journalled(m.c, p, m.operation, m.args, m.limited, m.reply, m.newToken, a, block);
  }
}
