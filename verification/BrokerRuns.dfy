/** Runs of the broker service: connection workers whose journal writes interleave one event at a time,
    beside the service's own lifecycle (broker.py, service.py). */
module BrokerRuns {
  import opened Wire
  import opened BrokerJournal
  import opened BrokerModel
  import opened BrokerBlocks
  import opened EvidenceVerifier
  import SessionLedger

  /** A connection's worker: what is left to write of its current call. */
  datatype Thread = Thread(peer: Peer, pending: seq<Event>)

  /** `phase` counts the lifecycle events written; `drawn` holds the tokens handed out so far. `gone` holds the
      connections whose worker died in a disconnect that raised, `repeated` counts the closes such disconnects
      had forced, and `aborted` says that the freeze itself raised. */
  datatype System = System(journal: seq<Event>, threads: seq<Thread>, leaked: nat, failed: bool, phase: nat,
                           drawn: set<Token>, gone: set<Connection>, repeated: nat, aborted: bool)

  const READY: nat := 4
  const FREEZING: nat := 6
  const FROZEN: nat := 7
  const AUDIT: nat := 10

  /** A Hangup is a disconnect; `closes` is how many sessions the library closes before it raises. */
  datatype Move =
    | Advance
    | Accept(uid: int)
    | Refuse
    | Call(c: Connection, operation: Operation, args: map<string, WireValue>, limited: bool, reply: Reply, newToken: Token)
    | Malformed(c: Connection)
    | Fault(c: Connection)
    | Hangup(c: Connection, closes: nat)
    | Emit(c: Connection)

  const INITIAL := System([], [], 0, false, 0, {}, {}, 0, false)

  predicate Quiet(t: Thread) { t.peer.closed && t.pending == [] }

  predicate AllQuiet(s: System) { forall c :: 0 <= c < |s.threads| ==> Quiet(s.threads[c]) }

  predicate Idle(s: System, c: Connection) {
    READY <= s.phase < FROZEN && c < |s.threads| && s.threads[c].pending == []
  }

  /** The broker section of the summary freeze_and_close returns. */
  function SummaryOf(s: System): Summary { Summary(|s.threads|, s.leaked) }

  /** Connections are accepted between broker.ready and the signal; broker.frozen waits for every worker and
      disconnects every peer still listed; raise_if_failed and the accounting check guard what follows it. A
      token is never drawn twice. A worker that died serves nobody, and only the freeze tries its peer again. */
  predicate Enabled(s: System, m: Move) {
    match m
    case Advance =>
      && s.phase < LIFECYCLE_STEPS && !s.aborted && (s.phase == FREEZING ==> AllQuiet(s))
      && (s.phase >= FROZEN ==> !s.failed) && (s.phase == AUDIT ==> AccountingHolds(s.journal, SummaryOf(s)))
    case Accept(_) => s.phase == READY
    case Refuse => s.phase == READY
    case Call(c, _, _, _, _, newToken) => Idle(s, c) && c !in s.gone && newToken !in s.drawn
    case Malformed(c) => Idle(s, c) && c !in s.gone
    case Fault(c) => Idle(s, c) && c !in s.gone
    case Hangup(c, _) => Idle(s, c) && !s.threads[c].peer.closed && (c in s.gone ==> s.phase == FREEZING)
    case Emit(c) => c < |s.threads| && s.threads[c].pending != []
  }

  function Record(s: System, e: Event): System { s.(journal := s.journal + [e]) }

  /** The worker of connection c starts on a block of events. */
  function Post(s: System, c: Connection, peer: Peer, block: seq<Event>): System
    requires c < |s.threads|
  {
    s.(threads := s.threads[c := Thread(peer, block)])
  }

  /** _record_trusted_failure writes its event once. */
  function Alarm(s: System): seq<Event> { if s.failed then [] else [TrustedFailure] }

  function Next(s: System, m: Move): System
    requires Enabled(s, m)
  {
    match m
    case Advance => Record(s, Lifecycle(s.phase)).(phase := s.phase + 1)
    case Accept(uid) =>
      Record(s, ConnectionOpen(|s.threads|)).(threads := s.threads + [Thread(Peer(uid, [], false), [])])
    case Refuse => Record(s, ConnectionReject)
    case Call(c, operation, args, limited, reply, newToken) =>
      var e := Dispatched(c, s.threads[c].peer, operation, args, limited, reply, newToken);
      Post(s, c, e.peer, if e.crashed then e.events + Alarm(s) else e.events)
        .(failed := s.failed || e.crashed, drawn := s.drawn + {newToken})
    case Malformed(c) => Post(s, c, s.threads[c].peer, [ConnectionReject])
    case Fault(c) => Post(s, c, s.threads[c].peer, Alarm(s)).(failed := true)
    case Hangup(c, closes) =>
      var e, n := Departed(c, s.threads[c].peer, closes), |s.threads[c].peer.sessions|;
      if closes >= n then Post(s, c, e.peer, e.events).(leaked := s.leaked + n)
      else Post(s, c, e.peer, e.events)
             .(repeated := s.repeated + closes, gone := s.gone + {c}, aborted := s.aborted || c in s.gone)
    case Emit(c) =>
      var t := s.threads[c];
      Record(Post(s, c, t.peer, t.pending[1..]), t.pending[0])
  }

  /** The system after a schedule; a move that is not enabled does nothing. */
  function Run(moves: seq<Move>): System {
    if moves == [] then INITIAL
    else
      var s, m := Run(moves[..|moves| - 1]), moves[|moves| - 1];
      if Enabled(s, m) then Next(s, m) else s
  }

  // ---- One connection's part of the journal ----------------------------------------------

  function Conn(events: seq<Event>, c: Connection): seq<Event> {
    if events == [] then []
    else
      var init, last := Conn(events[..|events| - 1], c), events[|events| - 1];
      if Concerns(last, c) then init + [last] else init
  }

  lemma {:induction false} ConnAppend(x: seq<Event>, y: seq<Event>, c: Connection)
    ensures Conn(x + y, c) == Conn(x, c) + Conn(y, c)
  {
    hide Concerns;
    if y == [] {
      assert x + y == x;
    } else {
      assert (x + y)[..|x + y| - 1] == x + y[..|y| - 1];
      ConnAppend(x, y[..|y| - 1], c);
    }
  }

  lemma ConnOne(e: Event, c: Connection)
    ensures Conn([e], c) == if Concerns(e, c) then [e] else []
  {
    hide Concerns;
    assert [e][..0] == [];
  }

  /** A worker's own events, and the alarm it may raise. */
  predicate Written(e: Event, c: Connection) { Owned(e, c) || e == TrustedFailure }

  predicate AllWritten(events: seq<Event>, c: Connection) { forall i :: 0 <= i < |events| ==> Written(events[i], c) }

  lemma {:induction false} ConnOther(events: seq<Event>, c: Connection, d: Connection)
    requires AllWritten(events, c) && c != d
    ensures Conn(events, d) == []
  {
    if events != [] {
      ConnOther(events[..|events| - 1], c, d);
    }
  }

  lemma UnconcernedStep(s: Scan, l: SessionLedger.Ledger, e: Event, c: Connection)
    requires Written(e, c) && !Concerns(e, c)
    ensures ScanStep(s, e) == s && SessionLedger.Step(l, e) == l
  {
  }

  /** Both readings of a connection skip what does not concern it. */
  lemma {:induction false} ConnReads(s: Scan, l: SessionLedger.Ledger, events: seq<Event>, c: Connection)
    requires AllWritten(events, c)
    ensures ScanAll(s, Conn(events, c)) == ScanAll(s, events)
    ensures SessionLedger.Fold(l, Conn(events, c)) == SessionLedger.Fold(l, events)
  {
    hide Written, Concerns, ScanStep, SessionLedger.Step;
    if events != [] {
      var init, last := events[..|events| - 1], events[|events| - 1];
      ConnReads(s, l, init, c);
      if !Concerns(last, c) {
        UnconcernedStep(ScanAll(s, init), SessionLedger.Fold(l, init), last, c);
      } else {
        assert Conn(events, c)[..|Conn(events, c)| - 1] == Conn(init, c);
      }
    }
  }

  lemma TrackedConcerns(s: Scan, e: Event, c: Connection)
    ensures Tracked(e) && e.connection == c ==> Concerns(e, c)
    ensures !(Tracked(e) && e.connection == c) && Concerns(e, c) ==> ScanStep(s, e) == s
  {
  }

  /** The verifier's stream of a connection scans like everything that concerns it. */
  lemma {:induction false} StreamReads(s: Scan, events: seq<Event>, c: Connection)
    ensures ScanAll(s, Stream(events, c)) == ScanAll(s, Conn(events, c))
  {
    hide Concerns, ScanStep;
    if events != [] {
      var init, last := events[..|events| - 1], events[|events| - 1];
      StreamReads(s, init, c);
      TrackedConcerns(ScanAll(s, Conn(init, c)), last, c);
      if Concerns(last, c) {
        assert Conn(events, c)[..|Conn(events, c)| - 1] == Conn(init, c);
      }
      if Tracked(last) && last.connection == c {
        assert Stream(events, c)[..|Stream(events, c)| - 1] == Stream(init, c);
      }
    }
  }

  // ---- Workers ---------------------------------------------------------------------------

  ghost predicate ThreadOk(s: System, c: Connection)
    requires c < |s.threads|
  {
    var t := s.threads[c];
    && UniqueTokens(t.peer.sessions) && AllWritten(t.pending, c)
    && (forall i :: 0 <= i < |t.peer.sessions| ==> t.peer.sessions[i].token in s.drawn)
    && (t.peer.closed ==> t.peer.sessions == [])
  }

  ghost predicate ThreadsOk(s: System) { forall c: nat :: c < |s.threads| ==> ThreadOk(s, c) }

  lemma AlarmWritten(s: System, events: seq<Event>, c: Connection)
    requires AllOwned(events, c)
    ensures AllWritten(events, c) && AllWritten(events + Alarm(s), c) && AllWritten(Alarm(s), c)
  {
    hide Owned;
    assert forall i :: 0 <= i < |events| ==> events[i] in events;
  }

  lemma FreshToken(s: System, c: Connection, newToken: Token)
    requires ThreadsOk(s) && c < |s.threads| && newToken !in s.drawn
    ensures UniqueTokens(s.threads[c].peer.sessions) && !HasToken(s.threads[c].peer.sessions, newToken)
  {
    assert ThreadOk(s, c);
  }

  /** Sessions after a call carry old tokens or the new one, and a closed peer's call changes nothing. */
  lemma DispatchedTokens(c: Connection, peer: Peer, operation: Operation, args: map<string, WireValue>, limited: bool,
                         reply: Reply, newToken: Token)
    ensures
      var e := Dispatched(c, peer, operation, args, limited, reply, newToken);
      && (forall i :: 0 <= i < |e.peer.sessions| ==>
            e.peer.sessions[i].token == newToken || HasToken(peer.sessions, e.peer.sessions[i].token))
      && (peer.closed ==> e.peer == peer)
  {
    hide Invoke, HasToken;
    var e := Dispatched(c, peer, operation, args, limited, reply, newToken);
    if limited || peer.closed || operation == Hello || peer.uid != 10001 || !Invocable(operation) {
      MembersHaveTokens(peer.sessions);
    } else {
      InvokedTokens(c, peer.sessions, operation, args, reply, newToken);
    }
  }

  lemma MembersHaveTokens(sessions: seq<Session>)
    ensures forall i :: 0 <= i < |sessions| ==> HasToken(sessions, sessions[i].token)
  {
    forall i | 0 <= i < |sessions| ensures HasToken(sessions, sessions[i].token) {
      assert sessions[i] in sessions;
    }
  }

  lemma InvokedTokens(c: Connection, sessions: seq<Session>, operation: Operation, args: map<string, WireValue>,
                      reply: Reply, newToken: Token)
    requires Invocable(operation)
    ensures
      var i := Invoke(c, sessions, operation, args, reply, newToken);
      forall k :: 0 <= k < |i.sessions| ==> i.sessions[k].token == newToken || HasToken(sessions, i.sessions[k].token)
  {
    hide Invoke, HasToken, Without, KindOf, SessionLedger.Calm;
    var i := Invoke(c, sessions, operation, args, reply, newToken);
    SessionLedger.InvokeCases(c, sessions, operation, args, reply, newToken);
    MembersHaveTokens(sessions);
    if SessionLedger.DidClose(c, sessions, operation, args, i) {
      WithoutMembers(sessions, args["session"].text);
      forall k | 0 <= k < |i.sessions| ensures HasToken(sessions, i.sessions[k].token) {
        assert i.sessions[k] in sessions;
        var j :| 0 <= j < |sessions| && sessions[j] == i.sessions[k];
      }
    } else if SessionLedger.DidOpen(c, sessions, operation, newToken, i) {
      forall k | 0 <= k < |i.sessions| ensures i.sessions[k].token == newToken || HasToken(sessions, i.sessions[k].token) {
        if k < |sessions| {
          assert i.sessions[..|sessions|][k] == sessions[k];
        }
      }
    }
  }

  lemma CallThread(s: System, m: Move)
    requires ThreadsOk(s) && m.Call? && Enabled(s, m)
    ensures ThreadOk(Next(s, m), m.c)
  {
    hide Dispatched, HasToken, UniqueTokens, AllWritten, AllOwned, Alarm, TallyOf, Sum, ScanAll;
    var peer := s.threads[m.c].peer;
    FreshToken(s, m.c, m.newToken);
    assert ThreadOk(s, m.c);
    var e := Dispatched(m.c, peer, m.operation, m.args, m.limited, m.reply, m.newToken);
    DispatchBlock(m.c, peer, m.operation, m.args, m.limited, m.reply, m.newToken);
    DispatchedTokens(m.c, peer, m.operation, m.args, m.limited, m.reply, m.newToken);
    AlarmWritten(s, e.events, m.c);
    forall i | 0 <= i < |e.peer.sessions| ensures e.peer.sessions[i].token in s.drawn + {m.newToken} {
      if e.peer.sessions[i].token != m.newToken {
        TokenDrawn(s, m.c, e.peer.sessions[i].token);
      }
    }
  }

  lemma TokenDrawn(s: System, c: Connection, t: Token)
    requires c < |s.threads| && ThreadOk(s, c) && HasToken(s.threads[c].peer.sessions, t)
    ensures t in s.drawn
  {
  }

  lemma ThreadsKept(s: System, m: Move)
    requires ThreadsOk(s) && Enabled(s, m)
    ensures ThreadsOk(Next(s, m))
  {
    hide Dispatched, Departed, UniqueTokens, Written, Alarm, Owned, Unseen;
    var r := Next(s, m);
    match m
    case Advance =>
      forall d: nat | d < |r.threads| ensures ThreadOk(r, d) {
        assert ThreadOk(s, d);
      }
    case Accept(_) =>
      forall c: nat | c < |r.threads| ensures ThreadOk(r, c) {
        if c < |s.threads| {
          assert ThreadOk(s, c);
        } else {
          NoTokens();
        }
      }
    case Refuse =>
      forall d: nat | d < |r.threads| ensures ThreadOk(r, d) {
        assert ThreadOk(s, d);
      }
    case Call(c, _, _, _, _, _) =>
      CallThread(s, m);
      forall d: nat | d < |r.threads| && d != c ensures ThreadOk(r, d) {
        assert ThreadOk(s, d);
      }
    case Malformed(c) =>
      RejectWritten(c);
      forall d: nat | d < |r.threads| ensures ThreadOk(r, d) {
        assert ThreadOk(s, d);
      }
    case Fault(c) =>
      AlarmWritten(s, [], c);
      forall d: nat | d < |r.threads| ensures ThreadOk(r, d) {
        assert ThreadOk(s, d);
      }
    case Hangup(c, closes) =>
      HangupWritten(c, s.threads[c].peer, closes);
      NoTokens();
      forall d: nat | d < |r.threads| ensures ThreadOk(r, d) {
        assert ThreadOk(s, d);
      }
    case Emit(c) =>
      forall d: nat | d < |r.threads| ensures ThreadOk(r, d) {
        assert ThreadOk(s, d);
      }
  }

  lemma NoTokens()
    ensures UniqueTokens([])
  {
  }

  lemma RejectWritten(c: Connection)
    ensures AllWritten([ConnectionReject], c)
  {
  }

  lemma HangupWritten(c: Connection, peer: Peer, closes: nat)
    ensures
      var e := Departed(c, peer, closes);
      && AllWritten(e.events, c)
      && (if closes >= |peer.sessions| then e.peer.sessions == [] && e.peer.closed && !e.crashed
          else e.peer == peer && e.crashed)
  {
    hide Cleanups, TallyOf, Sum, Stream, Owned;
    DepartedBlock(c, peer, closes);
    AlarmWritten(INITIAL, Departed(c, peer, closes).events, c);
  }

  // ---- Balance ---------------------------------------------------------------------------

  /** What a worker still owes the counters: the events it has yet to write, less what its peer stands for. */
  function Owed(t: Thread): Tally {
    Minus(Sum(t.pending), Tally(|t.peer.sessions|, 0, 0, if t.peer.closed then 1 else 0, 0, 0))
  }

  function Owing(threads: seq<Thread>): Tally {
    if threads == [] then ZERO else Plus(Owing(threads[..|threads| - 1]), Owed(threads[|threads| - 1]))
  }

  lemma {:induction false} OwingUpdate(threads: seq<Thread>, c: nat, t: Thread)
    requires c < |threads|
    ensures Owing(threads[c := t]) == Plus(Owing(threads), Minus(Owed(t), Owed(threads[c])))
  {
    hide Owed;
    var n := |threads| - 1;
    var after := threads[c := t];
    if c == n {
      assert after[..n] == threads[..n];
    } else {
      assert after[..n] == threads[..n][c := t];
      OwingUpdate(threads[..n], c, t);
    }
  }

  lemma {:induction false} OwingQuiet(threads: seq<Thread>)
    requires forall c :: 0 <= c < |threads| ==> Quiet(threads[c]) && threads[c].peer.sessions == []
    ensures Owing(threads) == ZERO.(departed := -|threads|)
  {
    if threads != [] {
      OwingQuiet(threads[..|threads| - 1]);
      assert Sum([]) == ZERO;
    }
  }

  function Outstanding(s: System): Tally { Plus(Sum(s.journal), Owing(s.threads)) }

  /** Every counter identity, with the unwritten events of every worker taken in, and with the closes that
      raising disconnects had forced counted as what they are: closes too many. */
  ghost predicate Balanced(s: System) {
    && Outstanding(s).(rpc := 0, query := 0) == Tally(0 - s.repeated, s.leaked + s.repeated, |s.threads|, 0, 0, 0)
    && (!s.failed ==> Outstanding(s).rpc == 0 && Outstanding(s).query == 0)
  }

  lemma RecordBalance(s: System, e: Event)
    ensures Outstanding(Record(s, e)) == Plus(Outstanding(s), TallyOf(e))
  {
    hide TallyOf, Sum, Owing;
    SumAppend(s.journal, [e]);
    SumOne(e);
  }

  lemma PostBalance(s: System, c: Connection, peer: Peer, block: seq<Event>)
    requires c < |s.threads|
    ensures Outstanding(Post(s, c, peer, block))
         == Plus(Outstanding(s), Minus(Owed(Thread(peer, block)), Owed(s.threads[c])))
  {
    hide Sum, Owing, Owed;
    OwingUpdate(s.threads, c, Thread(peer, block));
  }

  lemma Unbalanced(e: Event)
    requires e.Lifecycle? || e.ConnectionReject? || e == TrustedFailure
    ensures TallyOf(e) == ZERO
  {
  }

  lemma OpenTally(c: Connection)
    ensures TallyOf(ConnectionOpen(c)) == ZERO.(joined := 1)
  {
  }

  lemma AlarmSum(s: System, events: seq<Event>)
    ensures Sum(events + Alarm(s)) == Sum(events) && Sum(Alarm(s)) == ZERO && Sum([ConnectionReject]) == ZERO
  {
    hide TallyOf, Sum;
    SumAppend(events, Alarm(s));
    SumNone();
    SumOne(TrustedFailure);
    SumOne(ConnectionReject);
    Unbalanced(TrustedFailure);
    Unbalanced(ConnectionReject);
  }

  lemma AcceptBalance(s: System, m: Move)
    requires m.Accept? && Enabled(s, m)
    ensures Outstanding(Next(s, m)) == Plus(Outstanding(s), ZERO.(joined := 1))
  {
    hide TallyOf, Sum, Owing, Owed;
    var t := Thread(Peer(m.uid, [], false), []);
    RecordBalance(s, ConnectionOpen(|s.threads|));
    OpenTally(|s.threads|);
    OwingNew(s.threads, m.uid);
  }

  lemma OwingNew(threads: seq<Thread>, uid: int)
    ensures Owing(threads + [Thread(Peer(uid, [], false), [])]) == Owing(threads)
  {
    hide TallyOf, Sum;
    var t := Thread(Peer(uid, [], false), []);
    SumNone();
    assert (threads + [t])[..|threads|] == threads;
  }

  lemma SumNone()
    ensures Sum([]) == ZERO
  {
  }

  lemma CallBalance(s: System, m: Move)
    requires Balanced(s) && ThreadsOk(s) && m.Call? && Enabled(s, m)
    ensures Balanced(Next(s, m))
  {
    hide Dispatched, TallyOf, Sum, Owing, ScanAll, UniqueTokens, HasToken, AllOwned, Alarm;
    var t := s.threads[m.c];
    FreshToken(s, m.c, m.newToken);
    DispatchBlock(m.c, t.peer, m.operation, m.args, m.limited, m.reply, m.newToken);
    var e := Dispatched(m.c, t.peer, m.operation, m.args, m.limited, m.reply, m.newToken);
    AlarmSum(s, e.events);
    SumNone();
    PostBalance(s, m.c, e.peer, if e.crashed then e.events + Alarm(s) else e.events);
  }

  lemma HangupBalance(s: System, m: Move)
    requires Balanced(s) && m.Hangup? && Enabled(s, m)
    ensures Balanced(Next(s, m))
  {
    hide TallyOf, Sum, Owing, AllOwned, Stream, Cleanups, Departed;
    var t := s.threads[m.c];
    DepartedBlock(m.c, t.peer, m.closes);
    HangupWritten(m.c, t.peer, m.closes);
    var e := Departed(m.c, t.peer, m.closes);
    SumNone();
    PostBalance(s, m.c, e.peer, e.events);
  }

  lemma EmitBalance(s: System, m: Move)
    requires m.Emit? && Enabled(s, m)
    ensures Outstanding(Next(s, m)) == Outstanding(s)
  {
    hide TallyOf, Sum, Owing, Outstanding;
    var t := s.threads[m.c];
    var e, rest := t.pending[0], t.pending[1..];
    assert t.pending == [e] + rest;
    SumAppend([e], rest);
    SumOne(e);
    PostBalance(s, m.c, t.peer, rest);
    RecordBalance(Post(s, m.c, t.peer, rest), e);
  }

  lemma BalanceKept(s: System, m: Move)
    requires Balanced(s) && ThreadsOk(s) && Enabled(s, m)
    ensures Balanced(Next(s, m))
  {
    hide TallyOf, Sum, Owing, Outstanding, Alarm, ThreadsOk, Dispatched, Departed;
    match m
    case Advance =>
      RecordBalance(s, Lifecycle(s.phase));
      Unbalanced(Lifecycle(s.phase));
      SameOutstanding(Record(s, Lifecycle(s.phase)), Next(s, m));
    case Accept(_) => AcceptBalance(s, m);
    case Refuse =>
      RecordBalance(s, ConnectionReject);
      Unbalanced(ConnectionReject);
    case Call(_, _, _, _, _, _) => CallBalance(s, m);
    case Malformed(c) => NoticeBalance(s, c, [ConnectionReject]);
    case Fault(c) =>
      NoticeBalance(s, c, Alarm(s));
      SameOutstanding(Post(s, c, s.threads[c].peer, Alarm(s)), Next(s, m));
    case Hangup(_, _) => HangupBalance(s, m);
    case Emit(_) => EmitBalance(s, m);
  }

  lemma SameOutstanding(s: System, r: System)
    requires s.journal == r.journal && s.threads == r.threads
    ensures Outstanding(s) == Outstanding(r)
  {
  }

  lemma NoticeBalance(s: System, c: Connection, block: seq<Event>)
    requires c < |s.threads| && s.threads[c].pending == [] && (block == [ConnectionReject] || block == Alarm(s))
    ensures Outstanding(Post(s, c, s.threads[c].peer, block)) == Outstanding(s)
  {
    hide TallyOf, Sum, Owing, Outstanding, Alarm;
    AlarmSum(s, []);
    SumNone();
    PostBalance(s, c, s.threads[c].peer, block);
  }
}
