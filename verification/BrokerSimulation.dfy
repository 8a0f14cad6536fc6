/** The broker's methods are runs: each call on the object, made one after another, is a sequence of moves of the
    concurrent model that ends in the same tables, counters and journal. */
module BrokerSimulation {
  import opened Wrappers
  import opened Wire
  import opened BrokerJournal
  import opened BrokerModel
  import opened BrokerAnswers
  import opened BrokerRuns
  import opened BrokerCompletion
  import opened EvidenceVerifier
  import opened Broker

  /** `all` lists every connection ever admitted, by identity. */
  ghost predicate Simulates(b: RemoteVisaBroker, all: seq<ConnectionState>, moves: seq<Move>)
    reads b, all
  {
    var s := Run(moves);
    && b.Valid() && b.journal == s.journal && b.leakedSessions == s.leaked && b.failed == s.failed
    && |all| == |s.threads| == b.connectionCount && Distinct(all)
    && (forall c :: 0 <= c < |all| ==> all[c].id == c)
    && (forall c :: 0 <= c < |all| ==> s.threads[c] == Thread(all[c].AsPeer(), []))
    && (forall c :: 0 <= c < |all| && !all[c].closed ==> all[c] in b.states)
    && (forall i :: 0 <= i < |b.states| ==> b.states[i] in all)
  }

  /** A new broker, once the service has come up to broker.ready. */
  method Connect(b: RemoteVisaBroker, all: seq<ConnectionState>, ghost moves: seq<Move>, uid: int)
    returns (r: Admission, ghost everyone: seq<ConnectionState>, ghost more: seq<Move>)
    requires Simulates(b, all, moves) && Run(moves).phase == READY && !b.frozen
    modifies b
    ensures Simulates(b, everyone, moves + more)
    ensures everyone == if r.Admitted? then all + [r.state] else all
  {
    hide Run;
    ghost var s := Run(moves);
    r := b.NewConnection(uid);
    if r.Admitted? {
      more, everyone := [Accept(uid)], all + [r.state];
      RunOne(moves, Accept(uid));
    } else {
      more, everyone := [Refuse], all;
      RunOne(moves, Refuse);
    }
  }

  /** dispatch is a Call and the writing out of its block. */
  method Request(b: RemoteVisaBroker, all: seq<ConnectionState>, ghost moves: seq<Move>, c: nat, operation: Operation,
                 args: map<string, WireValue>, bytes: nat, reply: Reply, newToken: Token)
    returns (r: Answer, ghost more: seq<Move>)
    requires Simulates(b, all, moves) && c < |all| && READY <= Run(moves).phase < FROZEN
    requires c !in Run(moves).gone && newToken !in Run(moves).drawn
    modifies b, all[c]
    ensures Simulates(b, all, moves + more)
  {
    hide Run, Dispatched, AnswerOf;
    ghost var s := Run(moves);
    ghost var m := Call(c, operation, args, b.Exceeds(all[c], bytes), reply, newToken);
    RunBurst(moves, m, c);
    more := Burst(s, m, c);
    DispatchedKeeps(c, all[c].AsPeer(), operation, args, m.limited, reply, newToken);
    ghost var e := Dispatched(c, all[c].AsPeer(), operation, args, m.limited, reply, newToken);
    assert s.journal + (e.events + Alarm(s)) == s.journal + e.events + Alarm(s);
    r := b.Dispatch(all[c], operation, args, bytes, reply, newToken);
  }

  lemma DispatchedKeeps(c: Connection, peer: Peer, operation: Operation, args: map<string, WireValue>, limited: bool,
                        reply: Reply, newToken: Token)
    ensures
      var e := Dispatched(c, peer, operation, args, limited, reply, newToken);
      e.peer.closed == peer.closed && e.peer.uid == peer.uid
  {
    hide Invoke;
  }

  /** A disconnection and the writing out of its block, in the concurrent model. */
  lemma HangupRun(moves: seq<Move>, c: nat, closes: nat) returns (more: seq<Move>)
    requires Enabled(Run(moves), Hangup(c, closes))
    ensures
      var s, r := Run(moves), Run(moves + more);
      var e, n := Departed(c, s.threads[c].peer, closes), |s.threads[c].peer.sessions|;
      && r.threads == s.threads[c := Thread(e.peer, [])] && r.journal == s.journal + e.events
      && r.leaked == s.leaked + (if closes >= n then n else 0) && r.failed == s.failed && r.phase == s.phase
      && (closes >= n ==> r.aborted == s.aborted)
  {
    hide Run, Departed;
    var s, m := Run(moves), Hangup(c, closes);
    RunBurst(moves, m, c);
    more := Burst(s, m, c);
    var e := Departed(c, s.threads[c].peer, closes);
    assert s.threads[c := Thread(e.peer, e.events)][c := Thread(e.peer, [])] == s.threads[c := Thread(e.peer, [])];
  }

  /** disconnect is a Hangup and the writing out of its block, whether or not it raises. */
  method Leave(b: RemoteVisaBroker, all: seq<ConnectionState>, ghost moves: seq<Move>, c: nat, closes: nat)
    returns (leaked: Option<nat>, ghost more: seq<Move>)
    requires Simulates(b, all, moves) && c < |all| && READY <= Run(moves).phase < FROZEN
    requires c in Run(moves).gone ==> Run(moves).phase == FREEZING
    modifies b, all[c]
    ensures Simulates(b, all, moves + more)
  {
    hide Run, Departed, Dropped;
    more := [];
    assert moves + [] == moves;
    if !all[c].closed {
      DepartedPeer(c, all[c].AsPeer(), closes);
      more := HangupRun(moves, c, closes);
    }
    leaked := b.Disconnect(all[c], closes);
  }

  // ---- freeze_and_close ------------------------------------------------------------------

  /** The peers of a list, as the run has them. */
  ghost predicate Listed(s: System, peers: seq<(Connection, Peer)>) {
    && (forall i :: 0 <= i < |peers| ==> peers[i].0 < |s.threads| && s.threads[peers[i].0] == Thread(peers[i].1, []))
    && (forall i, k :: 0 <= i < k < |peers| ==> peers[i].0 != peers[k].0)
  }

  ghost predicate Among(peers: seq<(Connection, Peer)>, n: nat, c: Connection)
    requires n <= |peers|
  {
    exists i :: 0 <= i < n && peers[i].0 == c
  }

  /** The first n of them have gone through disconnect. */
  ghost predicate GoneThrough(s: System, r: System, peers: seq<(Connection, Peer)>, closes: Connection -> nat, n: nat)
    requires n <= |peers| && Listed(s, peers)
  {
    && |r.threads| == |s.threads| && r.phase == s.phase && r.failed == s.failed && r.aborted == s.aborted
    && r.journal == s.journal + Departures(peers[..n], closes) && r.leaked == s.leaked + Abandoned(peers[..n])
    && (forall i :: 0 <= i < n ==>
          r.threads[peers[i].0] == Thread(Departing(peers[i].1), []))
    && (forall c: nat :: c < |s.threads| && !Among(peers, n, c) ==> r.threads[c] == s.threads[c])
  }

  /** One more of them has gone through. */
  lemma GoneOneMore(s: System, mid: System, r: System, peers: seq<(Connection, Peer)>, closes: Connection -> nat, n: nat)
    requires n < |peers| && Listed(s, peers) && GoneThrough(s, mid, peers, closes, n)
    requires r.phase == mid.phase && r.failed == mid.failed && r.aborted == mid.aborted
    requires
      var (c, p) := peers[n];
      && c < |mid.threads| && r.threads == mid.threads[c := Thread(Departing(p), [])]
      && r.journal == mid.journal + (if p.closed then [] else Departed(c, p, closes(c)).events)
      && r.leaked == mid.leaked + (if p.closed then 0 else |p.sessions|)
    ensures GoneThrough(s, r, peers, closes, n + 1)
  {
    hide Departures, Abandoned, Departed, Departing;
    OneDeparture(peers, n, closes);
    forall c: nat | c < |s.threads| && !Among(peers, n + 1, c) ensures r.threads[c] == s.threads[c] {
      assert !Among(peers, n, c);
    }
  }

  lemma NoneGone(s: System, peers: seq<(Connection, Peer)>, closes: Connection -> nat)
    requires Listed(s, peers)
    ensures GoneThrough(s, s, peers, closes, 0)
  {
    hide Departures, Abandoned;
    assert peers[..0] == [];
    NoDeparture(closes);
  }

  /** The next one's thread is untouched so far. */
  lemma NextThread(s: System, mid: System, peers: seq<(Connection, Peer)>, closes: Connection -> nat, n: nat)
    requires n < |peers| && Listed(s, peers) && GoneThrough(s, mid, peers, closes, n)
    ensures peers[n].0 < |mid.threads| && mid.threads[peers[n].0] == Thread(peers[n].1, []) && mid.phase == s.phase
    ensures mid.failed == s.failed && |mid.threads| == |s.threads|
    ensures mid.journal == s.journal + Departures(peers[..n], closes) && mid.leaked == s.leaked + Abandoned(peers[..n])
  {
    hide Departures, Abandoned;
    assert !Among(peers, n, peers[n].0);
  }

  lemma {:induction false} DepartInTurn(moves: seq<Move>, peers: seq<(Connection, Peer)>, closes: Connection -> nat, n: nat)
    returns (more: seq<Move>)
    requires n <= |peers| && Listed(Run(moves), peers) && Run(moves).phase == FREEZING
    requires forall i :: 0 <= i < n ==> !Raises(peers[i], closes)
    ensures GoneThrough(Run(moves), Run(moves + more), peers, closes, n)
  {
    hide Run, Departures, Abandoned, Departed, GoneThrough, Listed;
    if n == 0 {
      more := [];
      assert moves + [] == moves;
      NoneGone(Run(moves), peers, closes);
    } else {
      more := DepartInTurn(moves, peers, closes, n - 1);
      var there := moves + more;
      var (c, p) := peers[n - 1];
      NextThread(Run(moves), Run(there), peers, closes, n - 1);
      var s := Run(there);
      if p.closed {
        assert s.threads[c := Thread(p, [])] == s.threads && s.journal + [] == s.journal;
      } else {
        DepartedPeer(c, p, closes(c));
        var last := HangupRun(there, c, closes(c));
        more := more + last;
        assert moves + more == there + last;
      }
      GoneOneMore(Run(moves), s, Run(moves + more), peers, closes, n - 1);
    }
  }

  /** After the cancellation event, the disconnections up to the first that raises, it included. */
  lemma DepartUntilRaised(moves: seq<Move>, peers: seq<(Connection, Peer)>, closes: Connection -> nat, k: nat)
    returns (more: seq<Move>)
    requires k < |peers| && Listed(Run(moves), peers) && Run(moves).phase == FREEZING
    requires Raises(peers[k], closes) && forall i :: 0 <= i < k ==> !Raises(peers[i], closes)
    ensures
      var s, r := Run(moves), Run(moves + more);
      && r.journal == s.journal + Departures(peers[..k + 1], closes) && r.leaked == s.leaked + Abandoned(peers[..k])
      && r.failed == s.failed && r.phase == s.phase && |r.threads| == |s.threads|
  {
    hide Run, Departures, Abandoned, Departed, GoneThrough, Listed;
    var first := DepartInTurn(moves, peers, closes, k);
    var there := moves + first;
    var (c, p) := peers[k];
    NextThread(Run(moves), Run(there), peers, closes, k);
    OneDeparture(peers, k, closes);
    var last := HangupRun(there, c, closes(c));
    more := first + last;
    assert moves + more == there + last;
  }

  /** Every thread has its state's peer, the listed ones having left. */
  lemma FrozenThreads(listed: seq<ConnectionState>, all: seq<ConnectionState>, peers: seq<(Connection, Peer)>,
                      s: System, r: System, closes: Connection -> nat, c: nat)
    requires c < |all| == |s.threads| && Indexed(all, listed, peers) && HaveLeft(listed, peers)
    requires Listed(s, peers) && GoneThrough(s, r, peers, closes, |peers|)
    requires all[c] !in listed ==> s.threads[c] == Thread(all[c].AsPeer(), []) && all[c].closed
    ensures r.threads[c] == Thread(all[c].AsPeer(), []) && all[c].closed
  {
    hide Departures, Abandoned;
    ListedById(listed, all, peers, c);
    if all[c] in listed {
      var i :| 0 <= i < |listed| && listed[i] == all[c];
    }
  }

  /** A freeze is the cancellation, a Hangup for each connection still listed, up to the first that raises, and
      broker.frozen if none does. */
  method Freeze(b: RemoteVisaBroker, all: seq<ConnectionState>, ghost moves: seq<Move>, closes: Connection -> nat)
    returns (r: Option<Summary>, ghost more: seq<Move>)
    requires Simulates(b, all, moves) && Run(moves).phase == FREEZING - 1 && !Run(moves).aborted && b.summary.None?
    modifies b, all
    ensures r.Some? ==> Simulates(b, all, moves + more) && Run(moves + more).phase == FROZEN && r == Some(SummaryOf(Run(moves + more)))
    ensures r.None? ==> Mirrors(b, Run(moves + more)) && Run(moves + more).phase == FREEZING
  {
    hide Run, Departures, Abandoned, Listed, StoppedAt, AllLeave, HaveLeft, Raises, Simulates;
    ghost var peers, listed, s := Peers(b.states), b.states, Run(moves);
    SimulatedStates(b, all, moves);
    r := b.FreezeAndClose(true, closes);
    if r.Some? {
      more := FrozenSimulates(b, all, moves, peers, listed, closes);
    } else {
      more := StoppedSimulates(b, moves, peers, closes);
    }
  }

  /** The journal, the counters and the failure flag agree. */
  ghost predicate Mirrors(b: RemoteVisaBroker, s: System)
    reads b
  {
    b.journal == s.journal && b.leakedSessions == s.leaked && b.failed == s.failed && b.connectionCount == |s.threads|
  }

  /** What Simulates says of the listed and the other states. */
  lemma SimulatedStates(b: RemoteVisaBroker, all: seq<ConnectionState>, moves: seq<Move>)
    requires Simulates(b, all, moves)
    ensures b.Valid() && Mirrors(b, Run(moves)) && Indexed(all, b.states, Peers(b.states)) && |all| == |Run(moves).threads|
    ensures Listed(Run(moves), Peers(b.states))
    ensures forall c: nat :: c < |all| && all[c] !in b.states ==> Run(moves).threads[c] == Thread(all[c].AsPeer(), []) && all[c].closed
    ensures forall x <- b.states :: x in all
  {
    hide Run;
    StatesListed(b, all, moves);
  }

  /** States by identity, the listed ones among them. */
  ghost predicate Indexed(all: seq<ConnectionState>, listed: seq<ConnectionState>, peers: seq<(Connection, Peer)>) {
    && Distinct(all) && |peers| == |listed| && (forall i :: 0 <= i < |listed| ==> peers[i].0 == listed[i].id)
    && (forall d :: 0 <= d < |all| ==> all[d].id == d) && (forall i :: 0 <= i < |listed| ==> listed[i] in all)
  }

  lemma FrozenSimulates(b: RemoteVisaBroker, all: seq<ConnectionState>, moves: seq<Move>, peers: seq<(Connection, Peer)>,
                        listed: seq<ConnectionState>, closes: Connection -> nat)
    returns (more: seq<Move>)
    requires b.Valid() && Indexed(all, listed, peers) && |all| == |Run(moves).threads| == b.connectionCount
    requires Listed(Run(moves), peers) && Run(moves).phase == FREEZING - 1 && !Run(moves).aborted && AllLeave(peers, closes)
    requires HaveLeft(listed, peers) && forall x <- b.states :: x in listed
    requires forall c: nat :: c < |all| && all[c] !in listed ==> Run(moves).threads[c] == Thread(all[c].AsPeer(), []) && all[c].closed
    requires b.journal == Run(moves).journal + [Lifecycle(5)] + Departures(peers, closes) + [Lifecycle(6)]
    requires b.leakedSessions == Run(moves).leaked + Abandoned(peers) && b.failed == Run(moves).failed
    ensures Simulates(b, all, moves + more) && Run(moves + more).phase == FROZEN
    ensures SummaryOf(Run(moves + more)) == Summary(b.connectionCount, b.leakedSessions)
  {
    hide Run, Departures, Abandoned, Listed, AllLeave, HaveLeft, GoneThrough;
    var s := Run(moves).(journal := Run(moves).journal + [Lifecycle(5)], phase := FREEZING);
    forall c: nat | c < |all| && !Among(peers, |peers|, c) ensures Quiet(Run(moves).threads[c]) {
      ListedById(listed, all, peers, c);
    }
    var mid;
    more, mid := FreezeRun(moves, peers, closes);
    GoneFacts(s, mid, peers, closes);
    forall c | 0 <= c < |all| ensures mid.threads[c] == Thread(all[c].AsPeer(), []) && all[c].closed {
      FrozenThreads(listed, all, peers, s, mid, closes, c);
    }
    forall i | 0 <= i < |b.states| ensures b.states[i] in all {
      assert b.states[i] in b.states;
      var k :| 0 <= k < |listed| && listed[k] == b.states[i];
    }
  }

  lemma StopsAt(peers: seq<(Connection, Peer)>, closes: Connection -> nat, before: seq<Event>, after: seq<Event>,
                leakedBefore: nat, leakedAfter: nat) returns (k: nat)
    requires StoppedAt(peers, closes, before, after, leakedBefore, leakedAfter)
    ensures k < |peers| && Raises(peers[k], closes) && forall i :: 0 <= i < k ==> !Raises(peers[i], closes)
    ensures after == before + Departures(peers[..k + 1], closes) && leakedAfter == leakedBefore + Abandoned(peers[..k])
  {
    hide Departures, Abandoned, Raises;
    k :| 0 <= k < |peers| && Raises(peers[k], closes) && (forall i :: 0 <= i < k ==> !Raises(peers[i], closes))
      && after == before + Departures(peers[..k + 1], closes) && leakedAfter == leakedBefore + Abandoned(peers[..k]);
  }

  lemma StoppedSimulates(b: RemoteVisaBroker, moves: seq<Move>, peers: seq<(Connection, Peer)>, closes: Connection -> nat)
    returns (more: seq<Move>)
    requires Listed(Run(moves), peers) && Run(moves).phase == FREEZING - 1 && !Run(moves).aborted
    requires b.failed == Run(moves).failed && b.connectionCount == |Run(moves).threads|
    requires StoppedAt(peers, closes, Run(moves).journal + [Lifecycle(5)], b.journal, Run(moves).leaked, b.leakedSessions)
    ensures Mirrors(b, Run(moves + more)) && Run(moves + more).phase == FREEZING
  {
    hide Run, Departures, Abandoned, Listed, StoppedAt, Raises;
    RunOne(moves, Advance);
    var there := moves + [Advance];
    SameListed(Run(moves), Run(there), peers);
    var k := StopsAt(peers, closes, Run(there).journal, b.journal, Run(there).leaked, b.leakedSessions);
    var turn := DepartUntilRaised(there, peers, closes, k);
    more := [Advance] + turn;
    assert moves + more == there + turn;
  }

  lemma GoneFacts(s: System, r: System, peers: seq<(Connection, Peer)>, closes: Connection -> nat)
    requires Listed(s, peers) && GoneThrough(s, r, peers, closes, |peers|)
    ensures |r.threads| == |s.threads| && r.failed == s.failed
    ensures r.journal == s.journal + Departures(peers, closes) && r.leaked == s.leaked + Abandoned(peers)
  {
    hide Departures, Abandoned;
    assert peers[..|peers|] == peers;
  }

  lemma FreezeRun(moves: seq<Move>, peers: seq<(Connection, Peer)>, closes: Connection -> nat)
    returns (more: seq<Move>, mid: System)
    requires Listed(Run(moves), peers) && Run(moves).phase == FREEZING - 1 && !Run(moves).aborted && AllLeave(peers, closes)
    requires forall c: nat :: c < |Run(moves).threads| && !Among(peers, |peers|, c) ==> Quiet(Run(moves).threads[c])
    ensures
      var s := Run(moves).(journal := Run(moves).journal + [Lifecycle(5)], phase := FREEZING);
      && Listed(s, peers) && GoneThrough(s, mid, peers, closes, |peers|)
      && Run(moves + more) == mid.(journal := mid.journal + [Lifecycle(6)], phase := FROZEN)
  {
    hide Run, Departures, Abandoned;
    RunOne(moves, Advance);
    var there := moves + [Advance];
    var turn := DepartInTurn(there, peers, closes, |peers|);
    mid := Run(there + turn);
    forall c: nat | c < |mid.threads| ensures Quiet(mid.threads[c]) {
      if Among(peers, |peers|, c) {
        var i :| 0 <= i < |peers| && peers[i].0 == c;
      }
    }
    RunOne(there + turn, Advance);
    more := [Advance] + turn + [Advance];
    assert moves + more == there + turn + [Advance];
  }

  lemma SameListed(s: System, r: System, peers: seq<(Connection, Peer)>)
    requires Listed(s, peers) && s.threads == r.threads
    ensures Listed(r, peers)
  {
  }

  /** In a list of states by identity, being listed by object is being listed by identity. */
  lemma ListedById(listed: seq<ConnectionState>, all: seq<ConnectionState>, peers: seq<(Connection, Peer)>, c: nat)
    requires c < |all| && Indexed(all, listed, peers)
    ensures Among(peers, |peers|, c) <==> all[c] in listed
  {
    forall i | 0 <= i < |listed| ensures listed[i] == all[c] <==> peers[i].0 == c {
      var d :| 0 <= d < |all| && all[d] == listed[i];
    }
  }

  lemma StatesListed(b: RemoteVisaBroker, all: seq<ConnectionState>, moves: seq<Move>)
    requires Simulates(b, all, moves)
    ensures Listed(Run(moves), Peers(b.states))
  {
    hide Run;
    var peers := Peers(b.states);
    forall i | 0 <= i < |peers| ensures peers[i].0 < |Run(moves).threads| && Run(moves).threads[peers[i].0] == Thread(peers[i].1, []) {
      var c :| 0 <= c < |all| && all[c] == b.states[i];
    }
    forall i, k | 0 <= i < k < |peers| ensures peers[i].0 != peers[k].0 {
      var c :| 0 <= c < |all| && all[c] == b.states[i];
      var d :| 0 <= d < |all| && all[d] == b.states[k];
    }
  }
}
