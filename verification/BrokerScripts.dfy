/** Runs with a single connection, one call after another, for stating concrete cases. */
module BrokerScripts {
  import opened Wire
  import opened BrokerJournal
  import opened BrokerModel
  import opened BrokerRuns
  import opened BrokerTheorems
  import opened BrokerCompletion
  import opened EvidenceVerifier

  /** One connection, with nothing left to write. */
  function Solo(journal: seq<Event>, peer: Peer, phase: nat, drawn: set<Token>): System {
    System(journal, [Thread(peer, [])], 0, false, phase, drawn, {}, 0, false)
  }

  const NEWCOMER := Peer(10001, [], false)

  function Prelude(): seq<Event> { [Lifecycle(0), Lifecycle(1), Lifecycle(2), Lifecycle(3), ConnectionOpen(0)] }

  /** The first n lifecycle events. */
  function Started(n: nat): System {
    System(seq(n, i requires 0 <= i => Lifecycle(i)), [], 0, false, n, {}, {}, 0, false)
  }

  lemma {:induction false} Starts(n: nat) returns (moves: seq<Move>)
    requires n <= READY
    ensures Run(moves) == Started(n)
  {
    hide Run;
    if n == 0 {
      moves := [];
      RunNothing();
      assert Started(0).journal == [];
    } else {
      var before := Starts(n - 1);
      RunOne(before, Advance);
      moves := before + [Advance];
      assert Started(n - 1).journal + [Lifecycle(n - 1)] == Started(n).journal;
    }
  }

  lemma RunNothing()
    ensures Run([]) == INITIAL
  {
  }

  lemma Arrives() returns (moves: seq<Move>)
    ensures Run(moves) == Solo(Prelude(), NEWCOMER, READY, {})
  {
    hide Run;
    var before := Starts(READY);
    RunOne(before, Accept(10001));
    moves := before + [Accept(10001)];
    assert Started(READY).journal + [ConnectionOpen(0)] == Prelude();
  }

  /** A call that does not crash adds its block and changes its peer. */
  lemma Calls(before: seq<Move>, s: System, operation: Operation, args: map<string, WireValue>, reply: Reply, newToken: Token)
    returns (moves: seq<Move>)
    requires Run(before) == s && |s.threads| == 1 && s == Solo(s.journal, s.threads[0].peer, READY, s.drawn)
    requires newToken !in s.drawn && !Dispatched(0, s.threads[0].peer, operation, args, false, reply, newToken).crashed
    ensures
      var e := Dispatched(0, s.threads[0].peer, operation, args, false, reply, newToken);
      Run(moves) == Solo(s.journal + e.events, e.peer, READY, s.drawn + {newToken})
  {
    hide Run, Dispatched;
    var m := Call(0, operation, args, false, reply, newToken);
    RunBurst(before, m, 0);
    moves := before + Burst(s, m, 0);
  }

  /** A disconnect that succeeds. */
  lemma Leaves(before: seq<Move>, s: System) returns (moves: seq<Move>)
    requires Run(before) == s && |s.threads| == 1 && s == Solo(s.journal, s.threads[0].peer, READY, s.drawn)
    requires s.threads[0].peer.sessions == [] && !s.threads[0].peer.closed
    ensures Run(moves) == Solo(s.journal + [ConnectionClose(0, 0)], s.threads[0].peer.(closed := true), READY, s.drawn)
  {
    hide Run;
    var m := Hangup(0, 0);
    RunBurst(before, m, 0);
    moves := before + Burst(s, m, 0);
    assert Departed(0, s.threads[0].peer, 0).events == [ConnectionClose(0, 0)];
  }

  /** The lifecycle from the signal to the exit. */
  function Ending(n: nat): seq<Event>
    requires READY <= n
  {
    seq(n - READY, i requires 0 <= i => Lifecycle(READY + i))
  }

  lemma {:induction false} Ends(before: seq<Move>, s: System, n: nat) returns (moves: seq<Move>)
    requires Run(before) == s && |s.threads| == 1 && s == Solo(s.journal, s.threads[0].peer, READY, s.drawn)
    requires s.threads[0].peer.closed && READY <= n <= LIFECYCLE_STEPS
    ensures Run(moves) == Solo(s.journal + Ending(n), s.threads[0].peer, n, s.drawn)
  {
    hide Run, AccountingHolds;
    if n == READY {
      moves := before;
      assert s.journal + Ending(n) == s.journal;
    } else {
      var there := Ends(before, s, n - 1);
      if n - 1 == AUDIT {
        QuietAccounting(there);
      }
      RunOne(there, Advance);
      moves := there + [Advance];
      assert s.journal + Ending(n - 1) + [Lifecycle(n - 1)] == s.journal + Ending(n);
    }
  }
}
