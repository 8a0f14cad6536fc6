/** Which runs can be brought to their normal end, and schedules that run one call at a time. */
module BrokerCompletion {
  import opened Wire
  import opened BrokerJournal
  import opened BrokerModel
  import opened BrokerRuns
  import opened BrokerTheorems
  import opened EvidenceVerifier

  lemma RunOne(moves: seq<Move>, m: Move)
    ensures Run(moves + [m]) == if Enabled(Run(moves), m) then Next(Run(moves), m) else Run(moves)
  {
    hide Enabled, Next;
    assert (moves + [m])[..|moves|] == moves;
  }

  // ---- Writing out a block ----------------------------------------------------------------

  /** The system once connection c has written everything it has left. */
  function Flushed(s: System, c: nat): System
    requires c < |s.threads|
  {
    var t := s.threads[c];
    s.(journal := s.journal + t.pending, threads := s.threads[c := Thread(t.peer, [])])
  }

  function Emits(c: nat, n: nat): seq<Move> { if n == 0 then [] else [Emit(c)] + Emits(c, n - 1) }

  /** Emitting a block event by event, with nothing in between, writes it in one piece. */
  lemma {:induction false} EmitAll(moves: seq<Move>, c: nat)
    requires c < |Run(moves).threads|
    ensures Run(moves + Emits(c, |Run(moves).threads[c].pending|)) == Flushed(Run(moves), c)
    decreases |Run(moves).threads[c].pending|
  {
    hide Run;
    var s := Run(moves);
    var t := s.threads[c];
    if t.pending == [] {
      assert moves + [] == moves && s.journal + [] == s.journal && s.threads[c := Thread(t.peer, [])] == s.threads;
    } else {
      RunOne(moves, Emit(c));
      EmitAll(moves + [Emit(c)], c);
      var rest := Emits(c, |t.pending| - 1);
      assert moves + ([Emit(c)] + rest) == moves + [Emit(c)] + rest;
      assert s.journal + [t.pending[0]] + t.pending[1..] == s.journal + t.pending;
      assert s.threads[c := Thread(t.peer, t.pending[1..])][c := Thread(t.peer, [])] == s.threads[c := Thread(t.peer, [])];
    }
  }

  /** One move of connection c, then everything it wrote. */
  function Burst(s: System, m: Move, c: nat): seq<Move>
    requires Enabled(s, m) && c < |Next(s, m).threads|
  {
    [m] + Emits(c, |Next(s, m).threads[c].pending|)
  }

  lemma RunBurst(moves: seq<Move>, m: Move, c: nat)
    requires Enabled(Run(moves), m) && c < |Next(Run(moves), m).threads|
    ensures Run(moves + Burst(Run(moves), m, c)) == Flushed(Next(Run(moves), m), c)
  {
    hide Run, Enabled, Next;
    RunOne(moves, m);
    EmitAll(moves + [m], c);
    var rest := Emits(c, |Run(moves + [m]).threads[c].pending|);
    assert moves + ([m] + rest) == moves + [m] + rest;
  }

  // ---- Finishing --------------------------------------------------------------------------

  /** What finishing may not change. */
  ghost predicate Same(s: System, r: System) {
    && r.failed == s.failed && r.repeated == s.repeated && r.aborted == s.aborted && r.gone == s.gone
    && |r.threads| == |s.threads|
  }

  lemma {:induction false} AdvanceTo(moves: seq<Move>, phase: nat) returns (rest: seq<Move>)
    requires Run(moves).phase <= phase <= LIFECYCLE_STEPS && !Run(moves).aborted
    requires phase >= FROZEN ==> AllQuiet(Run(moves)) && Clean(Run(moves))
    ensures Run(moves + rest).phase == phase && Run(moves + rest).threads == Run(moves).threads && Same(Run(moves), Run(moves + rest))
    decreases phase - Run(moves).phase
  {
    hide Run, AccountingHolds;
    if Run(moves).phase == phase {
      rest := [];
      assert moves + [] == moves;
    } else {
      if Run(moves).phase == AUDIT {
        QuietAccounting(moves);
      }
      RunOne(moves, Advance);
      var more := AdvanceTo(moves + [Advance], phase);
      rest := [Advance] + more;
      assert moves + rest == moves + [Advance] + more;
    }
  }

  /** Everyone but c is as before. */
  ghost predicate OnlyThread(s: System, r: System, c: nat) {
    Same(s, r) && r.phase == s.phase && forall d :: 0 <= d < |s.threads| && d != c ==> r.threads[d] == s.threads[d]
  }

  lemma QuietOne(moves: seq<Move>, c: nat) returns (rest: seq<Move>)
    requires c < |Run(moves).threads| && Run(moves).phase == FREEZING
    ensures OnlyThread(Run(moves), Run(moves + rest), c) && Quiet(Run(moves + rest).threads[c])
  {
    hide Run, Cleanups;
    var first := Emits(c, |Run(moves).threads[c].pending|);
    EmitAll(moves, c);
    var there := moves + first;
    if Run(there).threads[c].peer.closed {
      rest := first;
    } else {
      var m := Hangup(c, |Run(there).threads[c].peer.sessions|);
      RunBurst(there, m, c);
      rest := first + Burst(Run(there), m, c);
      assert moves + rest == there + Burst(Run(there), m, c);
    }
  }

  lemma {:induction false} QuietUpTo(moves: seq<Move>, n: nat) returns (rest: seq<Move>)
    requires n <= |Run(moves).threads| && Run(moves).phase == FREEZING
    ensures
      var r := Run(moves + rest);
      Same(Run(moves), r) && r.phase == Run(moves).phase && forall c :: 0 <= c < n ==> Quiet(r.threads[c])
    decreases n
  {
    hide Run, Quiet;
    if n == 0 {
      rest := [];
      assert moves + [] == moves;
    } else {
      var first := QuietUpTo(moves, n - 1);
      var last := QuietOne(moves + first, n - 1);
      rest := first + last;
      assert moves + rest == moves + first + last;
    }
  }

  /** From every reachable state without a failure, an aborted freeze or a session forced by a disconnect that
      raised, some continuation ends the run, and the verifier accepts it. */
  lemma CanFinish(moves: seq<Move>) returns (rest: seq<Move>)
    requires Clean(Run(moves)) && !Run(moves).aborted
    ensures Run(moves + rest).phase == LIFECYCLE_STEPS
    ensures Accepts(Run(moves + rest).journal, SummaryOf(Run(moves + rest)))
  {
    hide Run, ThreadsOk, Balanced, Readable, Scanned, Alarmed, Accepts, Quiet;
    RunKeeps(moves);
    if Run(moves).phase >= FROZEN {
      rest := AdvanceTo(moves, LIFECYCLE_STEPS);
    } else {
      var first := AdvanceTo(moves, FREEZING);
      var there := moves + first;
      var second := QuietUpTo(there, |Run(there).threads|);
      var last := AdvanceTo(there + second, LIFECYCLE_STEPS);
      rest := first + second + last;
      assert moves + rest == there + second + last;
    }
    RunAccepted(moves + rest);
  }

  /** What a run has lost it never regains. */
  lemma StepLoses(s: System, m: Move)
    requires Enabled(s, m)
    ensures
      var r := Next(s, m);
      (s.failed ==> r.failed) && r.repeated >= s.repeated && (s.aborted ==> r.aborted)
  {
    hide Dispatched, Departed;
  }

  lemma {:induction false} RunLoses(moves: seq<Move>, rest: seq<Move>)
    ensures
      var s, r := Run(moves), Run(moves + rest);
      (s.failed ==> r.failed) && r.repeated >= s.repeated && (s.aborted ==> r.aborted)
  {
    hide Enabled, Next, Run;
    if rest == [] {
      assert moves + rest == moves;
    } else {
      var n := |rest| - 1;
      RunLoses(moves, rest[..n]);
      assert moves + rest == moves + rest[..n] + [rest[n]];
      RunOne(moves + rest[..n], rest[n]);
      if Enabled(Run(moves + rest[..n]), rest[n]) {
        StepLoses(Run(moves + rest[..n]), rest[n]);
      }
    }
  }

  /** And from every other state none does: these three are exactly what stands in the way. */
  lemma CannotFinish(moves: seq<Move>, rest: seq<Move>)
    requires !Clean(Run(moves)) || Run(moves).aborted
    ensures Run(moves + rest).phase < LIFECYCLE_STEPS
  {
    hide Run, ThreadsOk, Balanced, Readable, Scanned, Alarmed, Lifecycles, AllQuiet;
    RunLoses(moves, rest);
    RunKeeps(moves + rest);
  }
}
