/** What the independent verifier accepts, said of the events themselves: how many there are of each kind, how each
    connection's calls lie in the journal, and where the lifecycle events are (container/sim_evidence.py). */
module EvidenceLaws {
  import opened BrokerJournal
  import opened EvidenceVerifier

  // ---- Numbers ---------------------------------------------------------------------------

  function HowMany(events: seq<Event>, what: Event -> bool): nat {
    if events == [] then 0
    else HowMany(events[..|events| - 1], what) + if what(events[|events| - 1]) then 1 else 0
  }

  lemma {:induction false} CountIs(events: seq<Event>, c: Counter, what: Event -> bool)
    requires forall e :: what(e) <==> CounterOf(e) == c
    ensures Count(events, c) == HowMany(events, what)
  {
    if events != [] {
      CountIs(events[..|events| - 1], c, what);
    }
  }

  /** The six identities. */
  predicate Balanced(events: seq<Event>, s: Summary) {
    var started := HowMany(events, (e: Event) => e.SessionOpen?);
    var forced := HowMany(events, (e: Event) => e.ForcedCleanup?);
    && started == HowMany(events, (e: Event) => e.SessionClose?) + forced
    && s.leakedSessions == forced
    && s.connections == HowMany(events, (e: Event) => e.ConnectionOpen?)
    && s.connections == HowMany(events, (e: Event) => e.ConnectionClose?)
    && HowMany(events, (e: Event) => e.RpcRequest?)
       == HowMany(events, (e: Event) => e.RpcResult?) + HowMany(events, (e: Event) => e.RpcReject?)
    && HowMany(events, (e: Event) => e.QueryRequest?)
       == HowMany(events, (e: Event) => e.QueryResult?) + HowMany(events, (e: Event) => e.QueryReject?)
  }

  lemma BalancedIff(events: seq<Event>, s: Summary)
    ensures AccountingHolds(events, s) <==> Balanced(events, s)
  {
    hide Count, HowMany;
    CountIs(events, SessionsOpened, (e: Event) => e.SessionOpen?);
    CountIs(events, SessionsClosed, (e: Event) => e.SessionClose?);
    CountIs(events, SessionsForced, (e: Event) => e.ForcedCleanup?);
    CountIs(events, ConnectionsOpened, (e: Event) => e.ConnectionOpen?);
    CountIs(events, ConnectionsClosed, (e: Event) => e.ConnectionClose?);
    CountIs(events, RpcRequests, (e: Event) => e.RpcRequest?);
    CountIs(events, RpcResults, (e: Event) => e.RpcResult?);
    CountIs(events, RpcRejections, (e: Event) => e.RpcReject?);
    CountIs(events, ResourceQueries, (e: Event) => e.QueryRequest?);
    CountIs(events, ResourceQueryResults, (e: Event) => e.QueryResult?);
    CountIs(events, ResourceQueryRejections, (e: Event) => e.QueryReject?);
  }

  // ---- Calls -----------------------------------------------------------------------------

  /** What may lie between a request and its answer: for a read or write the attempt and, if it succeeded, the result. */
  predicate Inner(operation: Audited, answered: bool, inner: seq<Event>) {
    if operation == Clear(Read) then
      if answered then |inner| == 2 && inner[0].ScpiRead? && inner[1].ScpiReadResult?
      else inner == [] || (|inner| == 1 && inner[0].ScpiRead?)
    else if operation == Clear(Write) then
      if answered then |inner| == 2 && inner[0].ScpiWrite? && inner[1].ScpiWriteResult?
      else inner == [] || (|inner| == 1 && inner[0].ScpiWrite?)
    else inner == []
  }

  /** One call: a request, what lies between, and the answer to that request. */
  predicate IsCall(b: seq<Event>) {
    && |b| >= 2 && b[0].RpcRequest? && (b[|b| - 1].RpcResult? || b[|b| - 1].RpcReject?)
    && b[|b| - 1].operation == b[0].operation
    && Inner(b[0].operation, b[|b| - 1].RpcResult?, b[1..|b| - 1])
  }

  function Joined(calls: seq<seq<Event>>): seq<Event> {
    if calls == [] then [] else Joined(calls[..|calls| - 1]) + calls[|calls| - 1]
  }

  ghost predicate AllCalls(calls: seq<seq<Event>>) { forall k :: 0 <= k < |calls| ==> IsCall(calls[k]) }

  ghost predicate IsCalls(stream: seq<Event>) { exists calls :: AllCalls(calls) && stream == Joined(calls) }

  predicate OnlyTracked(stream: seq<Event>) { forall e <- stream :: Tracked(e) }

  predicate Scpi(e: Event) { e.ScpiRead? || e.ScpiWrite? || e.ScpiReadResult? || e.ScpiWriteResult? }

  lemma ScanNext(s: Scan, stream: seq<Event>, e: Event)
    ensures ScanAll(s, stream + [e]) == ScanStep(ScanAll(s, stream), e)
  {
    assert (stream + [e])[..|stream|] == stream;
  }

  lemma {:induction false} ScanScpi(operation: Audited, inner: seq<Event>)
    requires forall e <- inner :: Scpi(e)
    ensures ScanAll(Inside(operation, []), inner) == Inside(operation, inner)
  {
    if inner != [] {
      var init, e := inner[..|inner| - 1], inner[|inner| - 1];
      assert inner == init + [e] && forall x <- init :: x in inner;
      ScanScpi(operation, init);
      ScanNext(Inside(operation, []), init, e);
      assert e in inner && Scpi(e) && init + [e] == inner;
    }
  }

  lemma CloseIs(operation: Audited, inner: seq<Event>, e: Event)
    requires e.RpcResult? || e.RpcReject?
    ensures ClosesWell(Inside(operation, inner), e) <==> e.operation == operation && Inner(operation, e.RpcResult?, inner)
  {
  }

  lemma CallScans(b: seq<Event>)
    requires IsCall(b)
    ensures ScanAll(Between, b) == Between
  {
    hide ScanAll, ClosesWell;
    var n := |b| - 1;
    var inner := b[1..n];
    InnerIsScpi(b[0].operation, b[n].RpcResult?, inner);
    assert b == [b[0]] + inner + [b[n]];
    ScanNext(Between, [], b[0]);
    NothingScanned(Between);
    assert [] + [b[0]] == [b[0]];
    ScanAppend(Between, [b[0]], inner);
    ScanScpi(b[0].operation, inner);
    ScanNext(Between, [b[0]] + inner, b[n]);
    CloseIs(b[0].operation, inner, b[n]);
  }

  lemma NothingScanned(s: Scan)
    ensures ScanAll(s, []) == s
  {
  }

  lemma InnerIsScpi(operation: Audited, answered: bool, inner: seq<Event>)
    requires Inner(operation, answered, inner)
    ensures forall e <- inner :: Scpi(e)
  {
  }

  lemma {:induction false} CallsScan(calls: seq<seq<Event>>)
    requires AllCalls(calls)
    ensures ScanAll(Between, Joined(calls)) == Between
  {
    if calls != [] {
      hide IsCall, ScanAll;
      CallsScan(calls[..|calls| - 1]);
      CallScans(calls[|calls| - 1]);
      ScanAppend(Between, Joined(calls[..|calls| - 1]), calls[|calls| - 1]);
    }
  }

  /** Whole calls, and the one that is under way. */
  ghost predicate Parsed(stream: seq<Event>, calls: seq<seq<Event>>, s: Scan) {
    match s
    case Between => AllCalls(calls) && stream == Joined(calls)
    case Inside(operation, inner) =>
      && AllCalls(calls) && (forall e <- inner :: Scpi(e))
      && exists request: Event :: request.RpcRequest? && request.operation == operation && stream == Joined(calls) + ([request] + inner)
    case Broken => true
  }

  lemma JoinedNext(calls: seq<seq<Event>>, b: seq<Event>)
    ensures Joined(calls + [b]) == Joined(calls) + b
  {
    assert (calls + [b])[..|calls|] == calls;
  }

  lemma {:induction false} Parse(stream: seq<Event>) returns (calls: seq<seq<Event>>)
    requires OnlyTracked(stream)
    ensures Parsed(stream, calls, ScanAll(Between, stream))
  {
    if stream == [] {
      calls := [];
    } else {
      hide ScanAll, Parsed;
      var init, e := stream[..|stream| - 1], stream[|stream| - 1];
      assert stream == init + [e];
      var before := Parse(init);
      ScanNext(Between, init, e);
      assert e in stream;
      calls := ParseStep(init, e, before, ScanAll(Between, init));
    }
  }

  lemma ParseStep(init: seq<Event>, e: Event, before: seq<seq<Event>>, s: Scan) returns (calls: seq<seq<Event>>)
    requires Parsed(init, before, s) && Tracked(e)
    ensures Parsed(init + [e], calls, ScanStep(s, e))
  {
    hide Joined, IsCall, ClosesWell, Inner;
    calls := before;
    if s.Inside? {
      var request: Event :| request.RpcRequest? && request.operation == s.operation && init == Joined(before) + ([request] + s.scpi);
      if e.RpcResult? || e.RpcReject? {
        CloseIs(s.operation, s.scpi, e);
        if ClosesWell(s, e) {
          var b := [request] + s.scpi + [e];
          IsOneCall(request, s.scpi, e);
          calls := before + [b];
          JoinedNext(before, b);
          assert init + [e] == Joined(before) + b;
        }
      } else if Scpi(e) {
        assert init + [e] == Joined(before) + ([request] + (s.scpi + [e]));
      }
    } else if s.Between? && e.RpcRequest? {
      assert init + [e] == Joined(before) + ([e] + []);
    }
  }

  lemma IsOneCall(request: Event, inner: seq<Event>, e: Event)
    requires request.RpcRequest? && (e.RpcResult? || e.RpcReject?) && e.operation == request.operation
    requires Inner(request.operation, e.RpcResult?, inner)
    ensures IsCall([request] + inner + [e])
  {
    var b := [request] + inner + [e];
    assert b[0] == request && b[|b| - 1] == e && b[1..|b| - 1] == inner;
  }

  /** A stream scans clean exactly when it is a sequence of whole calls. */
  lemma ScansIffCalls(stream: seq<Event>)
    requires OnlyTracked(stream)
    ensures ScanAll(Between, stream) == Between <==> IsCalls(stream)
  {
    hide ScanAll;
    if ScanAll(Between, stream) == Between {
      var calls := Parse(stream);
    }
    if IsCalls(stream) {
      var calls :| AllCalls(calls) && stream == Joined(calls);
      CallsScan(calls);
    }
  }

  /** The events of connection c that tell of calls, in order. */
  function CallEvents(events: seq<Event>, c: Connection): seq<Event> {
    if events == [] then []
    else
      var before, e := CallEvents(events[..|events| - 1], c), events[|events| - 1];
      if (e.RpcRequest? || e.RpcResult? || e.RpcReject? || Scpi(e)) && e.connection == c then before + [e] else before
  }

  /** Every connection's call events are whole calls. */
  ghost predicate AllWhole(events: seq<Event>) { forall c: Connection :: IsCalls(CallEvents(events, c)) }

  lemma {:induction false} StreamIs(events: seq<Event>, c: Connection)
    ensures Stream(events, c) == CallEvents(events, c) && OnlyTracked(CallEvents(events, c))
  {
    if events != [] {
      StreamIs(events[..|events| - 1], c);
    }
  }

  // ---- Lifecycle -------------------------------------------------------------------------

  function Places(events: seq<Event>): (p: seq<nat>)
    ensures |p| == |Lifecycles(events)|
    ensures forall k :: 0 <= k < |p| ==> p[k] < |events| && events[p[k]] == Lifecycle(Lifecycles(events)[k])
    ensures forall k, m :: 0 <= k < m < |p| ==> p[k] < p[m]
    ensures forall i :: 0 <= i < |events| && events[i].Lifecycle? ==> i in p
  {
    if events == [] then []
    else
      var n := |events| - 1;
      var before := Places(events[..n]);
      assert forall i :: 0 <= i < n ==> events[..n][i] == events[i];
      if events[n].Lifecycle? then
        var p := before + [n];
        assert forall i :: i in p <==> i in before || i == n;
        p
      else before
  }

  /** The thirteen lifecycle events stand at these places, in order, from the first event to the last, and there are
      no others. */
  ghost predicate LifecycleAt(events: seq<Event>, places: seq<nat>) {
    && |places| == 13 && (forall k :: 0 <= k < 13 ==> places[k] < |events| && events[places[k]] == Lifecycle(k))
    && (forall k, m :: 0 <= k < m < 13 ==> places[k] < places[m])
    && (forall i :: 0 <= i < |events| && events[i].Lifecycle? ==> i in places)
    && places[0] == 0 && places[12] == |events| - 1
  }

  lemma LifecycleFound(events: seq<Event>)
    requires LifecycleHolds(events)
    ensures LifecycleAt(events, Places(events))
  {
    hide Places;
    var p := Places(events);
    assert 0 in p && |events| - 1 in p;
    var a :| 0 <= a < |p| && p[a] == 0;
    var b :| 0 <= b < |p| && p[b] == |events| - 1;
    assert a == 0 && b == 12;
  }

  lemma SameAscending(p: seq<nat>, q: seq<nat>)
    requires (forall k, m :: 0 <= k < m < |p| ==> p[k] < p[m]) && (forall k, m :: 0 <= k < m < |q| ==> q[k] < q[m])
    requires forall x :: x in p <==> x in q
    ensures p == q
  {
    if p != [] && q != [] {
      var n, m := |p| - 1, |q| - 1;
      LastIs(p, q);
      LastIs(q, p);
      assert p[n] == q[m];
      forall x ensures x in p[..n] <==> x in q[..m] {
        WithoutLast(p, x);
        WithoutLast(q, x);
      }
      SameAscending(p[..n], q[..m]);
      assert p == p[..n] + [p[n]] && q == q[..m] + [q[m]];
    } else {
      BothEmpty(p, q);
    }
  }

  lemma BothEmpty(p: seq<nat>, q: seq<nat>)
    requires forall x :: x in p <==> x in q
    ensures p == [] <==> q == []
  {
    if p != [] {
      assert p[0] in p;
    }
    if q != [] {
      assert q[0] in q;
    }
  }

  lemma LastIs(p: seq<nat>, q: seq<nat>)
    requires p != [] && q != [] && (forall k, m :: 0 <= k < m < |q| ==> q[k] < q[m]) && forall x :: x in p ==> x in q
    ensures p[|p| - 1] <= q[|q| - 1]
  {
    assert p[|p| - 1] in q;
  }

  lemma WithoutLast(p: seq<nat>, x: nat)
    requires p != [] && forall k, m :: 0 <= k < m < |p| ==> p[k] < p[m]
    ensures x in p[..|p| - 1] <==> x in p && x != p[|p| - 1]
  {
    assert p == p[..|p| - 1] + [p[|p| - 1]];
  }

  lemma LifecycleOnly(events: seq<Event>, places: seq<nat>)
    requires LifecycleAt(events, places)
    ensures LifecycleHolds(events)
  {
    hide Places, Lifecycles;
    var p := Places(events);
    forall x ensures x in p <==> x in places {
      if x in p {
        var k :| 0 <= k < |p| && p[k] == x;
      }
      if x in places {
        var k :| 0 <= k < |places| && places[k] == x;
      }
    }
    SameAscending(p, places);
    assert Lifecycles(events) == UpTo(LIFECYCLE_STEPS);
  }

  // ---- The verdict -----------------------------------------------------------------------

  /** The verifier accepts a journal and its summary exactly when the six numbers agree, every connection's call events
      are whole calls, the thirteen lifecycle events stand in order from first to last, and no trusted failure is on
      record. */
  lemma AcceptsIff(events: seq<Event>, s: Summary)
    ensures Accepts(events, s) <==>
      && Balanced(events, s) && AllWhole(events)
      && (exists places :: LifecycleAt(events, places)) && TrustedFailure !in events
  {
    hide AccountingHolds, Balanced, WellBlocked, AllWhole, LifecycleHolds, LifecycleAt;
    BalancedIff(events, s);
    BlockedIff(events);
    LifecycleIff(events);
  }

  lemma ConnectionIff(events: seq<Event>, c: Connection)
    ensures ScanAll(Between, Stream(events, c)) == Between <==> IsCalls(CallEvents(events, c))
  {
    StreamIs(events, c);
    ScansIffCalls(CallEvents(events, c));
  }

  lemma BlockedIff(events: seq<Event>)
    ensures WellBlocked(events) <==> AllWhole(events)
  {
    if WellBlocked(events) {
      BlockedIsWhole(events);
    }
    if AllWhole(events) {
      WholeIsBlocked(events);
    }
  }

  lemma BlockedIsWhole(events: seq<Event>)
    requires WellBlocked(events)
    ensures AllWhole(events)
  {
    hide IsCalls;
    forall c: Connection ensures IsCalls(CallEvents(events, c)) {
      ConnectionIff(events, c);
    }
  }

  lemma WholeIsBlocked(events: seq<Event>)
    requires AllWhole(events)
    ensures WellBlocked(events)
  {
    hide IsCalls;
    forall c: Connection ensures ScanAll(Between, Stream(events, c)) == Between {
      assert IsCalls(CallEvents(events, c));
      ConnectionIff(events, c);
    }
  }

  lemma LifecycleIff(events: seq<Event>)
    ensures LifecycleHolds(events) <==> exists places :: LifecycleAt(events, places)
  {
    hide LifecycleHolds, LifecycleAt;
    if LifecycleHolds(events) {
      LifecycleFound(events);
    }
    if places :| LifecycleAt(events, places) {
      LifecycleOnly(events, places);
    }
  }
}
