/** The independent reader of a finished journal (container/sim_evidence.py, verify_evidence). */
module EvidenceVerifier {
  import opened BrokerJournal

  // ---- Counters --------------------------------------------------------------------------

  datatype Counter =
    | ConnectionsOpened | ConnectionsClosed | ConnectionsRejected
    | RpcRequests | RpcResults | RpcRejections
    | ResourceQueries | ResourceQueryResults | ResourceQueryRejections
    | SessionsOpened | SessionsClosed | SessionsForced | InvalidAccesses
    | ScpiWrites | ScpiWriteResults | ScpiReads | ScpiReadResults
    | Uncounted

  /** COUNTED_EVENTS; the last case stands for kinds it does not list. */
  function CounterOf(e: Event): Counter {
    match e
    case ConnectionOpen(_) => ConnectionsOpened
    case ConnectionClose(_, _) => ConnectionsClosed
    case ConnectionReject => ConnectionsRejected
    case RpcRequest(_, _, _) => RpcRequests
    case RpcResult(_, _, _) => RpcResults
    case RpcReject(_, _, _) => RpcRejections
    case QueryRequest(_) => ResourceQueries
    case QueryResult(_) => ResourceQueryResults
    case QueryReject(_) => ResourceQueryRejections
    case SessionOpen(_, _, _) => SessionsOpened
    case SessionClose(_, _, _) => SessionsClosed
    case ForcedCleanup(_, _, _) => SessionsForced
    case InvalidAccess(_) => InvalidAccesses
    case ScpiWrite(_) => ScpiWrites
    case ScpiWriteResult(_) => ScpiWriteResults
    case ScpiRead(_) => ScpiReads
    case ScpiReadResult(_) => ScpiReadResults
    case _ => Uncounted
  }

  function Count(events: seq<Event>, c: Counter): nat {
    if events == [] then 0
    else Count(events[..|events| - 1], c) + Hit(events[|events| - 1], c)
  }

  function Hit(e: Event, c: Counter): nat { if CounterOf(e) == c then 1 else 0 }

  predicate Counted(c: Counter) { c != Uncounted }

  /** _event_counts. */
  method EventCounts(events: seq<Event>) returns (counts: map<Counter, nat>)
    ensures forall c :: c in counts <==> Counted(c)
    ensures forall c <- counts :: counts[c] == Count(events, c)
  {
    counts := map c: Counter | Counted(c) :: 0;
    for i := 0 to |events|
      invariant forall c :: c in counts <==> Counted(c)
      invariant forall c <- counts :: counts[c] == Count(events[..i], c)
    {
      assert events[..i + 1][..i] == events[..i];
      var name := CounterOf(events[i]);
      if Counted(name) {
        counts := counts[name := counts[name] + 1];
      }
    }
    assert events[..|events|] == events;
  }

  // ---- RPC and SCPI blocks ---------------------------------------------------------------

  /** Where the scan of one connection's stream stands. */
  datatype Scan = Between | Inside(operation: Audited, scpi: seq<Event>) | Broken

  predicate ReadsOrWrites(a: Audited) { a == Clear(Read) || a == Clear(Write) }

  /** Kinds of the attempt and of its result, for a read or write. */
  predicate IsAttempt(a: Audited, e: Event) {
    (a == Clear(Read) && e.ScpiRead?) || (a == Clear(Write) && e.ScpiWrite?)
  }

  predicate IsResult(a: Audited, e: Event) {
    (a == Clear(Read) && e.ScpiReadResult?) || (a == Clear(Write) && e.ScpiWriteResult?)
  }

  predicate ClosesWell(s: Scan, e: Event)
    requires s.Inside? && (e.RpcResult? || e.RpcReject?)
  {
    && e.operation == s.operation
    && if ReadsOrWrites(s.operation) then
         if e.RpcResult? then |s.scpi| == 2 && IsAttempt(s.operation, s.scpi[0]) && IsResult(s.operation, s.scpi[1])
         else s.scpi == [] || (|s.scpi| == 1 && IsAttempt(s.operation, s.scpi[0]))
       else s.scpi == []
  }

  function ScanStep(s: Scan, e: Event): Scan {
    if s.Broken? || !Tracked(e) then s
    else if e.RpcRequest? then (if s.Between? then Inside(e.operation, []) else Broken)
    else if s.Between? then Broken
    else if e.RpcResult? || e.RpcReject? then (if ClosesWell(s, e) then Between else Broken)
    else Inside(s.operation, s.scpi + [e])
  }

  function ScanAll(s: Scan, events: seq<Event>): Scan {
    if events == [] then s else ScanStep(ScanAll(s, events[..|events| - 1]), events[|events| - 1])
  }

  /** The tracked events of one connection. */
  function Stream(events: seq<Event>, c: Connection): seq<Event> {
    if events == [] then []
    else
      var init, last := Stream(events[..|events| - 1], c), events[|events| - 1];
      if Tracked(last) && last.connection == c then init + [last] else init
  }

  /** Every connection's stream is a sequence of well-formed blocks. */
  ghost predicate WellBlocked(events: seq<Event>) {
    forall c :: ScanAll(Between, Stream(events, c)) == Between
  }

  lemma {:induction false} BrokenStays(events: seq<Event>)
    ensures ScanAll(Broken, events) == Broken
  {
    if events != [] {
      BrokenStays(events[..|events| - 1]);
    }
  }

  lemma {:induction false} ScanAppend(s: Scan, a: seq<Event>, b: seq<Event>)
    ensures ScanAll(s, a + b) == ScanAll(ScanAll(s, a), b)
  {
    if b == [] {
      assert a + b == a;
    } else {
      assert (a + b)[..|a + b| - 1] == a + b[..|b| - 1];
      ScanAppend(s, a, b[..|b| - 1]);
    }
  }

  /** The inner loop of _valid_rpc_boundaries over one stream. */
  method ValidStream(stream: seq<Event>) returns (ok: bool)
    requires forall e <- stream :: Tracked(e)
    ensures ok <==> ScanAll(Between, stream) == Between
  {
    var inside := false;
    var operation := Clear(Hello);
    var scpi: seq<Event> := [];
    for i := 0 to |stream|
      invariant ScanAll(Between, stream[..i]) == if inside then Inside(operation, scpi) else Between
    {
      var e := stream[i];
      assert stream[..i + 1][..i] == stream[..i];
      assert stream == stream[..i + 1] + stream[i + 1..];
      ScanAppend(Between, stream[..i + 1], stream[i + 1..]);
      BrokenStays(stream[i + 1..]);
      if e.RpcRequest? {
        if inside {
          return false;
        }
        inside, operation, scpi := true, e.operation, [];
      } else if e.ScpiRead? || e.ScpiWrite? || e.ScpiReadResult? || e.ScpiWriteResult? {
        if !inside {
          return false;
        }
        scpi := scpi + [e];
      } else {
        if !inside || e.operation != operation {
          return false;
        }
        if ReadsOrWrites(operation) {
          if e.RpcResult? {
            if |scpi| != 2 || !IsAttempt(operation, scpi[0]) || !IsResult(operation, scpi[1]) {
              return false;
            }
          } else if scpi != [] && !(|scpi| == 1 && IsAttempt(operation, scpi[0])) {
            return false;
          }
        } else if scpi != [] {
          return false;
        }
        inside, scpi := false, [];
      }
    }
    assert stream[..|stream|] == stream;
    return !inside;
  }

  type Streams = map<Connection, seq<Event>>

  function StreamIn(streams: Streams, c: Connection): seq<Event> { if c in streams then streams[c] else [] }

  ghost predicate Groups(events: seq<Event>, streams: Streams) {
    (forall c :: Stream(events, c) == StreamIn(streams, c)) && forall c <- streams :: forall e <- streams[c] :: Tracked(e)
  }

  lemma GroupsNext(events: seq<Event>, i: nat, streams: Streams)
    requires i < |events| && Groups(events[..i], streams)
    ensures
      var e := events[i];
      Groups(events[..i + 1], if Tracked(e) then streams[e.connection := StreamIn(streams, e.connection) + [e]] else streams)
  {
    assert events[..i + 1][..i] == events[..i];
    var e := events[i];
    var more := if Tracked(e) then streams[e.connection := StreamIn(streams, e.connection) + [e]] else streams;
    forall c ensures Stream(events[..i + 1], c) == StreamIn(more, c) {
      assert Stream(events[..i], c) == StreamIn(streams, c);
    }
    forall c <- more, f <- more[c] ensures Tracked(f) {
      assert f == e || (c in streams && f in streams[c]);
    }
  }

  lemma NoGroups()
    ensures Groups([], map[])
  {
  }

  lemma Streamed(events: seq<Event>, streams: Streams, c: Connection)
    requires Groups(events, streams)
    ensures Stream(events, c) == StreamIn(streams, c)
    ensures c in streams ==> forall e <- streams[c] :: Tracked(e)
  {
    hide Stream, StreamIn, Tracked;
  }

  lemma AllScanned(events: seq<Event>, streams: Streams)
    requires Groups(events, streams) && forall c <- streams :: ScanAll(Between, streams[c]) == Between
    ensures WellBlocked(events)
  {
    hide Stream, Tracked;
    assert ScanAll(Between, []) == Between;
  }

  /** _valid_rpc_boundaries: group the tracked events by connection, then scan each group. */
  method ValidRpcBoundaries(events: seq<Event>) returns (ok: bool)
    ensures ok <==> WellBlocked(events)
  {
    hide Groups, ScanAll, Stream;
    var streams: Streams := map[];
    NoGroups();
    for i := 0 to |events|
      invariant Groups(events[..i], streams)
    {
      var e := events[i];
      GroupsNext(events, i, streams);
      if Tracked(e) {
        streams := streams[e.connection := StreamIn(streams, e.connection) + [e]];
      }
    }
    assert events[..|events|] == events;
    var left := streams.Keys;
    while left != {}
      invariant left <= streams.Keys
      invariant forall c <- streams.Keys - left :: ScanAll(Between, streams[c]) == Between
      decreases left
    {
      var c :| c in left;
      Streamed(events, streams, c);
      var valid := ValidStream(streams[c]);
      if !valid {
        return false;
      }
      left := left - {c};
    }
    assert streams.Keys - left == streams.Keys;
    AllScanned(events, streams);
    return true;
  }

  // ---- The whole verdict -----------------------------------------------------------------

  /** The broker section of summary.json. */
  datatype Summary = Summary(connections: nat, leakedSessions: nat)

  predicate AccountingHolds(events: seq<Event>, s: Summary) {
    && Count(events, SessionsOpened) == Count(events, SessionsClosed) + Count(events, SessionsForced)
    && s.leakedSessions == Count(events, SessionsForced)
    && Count(events, ConnectionsOpened) == s.connections
    && Count(events, ConnectionsClosed) == Count(events, ConnectionsOpened)
    && Count(events, RpcRequests) == Count(events, RpcResults) + Count(events, RpcRejections)
    && Count(events, ResourceQueries) == Count(events, ResourceQueryResults) + Count(events, ResourceQueryRejections)
  }

  /** The lifecycle events in the order they occur. */
  function Lifecycles(events: seq<Event>): seq<nat> {
    if events == [] then []
    else
      var init, last := Lifecycles(events[..|events| - 1]), events[|events| - 1];
      if last.Lifecycle? then init + [last.step] else init
  }

  function UpTo(n: nat): (r: seq<nat>)
    ensures |r| == n && forall i :: 0 <= i < n ==> r[i] == i
  {
    seq(n, i requires 0 <= i => i)
  }

  /** Each required kind exactly once, in order, the first and last of them at the ends. */
  predicate LifecycleHolds(events: seq<Event>) {
    && Lifecycles(events) == UpTo(LIFECYCLE_STEPS)
    && events != [] && events[0] == Lifecycle(0) && events[|events| - 1] == Lifecycle(LIFECYCLE_STEPS - 1)
  }

  ghost predicate Accepts(events: seq<Event>, s: Summary) {
    && AccountingHolds(events, s) && WellBlocked(events)
    && LifecycleHolds(events) && TrustedFailure !in events
  }

  function Found(counts: map<Counter, nat>, c: Counter): nat { if c in counts then counts[c] else 0 }

  /** The same identities on the counters a loop has gathered. */
  predicate CountersAgree(counts: map<Counter, nat>, s: Summary) {
    && Found(counts, SessionsOpened) == Found(counts, SessionsClosed) + Found(counts, SessionsForced)
    && s.leakedSessions == Found(counts, SessionsForced)
    && Found(counts, ConnectionsOpened) == s.connections
    && Found(counts, ConnectionsClosed) == Found(counts, ConnectionsOpened)
    && Found(counts, RpcRequests) == Found(counts, RpcResults) + Found(counts, RpcRejections)
    && Found(counts, ResourceQueries) == Found(counts, ResourceQueryResults) + Found(counts, ResourceQueryRejections)
  }

  lemma CountersAgreeIff(events: seq<Event>, counts: map<Counter, nat>, s: Summary)
    requires forall c :: Counted(c) ==> Found(counts, c) == Count(events, c)
    ensures CountersAgree(counts, s) <==> AccountingHolds(events, s)
  {
    hide Count;
  }

  /** The checks of verify_evidence that read the order and number of events, and its broker summary. */
  method VerifyEvidence(events: seq<Event>, s: Summary) returns (accepted: bool)
    ensures accepted <==> Accepts(events, s)
  {
    hide Count, WellBlocked, LifecycleHolds, CountersAgree, AccountingHolds;
    var counts := EventCounts(events);
    CountersAgreeIff(events, counts, s);
    if !CountersAgree(counts, s) {
      return false;
    }
    var blocked := ValidRpcBoundaries(events);
    return blocked && LifecycleHolds(events) && TrustedFailure !in events;
  }
}
