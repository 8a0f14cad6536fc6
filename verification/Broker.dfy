/** The broker as it runs (broker.py): its tables, counters, limits and journal. A call of the VISA library is
    an input, `reply`, and so is the token secrets.token_urlsafe would draw. */
module Broker {
  import opened Wrappers
  import opened Wire
  import opened BrokerJournal
  import opened BrokerModel
  import opened BrokerBlocks
  import opened BrokerAnswers
  import opened EvidenceVerifier

  class ConnectionState {
    const id: Connection
    const uid: int
    var sessions: seq<Session>
    var closed: bool
    var requestCount: nat

    constructor (id: Connection, uid: int)
      ensures this.id == id && this.uid == uid && sessions == [] && !closed && requestCount == 0
    {
      this.id, this.uid, sessions, closed, requestCount := id, uid, [], false, 0;
    }

    function AsPeer(): Peer reads this { Peer(uid, sessions, closed) }
  }

  datatype Admission = Admitted(state: ConnectionState) | Limited | Frozen

  function Serving(c: Connection, peer: Peer, operation: Operation, args: map<string, WireValue>, limited: bool,
                  reply: Reply, newToken: Token): Invocation
  {
    if limited then Invocation([], peer.sessions, Rejected(RequestLimit))
    else if peer.closed then Invocation([], peer.sessions, Rejected(ClosedConnection))
    else if operation == Hello then
      Invocation([], peer.sessions,
                 if args.Keys != {} then Rejected(InvalidArguments)
                 else if peer.uid != 10001 && peer.uid != 11001 then Rejected(Unauthorized)
                 else Completed(OPERATION_NAMES))
    else if peer.uid != 10001 then Invocation([], peer.sessions, Rejected(Unauthorized))
    else if !Invocable(operation) then Invocation([], peer.sessions, Rejected(UnknownOperation))
    else Invoke(c, peer.sessions, operation, args, reply, newToken)
  }

  /** A call's block is its request, what serving it wrote, and the answer. */
  lemma DispatchedParts(c: Connection, peer: Peer, operation: Operation, args: map<string, WireValue>, limited: bool,
                        reply: Reply, newToken: Token)
    ensures
      var e := Dispatched(c, peer, operation, args, limited, reply, newToken);
      var i := Serving(c, peer, operation, args, limited, reply, newToken);
      var audited := if limited then Digest(operation) else Clear(operation);
      var request := RpcRequest(c, audited, if limited then RedactedArguments else Arguments(args));
      && e.peer == peer.(sessions := i.sessions)
      && match i.end
         case Completed(value) => !e.crashed && e.events == [request] + i.events + [RpcResult(c, audited, value)]
         case Rejected(kind) => !e.crashed && e.events == [request] + i.events + [RpcReject(c, audited, kind)]
         case Crashed => e.crashed && e.events == [request] + i.events
  {
    hide Invoke;
  }

  class RemoteVisaBroker {
    const maxConnections: nat
    const maxTotalConnections: nat
    const maxRequestsPerConnection: nat
    const maxTotalRequests: nat
    const maxTotalArgumentBytes: nat

    var journal: seq<Event>
    var states: seq<ConnectionState>
    var connectionCount: nat
    var requestCount: nat
    var argumentBytes: nat
    var leakedSessions: nat
    var frozen: bool
    var failed: bool
    var summary: Option<Summary>

    /** Connected states are distinct objects with distinct, already issued identities. */
    ghost predicate Valid() reads this {
      && Distinct(states)
      && (forall i :: 0 <= i < |states| ==> states[i].id < connectionCount)
    }

    constructor (maxConnections: nat, maxTotalConnections: nat, maxRequestsPerConnection: nat, maxTotalRequests: nat,
                 maxTotalArgumentBytes: nat)
      ensures Valid() && journal == [] && states == [] && connectionCount == 0 && leakedSessions == 0
      ensures !frozen && !failed && summary == None
    {
      this.maxConnections, this.maxTotalConnections := maxConnections, maxTotalConnections;
      this.maxRequestsPerConnection, this.maxTotalRequests := maxRequestsPerConnection, maxTotalRequests;
      this.maxTotalArgumentBytes := maxTotalArgumentBytes;
      journal, states, connectionCount, requestCount, argumentBytes := [], [], 0, 0, 0;
      leakedSessions, frozen, failed, summary := 0, false, false, None;
    }

    /** new_connection: admitted exactly while the broker runs and neither connection limit is reached. */
    method NewConnection(uid: int) returns (r: Admission)
      requires Valid()
      modifies this`journal, this`states, this`connectionCount
      ensures Valid()
      ensures r.Frozen? <==> frozen
      ensures r.Limited? <==> !frozen && (old(connectionCount) >= maxTotalConnections || |old(states)| >= maxConnections)
      ensures r.Admitted? ==>
        && fresh(r.state) && r.state.AsPeer() == Peer(uid, [], false) && r.state.id == old(connectionCount)
        && states == old(states) + [r.state] && connectionCount == old(connectionCount) + 1
        && journal == old(journal) + [ConnectionOpen(r.state.id)]
      ensures !r.Admitted? ==>
        && states == old(states) && connectionCount == old(connectionCount)
        && journal == old(journal) + if r.Limited? then [ConnectionReject] else []
    {
      if frozen {
        return Frozen;
      }
      if connectionCount >= maxTotalConnections || |states| >= maxConnections {
        journal := journal + [ConnectionReject];
        return Limited;
      }
      var state := new ConnectionState(connectionCount, uid);
      states := states + [state];
      connectionCount := connectionCount + 1;
      journal := journal + [ConnectionOpen(state.id)];
      return Admitted(state);
    }

    /** Whether the next request of a connection exceeds a limit. */
    predicate Exceeds(state: ConnectionState, bytes: nat) reads this, state {
      || state.requestCount + 1 > maxRequestsPerConnection
      || requestCount + 1 > maxTotalRequests
      || argumentBytes + bytes > maxTotalArgumentBytes
    }

    /** dispatch: whatever is asked and answered, the journal grows by the block of this call, and by one
        alarm when the call crashed and none was raised before. */
    method Dispatch(state: ConnectionState, operation: Operation, args: map<string, WireValue>, bytes: nat,
                    reply: Reply, newToken: Token) returns (r: Answer)
      modifies this`journal, this`requestCount, this`argumentBytes, this`failed, state
      ensures requestCount == old(requestCount) + 1 && argumentBytes == old(argumentBytes) + bytes
      ensures state.requestCount == old(state.requestCount) + 1
      ensures
        var e := Dispatched(state.id, old(state.AsPeer()), operation, args, old(Exceeds(state, bytes)), reply, newToken);
        && state.AsPeer() == e.peer
        && journal == old(journal) + e.events + (if e.crashed && !old(failed) then [TrustedFailure] else [])
        && (failed <==> old(failed) || e.crashed)
        && r == AnswerOf(e)
      ensures
        var peer, limited := old(state.AsPeer()), old(Exceeds(state, bytes));
        && Answers(peer, operation, args, limited, reply, newToken, r) && (failed <==> old(failed) || r == Raised)
        && (UniqueTokens(peer.sessions) ==>
              && Tables(peer, operation, args, limited, reply, newToken, state.AsPeer())
              && exists block ::
                   && Journalled(state.id, peer, operation, args, limited, reply, newToken, r, block)
                   && journal == old(journal) + block + if r == Raised && !old(failed) then [TrustedFailure] else [])
    {
      hide Answers, Tables, Journalled, UniqueTokens;
      hide Invoke, Serving, Dispatched, Distinct, OPERATION_NAMES;
      var limited := Exceeds(state, bytes);
      DispatchedParts(state.id, state.AsPeer(), operation, args, limited, reply, newToken);
      DispatchLaw(state.id, state.AsPeer(), operation, args, limited, reply, newToken);
      ghost var block := Dispatched(state.id, state.AsPeer(), operation, args, limited, reply, newToken).events;
      state.requestCount := state.requestCount + 1;
      requestCount := requestCount + 1;
      argumentBytes := argumentBytes + bytes;
      var audited := if limited then Digest(operation) else Clear(operation);
      journal := journal + [RpcRequest(state.id, audited, if limited then RedactedArguments else Arguments(args))];
      var end := Serve(state, operation, args, limited, reply, newToken);
      match end
      case Completed(value) =>
        journal := journal + [RpcResult(state.id, audited, value)];
        r := Accepted(value);
      case Rejected(kind) =>
        journal := journal + [RpcReject(state.id, audited, kind)];
        r := Denied(kind);
      case Crashed =>
        if !failed {
          failed := true;
          journal := journal + [TrustedFailure];
        }
        r := Raised;
    }

    /** The body of dispatch's try block: who may ask for what, then _invoke. */
    method Serve(state: ConnectionState, operation: Operation, args: map<string, WireValue>, limited: bool,
                 reply: Reply, newToken: Token) returns (end: End)
      modifies this`journal, state`sessions
      ensures
        var i := Serving(state.id, old(state.AsPeer()), operation, args, limited, reply, newToken);
        journal == old(journal) + i.events && state.sessions == i.sessions && end == i.end
    {
      hide Invoke;
      if limited {
        end := Rejected(RequestLimit);
      } else if state.closed {
        end := Rejected(ClosedConnection);
      } else if operation == Hello {
        if args.Keys != {} {
          end := Rejected(InvalidArguments);
        } else if state.uid != 10001 && state.uid != 11001 {
          end := Rejected(Unauthorized);
        } else {
          end := Completed(OPERATION_NAMES);
        }
      } else if state.uid != 10001 {
        end := Rejected(Unauthorized);
      } else if !Invocable(operation) {
        end := Rejected(UnknownOperation);
      } else {
        end := InvokeLibrary(state, operation, args, reply, newToken);
      }
    }

    /** _invoke, with _session and _token. */
    method InvokeLibrary(state: ConnectionState, operation: Operation, args: map<string, WireValue>,
                         reply: Reply, newToken: Token) returns (end: End)
      requires Invocable(operation)
      modifies this`journal, state`sessions
      ensures
        var i := Invoke(state.id, old(state.sessions), operation, args, reply, newToken);
        journal == old(journal) + i.events && state.sessions == i.sessions && end == i.end
    {
      hide WellTyped, HasToken, KindOf, Without, HookEvents;
      var c := state.id;
      if operation == OpenManager {
        if args.Keys != {} {
          return Rejected(InvalidArguments);
        }
        if reply.Returned? {
          state.sessions := state.sessions + [Session(newToken, reply.handle, ResourceManager)];
          journal := journal + [SessionOpen(c, newToken, ResourceManager)];
          return Completed(WStr(newToken));
        }
        return Conclude(reply, WNone);
      }
      if "session" !in args || !args["session"].WStr? || !HasToken(state.sessions, args["session"].text) {
        journal := journal + [InvalidAccess(c)];
        return Rejected(InvalidSession);
      }
      if !WellTyped(operation, args) {
        return Rejected(InvalidArguments);
      }
      end := InvokeSession(state, operation, args, reply, newToken);
    }

    /** The part of _invoke that works on a session of the connection with well-typed arguments. */
    method InvokeSession(state: ConnectionState, operation: Operation, args: map<string, WireValue>,
                         reply: Reply, newToken: Token) returns (end: End)
      requires Invocable(operation) && operation != OpenManager && WellTyped(operation, args)
      requires "session" in args && args["session"].WStr? && HasToken(state.sessions, args["session"].text)
      modifies this`journal, state`sessions
      ensures
        var i := Invoke(state.id, old(state.sessions), operation, args, reply, newToken);
        journal == old(journal) + i.events && state.sessions == i.sessions && end == i.end
    {
      hide WellTyped, HasToken, KindOf, Without, HookEvents;
      var c, token := state.id, args["session"].text;
      ghost var i := Invoke(c, state.sessions, operation, args, reply, newToken);
      match operation
      case ListResources => end := QueryResources(c, reply);
      case Open =>
        if reply.Returned? {
          state.sessions := state.sessions + [Session(newToken, reply.handle, Resource)];
          journal := journal + [SessionOpen(c, newToken, Resource)];
          end := Completed(WStr(newToken));
        } else {
          end := Conclude(reply, WNone);
        }
      case Close =>
        if reply.Returned? {
          journal := journal + [SessionClose(c, token, KindOf(state.sessions, token))];
          state.sessions := Without(state.sessions, token);
          end := Completed(WNone);
        } else {
          end := Conclude(reply, WNone);
        }
      case Read =>
        journal := journal + [ScpiRead(c)];
        if reply.Returned? {
          journal := journal + [ScpiReadResult(c)];
        }
        end := Conclude(reply, if reply.Returned? then reply.value else WNone);
      case Write =>
        WriteData(c, token, reply);
        end := Conclude(reply, if reply.Returned? then reply.value else WNone);
      case GetAttribute =>
        end := Conclude(reply, if reply.Returned? then reply.value else WNone);
      case _ =>
        end := Conclude(reply, WNone);
    }

    /** The list_resources branch. */
    method QueryResources(c: Connection, reply: Reply) returns (end: End)
      modifies this`journal
      ensures reply.Failed? ==> journal == old(journal) + [QueryRequest(c)] && end == Crashed
      ensures reply.Refused? && reply.why != ResourceQueryRejected ==>
        journal == old(journal) && end == Rejected(RejectKind(reply.why))
      ensures reply.Refused? && reply.why == ResourceQueryRejected ==>
        journal == old(journal) + [QueryRequest(c), QueryReject(c)] && end == Rejected(InvalidResourceQuery)
      ensures reply.Returned? && reply.value == WTuple([]) ==>
        journal == old(journal) + [QueryRequest(c), QueryReject(c)] && end == Rejected(VisaError)
      ensures reply.Returned? && reply.value != WTuple([]) ==>
        journal == old(journal) + [QueryRequest(c), QueryResult(c)] && end == Completed(reply.value)
    {
      if reply.Refused? && reply.why != ResourceQueryRejected {
        return Rejected(RejectKind(reply.why));
      }
      journal := journal + [QueryRequest(c)];
      if reply.Failed? {
        return Crashed;
      }
      if reply.Refused? {
        journal := journal + [QueryReject(c)];
        return Rejected(InvalidResourceQuery);
      }
      if reply.value == WTuple([]) {
        journal := journal + [QueryReject(c)];
        return Rejected(VisaError);
      }
      journal := journal + [QueryResult(c)];
      return Completed(reply.value);
    }

    /** The records of the write branch, with those its hooks leave in between. */
    method WriteData(c: Connection, token: Token, reply: Reply)
      modifies this`journal
      ensures
        var attempt := [ScpiWrite(c)] + HookEvents(c, token, reply.hooks);
        journal == old(journal) + if reply.Returned? then attempt + [ScpiWriteResult(c)] else attempt
    {
      hide HookEvents;
      journal := journal + [ScpiWrite(c)];
      RunHooks(c, token, reply.hooks);
      if reply.Returned? {
        journal := journal + [ScpiWriteResult(c)];
      }
    }

    /** The records the instrument hooks leave during a write. */
    method RunHooks(c: Connection, token: Token, hooks: seq<HookReport>)
      modifies this`journal
      ensures journal == old(journal) + HookEvents(c, token, hooks)
    {
      for i := 0 to |hooks|
        invariant journal == old(journal) + HookEvents(c, token, hooks)[..i]
      {
        journal := journal + [HookEvent(c, hooks[i].kind, token, hooks[i].resource, hooks[i].role)];
      }
    }

    /** disconnect: force what is left, newest first; a second call does nothing. The library closes `closes`
        sessions and raises on the next, if there is one; then nothing but the journal has changed. */
    method Disconnect(state: ConnectionState, closes: nat) returns (leaked: Option<nat>)
      requires Valid()
      modifies this`journal, this`leakedSessions, this`states, state`sessions, state`closed
      ensures Valid()
      ensures old(state.closed) ==>
        && leaked == Some(0) && journal == old(journal) && leakedSessions == old(leakedSessions) && states == old(states)
        && state.AsPeer() == old(state.AsPeer())
      ensures !old(state.closed) ==>
        var e, n := Departed(state.id, old(state.AsPeer()), closes), |old(state.sessions)|;
        && journal == old(journal) + e.events && state.AsPeer() == e.peer
        && (if closes >= n then
              leaked == Some(n) && leakedSessions == old(leakedSessions) + n && states == Dropped(old(states), state)
            else leaked == None && leakedSessions == old(leakedSessions) && states == old(states))
    {
      hide Departed, Cleanups, Dropped;
      DepartedParts(state.id, state.AsPeer(), closes);
      if state.closed {
        return Some(0);
      }
      var raised := ForceClosed(state, closes);
      if raised {
        return None;
      }
      var n := |state.sessions|;
      state.sessions := [];
      state.closed := true;
      leakedSessions := leakedSessions + n;
      journal := journal + [ConnectionClose(state.id, n)];
      states := Dropped(states, state);
      return Some(n);
    }

    /** The loop of disconnect. */
    method ForceClosed(state: ConnectionState, closes: nat) returns (raised: bool)
      modifies this`journal
      ensures raised <==> closes < |state.sessions|
      ensures journal == old(journal) + Cleanups(state.id, if raised then state.sessions[|state.sessions| - closes..] else state.sessions)
    {
      var i := |state.sessions|;
      assert state.sessions[i..] == [];
      while i > 0
        invariant 0 <= i <= |state.sessions| && |state.sessions| - i <= closes
        invariant journal == old(journal) + Cleanups(state.id, state.sessions[i..])
      {
        if |state.sessions| - i == closes {
          return true;
        }
        i := i - 1;
        NextCleanup(state.id, state.sessions, i);
        journal := journal + [ForcedCleanup(state.id, state.sessions[i].token, state.sessions[i].kind)];
      }
      assert state.sessions[0..] == state.sessions;
      return false;
    }

    /** The disconnections of freeze_and_close, in the order of the connection list, up to the first that raises. */
    method DisconnectAll(remaining: seq<ConnectionState>, closes: Connection -> nat) returns (raised: bool)
      requires Valid() && Distinct(remaining)
      modifies this`journal, this`leakedSessions, this`states, remaining
      ensures Valid()
      ensures raised <==> !AllLeave(old(Peers(remaining)), closes)
      ensures forall x <- states :: x in old(states)
      ensures !raised ==>
        && HaveLeft(remaining, old(Peers(remaining)))
        && journal == old(journal) + Departures(old(Peers(remaining)), closes)
        && leakedSessions == old(leakedSessions) + Abandoned(old(Peers(remaining)))
      ensures raised ==> StoppedAt(old(Peers(remaining)), closes, old(journal), journal, old(leakedSessions), leakedSessions)
    {
      hide Departures, Abandoned, Departed, Dropped, Peers;
      ghost var peers := old(Peers(remaining));
      NoDeparture(closes);
      for i := 0 to |remaining|
        invariant Valid()
        invariant forall x <- states :: x in old(states)
        invariant forall k :: 0 <= k < i ==> remaining[k].AsPeer() == Departing(peers[k].1) && !Raises(peers[k], closes)
        invariant forall k :: i <= k < |remaining| ==> remaining[k].AsPeer() == old(remaining[k].AsPeer())
        invariant journal == old(journal) + Departures(peers[..i], closes)
        invariant leakedSessions == old(leakedSessions) + Abandoned(peers[..i])
      {
        OneDeparture(peers, i, closes);
        DepartedPeer(remaining[i].id, remaining[i].AsPeer(), closes(remaining[i].id));
        var leaked := Disconnect(remaining[i], closes(remaining[i].id));
        if leaked.None? {
          assert Raises(peers[i], closes) && !AllLeave(peers, closes);
          return true;
        }
      }
      assert peers[..|remaining|] == peers;
      return false;
    }

    /** freeze_and_close: when every worker has stopped, each remaining connection is disconnected in turn. It
        raises if a worker has not stopped, and when one of the disconnections does. A call after a successful
        one repeats its answer and does nothing. */
    method FreezeAndClose(workersStopped: bool, closes: Connection -> nat) returns (r: Option<Summary>)
      requires Valid()
      modifies this, states
      ensures Valid() && connectionCount == old(connectionCount) && summary == (if r.Some? then r else old(summary))
      ensures forall x <- states :: x in old(states)
      ensures failed == old(failed) && requestCount == old(requestCount) && argumentBytes == old(argumentBytes)
      ensures old(summary.Some?) ==>
        && r == old(summary) && journal == old(journal) && leakedSessions == old(leakedSessions)
        && states == old(states) && forall s <- old(states) :: s.AsPeer() == old(s.AsPeer())
      ensures old(summary.None?) ==>
        && frozen
        && (r.Some? <==> workersStopped && AllLeave(old(Peers(states)), closes))
        && (r.Some? ==>
              && r.value == Summary(connectionCount, leakedSessions) && HaveLeft(old(states), old(Peers(states)))
              && journal == old(journal) + [Lifecycle(5)] + Departures(old(Peers(states)), closes) + [Lifecycle(6)]
              && leakedSessions == old(leakedSessions) + Abandoned(old(Peers(states))))
        && (!workersStopped ==> journal == old(journal) + [Lifecycle(5)] && leakedSessions == old(leakedSessions))
        && (workersStopped && r.None? ==>
              StoppedAt(old(Peers(states)), closes, old(journal) + [Lifecycle(5)], journal, old(leakedSessions), leakedSessions))
    {
      hide Departures, Abandoned, StoppedAt, AllLeave, HaveLeft, Peers, Dropped, Distinct;
      if summary.Some? {
        return summary;
      }
      frozen := true;
      journal := journal + [Lifecycle(5)];
      if !workersStopped {
        return None;
      }
      var raised := DisconnectAll(states, closes);
      if raised {
        return None;
      }
      r := Some(Summary(connectionCount, leakedSessions));
      summary := r;
      journal := journal + [Lifecycle(6)];
    }
  }

  /** A peer once it has left. */
  function Departing(p: Peer): Peer { if p.closed then p else p.(sessions := [], closed := true) }

  /** A disconnection that would raise. */
  predicate Raises(p: (Connection, Peer), closes: Connection -> nat) { !p.1.closed && closes(p.0) < |p.1.sessions| }

  predicate AllLeave(peers: seq<(Connection, Peer)>, closes: Connection -> nat) {
    forall k :: 0 <= k < |peers| ==> !Raises(peers[k], closes)
  }

  /** The states of these peers, once they have left. */
  predicate HaveLeft(states: seq<ConnectionState>, peers: seq<(Connection, Peer)>)
    reads states
  {
    |states| == |peers| && forall k :: 0 <= k < |states| ==> states[k].AsPeer() == Departing(peers[k].1)
  }

  /** The first k peers left, and the next one's disconnection raised after what it had forced. */
  ghost predicate StoppedAt(peers: seq<(Connection, Peer)>, closes: Connection -> nat, before: seq<Event>, after: seq<Event>,
                            leakedBefore: nat, leakedAfter: nat)
  {
    exists k :: 0 <= k < |peers| && Raises(peers[k], closes) && (forall i :: 0 <= i < k ==> !Raises(peers[i], closes))
      && after == before + Departures(peers[..k + 1], closes) && leakedAfter == leakedBefore + Abandoned(peers[..k])
  }

  lemma DepartedParts(c: Connection, p: Peer, closes: nat)
    ensures
      var e, n := Departed(c, p, closes), |p.sessions|;
      if closes >= n then e.events == Cleanups(c, p.sessions) + [ConnectionClose(c, n)] && e.peer == p.(sessions := [], closed := true)
      else e.events == Cleanups(c, p.sessions[n - closes..]) && e.peer == p
  {
    hide Cleanups;
  }

  lemma DepartedPeer(c: Connection, p: Peer, closes: nat)
    ensures Departed(c, p, closes).peer == if closes >= |p.sessions| then p.(sessions := [], closed := true) else p
  {
  }

  /** Forcing one more, older session adds its event at the end. */
  lemma NextCleanup(c: Connection, sessions: seq<Session>, i: nat)
    requires i < |sessions|
    ensures Cleanups(c, sessions[i..])
         == Cleanups(c, sessions[i + 1..]) + [ForcedCleanup(c, sessions[i].token, sessions[i].kind)]
  {
    assert sessions[i..] == [sessions[i]] + sessions[i + 1..];
    OlderCleanup(c, sessions[i], sessions[i + 1..]);
  }

  lemma {:induction false} OlderCleanup(c: Connection, s: Session, rest: seq<Session>)
    ensures Cleanups(c, [s] + rest) == Cleanups(c, rest) + [ForcedCleanup(c, s.token, s.kind)]
  {
    var all := [s] + rest;
    if rest == [] {
      assert all == [s] && [s][..0] == [] && Cleanups(c, []) == [];
    } else {
      assert all[..|all| - 1] == [s] + rest[..|rest| - 1];
      OlderCleanup(c, s, rest[..|rest| - 1]);
    }
  }

  function Peers(states: seq<ConnectionState>): (r: seq<(Connection, Peer)>)
    reads states
    ensures |r| == |states| && forall i :: 0 <= i < |r| ==> r[i] == (states[i].id, states[i].AsPeer())
  {
    if states == [] then []
    else Peers(states[..|states| - 1]) + [(states[|states| - 1].id, states[|states| - 1].AsPeer())]
  }

  /** What disconnecting each of them in turn writes. */
  function Departures(peers: seq<(Connection, Peer)>, closes: Connection -> nat): seq<Event> {
    if peers == [] then []
    else
      var (c, p) := peers[|peers| - 1];
      Departures(peers[..|peers| - 1], closes) + if p.closed then [] else Departed(c, p, closes(c)).events
  }

  function Abandoned(peers: seq<(Connection, Peer)>): nat {
    if peers == [] then 0
    else
      var p := peers[|peers| - 1].1;
      Abandoned(peers[..|peers| - 1]) + if p.closed then 0 else |p.sessions|
  }

  lemma OneDeparture(peers: seq<(Connection, Peer)>, i: nat, closes: Connection -> nat)
    requires i < |peers|
    ensures
      var (c, p) := peers[i];
      && Departures(peers[..i + 1], closes)
         == Departures(peers[..i], closes) + (if p.closed then [] else Departed(c, p, closes(c)).events)
      && Abandoned(peers[..i + 1]) == Abandoned(peers[..i]) + (if p.closed then 0 else |p.sessions|)
  {
    assert peers[..i + 1][..i] == peers[..i];
  }

  lemma NoDeparture(closes: Connection -> nat)
    ensures Departures([], closes) == [] && Abandoned([]) == 0
  {
  }

  predicate Distinct(states: seq<ConnectionState>) { forall i, j :: 0 <= i < j < |states| ==> states[i] != states[j] }

  /** states.remove(state), when it is there. */
  function Dropped(states: seq<ConnectionState>, state: ConnectionState): (r: seq<ConnectionState>)
    ensures forall i :: 0 <= i < |r| ==> r[i] in states
    ensures forall i :: 0 <= i < |states| && states[i] != state ==> states[i] in r
    ensures Distinct(states) ==> Distinct(r) && state !in r
  {
    if states == [] then []
    else if states[0] == state then states[1..]
    else [states[0]] + Dropped(states[1..], state)
  }
}
