/** The events the PyVISA v2 broker writes to its journal (broker.py), one constructor for each kind. */
module BrokerJournal {
  import opened Wire

  /** A connection is named by the order in which it was accepted; a session by its secret token, whose
      SHA-256 digest the journal carries in its place. */
  type Connection = nat
  type Token = string

  datatype SessionKind = ResourceManager | Resource

  /** The operation names dispatch knows, hello and the ten of OPERATIONS, and any other name. */
  datatype Operation =
    | Hello | OpenManager | ListResources | Open | Close | Read | Write
    | GetAttribute | SetAttribute | DisableEvent | DiscardEvents
    | Other(name: string)

  /** The error kinds of a rejected request. */
  datatype ErrorKind =
    | RequestLimit | ClosedConnection | Unauthorized | UnknownOperation | InvalidSession | InvalidArguments
    | VisaError | InvalidResourceQuery

  /** _audit_operation: the operation in clear, or its digest when the request exceeded a limit. */
  datatype Audited = Clear(name: Operation) | Digest(name: Operation)

  /** _audit_mapping or, past a limit, _audit_rejected_mapping. */
  datatype Arguments = Arguments(entries: map<string, WireValue>) | RedactedArguments

  /** Instrument hooks run inside a write. Only the Before record holds the session's digest, and none holds
      the connection: here every record names both, and the readers below use no more than the record does. */
  datatype HookKind = Before | After | Error

  datatype Event =
    | ConnectionOpen(connection: Connection)
    | ConnectionClose(connection: Connection, leaked: nat)
    | ConnectionReject
    | RpcRequest(connection: Connection, operation: Audited, arguments: Arguments)
    | RpcResult(connection: Connection, operation: Audited, result: WireValue)
    | RpcReject(connection: Connection, operation: Audited, kind: ErrorKind)
    | QueryRequest(connection: Connection)
    | QueryResult(connection: Connection)
    | QueryReject(connection: Connection)
    | SessionOpen(connection: Connection, token: Token, sessionKind: SessionKind)
    | SessionClose(connection: Connection, token: Token, sessionKind: SessionKind)
    | ForcedCleanup(connection: Connection, token: Token, sessionKind: SessionKind)
    | InvalidAccess(connection: Connection)
    | ScpiWrite(connection: Connection)
    | ScpiWriteResult(connection: Connection)
    | ScpiRead(connection: Connection)
    | ScpiReadResult(connection: Connection)
    | HookEvent(connection: Connection, hook: HookKind, token: Token, resource: string, role: string)
    | TrustedFailure
    | Lifecycle(step: nat)

  /** The lifecycle kinds verify_evidence requires, in its order; Lifecycle(n) is the n-th of them.
      0 start, 1 configuration, 2 socket_bound, 3 broker.ready, 4 signal, 5 broker.cancellation_requested,
      6 broker.frozen, 7 pre_snapshot, 8 state.force_safe, 9 post_snapshot, 10 summary, 11 finalized, 12 exit. */
  const LIFECYCLE_STEPS: nat := 13

  /** An event that concerns one connection. */
  predicate Concerns(e: Event, c: Connection) {
    !e.ConnectionReject? && e != TrustedFailure && !e.Lifecycle? && e.connection == c
  }

  /** The kinds _valid_rpc_boundaries follows. */
  predicate Tracked(e: Event) {
    || e.RpcRequest? || e.RpcResult? || e.RpcReject?
    || e.ScpiWrite? || e.ScpiWriteResult? || e.ScpiRead? || e.ScpiReadResult?
  }
}
