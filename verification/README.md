# Verified models of the instrument benchmark

A Dafny model of the hard parts of the instrument benchmark, with proofs over every input, every run and every
interleaving. `dafny verify dfyconfig.toml` checks the whole project; there are no assumptions and no bodiless
declarations. Everything numeric is over exact reals; distances are compared squared.

The models follow the program's five parts.

- **VISA broker, its journal and the journal's two readers.** `Broker` holds the broker as objects with fields;
  `BrokerModel` says what one call does and `BrokerAnswers` what every caller is therefore answered. `BrokerRuns` is
  the concurrent service: one worker for each connection, journal writes interleaved one event at a time, lifecycle
  steps of the service beside them, and a VISA library that may fail in every call the broker makes, the forced closes
  of a disconnect included. `BrokerSimulation` proves that the object's methods are such runs. `BrokerTheorems` proves
  what every step keeps, when the accounting holds, and what the independent verifier (`EvidenceVerifier`) says;
  `BrokerCompletion` exactly which states can still be brought to an accepted end. `Projection` and `Projector` are
  the scorer's reader; `ProjectionTheorems` proves that its session verdict equals what the broker did,
  `ProjectedWrites` that every command it reports was asked for, and `JournalReading`, `ProjectedRecords`,
  `ProjectedCloses` and `ProjectedJournals` exactly which journals project and what every record becomes.
  `EvidenceLaws` says what the verifier accepts in terms of the events. `Wire`, `WireLaws` and `Frames` are the
  transport below.
- **Lift-out backend and geometry oracle.** `BackendModel` and `Backend` are the state machine over boxes,
  `BoxSubtraction` its six-way cut, `BackendRuns` and `BackendTheorems` conservation over whole runs with runtime
  faults anywhere, `BackendLaws` what every request does to the parts and when the sample hangs on the needle,
  `PartNames` and `NameClashes` when part names stay unique, `ContactGraph` and `OracleFractions` the oracle's
  searches and fractions.
- **Geometry algorithms against simple specifications.** `SpatialHash`, `SegmentDistance`, `UnionFind`, `Voxel`,
  `VoxelCrossings` and `VoxelBoxes`, `StlCanonical`, `StlTheorems`, `StlLaws` and `StlRoundTrip`.
- **Dispatcher against offline scorer.** `DispatcherModel`, `Dispatcher`, `JournalMarkers`,
  `DispatcherTheorems`, `DispatcherGates` (which requests get through), `MarkerLaws` (what the scorer's markers are),
  `FourSteps` (a run through all four checkpoints), and the hash-chained journal in `HashChain`.
- **Measurement chain.** `DutWorld`, `IeeeBlock`, `Measurement` and `Reconstruction`.

Six properties one would expect turn out to hold only under a condition; each has a concrete counterexample and,
where the condition is on the inputs of one call or run, an exact characterisation.

- The broker's session accounting fails, without a failure on record, when the library closes a session during a
  worker's last disconnect and then raises on another one: the freeze disconnects that peer again and journals the
  first close twice. `BrokerTheorems.QuietAccounting` proves that this is the only way, `RaisingDisconnect` is a run.
- The session check `active_close_all` also counts the close of a resource manager session once an instrument
  hook has run on it. `ProjectionTheorems.RunVerdict` states the exact condition, `HookedManager` is a run.
- The scorer does not look at `stop_pattern`, while the dispatcher lets a stop that reports "completed" finish a
  coupon; and a result without a canonical digest has taken effect when dispatch raises, before any record. The
  agreement needs a backend that does neither, which holds of the real one for stops (backend.py,
  `_stop_pattern`); `StopCompletion` has both counterexamples.
- `_segment_distance` treats a segment of squared length at most 1e-12 as its start point.
  `SegmentDistance.ChoiceIsExactIff` says for which segments that is harmless, `TinySegmentMisses` shows two for
  which it is not.
- The voxeliser misses boxes whose cross-section area is within its projection tolerance and shadows boxes
  thinner than its parity tolerance: `VoxelBoxes.ExactIff`, with both failures in `BothMisread`.
- Part names are unique for the purposes the dispatcher admits, not for arbitrary ones:
  `NameClashes.UniqueIffSafe` gives the exact set.

Modelling choices worth knowing. A session's digest is written as its token, and tokens are never drawn twice.
The VISA library is an input: every call may return any value, be refused in any of the ways the broker catches,
or raise something unexpected, a write may run any hooks, and a disconnect may get any number of sessions closed
before one close raises. A worker performs a call's effects at once and its journal writes one at a time,
interleaved with everything else; this allows more orders than the program's operation lock does. `Lifecycle(n)` is
the n-th of the thirteen lifecycle kinds the verifier requires.

## Model

| member | source | states |
|---|---|---|
| Broker.RemoteVisaBroker.NewConnection | sources/pyvisa/pyvisa_dut_validation_v2/broker.py:135-167 | a connection is admitted exactly while the broker runs and neither limit is reached; the table, the count and the journal change in no other way |
| Broker.RemoteVisaBroker.Dispatch | sources/pyvisa/pyvisa_dut_validation_v2/broker.py:169-285 | for every operation, argument map and library answer: the answer is the one its request, table and library call for, the table changes by nothing but an opened or closed session, the journal grows by exactly the records of that call, the counters by one request and its bytes, and one alarm is raised per broker lifetime |
| BrokerAnswers.DispatchLaw | sources/pyvisa/pyvisa_dut_validation_v2/broker.py:169-285 | each error kind is answered in exactly the cases stated (limit, closed connection, user, unknown name, session, arguments, and each refusal of the library), a read, write, get_attribute or list_resources answers the library's value, an open the new token, every other operation None, and hello the names; with the table and the records of the call |
| BrokerAnswers.FitsIff | sources/pyvisa/pyvisa_dut_validation_v2/broker.py:486-640 | the argument checks of each operation are its schema: exactly these names, each of its kind |
| BrokerAnswers.HelloNames | sources/pyvisa/pyvisa_dut_validation_v2/broker.py:40-51 | hello answers the ten served names, each once, in alphabetical order |
| BrokerAnswers.DepartureLaw | sources/pyvisa/pyvisa_dut_validation_v2/broker.py:356-381 | a disconnect closes the sessions newest first, as many as the library lets it, and then either ends the connection or leaves the table as it was |
| BrokerTheorems.CallsAreLawful | sources/pyvisa/pyvisa_dut_validation_v2/broker.py:169-285 | in every run each call answers, changes its table and writes its records in this way |
| Broker.RemoteVisaBroker.InvokeLibrary | sources/pyvisa/pyvisa_dut_validation_v2/broker.py:486-640 | every branch of the library call: the events, the session table and the way it ends are those of the specification, which BrokerAnswers.DispatchLaw pins |
| Broker.RemoteVisaBroker.Disconnect | sources/pyvisa/pyvisa_dut_validation_v2/broker.py:356-381 | every remaining session is forced closed, newest first, the leak count grows by their number and the state leaves the list; a library close that raises leaves table, flag, leak count and list as they were, with the closes before it in the journal; a second call does nothing |
| Broker.RemoteVisaBroker.FreezeAndClose | sources/pyvisa/pyvisa_dut_validation_v2/broker.py:383-420 | a summary is returned exactly when every worker has stopped and no forced close raises; then every listed connection is closed, the journal is the old one plus their departures between the two lifecycle events, and the summary counts connections and leaks; otherwise the journal ends with what was forced before the raise; a repeated freeze returns the first summary and writes nothing |
| BrokerBlocks.InvokeBlock | sources/pyvisa/pyvisa_dut_validation_v2/broker.py:486-678 | whatever is asked and answered, the events of a call belong to its connection, their session balance is the change in the session table, resource queries are answered unless the call crashed, and the SCPI events have the shape the answer requires |
| BrokerBlocks.DispatchBlock | sources/pyvisa/pyvisa_dut_validation_v2/broker.py:169-285 | every dispatch that does not crash is one balanced, well-formed block |
| BrokerBlocks.DisconnectBlock | sources/pyvisa/pyvisa_dut_validation_v2/broker.py:356-381 | the events of a disconnect that does not raise close each session once and the connection once, and hold nothing the block scan looks at |
| BrokerBlocks.DepartedBlock | sources/pyvisa/pyvisa_dut_validation_v2/broker.py:356-381 | whether or not a forced close raises: the events belong to the connection, the block scan ignores them, and their balance is the sessions forced and, only when nothing raised, the connection closed |
| BrokerBlocks.SumIsCounts | instrument_benchmark_evaluator/container/sim_evidence.py:348-354 | the conserved balances are differences of the verifier's own counters |
| SessionLedger.DispatchKeeps | sources/pyvisa/pyvisa_dut_validation_v2/broker.py:486-678 | the strict per-token reading of a connection's events stays in step with the session table across every call |
| SessionLedger.DisconnectKeeps | sources/pyvisa/pyvisa_dut_validation_v2/broker.py:356-381 | after a disconnect that does not raise every token was released by its owner or forced, never both, never neither |
| BrokerTheorems.RunKeeps | sources/pyvisa/pyvisa_dut_validation_v2/broker.py:135-420 | over every interleaving of accepts, calls, malformed frames, faults, disconnects that may raise part-way and single journal writes: balances with the unwritten events and the repeated closes taken in, block shape of every connection, ledger and token disjointness while no session was closed twice, lifecycle order, and the alarm exactly in failed runs |
| BrokerTheorems.QuietAccounting | sources/pyvisa/pyvisa_dut_validation_v2/service.py:108-126 | over every run, once the workers are done and nothing failed, all six accounting identities hold, and the service's consistency error is not raised, if and only if no disconnect forced a session and then raised on another |
| RaisingDisconnect.AccountingBreaks | sources/pyvisa/pyvisa_dut_validation_v2/broker.py:463-466 | a concrete run: a close raises in a worker's last disconnect, the freeze disconnects that peer again, no failure is recorded, two sessions were opened and three closes forced, and the accounting fails |
| BrokerTheorems.QuietBlocks | instrument_benchmark_evaluator/container/sim_evidence.py:357-409 | in the same states every connection's stream is a sequence of well-formed RPC/SCPI blocks |
| BrokerTheorems.RunAccepted | instrument_benchmark_evaluator/container/sim_evidence.py:185-244 | every run that reaches its normal end is accepted by the independent verifier |
| BrokerTheorems.FailedRunRejected | instrument_benchmark_evaluator/container/sim_evidence.py:219-224 | a run with a trusted failure is rejected once its workers are done, whatever is appended later and whatever its summary claims |
| BrokerCompletion.CanFinish | sources/pyvisa/pyvisa_dut_validation_v2/service.py:93-145 | from every reachable state without a failure, an aborted freeze or a session closed by a disconnect that raised, some continuation reaches the normal end, and it is accepted |
| BrokerCompletion.CannotFinish | sources/pyvisa/pyvisa_dut_validation_v2/service.py:93-145 | from every other state no continuation does |
| BrokerSimulation.Connect | sources/pyvisa/pyvisa_dut_validation_v2/broker.py:135-167 | new_connection on the object is an Accept or Refuse of the concurrent model, ending in the same tables, counters and journal |
| BrokerSimulation.Request | sources/pyvisa/pyvisa_dut_validation_v2/broker.py:169-285 | so is dispatch: a Call and the writing out of its block |
| BrokerSimulation.Leave | sources/pyvisa/pyvisa_dut_validation_v2/broker.py:356-381 | so is disconnect, raising or not: a Hangup and the writing out of its block |
| BrokerSimulation.Freeze | sources/pyvisa/pyvisa_dut_validation_v2/broker.py:383-420 | so is freeze_and_close: the cancellation, a Hangup for each connection still listed up to the first that raises, and broker.frozen if none does, with the model's summary |
| EvidenceVerifier.EventCounts | instrument_benchmark_evaluator/container/sim_evidence.py:348-354 | the counters are the numbers of events of each counted kind |
| EvidenceVerifier.ValidRpcBoundaries | instrument_benchmark_evaluator/container/sim_evidence.py:357-409 | true exactly when every connection's tracked events scan as whole blocks |
| EvidenceVerifier.VerifyEvidence | instrument_benchmark_evaluator/container/sim_evidence.py:185-244 | true exactly when accounting, blocks, lifecycle order and absence of failures all hold |
| EvidenceLaws.AcceptsIff | instrument_benchmark_evaluator/container/sim_evidence.py:185-244 | accepted exactly when the six numbers agree, every connection's call events are whole calls, the thirteen lifecycle events stand in order from the first event to the last, and no trusted failure is on record; so breaking any one of them is refused |
| EvidenceLaws.ScansIffCalls | instrument_benchmark_evaluator/container/sim_evidence.py:357-409 | a stream passes the scan exactly when it is a sequence of calls: a request, what its operation allows in between, and the answer to that request |
| Projector.ProjectEvents | sources/pyvisa/pyvisa_dut_validation_v2/projection.py:55-392 | the loop, the sequence collision test and the incomplete-operation test compute the specification's projection, sorted; what it reports is pinned by the five rows below |
| ProjectedRecords.ProjectsExactly | sources/pyvisa/pyvisa_dut_validation_v2/projection.py:71-372 | in every projection of any journal an event other than a forced close is reported exactly when some record becomes it, said for each kind from the journal alone: writes, both inferred terminations, timeouts, openings, closes, failures, rejections, protocol rejections and force_safe |
| ProjectedCloses.WritesAreReported | sources/pyvisa/pyvisa_dut_validation_v2/projection.py:90-171 | every hook that ends is reported as one write, of the session whose hook it is, with the bytes last asked to be written there, good exactly when it came to its normal end |
| ProjectedCloses.ForcesExactly | sources/pyvisa/pyvisa_dut_validation_v2/projection.py:317-346 | the forced closes are, at each connection's end and in the order the sessions were first opened, the first of each name among those it leaves open, numbered in turn, and no others |
| ProjectedCloses.EveryNameForced | sources/pyvisa/pyvisa_dut_validation_v2/projection.py:317-346 | no abandoned session's name goes unreported and none is reported twice for one end |
| ProjectedCloses.ProjectionRises | sources/pyvisa/pyvisa_dut_validation_v2/projection.py:378-390 | reported events rise strictly in their numbers, so each is reported once |
| ProjectedJournals.ProjectsWhen | sources/pyvisa/pyvisa_dut_validation_v2/projection.py:55-392 | a journal projects exactly when a simulator state is on record, every record is legible after those before it, nothing is left undone and no two reported events bear one number |
| Projector.SweepSessions | sources/pyvisa/pyvisa_dut_validation_v2/projection.py:317-346 | at a connection.close every abandoned session is marked and one forced close is drafted for each key, in insertion order |
| Projector.CheckActiveCloseAll | sources/pyvisa/pyvisa_dut_validation_v1/constraints/partial_order.py:227-251 | the opened and actively closed digests are compared as sets, and the first must not be empty |
| ProjectionTheorems.FoldAgrees | sources/pyvisa/pyvisa_dut_validation_v2/projection.py:71-372 | over a whole lawful journal the projection's requests, sessions and drafts say what each connection's ledger says |
| ProjectionTheorems.SessionVerdict | sources/pyvisa/pyvisa_dut_validation_v1/constraints/partial_order.py:227-251 | on a lawful settled journal that projects, active_close_all passes if and only if some resource session was opened, none was forced, and no resource manager with a hook on record was closed by the candidate |
| ProjectionTheorems.RunVerdict | sources/pyvisa/pyvisa_dut_validation_v2/projection.py:185-261 | the same equivalence for every finished run of the broker, under every interleaving |
| ProjectedWrites.WritesWereRequested | sources/pyvisa/pyvisa_dut_validation_v2/projection.py:75-171 | in every projection of any journal each reported write carries exactly the bytes of a write request for that session recorded before it |
| HookedManager.HookedManagerFails | sources/pyvisa/pyvisa_dut_validation_v2/projection.py:98-101 | a concrete finished run of the broker: nothing forced, a resource opened and closed, and the check fails, because a hook on the manager's session makes its close count |
| HookedManager.WritingIsWritten | sources/pyvisa/pyvisa_dut_validation_v2/broker.py:586-607 | the write in that journal is the broker's own block for it |
| Wire.RoundTrip | sources/pyvisa/pyvisa_dut_validation_v2/protocol.py:42-110 | decoding an encoded value returns it and the remaining budget exactly when its nesting and node count fit, and fails otherwise |
| Wire.DecodeWireValue | sources/pyvisa/pyvisa_dut_validation_v2/protocol.py:65-110 | the decoder with its shared mutable budget agrees with the specification and leaves the budget it says |
| Wire.DecodeArguments | sources/pyvisa/pyvisa_dut_validation_v2/protocol.py:165-178 | for whatever the peer sent, the argument loop yields the specification's values under one shared budget, and nothing when a key is empty or a value fails |
| Wire.ArgumentsRoundTrip | sources/pyvisa/pyvisa_dut_validation_v2/protocol.py:171-178 | an encoded argument list reads back exactly when all values together fit the budget with one extra unit each, and none is too deep |
| WireLaws.DecodesIff | sources/pyvisa/pyvisa_dut_validation_v2/protocol.py:65-110 | for every JSON value: it decodes to a value exactly when it has that value's shape, is nested within the limit and fits the budget, and the budget left is what its size leaves |
| Frames.RecvExact | sources/pyvisa/pyvisa_dut_validation_v2/protocol.py:302-315 | for every chunking of the stream: exactly the next bytes, a clean end only before the first, truncation otherwise |
| Frames.RecvMessage | sources/pyvisa/pyvisa_dut_validation_v2/protocol.py:281-299 | for every chunking, the first frame's payload, its end, or the refusal of an empty or oversized frame |
| Frames.ReadAll | sources/pyvisa/pyvisa_dut_validation_v2/protocol.py:281-315 | a reading loop returns the messages of the stream in order and whether it ended between frames |
| Frames.FramesRoundTrip | sources/pyvisa/pyvisa_dut_validation_v2/protocol.py:265-278 | frames written one after another read back in order and in full |
| Frames.TruncationSeen | sources/pyvisa/pyvisa_dut_validation_v2/protocol.py:302-315 | a stream cut inside its last frame yields the earlier messages and is never taken for a clean end |
| Frames.CleanOnlyFrames | sources/pyvisa/pyvisa_dut_validation_v2/protocol.py:265-315 | a stream that ends cleanly is nothing but the frames of the messages read from it |
| Backend.OpenFibsemBackend.RunCut | sources/openfibsem/fibsem_liftout_v1/backend.py:265-294 | the object's new state is the specification's step, whether or not the pattern runtime raises; a source separation leaves exactly the parts other than the bridge it overlaps, a needle separation those other than the joints it overlaps |
| BackendLaws.SeparationLaw | sources/openfibsem/fibsem_liftout_v1/backend.py:274-290 | a cut that does not mill takes away exactly the parts it severs: a source_bridge, or needle and target joints, with a point in common with the cutter |
| BackendLaws.MillingLaw | sources/openfibsem/fibsem_liftout_v1/backend.py:402-417 | a milling cut leaves every other part and every sample it does not meet, and replaces each sample it meets by its fragments |
| BackendLaws.BridgeLaw | sources/openfibsem/fibsem_liftout_v1/backend.py:274-280 | over every run, from the requests alone: the bridge stands where it started until a source separation that takes place meets it, and never comes back |
| BackendLaws.NeedleLaw | sources/openfibsem/fibsem_liftout_v1/backend.py:354-376 | over every run each needle request displaces the needle, and, exactly while the bridge has been cut and a needle joint stands, every sample part and needle joint, by the way it goes; every other part stays |
| BackendLaws.ForceSafeLaw | sources/openfibsem/fibsem_liftout_v1/backend.py:162-178 | over every run force_safe gives up the needle joints if the sample is held at the target and takes the needle home, with the sample only if it still hangs on it |
| BackendLaws.TearLaw | sources/openfibsem/fibsem_liftout_v1/backend.py:354-376 | the collision flag is set by a needle request exactly when the sample hangs on the needle, is held at the target, and the needle leaves its place by more than 1e-9 |
| BackendLaws.DepositionLaw | sources/openfibsem/fibsem_liftout_v1/backend.py:296-315 | a deposition that takes place adds one part with its bounds, purpose and running number |
| BackendLaws.FieldsLaw | sources/openfibsem/fibsem_liftout_v1/backend.py:54-330 | stage, needle inserted, pattern number, material changes and active pattern after a run, from the requests and faults alone |
| Backend.OpenFibsemBackend.RunDeposition | sources/openfibsem/fibsem_liftout_v1/backend.py:296-315 | one change and one named part are appended, and the state is the specification's step |
| Backend.OpenFibsemBackend.CutSample | sources/openfibsem/fibsem_liftout_v1/backend.py:402-417 | each overlapping sample part is replaced in place by its fragments |
| Backend.OpenFibsemBackend.MoveNeedleTo | sources/openfibsem/fibsem_liftout_v1/backend.py:354-376 | the needle moves, the sample moves with it while it is carried, and a carried sample still joined elsewhere latches a collision |
| Backend.OpenFibsemBackend.ForceSafe | sources/openfibsem/fibsem_liftout_v1/backend.py:162-178 | the whole state after cleanup |
| BackendTheorems.StepKeeps | sources/openfibsem/fibsem_liftout_v1/backend.py:265-294 | one request, whatever the runtime does, keeps the sample parts separated inside one moved sample box, and the volume changes only by what the cut removes |
| BackendTheorems.SampleConserved | sources/openfibsem/fibsem_liftout_v1/backend.py:354-417 | in every reachable state no point is interior to two sample parts, all lie in the original sample box moved by one displacement, and their volume is at most the planned one |
| BackendTheorems.SampleVolumeNeverGrows | sources/openfibsem/fibsem_liftout_v1/backend.py:402-417 | the sample volume never grows from any step of a run to a later one |
| BackendTheorems.NamesStayUnique | sources/openfibsem/fibsem_liftout_v1/geometry/metrics.py:219-227 | every run whose deposition purposes are safe keeps part names unique, so a snapshot can be built |
| BackendTheorems.DispatchedNamesUnique | sources/openfibsem/fibsem_liftout_v1/instrumented_microscope.py:22-27 | so does every run of dispatched requests, whose purposes are all safe |
| PartNames.UnsafeIff | sources/openfibsem/fibsem_liftout_v1/backend.py:402-417 | a deposition can take a fragment's name exactly when its purpose is sample, any number of cut suffixes, then _cut |
| NameClashes.UniqueIffSafe | sources/openfibsem/fibsem_liftout_v1/backend.py:296-315 | part names stay unique in every run, of every scenario, that deposits for one purpose if and only if that purpose is safe |
| NameClashes.FreePurposesClash | sources/openfibsem/fibsem_liftout_v1/backend.py:296-315 | in every scenario the run of a deposition for sample_cut and a trench that leaves a fragment ends with two parts of one name |
| BackendTheorems.CollisionLatched | sources/openfibsem/fibsem_liftout_v1/backend.py:354-376 | the collision flag is set exactly when some earlier step tore the sample off |
| BackendTheorems.ForceSafeEffect | sources/openfibsem/fibsem_liftout_v1/backend.py:162-178 | force_safe retracts the needle, stops everything and never tears the sample; the needle comes home exactly when it was inserted or already there |
| BoxSubtraction.SubtractBoundsTiles | sources/openfibsem/fibsem_liftout_v1/backend.py:538-557 | fragments are solid, pairwise separated, inside the source, clear of the cutter, and with what is removed their volumes add up to the source's |
| BoxSubtraction.SubtractBoundsCovers | sources/openfibsem/fibsem_liftout_v1/backend.py:538-557 | every point of the source is in the cutter, in a fragment, or in a sliver no thicker than 1e-9 |
| BoxMesh.BoxMeshVolume | sources/openfibsem/fibsem_liftout_v1/geometry/metrics.py:99-104 | the signed volume of a box mesh is the product of its sides, wherever it lies |
| BoxMesh.BoxMeshBounds | sources/openfibsem/fibsem_liftout_v1/geometry/metrics.py:92-97 | the bounds of a box mesh are the box |
| BoxMesh.TranslatedMeshIsBoxMesh | sources/openfibsem/fibsem_liftout_v1/backend.py:502-514 | moving every vertex of a box mesh gives the mesh of the moved box |
| Geometry.SeparatedIffNoCommonInterior | sources/openfibsem/fibsem_liftout_v1/geometry/metrics.py:43-48 | for solid boxes an axis separates them exactly when no point is interior to both |
| ContactGraph.BuildContactGraph | sources/openfibsem/fibsem_liftout_v1/geometry/oracle.py:215-232 | the graph is symmetric, irreflexive and holds exactly the pairs in contact |
| ContactGraph.RolesConnected | sources/openfibsem/fibsem_liftout_v1/geometry/oracle.py:234-250 | true exactly when a walk joins a part of one role to a part of the other |
| ContactGraph.SampleComponentVolumes | sources/openfibsem/fibsem_liftout_v1/geometry/oracle.py:163-182 | one entry for each component of the sample-induced subgraph; the components partition the samples and the entries add up to their volume |
| OracleFractions.SampleFractions | sources/openfibsem/fibsem_liftout_v1/geometry/oracle.py:92-96 | the count is the number of connected components of the sample parts, total times plan is their volume, and retained times plan is the volume of the greatest component |
| OracleFractions.FractionsOfRun | sources/openfibsem/fibsem_liftout_v1/geometry/oracle.py:92-96 | in every reachable backend state, for every contact graph, 0 <= retained <= total <= 1 |
| SegmentDistance.ChoiceMinimises | sources/openfibsem/fibsem_liftout_v1/geometry/connectivity.py:213-237 | for segments of positive length the clamped pair minimises over the whole unit square, parallel segments included |
| SegmentDistance.ChoiceIsExactIff | sources/openfibsem/fibsem_liftout_v1/geometry/connectivity.py:213-237 | for all segments the chosen pair is a minimiser if and only if a condition on the dot products of the inputs holds: none when both are longer than the threshold, otherwise that the start point of each tiny one is at least as near as the rest of it |
| SegmentDistance.TinySegmentMisses | sources/openfibsem/fibsem_liftout_v1/geometry/connectivity.py:218-225 | two concrete segments, one below the threshold, whose computed distance is larger than the true one |
| SegmentDistance.SquaredSegmentDistance | sources/openfibsem/fibsem_liftout_v1/geometry/connectivity.py:213-237 | the method returns a distance attained on both segments, least over both if and only if that condition on its inputs holds |
| SpatialHash.SpatialHash.NearestSquared | sources/openfibsem/fibsem_liftout_v1/geometry/surface_distance.py:88-126 | the expanding-shell search with early exit returns exactly the least squared distance to any point |
| SpatialHash.ExitIsSafe | sources/openfibsem/fibsem_liftout_v1/geometry/surface_distance.py:113-124 | a best no larger than the squared unseen distance beats every point not yet seen |
| SpatialHash.UnseenBound | sources/openfibsem/fibsem_liftout_v1/geometry/surface_distance.py:113-124 | every point outside the scanned shells is at least the unseen distance away |
| SpatialHash.DirectedMaximumSquared | sources/openfibsem/fibsem_liftout_v1/geometry/surface_distance.py:129-131 | the greatest of the nearest distances of one set to the other |
| SpatialHash.SquaredHausdorff | sources/openfibsem/fibsem_liftout_v1/geometry/surface_distance.py:134-161 | zero at once for equal geometry, otherwise the larger of the two directed maxima; the shortcut agrees with the distance of equal point sets |
| UnionFind.Find | sources/openfibsem/fibsem_liftout_v1/geometry/stl_mesh.py:192-196 | path halving terminates, returns the root and changes no vertex's root |
| UnionFind.Union | sources/openfibsem/fibsem_liftout_v1/geometry/stl_mesh.py:198-202 | the two vertices get one root and equal roots stay equal |
| UnionFind.ComponentCount | sources/openfibsem/fibsem_liftout_v1/geometry/stl_mesh.py:189-207 | the count is the number of classes of the reflexive-transitive closure of sharing a face, isolated vertices included |
| Voxel.AddTriangle | sources/openfibsem/fibsem_liftout_v1/geometry/voxel.py:49-106 | the loops over candidate rows add to each row exactly the crossing of that row with the triangle |
| Voxel.ProjectedIntersections | sources/openfibsem/fibsem_liftout_v1/geometry/voxel.py:49-106 | each row holds the crossings of all triangles in order |
| Voxel.Voxelize | sources/openfibsem/fibsem_liftout_v1/geometry/voxel.py:109-134 | a cell of the grid is marked exactly when its row crosses the mesh an odd number of times beyond its centre, and nothing else is marked |
| Voxel.IndexInjective | sources/openfibsem/fibsem_liftout_v1/geometry/voxel.py:133 | distinct cells have distinct linear indices |
| VoxelCrossings.CrossingLaw | sources/openfibsem/fibsem_liftout_v1/geometry/voxel.py:57-104 | for every triangle that is not edge-on, slanted ones included, a row crosses it at x exactly when it is within the extent and x is where it meets the triangle's plane at a point whose corner weights are within the tolerance of [0, 1] |
| VoxelCrossings.HitLaw | sources/openfibsem/fibsem_liftout_v1/geometry/voxel.py:37-104 | in a grid whose edge is at least 1e-12 the candidate ranges leave out no crossing |
| VoxelCrossings.OddLaw | sources/openfibsem/fibsem_liftout_v1/geometry/voxel.py:109-133 | the parity test counts, among the sorted crossings thinned out greedily, those beyond the centre by more than the tolerance |
| VoxelBoxes.GridIsValid | sources/openfibsem/fibsem_liftout_v1/geometry/voxel.py:22-34 | the cells cover the region and none lies wholly outside it |
| VoxelBoxes.GridLaw | sources/openfibsem/fibsem_liftout_v1/geometry/voxel.py:22-34 | there is a grid exactly when region and edge have a size and the cells that tile the region are not too many |
| VoxelBoxes.CandidatesCover | sources/openfibsem/fibsem_liftout_v1/geometry/voxel.py:37-46 | a cell whose centre is within a triangle's bounds is among its candidates |
| VoxelBoxes.BoxExact | sources/openfibsem/fibsem_liftout_v1/geometry/voxel.py:49-134 | for a box thicker than the tolerances a cell whose centre is clear of the faces is marked exactly when the centre is inside |
| VoxelBoxes.ThinSectionUnseen | sources/openfibsem/fibsem_liftout_v1/geometry/voxel.py:57-64 | a box whose cross-section is within the tolerance is never marked |
| VoxelBoxes.ThinBoxShadow | sources/openfibsem/fibsem_liftout_v1/geometry/voxel.py:117-133 | a box thinner than the tolerance along the ray marks the cells before it |
| VoxelBoxes.ExactIff | sources/openfibsem/fibsem_liftout_v1/geometry/voxel.py:49-134 | for every solid box and clear cell, exactly when the mark is right |
| VoxelBoxes.BothMisread | sources/openfibsem/fibsem_liftout_v1/geometry/voxel.py:57-133 | both failures occur: a needle that holds a cell's centre leaves it unmarked, and a thin plate behind the centre marks it |
| VoxelBoxes.IouRange | sources/openfibsem/fibsem_liftout_v1/geometry/voxel.py:150-155 | the ratio is symmetric and in [0,1], one exactly for equal sets and zero exactly for disjoint ones that are not both empty |
| VoxelBoxes.VoxelIou | sources/openfibsem/fibsem_liftout_v1/geometry/voxel.py:137-155 | the ratio of the two meshes' cell sets, the shortcut for equal meshes included, or an error exactly when the grid is refused |
| StlCanonical.WeldMoves | sources/openfibsem/fibsem_liftout_v1/geometry/stl_mesh.py:166-170 | welding moves a coordinate by at most half a step |
| StlCanonical.CycleRotation | sources/openfibsem/fibsem_liftout_v1/geometry/stl_mesh.py:173-175 | two faces have one canonical cycle exactly when they are rotations of each other |
| StlTheorems.TurnInvariant | sources/openfibsem/fibsem_liftout_v1/geometry/stl_mesh.py:250-286 | rotating any of the triangles changes nothing |
| StlTheorems.OrderInvariant | sources/openfibsem/fibsem_liftout_v1/geometry/stl_mesh.py:250-286 | reordering the triangles changes nothing |
| StlTheorems.CanonicalInvariant | sources/openfibsem/fibsem_liftout_v1/geometry/stl_mesh.py:250-286 | rotations and any permutation together leave the canonical vertices, faces and errors unchanged |
| StlTheorems.FaceReadsBack | sources/openfibsem/fibsem_liftout_v1/geometry/stl_mesh.py:277-285 | a kept triangle's face, read through the vertex keys, is that triangle up to rotation |
| StlTheorems.CanonicalMesh | sources/openfibsem/fibsem_liftout_v1/geometry/stl_mesh.py:250-286 | the loops compute the canonical form and its coordinates |
| StlLaws.StlLaw | sources/openfibsem/fibsem_liftout_v1/geometry/stl_mesh.py:250-286 | there is a mesh exactly when the corners weld to few enough points and some triangle is proper; its vertices are the proper triangles' corners, each once and in order; its faces, in order, are one for each proper triangle, starting at the least corner and turning the same way |
| StlLaws.WeldAway | sources/openfibsem/fibsem_liftout_v1/geometry/stl_mesh.py:166-170 | halfway between two points of the grid a coordinate is welded away from zero |
| StlRoundTrip.RoundTrip | sources/openfibsem/fibsem_liftout_v1/geometry/stl_mesh.py:250-286 | writing out a canonical mesh and reading it back gives the same canonical mesh |
| Dispatcher.OperationDispatcher.Dispatch | sources/openfibsem/fibsem_liftout_v1/instrumented_microscope.py:110-200 | for every request and backend reply, a result without a canonical digest included, the new flags, checkpoint index, pattern table and journal are the specification's |
| Dispatcher.OperationDispatcher.RunHandler | sources/openfibsem/fibsem_liftout_v1/instrumented_microscope.py:259-381 | each handler refuses, breaks or completes as specified, with the events it writes |
| Dispatcher.OperationDispatcher.HandlePattern | sources/openfibsem/fibsem_liftout_v1/instrumented_microscope.py:342-414 | receipts are recorded once per identifier and a completed coupon sets its flag |
| DispatcherTheorems.RunInvariant | sources/openfibsem/fibsem_liftout_v1/instrumented_microscope.py:285-414 | after every run whose completions are all reported each flag rests on an event the scorer finds, the scorer's pattern table equals the dispatcher's, and nothing outside the preflight precedes it |
| DispatcherGates.RunRead | sources/openfibsem/fibsem_liftout_v1/instrumented_microscope.py:259-414 | over every run whose results have digests the dispatcher's flags, patterns and step count are exactly what the journal has on record |
| DispatcherGates.GateLaw | sources/openfibsem/fibsem_liftout_v1/instrumented_microscope.py:110-200 | in every such run, what a call adds to the journal follows from the journal, the request and the reply: which requests are refused, which reach the backend, and which receipts are accepted |
| DispatcherGates.CheckpointGate | sources/openfibsem/fibsem_liftout_v1/instrumented_microscope.py:360-381 | a checkpoint the backend carries out is exported exactly when the request is well formed, the ten acts of the preflight are on record, no pattern stands queued or running, and the step is the next of the four |
| FourSteps.FourStepsInOrder | sources/openfibsem/fibsem_liftout_v1/scoring.py:768-783 | one run in which all four steps are exported and the scorer finds all four in order |
| DispatcherTheorems.PreflightComesFirst | sources/openfibsem/fibsem_liftout_v1/scoring.py:705-746 | whenever the scorer finds a completed pattern outside the preflight, a destructive marker or a checkpoint, it finds the preflight marker strictly earlier |
| DispatcherTheorems.CheckpointsArePrefix | sources/openfibsem/fibsem_liftout_v1/scoring.py:671-675 | the checkpoint markers are an increasing prefix of step_1 to step_4, as many as the dispatcher counted |
| DispatcherTheorems.StepOneOrder | sources/openfibsem/fibsem_liftout_v1/scoring.py:768-769 | over every such run the scorer's order for step_1 comes down to one comparison |
| DispatcherTheorems.StepTwoOrder | sources/openfibsem/fibsem_liftout_v1/scoring.py:729-773 | in every journal step_2 is in order if and only if the needle joint and then the source cut follow step_1 and something moved between the cut and the export |
| DispatcherTheorems.StepThreeOrder | sources/openfibsem/fibsem_liftout_v1/scoring.py:730-777 | step_3 is in order if and only if two movements lie between step_2 and the target joint and the joint precedes the export |
| DispatcherTheorems.StepFourOrder | sources/openfibsem/fibsem_liftout_v1/scoring.py:759-781 | step_4 is in order if and only if the joint is cut after step_3, the needle is retracted between that cut and the export, and not between step_3 and the cut |
| StopCompletion.StopBreaksAgreement | sources/openfibsem/fibsem_liftout_v1/instrumented_microscope.py:353-357 | a concrete run with a stop that reports completion: the scorer finds a destructive operation and no preflight |
| StopCompletion.UndigestedBreaksAgreement | sources/openfibsem/fibsem_liftout_v1/instrumented_microscope.py:188-199 | the same with one completed cut whose result has no canonical digest |
| JournalMarkers.FindMarkers | sources/openfibsem/fibsem_liftout_v1/scoring.py:663-783 | the scorer's loop yields all fourteen markers and the order of each step |
| MarkerLaws.GatherLaw | sources/openfibsem/fibsem_liftout_v1/scoring.py:663-718 | over every journal the scorer's marks are the first records, and all records, of each kind |
| MarkerLaws.PreflightMoment | sources/openfibsem/fibsem_liftout_v1/scoring.py:705-719 | the preflight marker is the number of the record with which the last of its eleven needs comes in: all are on record with it and were not before it |
| MarkerLaws.DestructiveFirst | sources/openfibsem/fibsem_liftout_v1/scoring.py:720-727 | the destructive marker is the first completion of a protection, trench, polish or u_cut |
| HashChain.EventJournal.Append | sources/openfibsem/fibsem_liftout_v1/journal.py:140-167 | a bad kind, fields without a canonical form or a record that is too large change nothing; otherwise exactly one record linked to the head is appended, and the journal stays valid under a clock that runs forward |
| HashChain.ValidateRecords | sources/openfibsem/fibsem_liftout_v1/journal.py:191-252 | accepts exactly the valid chains, with the terminal event when required, and returns their head |
| HashChain.ValidIff | sources/openfibsem/fibsem_liftout_v1/journal.py:191-252 | a chain is valid exactly when every record is numbered from one, of this run and world, of a kind, at a time that starts above zero and never goes back, names the hash before it and bears its own |
| HashChain.AppendedValid | sources/openfibsem/fibsem_liftout_v1/journal.py:140-167 | every journal built by appending under a positive monotone clock validates |
| HashChain.HeadDetermines | sources/openfibsem/fibsem_liftout_v1/journal.py:191-252 | for a collision-free hash two valid non-empty lists with the same head are identical record by record |
| DutWorld.DUTWorld.Act | sources/pyvisa/pyvisa_dut_validation_v1/dut_world.py:42-120 | each action is accepted or refused as specified and sets the whole state; a refused one changes nothing |
| DutWorld.ActionLaw | sources/pyvisa/pyvisa_dut_validation_v1/dut_world.py:32-120 | what each action needs to be accepted and the one field it changes |
| DutWorld.CanAcquire | sources/pyvisa/pyvisa_dut_validation_v1/dut_world.py:42-133 | in every world whose required routes are route numbers some sequence of actions makes an acquisition possible |
| DutWorld.RoutesCloseWhenOff | sources/pyvisa/pyvisa_dut_validation_v1/dut_world.py:59-63 | routes close only in steps with both sources off |
| DutWorld.RoutesBeforeSources | sources/pyvisa/pyvisa_dut_validation_v1/dut_world.py:122-133 | at any successful acquisition each required route has been closed continuously since before each source's last switching on, or since the beginning |
| DutWorld.StartedWhileOn | sources/pyvisa/pyvisa_dut_validation_v1/dut_world.py:113-120 | the stimulus has a start time exactly while the generator is on, never a future one |
| DutWorld.SettledSinceSwitchOn | sources/pyvisa/pyvisa_dut_validation_v1/dut_world.py:122-133 | and the generator has been on for at least the settling time |
| Measurement.NoiseBound | sources/pyvisa/pyvisa_dut_validation_v1/dut_world.py:135-141 | noise stays within its amplitude |
| Measurement.NoiseEnds | sources/pyvisa/pyvisa_dut_validation_v1/dut_world.py:135-141 | and reaches both ends |
| Measurement.RoundIs | sources/pyvisa/pyvisa_dut_validation_v1/instruments.py:310-315 | rounding is to the nearest integer, halves to the even one |
| Measurement.CodeIs | sources/pyvisa/pyvisa_dut_validation_v1/instruments.py:310-315 | a code is the nearest one, or the end of the scale the value lies beyond |
| Reconstruction.JudgeLaw | sources/pyvisa/pyvisa_dut_validation_v1/oracle/reconstruct.py:102-142 | the verdict is refused exactly when something is missing, malformed or flat; otherwise gain times the waveform's spread is the voltages' spread, the cross error is attained and greatest, and the decision is that gain and error lie within the limits |
| Reconstruction.GainBound | sources/pyvisa/pyvisa_dut_validation_v1/oracle/reconstruct.py:113-121 | for every unclipped run of every device, through the encoded block, the verdict's gain is within (ymult + 2 scope noise) / spread of the size of the device's gain |
| Reconstruction.CrossBound | sources/pyvisa/pyvisa_dut_validation_v1/oracle/reconstruct.py:122-125 | the verdict's cross error is at most half a code, both noises and the printing error |
| Reconstruction.OutOfLimitsFails | sources/pyvisa/pyvisa_dut_validation_v1/oracle/reconstruct.py:126-129 | every unclipped run of a device whose gain lies outside the limits by more than the measuring error is decided False |
| Reconstruction.WithinLimitsPasses | sources/pyvisa/pyvisa_dut_validation_v1/oracle/reconstruct.py:126-129 | every one of a device within the limits by that error and quiet enough is decided True, whatever the sign of its gain |
| Reconstruction.NominalPasses | sources/pyvisa/pyvisa_dut_validation_v1/oracle/reconstruct.py:126-129 | every unclipped run of the nominal world with a spread of at least 0.8 V is decided True, through the encoded block, for both number formats |
| Reconstruction.Reconstruct | sources/pyvisa/pyvisa_dut_validation_v1/oracle/reconstruct.py:102-142 | the oracle's loops compute the verdict, refuse in exactly the cases stated, and the verdict says what JudgeLaw says |
| IeeeBlock.RoundTrip | sources/pyvisa/pyvisa_dut_validation_v1/instruments.py:310-321 | every payload shorter than 10^9 codes reads back for every allowed digit count (section 8.7.9 of IEEE Std 488.2-1992) |
| IeeeBlock.OnlyBlocksAccepted | sources/pyvisa/pyvisa_dut_validation_v1/oracle/reconstruct.py:171-187 | every block the reader accepts is what the writer makes of its codes at that digit count |

## Left out

- Floating-point rounding, infinities and NaN: exact reals throughout; the program's own tolerances are kept as constants.
- SHA-256, canonical JSON text and base64: functions with stated injectivity or inverse hypotheses, or left out where only order matters.
- Sockets, threads, locks, clocks, file export and process handling: replaced by steps and parameters.
- A worker thread that does not join before the freeze's timeout: `FreezeAndClose` has the refusal, the runs of `BrokerRuns` do not, since such a service never reaches broker.frozen.
- A service that is told to stop before it binds its socket: such a run never writes socket_bound and the verifier refuses it.
- EvidenceVerifier.VerifyEvidence: the field-level checks of configuration, socket, signal, snapshot and summary records, and the journal's own hash chain, which has the shape of the one in `HashChain`.
- BrokerTheorems.RunAccepted: accepts in the sense of that model, without the field-level and chain checks.
- Projector.ProjectEvents: simulator state snapshots, clock arithmetic, payload text and the back-filling of roles; a projection that fails only for such a payload is one the model still carries out, so the verdict theorems cover every projection that succeeds.
- ProjectedJournals.ProjectsWhen: when projected sequence numbers are unique is left at that; it needs at most ten forced closes for one connection, and the program itself rejects a collision.
- The ordering constraints of partial_order.py other than active_close_all: comparisons of greatest and least positions.
- Frames.RecvMessage: the JSON text inside a frame.
- Trigonometry in pattern extents: a cutter is any well-formed box.
- The order of component volumes in the oracle's report, and its pose, joint and envelope metrics.
- Triangle distances beyond the segment pairs and surface sampling: not needed for the exactness results.
- SpatialHash.SquaredHausdorff: the mean surface distance, which averages square roots.
- Voxel.Voxelize: exactness is stated for box meshes; for other meshes the contract is the parity of crossings.
- Reconstruction.Reconstruct: the folding of recorded commands into its inputs, which is text matching.
- IeeeBlock.OnlyBlocksAccepted: a length field of plain digits; Python's int() also takes signs, blanks and underscores.
- Dispatcher.OperationDispatcher.RunHandler: argument validation, which is range and type checks, is one flag.
- JournalMarkers.FindMarkers: the flag for rejected forbidden operations, which searches a message text.
- STL text and binary parsing, watertightness and area: parse_stl is modelled from its triangle list on.
- Docker, container runners, bootstrap, command line, report schemas, scenario generation and rubric constants.
