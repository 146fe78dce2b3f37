# RunenNet delivery and QUIC adapter: a Dafny model

RunenNet moves messages between two peers. `runen-net` keeps transport-independent delivery state
(`DeliveryEndpoint`, "Core" below); `runen-net-quic` drives it from hand-written state machines over QUIC
streams, DATAGRAMs and one control stream. This project models those state machines and proves what they
keep in every run: messages of a reliable flow arrive once, in order and unaltered; the four nested resource
scopes always equal the sums over live flows; two peers agree on every flow; no prepared control frame is
lost; the negotiation and offer codecs lose nothing; and the round-robin schedulers serve a ready flow within
an exact number of calls.

`dafny verify dfyconfig.toml` checks the whole project.

## How the model is built

Each entity that the program updates in place is a class whose methods are proved equal to pure
specification functions, with the loops the program has (`DeliveryEndpoint`, `AcceptedFlowRegistry`,
`OutboundState`, `OutboundReliable`, `ReliableFrameDecoder`, `FlowIdPrefix`, `InboundFrames`,
`InboundReliable`, `FlowControl`, `ConnectionDriver`, `RoundRobin`, `DatagramSender`, `OfferDecoder`,
`BodyWriter`, `NegotiationExchange`). Theorems over whole runs are about those functions:

| files | what they hold |
|---|---|
| Wire, ControlBody, Framing, WireAnswers, Envelope | varints (section 16 of RFC 9000, with minimality required), control bodies, length-prefixed frames, DATAGRAM payloads |
| Delivery, Core, CoreInvariant, CoreHistory, CoreDiagnostics, CoreReceiver, CoreAnswers | Core without counters: usage is a sum over live flows |
| Books, DeliveryEndpoint, ConnectionEnd | Core as written, with incremental counters, refining the former |
| Registry, OutboundBinding, InboundBinding, BindingAnswers | the FlowId registry and the two stream bindings |
| SenderSide, ReceiverSide, Pipeline, PipelineExample | one reliable flow from submission to exposure |
| FlowControl, FailureReports, FlowNode, FlowAnswers | one side of the flow protocol against any peer |
| FlowPhases, FlowMoves, FlowProtocol, FlowCrossing | two sides over two FIFO control channels |
| Scheduler, Driver, DriverTurns, DriverNode, DriverReports, DriverAnswers, ConnectionDriver | round-robin service, the sole-sender driver, its turns and its reports |
| Datagram, DatagramSizes, DatagramAnswers, DatagramRun | unreliable flows over a lossy, reordering, repeating network |
| Offers, NegotiationBody, OfferCodec, OfferReader, OfferWriter, ProposalCodec, ProposalReader, CodecAnswers | negotiation bodies under a decode budget |
| Manager, Selections, Negotiation, NegotiationExchange, NegotiationAnswers, NegotiationRun, NegotiationCompletes | the manager, one exchange, two exchanges |

Sockets, futures and wakers are not modelled: a write, read, finish or send poll takes the transport's answer
as a parameter that can be anything the interface allows, and runs quantify over all answers. `usize` is 64
bits wide and shares its range with `u64`; every counter's range, saturation and checked addition is written
out. Bit operations on varints and FlowIds are written as arithmetic.

A method is proved equal to a specification function; what that function answers is then stated apart from it,
in the modules whose names end in `Answers`, in `Selections` and in `DriverTurns`: every outcome with the
condition under which it is given and the state it leaves.

## Hypotheses

The program does not give these claims unconditionally, and the theorems say so in their `Allowed`, `Legal`,
`SendAllowed` or `LegalRun` predicates.

- **One committer.** The binding is its reliable flow's only committer and only source of received data.
- **No key reuse under an old binding.** `InboundReliable::poll_step` does not look at the registry again once
  it is associated. `FailureReports.StaleBindingExactly` shows what happens otherwise: a binding whose flow is
  gone is harmless exactly if its failure path does not run or its Core key is not in use by a reliable flow;
  else it ends that other flow and reports the old FlowId. `FlowCrossing.KeyReuseHappens` reaches that state:
  FlowId 0 has been reported ended once and is reported again.
- **The host does not end an adapter-owned flow directly.**

## What the model found

- **Bypass bound.** "A ready flow is served after at most n - 1 other servings or removals" does not hold
  with `swap_remove`: with four flows and the cursor on the last, the third can wait for four
  (`Scheduler.BypassCanExceedTableSize`). The exact worst case is the distance d to the cursor, plus the number
  of entries behind the flow when d > 0 and the flow is not the first entry (`Scheduler.BypassIsBounded`,
  `Scheduler.WorstRun`). The n - 1 bound holds for every continuation exactly when the cursor has not passed the
  flow or the flow is the first entry (`Scheduler.BypassWithinTableSize`); servings alone are always within it
  (`Scheduler.ServingsAreBounded`).
- **Crossed FLOW_TERMINATE frames.** Honest peers do not always run without error
  (`FlowProtocol.CrossedTerminatesFail`); `FlowCrossing.CrossingHappens` gives a whole run from two new peers. A
  TERMINATE fails exactly when its receiver has retired that FlowId itself, and an ACCEPT exactly when the host
  uses the Core key itself or runs the connection under other limits (`FlowProtocol.HeadFrameFate`;
  `FlowCrossing.AcceptFailureHappens` gives a run in which it uses the key).
- **Eviction before a rejection.** A submission can evict the whole queue and then still be rejected for
  pressure, and `outbound_unreliable_pressure_drops` does not count it (`CoreDiagnostics.VainEvictionHappens`
  gives a reachable endpoint and a payload). Any other operation adds to the counter exactly what it evicts
  (`CoreDiagnostics.CountedExactly`, an if and only if with a condition that can be checked before the call), so
  after every run the counter is all evictions but those (`CoreDiagnostics.EveryRunCounts`). Conservation of
  accepted messages is stated with a ghost record that includes them (`CoreHistory.TrackOutbound`).

## Model

| member | source | states |
|---|---|---|
| Wire.DecodeVarintExactly | crates/runen-net-quic/src/wire.rs:90-134 | decoding succeeds with value v and length n exactly on the inputs that begin with the one minimal encoding of v |
| Wire.DecodeVarintLoop | crates/runen-net-quic/src/wire.rs:90-116 | the accumulator loop over the announced octets computes the functional decoder, errors included |
| Wire.VarintPrefixIncomplete | crates/runen-net-quic/src/wire.rs:90-116 | a proper prefix of an encoding is reported incomplete, never as another value or as malformed |
| Wire.AdmitExactlyAllocated | crates/runen-net-quic/src/wire.rs:205-255 | a peer cursor admits exactly the FlowId that the peer's own cursor allocates next, and then moves by one |
| Wire.FlowIdCursor.Allocate | crates/runen-net-quic/src/wire.rs:219-225 | issues the next FlowId of the side, once, and reports exhaustion without changing |
| Wire.FlowIdCursor.ValidateAndConsume | crates/runen-net-quic/src/wire.rs:227-246 | consumes exactly the expected FlowId of the expected side; every refusal leaves the cursor |
| ControlBody.BodyBijection | crates/runen-net-quic/src/wire.rs:302-435 | for each of the four control bodies: it decodes to a message exactly when the message is representable and this is its one encoding |
| ControlBody.ReadOpen | crates/runen-net-quic/src/wire.rs:337-351 | the reading of an OPEN body as written gives the functional decoder's result, with the same error precedence |
| WireAnswers.VarintAnswers | crates/runen-net-quic/src/wire.rs:90-134 | an input is incomplete exactly if it has fewer octets than its first one announces, and not minimal exactly if it is complete and no value has these octets as its encoding |
| WireAnswers.PublishedExamples | crates/runen-net-quic/src/wire.rs:90-134 | the four examples in appendix A.1 of RFC 9000, and the refusal of the longer form of 37 |
| WireAnswers.CodesOnTheWire | crates/runen-net-quic/src/wire.rs:302-435 | the numbers that stand for the modes and for the reasons of rejection and termination |
| WireAnswers.OpenBodyAnswers | crates/runen-net-quic/src/wire.rs:337-351 | an OPEN body is refused for an unknown mode, else for a zero maximum, else for trailing octets, and accepted exactly otherwise |
| WireAnswers.ReasonBodyAnswers | crates/runen-net-quic/src/wire.rs:360-435 | the other three bodies are refused for an unknown reason, else for trailing octets, and accepted exactly otherwise |
| Framing.ParseAppend | crates/runen-net-quic/src/reliable.rs:84-193 | parsing a stream in two pieces equals parsing it whole, errors and unfinished rest included |
| Framing.ChunkingIndependence | crates/runen-net-quic/src/reliable.rs:84-193 | any partition of a stream into chunks gives the same messages, rest and error as the whole stream |
| Framing.ParseFrames | crates/runen-net-quic/src/reliable.rs:84-235 | decoding concatenated length-prefixed payloads returns exactly those payloads with nothing left |
| Framing.ParseIsLossless | crates/runen-net-quic/src/reliable.rs:84-193 | what was parsed plus the rest encodes back to the input, so nothing is skipped or invented |
| Framing.BoundaryExactly | crates/runen-net-quic/src/reliable.rs:195-202 | finishing succeeds exactly when the stream so far is a sequence of whole frames |
| WireAnswers.FrameAnswers | crates/runen-net-quic/src/reliable.rs:84-193 | a stream is stopped at a frame exactly for an unreadable length, one over the message limit, or else one over the staging limit, and never for missing octets |
| Framing.ReliableFrameDecoder.Consume | crates/runen-net-quic/src/reliable.rs:84-193 | one call consumes up to the next message or error as the functional parser does; an error is sticky |
| Framing.ReliableFrameDecoder.Finish | crates/runen-net-quic/src/reliable.rs:195-202 | accepts the end of the stream exactly on a frame boundary |
| Framing.FlowIdPrefix.Consume | crates/runen-net-quic/src/quinn_binding.rs:702-728 | collects the stream's FlowId from any chunks, keeping what follows it for the frames |
| CoreInvariant.ApplyKeeps | crates/runen-net/src/delivery.rs:571-987 | every endpoint operation keeps: scopes other than the aggregate exist exactly if they have a flow, every usage is within its limits, queues hold consecutive indices ending below the next one, buffers hold only indices not yet exposed |
| CoreInvariant.EveryRunIsWellFormed | crates/runen-net/src/delivery.rs:512-1462 | the above after any sequence of operations from a new endpoint |
| Books.RoomFromBooks | crates/runen-net/src/delivery.rs:1350-1398 | with balanced counters, the incremental admission test over flow, connection, session and aggregate equals the test on recomputed sums |
| Books.ChargeBalances | crates/runen-net/src/delivery.rs:1400-1462 | adding or removing pending usage keeps every counter equal to the sum over its live flows |
| Books.EstablishBalances | crates/runen-net/src/delivery.rs:571-615 | establishing a flow opens its connection's scope if needed and keeps all counters equal to their sums; the unchecked additions stay in range |
| Books.AssociateBalances | crates/runen-net/src/delivery.rs:617-684 | moving a flow into a session scope keeps all counters equal to their sums |
| Books.TerminateReleasable | crates/runen-net/src/delivery.rs:930-987 | the unchecked subtractions of a termination never underflow |
| Books.TerminateBalances | crates/runen-net/src/delivery.rs:930-987 | a termination removes the flow's usage from all four scopes and drops exactly the scopes left empty |
| DeliveryEndpoints.DeliveryEndpoint.EstablishFlow | crates/runen-net/src/delivery.rs:571-615 | the call with counters gives the counter-free specification's new state and result and keeps the counters balanced |
| DeliveryEndpoints.DeliveryEndpoint.AssociateFlow | crates/runen-net/src/delivery.rs:617-684 | likewise for session association |
| DeliveryEndpoints.DeliveryEndpoint.EvictUntilRoom | crates/runen-net/src/delivery.rs:1305-1348 | the eviction loop drops the specified number of oldest entries, one at a time, and says whether the message now fits |
| DeliveryEndpoints.DeliveryEndpoint.SubmitMessage | crates/runen-net/src/delivery.rs:686-756 | new state and outcome of a submission, evictions included, as specified; counters stay balanced |
| DeliveryEndpoints.DeliveryEndpoint.CommitCustody | crates/runen-net/src/delivery.rs:793-820 | only the front message of an outbound flow can be committed, and leaves with its usage |
| DeliveryEndpoints.DeliveryEndpoint.TerminateFlow | crates/runen-net/src/delivery.rs:930-987 | removes the flow, releases its scopes and reports what was pending and whether a reliable obligation failed |
| DeliveryEndpoints.DeliveryEndpoint.ReceiveTransfer | crates/runen-net/src/delivery.rs:846-882 | new state and outcome of a received transfer in every mode |
| DeliveryEndpoints.DeliveryEndpoint.PollExposure | crates/runen-net/src/delivery.rs:884-903 | exposes what the mode allows next, as specified |
| DeliveryEndpoints.DeliveryEndpoint.PollSequenced | crates/runen-net/src/delivery.rs:1242-1303 | the stale-skipping loop terminates, removes exactly the stale prefix and counts it, and exposes the first newer message |
| CoreHistory.EvictionIsLeast | crates/runen-net/src/delivery.rs:1305-1348 | eviction drops the least number of oldest entries that makes the message fit all four scopes, and gives up exactly when no number does |
| CoreHistory.RoomIsMonotone | crates/runen-net/src/delivery.rs:1350-1398 | evicting more never takes room away |
| CoreHistory.SubmitConsumes | crates/runen-net/src/delivery.rs:686-756 | an index is consumed exactly if the message is accepted; the queue afterwards is a suffix of the old one, plus the message if accepted |
| CoreHistory.OtherKeysUntouched | crates/runen-net/src/delivery.rs:571-987 | an operation on one flow leaves every other flow exactly as it was |
| CoreHistory.EveryRunConserves | crates/runen-net/src/delivery.rs:686-820 | in every run: accepted messages carry 0, 1, 2, ... and each one is queued or has left exactly once, oldest first, as committed, evicted or lost at termination |
| CoreDiagnostics.VainEvictionIsSilent | crates/runen-net/src/delivery.rs:709-745 | a message within the flow's maximum that does not fit even with the whole evictable queue gone: the queue is emptied, the submission rejected for pressure, and every diagnostic stays as it was |
| CoreDiagnostics.CountedExactly | crates/runen-net/src/delivery.rs:686-756 | the outbound drop counter grows, saturating, by what an operation evicts exactly if the operation is not such a submission or the counter is already full |
| CoreDiagnostics.EveryRunCounts | crates/runen-net/src/delivery.rs:686-756 | after any run from a new endpoint the counter is, saturating, all outbound evictions of the run but those of such submissions |
| CoreDiagnostics.LifeGrowsByDepartures | crates/runen-net/src/delivery.rs:686-820 | the evictions counted are those recorded in the life of the operation's flow |
| CoreDiagnostics.VainEvictionHappens | crates/runen-net/src/delivery.rs:709-721 | a reachable endpoint and a payload for which one accepted message is evicted, the submission rejected, and the diagnostics unchanged |
| CoreReceiver.ReliableArrival | crates/runen-net/src/delivery.rs:1029-1090 | an arrival is buffered, suppressed as a duplicate, or ends the flow; a conflicting duplicate of an unexposed index always ends it |
| CoreReceiver.UnreliableArrival | crates/runen-net/src/delivery.rs:1092-1182 | an arrival leaves a suffix of the queue, possibly followed by the new message |
| CoreReceiver.EveryRunIsFaithful | crates/runen-net/src/delivery.rs:846-1303 | in every run, for any arrivals: reliable flows expose 0, 1, 2, ... each with its first received payload; sequenced flows expose strictly increasing indices; no flow exposes anything more often than it arrived |
| CoreAnswers.UnwelcomeArrival | crates/runen-net/src/delivery.rs:846-882 | a transfer of the wrong mode, too large, or outdated on a sequenced flow is refused as such, in this order; only the outdated one is counted, and nothing else changes |
| CoreAnswers.RoomyArrival | crates/runen-net/src/delivery.rs:1092-1182 | with room an unreliable arrival joins the end of the queue and nothing is counted |
| CoreAnswers.DroppedArrival | crates/runen-net/src/delivery.rs:1092-1182 | without room a DropIncoming flow keeps its queue as it is and counts the newcomer as one inbound drop |
| CoreAnswers.EvictingArrival | crates/runen-net/src/delivery.rs:1092-1182 | without room an EvictBuffered flow loses its n oldest entries, n the least number that makes the message fit, takes the message, and counts and reports n |
| CoreAnswers.HopelessArrival | crates/runen-net/src/delivery.rs:1092-1182 | if no number of evictions helps, such a flow loses its whole queue and the newcomer, all counted and reported |
| CoreAnswers.ArrivalRoom | crates/runen-net/src/delivery.rs:1350-1398 | there is room for an arrival exactly if the endpoint with it queued is still within every limit |
| CoreAnswers.DuplicateArrival | crates/runen-net/src/delivery.rs:1029-1090 | a reliable arrival is a duplicate exactly if it was exposed already or is buffered with the same payload, and is then only counted; a buffered one goes under its own index; a terminal one takes the flow out; there is no fourth answer |
| CoreAnswers.UnfitSubmission | crates/runen-net/src/delivery.rs:686-756 | unknown or inbound flow, message too large, indices used up: refused as such, in this order, with nothing changed |
| CoreAnswers.RoomySubmission | crates/runen-net/src/delivery.rs:686-756 | with room a message is queued under the next index without drops |
| CoreAnswers.RejectedSubmission | crates/runen-net/src/delivery.rs:686-756 | without room a RejectNew flow rejects the message and stays as it is |
| CoreAnswers.EvictingSubmission | crates/runen-net/src/delivery.rs:686-756 | without room an EvictOldest flow loses its n oldest messages, n the least number that makes the new one fit, and takes it; n is reported and counted |
| CoreAnswers.HopelessSubmission | crates/runen-net/src/delivery.rs:686-756 | if no number of evictions helps, such a flow loses its queue and rejects the message |
| CoreAnswers.SubmissionRoom | crates/runen-net/src/delivery.rs:1350-1398 | there is room for a submission exactly if the endpoint with it queued is still within every limit |
| CoreAnswers.CommitAnswers | crates/runen-net/src/delivery.rs:793-820 | custody ends exactly for the front message of a live outbound flow named by its index; each refusal has its own condition and changes nothing |
| CoreAnswers.ReliableExposure | crates/runen-net/src/delivery.rs:1184-1215 | a reliable poll exposes the message under the next index, which then advances, or nothing |
| CoreAnswers.UnorderedExposure | crates/runen-net/src/delivery.rs:1217-1240 | an unordered poll exposes the message that arrived first, which leaves the queue |
| CoreAnswers.SequencedExposure | crates/runen-net/src/delivery.rs:1242-1303 | a sequenced poll exposes the first message newer than the last one exposed; the outdated ones before it go and are counted as stale |
| CoreAnswers.EstablishAnswers | crates/runen-net/src/delivery.rs:571-615 | a flow is established exactly if its policy suits its mode, its key is new, fewer flows are live than the endpoint and the connection allow, and the connection's limits agree; each refusal has its exact condition |
| CoreAnswers.AssociateAnswers | crates/runen-net/src/delivery.rs:617-684 | a flow joins a session exactly if the session is open and its limits agree, the flow is in none, and the session with the flow in it is within them; each refusal has its exact condition |
| CoreAnswers.TerminationReport | crates/runen-net/src/delivery.rs:930-987 | a termination reports all that was held in either direction, and a failed obligation exactly for a reliable flow that held something or ended for one of the five reasons that are failures |
| CoreAnswers.TerminationScopes | crates/runen-net/src/delivery.rs:930-987 | after a termination a connection or session has limits exactly if it has a live flow, and they are unchanged |
| CoreAnswers.CustodyLossReport | crates/runen-net/src/delivery.rs:989-1002 | custody is lost exactly by a live reliable flow, whose obligation has then failed |
| ConnectionEnd.EndConnection | crates/runen-net/src/delivery.rs:1004-1027 | ends the flows of one connection in order of direction and handle |
| ConnectionEnd.ConnectionIsGone | crates/runen-net/src/delivery.rs:1004-1027 | afterwards no flow and no scope of the connection is left, every other flow is unchanged, and each ended flow was reported once, in order, with all it held and a failed obligation exactly if it was reliable and held something |
| Registry.AcceptedFlowRegistry.RegisterConsumed | crates/runen-net-quic/src/quinn_binding.rs:85-134 | registers a flow with its Core mode, or refuses it for the first reason that applies and changes nothing |
| Registry.AcceptedFlowRegistry.AssociateStream | crates/runen-net-quic/src/quinn_binding.rs:147-189 | a reliable flow is bound to one stream at most, in its own direction |
| OutboundBinding.OutboundState.NextSegment | crates/runen-net-quic/src/quinn_binding.rs:369-410 | the next octets to write: rest of the flow header, of the length, or of the payload of the front message |
| OutboundBinding.OutboundState.AdvanceBy | crates/runen-net-quic/src/quinn_binding.rs:412-471 | advances by any accepted count and commits the message exactly with its last octet |
| OutboundBinding.OutboundReliable.PollStep | crates/runen-net-quic/src/quinn_binding.rs:522-634 | one poll against any answer of the writer, as specified |
| OutboundBinding.OutboundReliable.RequestFinishNormal | crates/runen-net-quic/src/quinn_binding.rs:636-655 | a normal finish is refused while anything is unsent and asked for once |
| InboundBinding.InboundFrames.Consume | crates/runen-net-quic/src/quinn_binding.rs:776-807 | every whole message of a chunk goes to Core under the next index, as parsing the chunk after the earlier octets would give |
| InboundBinding.InboundReliable.PollStep | crates/runen-net-quic/src/quinn_binding.rs:908-1075 | one poll against any answer of the reader: association, delivery, draining, closing or failing, as specified |
| SenderSide.SendStepKeeps | crates/runen-net-quic/src/quinn_binding.rs:369-671 | whatever the writer answers and the host does, the octets written are a prefix of header and frames of the accepted messages, at the position the binding holds |
| SenderSide.PollErrorsAreExternal | crates/runen-net-quic/src/quinn_binding.rs:369-466 | a poll fails only for the writer's own answer (an error, no octet taken, or more octets claimed than were offered) or a finish requested with data pending: wrong index, not-front, too-large and an empty segment never occur |
| SenderSide.CommitAtLastOctet | crates/runen-net-quic/src/quinn_binding.rs:412-466 | a commit happens exactly when the last octet of the oldest pending message has been written |
| ReceiverSide.RecvStepKeeps | crates/runen-net-quic/src/quinn_binding.rs:776-1075 | whatever is read, in whatever chunks, Core has been given exactly the first messages of the stream, in order |
| ReceiverSide.EndIsNeverTruncated | crates/runen-net-quic/src/quinn_binding.rs:195-1022 | when the stream ends where a message ends, nothing is left half-read |
| Pipeline.ExposedIsPrefixOfAccepted | crates/runen-net-quic/src/quinn_binding.rs:347-1055 | for every interleaving of submissions, partial writes, read chunks, failures and exposures, the exposed payloads are a prefix of the accepted ones |
| Pipeline.NormalCloseIsLossless | crates/runen-net-quic/src/quinn_binding.rs:522-1055 | when both ends report a normal close, exposed and accepted payloads are equal, nothing is pending and no obligation failed |
| BindingAnswers.SendFailureEffects | crates/runen-net-quic/src/quinn_binding.rs:522-671 | a failing sending binding ends; a lost connection leaves Core and registry as they are; any other failure takes the flow out of both and keeps the report of a failed obligation |
| BindingAnswers.WriteAnswers | crates/runen-net-quic/src/quinn_binding.rs:522-634 | what each answer of the writer leads to, with the octets taken |
| BindingAnswers.FinishAnswers | crates/runen-net-quic/src/quinn_binding.rs:522-634 | a finishing binding closes exactly when the peer acknowledged and nothing is queued; each other outcome has its condition |
| BindingAnswers.ReadFailureAnswers | crates/runen-net-quic/src/quinn_binding.rs:908-1075 | a failing read ends the receiving binding, with the same distinction |
| BindingAnswers.EndAnswers | crates/runen-net-quic/src/quinn_binding.rs:908-1055 | the end of the stream is a truncation exactly before the FlowId or within a frame; otherwise the binding drains |
| BindingAnswers.DrainAnswers | crates/runen-net-quic/src/quinn_binding.rs:1024-1055 | a draining binding closes exactly when everything received has been exposed, with Core's report, or without one if the flow is gone |
| BindingAnswers.ChunkAnswers | crates/runen-net-quic/src/quinn_binding.rs:776-1022 | a chunk reports how many messages it completed, or its octets if none; an error of delivery comes before one of framing |
| BindingAnswers.AssociationAnswers | crates/runen-net-quic/src/quinn_binding.rs:908-1022 | a stream is bound to the flow it names, or ends for the registry's reason, or for a buffer below the flow's maximum |
| BindingAnswers.BindAnswers | crates/runen-net-quic/src/quinn_binding.rs:147-189 | a stream is given exactly to an unbound reliable flow of its direction; each refusal has its exact condition |
| BindingAnswers.RegisterAnswers | crates/runen-net-quic/src/quinn_binding.rs:85-134 | a flow is registered exactly if its FlowId is new and of the right side, there is capacity, and Core's flow fits the agreed maximum; each refusal has its exact condition |
| PipelineExample.NormalCloseHappens | crates/runen-net-quic/src/quinn_binding.rs:347-1055 | a run from a new flow in which a message is submitted, written in three parts, committed, read and exposed, and both ends then report a normal close |
| FlowControls.FlowControl.PrepareOutboundOpen | crates/runen-net-quic/src/flow_control.rs:323-448 | an OPEN consumes a FlowId only if every check passes, in the order of the checks |
| FlowControls.FlowControl.ReceiveFrame | crates/runen-net-quic/src/flow_control.rs:450-618 | one received frame, with the outcome, the reply it obliges and every error path as specified |
| FlowControls.FlowControl.AcceptInbound | crates/runen-net-quic/src/flow_control.rs:631-729 | admission of the pending request, with its rejections and rollbacks |
| FlowControls.FlowControl.RejectInbound | crates/runen-net-quic/src/flow_control.rs:731-771 | rejection takes the pending request, or nothing if it is not the one pending |
| FlowControls.FlowControl.TerminateLocally | crates/runen-net-quic/src/flow_control.rs:773-800 | a local end takes the registry entry and the Core flow together |
| FlowNode.CapacityNeverHit | crates/runen-net-quic/src/flow_control.rs:283-309 | whenever a flow is about to be registered the registry has room: its capacity, the sum of both limits, is never reached |
| FlowNode.AcceptOutcomes | crates/runen-net-quic/src/flow_control.rs:510-577 | an ACCEPT for a FlowId that was asked for establishes the flow, fails for Core's flow limits, or is an error exactly if the host prevents it; the registry and rollback errors never occur |
| FlowNode.AdmitOutcomes | crates/runen-net-quic/src/flow_control.rs:631-729 | admission registers the request under its own terms or refuses it; the registry and rollback errors never occur |
| FlowNode.TerminateOutcomes | crates/runen-net-quic/src/flow_control.rs:593-618 | a TERMINATE ends exactly its own flow and fails only for an unknown FlowId or a normal end of a reliable flow, touching nothing |
| FlowNode.NodeKeeps | crates/runen-net-quic/src/flow_control.rs:258-863 | every act of one side, against any peer, keeps its limits, its registry and its retired FlowIds |
| FlowNode.EveryNodeRun | crates/runen-net-quic/src/flow_control.rs:258-863 | in every run of one side: flow limits hold, every registered FlowId has a live Core flow of its mode, and each FlowId is reported terminated at most once |
| FailureReports.BindingFailureOutcomes | crates/runen-net-quic/src/reliable_driver.rs:549-589 | a failing binding of a registered flow gives exactly one report and removes the flow, with the termination if its Core flow is live and without one if an arrival ended it in the same poll; a binding whose flow is gone gives none |
| FailureReports.FlowFailureOutcomes | crates/runen-net-quic/src/flow_driver.rs:284-315 | a known flow's failure is reported once if it is still registered and is only cleaned up otherwise |
| FailureReports.StaleBindingExactly | crates/runen-net-quic/src/flow_driver.rs:492-549 | when a stale binding's failure is harmless, exactly |
| FailureReports.LateResolution | crates/runen-net-quic/src/reliable_driver.rs:566-589 | resolving the flow in the poll that fails is the same as having resolved it before |
| FlowAnswers.UnreadableFrame | crates/runen-net-quic/src/flow_control.rs:450-467 | which frames are refused unread: unrelated ones, an OPEN while another waits for the host, and malformed bodies; none changes anything |
| FlowAnswers.OpenReport | crates/runen-net-quic/src/flow_control.rs:469-508 | an OPEN in sequence is rejected with MessageLimit exactly if its maximum exceeds the local setting, otherwise with ResourceLimit exactly if the inbound limit is full, and otherwise put before the host with the frame's terms; the rejection is sent with that reason |
| FlowAnswers.StrayOpen | crates/runen-net-quic/src/flow_control.rs:469-482 | any other OPEN is refused with its exact cursor error and changes nothing |
| FlowAnswers.AcceptReport | crates/runen-net-quic/src/flow_control.rs:510-577 | an ACCEPT establishes the key and terms asked for exactly if Core has room and the host left key and limits alone; it is reported failed, and ended towards the peer, exactly for lack of room; the other two cases are errors |
| FlowAnswers.RejectReport | crates/runen-net-quic/src/flow_control.rs:579-591 | a REJECT reports the key asked for and the peer's reason |
| FlowAnswers.StrayAnswer | crates/runen-net-quic/src/flow_control.rs:510-629 | an answer to something never asked for, or of the wrong side, is refused as such and changes nothing |
| FlowAnswers.TerminateReport | crates/runen-net-quic/src/flow_control.rs:593-618 | a TERMINATE reports the registered key, mode and maximum, the frame's reason and Core's own report; it is refused exactly for an unknown FlowId or a normal end of a reliable flow |
| FlowAnswers.LocalEndReport | crates/runen-net-quic/src/flow_control.rs:773-800 | the same for an end by this side |
| FlowAnswers.DecisionTakes | crates/runen-net-quic/src/flow_control.rs:631-771 | only the pending request can be decided; a decision takes it, and a rejection carries the host's reason |
| FlowAnswers.AdmitReport | crates/runen-net-quic/src/flow_control.rs:631-729 | every outcome of an admission with its exact condition: connection, direction, policy, the host's smaller maximum, limits, key and connection limits in use, success |
| FlowAnswers.OpenAnswers | crates/runen-net-quic/src/flow_control.rs:323-448 | a request to open is granted exactly if key, policy, maximum, the peer's two settings, FlowIds and, for unreliable flows, the octets of the longest datagram allow it; a refusal is justified and changes nothing |
| FlowPhases.MovesKeepPhase | crates/runen-net-quic/src/flow_control.rs:323-800 | each FlowId goes through its phases, unissued, opening, deciding, refused, granted, settled, whatever either side does |
| FlowMoves.NodeMoves | crates/runen-net-quic/src/flow_control.rs:323-800 | every act of a side is one of those moves for each FlowId |
| FlowProtocol.StepKeeps | crates/runen-net-quic/src/flow_control.rs:323-800 | one step of either side keeps both sides' invariants, the phases, and the order of the OPENs in flight |
| FlowProtocol.PendingIsConserved | crates/runen-net-quic/src/flow_control.rs:323-591 | the FlowIds waiting for an answer are the disjoint union of OPENs in flight, the peer's pending request and answers in flight |
| FlowProtocol.EstablishedAgree | crates/runen-net-quic/src/flow_control.rs:510-729 | both ends of an established flow agree on mode and maximum message, see it in opposite directions, and nothing about it is in flight |
| FlowProtocol.HeadFrameFate | crates/runen-net-quic/src/flow_control.rs:469-629 | between two such peers OPEN and REJECT never fail, ACCEPT exactly if the host prevents it (never for a pending-flow or side check), and TERMINATE exactly if the receiver retired the FlowId itself |
| FlowProtocol.CrossedTerminatesFail | crates/runen-net-quic/src/flow_control.rs:593-618 | when both ends end a flow before either frame arrives, each of the two frames is refused as unknown by its receiver |
| FlowCrossing.CrossingHappens | crates/runen-net-quic/src/flow_control.rs:593-618 | a run of two new peers, without error until then, whose next frame is a TERMINATE that its receiver refuses |
| FlowCrossing.AcceptFailureHappens | crates/runen-net-quic/src/flow_control.rs:510-543 | a run of two new peers, without error until then, whose next frame is an ACCEPT that fails because the host established the Core key itself |
| FlowCrossing.KeyReuseHappens | crates/runen-net-quic/src/flow_driver.rs:492-549 | a run after which FlowId 0 is gone and was reported once, and a late failure of its binding ends the host's new flow under the same Core key and reports FlowId 0 again |
| FlowProtocol.EveryRunAgrees | crates/runen-net-quic/src/flow_control.rs:323-800 | in every error-free run from two new peers, for both sides: waiting FlowIds are conserved; flows held by both ends have the same terms and opposite directions with nothing in flight; and the next frame of either channel fails exactly as above |
| Scheduler.RoundRobin.DriveOnce | crates/runen-net-quic/src/datagram_driver.rs:155-202 | the polling loop serves or removes the first flow with work at or after the cursor, or finds none; cursor and table afterwards as specified |
| Scheduler.RoundRobin.Register | crates/runen-net-quic/src/datagram_driver.rs:115-153 | drops flows no longer live, keeps the others in order, and tracks the new flow once |
| Scheduler.DriveKeeps | crates/runen-net-quic/src/reliable_driver.rs:276-458 | a call keeps every tracked flow but the one it reports removed, and finds nothing only if every flow skips |
| Scheduler.DriveShortens | crates/runen-net-quic/src/datagram_driver.rs:155-202 | while a flow is ready, every call serves it or shortens its longest possible wait |
| Scheduler.BypassIsBounded | crates/runen-net-quic/src/reliable_driver.rs:357-458 | a ready flow is passed over by at most its worst wait, removals included |
| Scheduler.ServingsAreBounded | crates/runen-net-quic/src/reliable_driver.rs:357-458 | other flows are served at most as often as the distance to the cursor, hence less often than there are flows |
| Scheduler.WorstRun | crates/runen-net-quic/src/reliable_driver.rs:357-458 | the bound is reached: there are statuses under which a flow waits exactly that long |
| Scheduler.BypassWithinTableSize | crates/runen-net-quic/src/datagram_driver.rs:155-202 | waiting for at most the other tracked flows holds for every continuation exactly if the cursor has not passed the flow or it is the first entry |
| Scheduler.BypassCanExceedTableSize | crates/runen-net-quic/src/reliable_driver.rs:616-618 | four flows where one waits for four servings and removals |
| Driver.PollStepSound | crates/runen-net-quic/src/connection_driver.rs:288-353 | one poll keeps the accounts of prepared, sent, arrived and processed frames and never finds the sender busy with a prepared frame in hand |
| Driver.ServeSound | crates/runen-net-quic/src/connection_driver.rs:355-588 | a host request that finds the sender busy changes nothing; every other keeps the accounts |
| Driver.DecisionNeverPending | crates/runen-net-quic/src/connection_driver.rs:1170-1177 | deferral keeps a second OPEN from being processed while a decision is pending |
| Driver.NothingIsLost | crates/runen-net-quic/src/connection_driver.rs:623-759 | in every run, until the driver ends: each prepared frame is sent in order or being sent, each arrived frame is processed once in order or held back; at the end at most one of each is left |
| Driver.SenderIsAlwaysFree | crates/runen-net-quic/src/connection_driver.rs:1085-1118 | no poll in any run reports a busy sender for a prepared frame |
| DriverTurns.TurnIsServed | crates/runen-net-quic/src/connection_driver.rs:288-353 | a poll serves the first category with something to do, counting from the cursor, and that category then comes after all seven others |
| DriverTurns.IdlePollTurns | crates/runen-net-quic/src/connection_driver.rs:318-353 | a poll that finds nothing brings every category but the first one step nearer |
| DriverTurns.ReceiveGoesAhead | crates/runen-net-quic/src/connection_driver.rs:304-316 | the exception: after a clean close by the peer a frame that can be received is served ahead, and the rotation then begins at category 2 |
| DriverTurns.WaitShortens | crates/runen-net-quic/src/connection_driver.rs:318-353 | while a category has something to do, a poll serves it or shortens its distance to the cursor |
| DriverTurns.ServedWithinEight | crates/runen-net-quic/src/connection_driver.rs:288-353 | a category that has something to do throughout eight polls is served by one of them, from any cursor |
| DriverAnswers.SendAnswers | crates/runen-net-quic/src/connection_driver.rs:623-646 | the end of a send frees the sender and is reported with its frame; a failed send ends the driver |
| DriverAnswers.BindingFailureAnswer | crates/runen-net-quic/src/connection_driver.rs:1041-1083 | a failing binding of a registered flow sends one TERMINATE with the FlowId and reason given and the flow is gone; of a flow already gone nothing is sent |
| DriverAnswers.FlowFailureAnswer | crates/runen-net-quic/src/connection_driver.rs:1041-1083 | the same for a flow that fails by its FlowId |
| DriverAnswers.ArrivalAnswer | crates/runen-net-quic/src/connection_driver.rs:931-998 | an arrival that ends its flow in Core is reported to the peer under its FlowId and reason |
| DriverAnswers.FrameAnswer | crates/runen-net-quic/src/connection_driver.rs:703-815 | a processed frame ends the driver with its own error, has its reply sent, or is told to the host |
| DriverAnswers.NoMemoryAnswer | crates/runen-net-quic/src/connection_driver.rs:761-815 | an accepted flow that there is no memory for is ended at once, with ResourceFailure |
| DriverAnswers.UnavailableAnswer | crates/runen-net-quic/src/connection_driver.rs:1120-1122 | no request is served by a driver that ended or whose sender is busy, and which of the two is reported |
| DriverAnswers.OpenRequestAnswer | crates/runen-net-quic/src/connection_driver.rs:355-377 | a request to open sends the OPEN exactly if it can be granted; only a transport without datagrams ends the driver |
| DriverAnswers.DecisionAnswer | crates/runen-net-quic/src/connection_driver.rs:379-431 | a decision sends its own frame; a request that is not pending changes nothing; other errors end the driver |
| DriverAnswers.AdmissionAnswer | crates/runen-net-quic/src/connection_driver.rs:379-431 | a reliable request that the stream buffer cannot hold is rejected for resources, whatever the host decided |
| DriverAnswers.FinishAnswer | crates/runen-net-quic/src/connection_driver.rs:441-478 | a normal finish of an unreliable flow sends TERMINATE with Normal and the flow is gone |
| DriverNode.PollStepKeepsNode | crates/runen-net-quic/src/connection_driver.rs:288-353 | a poll, with any data arrivals, transfers, associations, closes and failures in it, is a run of acts of one side whose frames are the frames it prepares: the side's invariant is kept, each FlowId is still ended at most once, preparing a failure report never fails, and no rollback error is reported |
| DriverNode.ServeKeepsNode | crates/runen-net-quic/src/connection_driver.rs:355-588 | the same for host requests |
| DriverNode.EveryDriverRun | crates/runen-net-quic/src/connection_driver.rs:288-1139 | in every run of polls, requests and host operations on Core: each FlowId has at most one termination-carrying outcome, also after the driver ended; while it is active, its state is reached by a run of acts from a new side whose frames are exactly the frames prepared, in order |
| DriverReports.OneReportPerFlow | crates/runen-net-quic/src/connection_driver.rs:288-1139 | in every run of a driver at most one FLOW_TERMINATE is prepared for each FlowId, and each belongs to a recorded outcome of that FlowId |
| ConnectionDrivers.ConnectionDriver.PollOnce | crates/runen-net-quic/src/connection_driver.rs:288-353 | the rotation loop over the eight categories computes the specified step, cursor included; a data category's effects on Core, registry, reports and sender are carried out one by one as specified |
| ConnectionDrivers.ConnectionDriver.PollControlReceive | crates/runen-net-quic/src/connection_driver.rs:648-720 | receives, defers or processes one control frame as specified |
| ConnectionDrivers.ConnectionDriver.StartPreparedSend | crates/runen-net-quic/src/connection_driver.rs:1085-1118 | hands a prepared frame to the free sender, else ends the driver |
| ConnectionDrivers.ConnectionDriver.FailBinding | crates/runen-net-quic/src/connection_driver.rs:1041-1083 | classifies and carries out a binding failure as specified |
| ConnectionDrivers.ConnectionDriver.Request | crates/runen-net-quic/src/connection_driver.rs:355-588 | host requests touch nothing unless the sender is free |
| Envelope.EnvelopeBijection | crates/runen-net-quic/src/datagram.rs:402-531 | a datagram decodes to FlowId, sequence and payload exactly when it is their one encoding |
| Envelope.LengthIsExact | crates/runen-net-quic/src/datagram.rs:354-424 | the computed length is the encoded length, and both fail together |
| Envelope.PreflightDominates | crates/runen-net-quic/src/flow_control.rs:372-386 | the check made when a flow opens bounds every later message of the flow |
| Datagrams.DatagramSender.SubmitMessage | crates/runen-net-quic/src/datagram.rs:169-226 | a submission with its checks in order, as specified |
| Datagrams.DatagramSender.DriveFlow | crates/runen-net-quic/src/datagram.rs:228-312 | one drive of a flow's oldest message, as specified, counting transport drops with saturation |
| Datagrams.ReceiveOne | crates/runen-net-quic/src/datagram.rs:468-531 | a received datagram goes to its flow's Core key, or is discarded or refused as specified |
| Datagrams.SubmissionOutcomes | crates/runen-net-quic/src/datagram.rs:169-226 | a submission is one Core submission or changes nothing; the accepted index never mismatches and fits a varint on sequenced flows |
| Datagrams.DriveOutcomes | crates/runen-net-quic/src/datagram.rs:228-312 | a drive hands over at most the one encoding of the front message, which leaves the queue with it; a message leaves only by being handed over or dropped for its size |
| Datagrams.SizeNeverRejects | crates/runen-net-quic/src/datagram.rs:169-312 | for any registry and Core state: while the datagram size is at least the length checked at opening, no submission is refused and no message dropped for its size unless the transport refuses a size it announced |
| DatagramRun.StepIsTheAdapter | crates/runen-net-quic/src/datagram.rs:169-531 | the steps of the network model are the adapter's own functions |
| DatagramRun.ExposedWasAccepted | crates/runen-net-quic/src/datagram.rs:169-531 | under any loss, repetition and reordering: every exposed message was accepted by the sender, on sequenced flows under the same index and in strictly increasing order |
| DatagramSizes.OpenedFlowsFit | crates/runen-net-quic/src/flow_control.rs:372-386 | in every error-free run of a side: if a flow was opened under a datagram size, no submission to it is refused and no message of it dropped for its size while the size stays at least that; the check made at opening is all that is needed |
| DatagramAnswers.UnusableSubmission | crates/runen-net-quic/src/datagram.rs:169-254 | an unknown, inbound or reliable flow takes no datagram submission or drive, and which of the three is reported |
| DatagramAnswers.SubmissionAnswers | crates/runen-net-quic/src/datagram.rs:169-226 | a submission is refused for its size exactly if its octets exceed the datagram size; every other outcome has its condition, and the rest is Core's own outcome |
| DatagramAnswers.UnsendableDrive | crates/runen-net-quic/src/datagram.rs:228-275 | an empty queue is idle; a message that cannot be put in a datagram stays and is an error |
| DatagramAnswers.DriveAnswers | crates/runen-net-quic/src/datagram.rs:228-312 | the oldest message is handed over exactly if it fits size and free buffer at both readings and the transport takes it, dropped exactly if it exceeds the size at either reading or is found too large, and waits exactly for free buffer |
| DatagramAnswers.MisdirectedDatagram | crates/runen-net-quic/src/datagram.rs:468-505 | an unreadable FlowId is a fault, an unregistered one discards the datagram, an outbound or reliable flow is a fault of that flow |
| DatagramAnswers.DatagramArrives | crates/runen-net-quic/src/datagram.rs:468-531 | a message in its encoding reaches exactly its flow in Core, under its index on a sequenced flow, unless it exceeds the flow's maximum |
| OfferCodec.OfferBijection | crates/runen-net-quic/src/negotiation.rs:579-684 | a body decodes to an offer exactly if the offer is unlabelled, within the count limits, its accounting size within the budget, and the body its one encoding |
| OfferCodec.OfferRoundTrip | crates/runen-net-quic/src/negotiation.rs:579-684 | an offer that encodes decodes back to itself exactly if it is within the receiver's limits |
| OfferCodec.AcceptedBodyEncodesAgain | crates/runen-net-quic/src/negotiation.rs:579-684 | an accepted body encodes again to the same octets |
| OfferCodec.OfferLengthIsExact | crates/runen-net-quic/src/negotiation.rs:795-811 | the length computed up front is the encoded length |
| OfferCodec.SchemasCost | crates/runen-net/src/protocol.rs:724-754 | what the decoder charges for schemas is their share of the manager's accounting size |
| OfferReaders.OfferDecoder.Decode | crates/runen-net-quic/src/negotiation.rs:619-684 | the nested decoding loops compute the functional decoder, errors and their order included |
| OfferReaders.DecodeBudget.ChargeItems | crates/runen-net-quic/src/negotiation.rs:832-864 | a charge is refused, changing nothing, exactly when it would exceed the limit |
| OfferWriters.OfferBodyLen | crates/runen-net-quic/src/negotiation.rs:795-830 | the checked length is the exact length, or none when a count or the length does not fit |
| OfferWriters.EncodeOfferBody | crates/runen-net-quic/src/negotiation.rs:579-617 | the writing loops produce the offer's encoding, within the frame limit |
| ProposalCodec.ProposalRoundTrip | crates/runen-net-quic/src/negotiation.rs:686-776 | in whatever order a contract is written, it decodes to that contract, exactly if it is within the receiver's limits |
| ProposalCodec.ProposalBijection | crates/runen-net-quic/src/negotiation.rs:710-776 | a body decodes to a contract exactly if the contract is within the limits and the body writes it in some order without repetition |
| ProposalReaders.ProposalDecoder.Decode | crates/runen-net-quic/src/negotiation.rs:710-776 | the decoding loops compute the functional decoder, with repetitions refused as they are read |
| ProposalReaders.EncodeProposalBody | crates/runen-net-quic/src/negotiation.rs:686-708 | iterating the sets in any order writes one of the contract's encodings |
| CodecAnswers.OfferBodyAnswers | crates/runen-net-quic/src/negotiation.rs:619-684 | a body that begins with an offer's encoding gives the offer, trailing octets, or a malformed offer exactly if the offer is over a limit |
| CodecAnswers.ProposalBodyAnswers | crates/runen-net-quic/src/negotiation.rs:710-776 | a body written as a proposal gives the contract, or exceeds the resources, or is an invalid selection exactly for a repetition, whichever comes first in it |
| CodecAnswers.AccountingIsEncoding | crates/runen-net/src/protocol.rs:724-754 | an offer's accounting size is the length of its encoding without the counts |
| Negotiation.FailureRoundTrip | crates/runen-net-quic/src/negotiation.rs:569-577 | a failure report decodes to its outcome |
| Managers.ProposeKeeps | crates/runen-net/src/protocol.rs:593-675 | an accepted proposal suits both offers, includes what both and the host require, and keeps the manager's invariant |
| Managers.ValidateKeeps | crates/runen-net/src/protocol.rs:922-942 | validation, and promotion by the second one, keep the reserved bytes equal to three offers per attempt plus the established contracts |
| Managers.TerminateKeeps | crates/runen-net/src/protocol.rs:971-986 | termination releases exactly the connection's reservation |
| Managers.StartKeeps | crates/runen-net/src/protocol.rs:864-888 | a started attempt has two valid offers and its reservation fits |
| Selections.StartAnswers | crates/runen-net/src/protocol.rs:864-888 | an attempt starts exactly if the connection is new, there is room for it and its reservation, both offers are valid, some protocol is in both, and each offers what the other requires; each refusal has its exact condition |
| Selections.ProposeAnswers | crates/runen-net/src/protocol.rs:557-675 | a proposal is accepted exactly if the attempt waits for one, the contract is within the limits, suits both offers and selects what the host requires; each refusal has its exact condition |
| Selections.ValidateAnswers | crates/runen-net/src/protocol.rs:922-942 | a validation counts exactly if something was proposed; the second of the two establishes the contract proposed |
| Negotiation.LeaveSound | crates/runen-net-quic/src/negotiation.rs:475-536 | every path into failure releases what the manager holds for the connection, once: a second one finds nothing to release |
| Negotiation.ReceiveSound | crates/runen-net-quic/src/negotiation.rs:264-449 | whatever frame arrives: the exchange owns exactly what the manager holds, other connections are untouched, manager-state and unexpected-status errors never occur, and a failure leaves nothing behind |
| Negotiation.ProposeAuthoritySound | crates/runen-net-quic/src/negotiation.rs:209-262 | the same for a proposal, which sends one encoding of the contract |
| Negotiation.PrepareOfferSound | crates/runen-net-quic/src/negotiation.rs:177-207 | the same for an offer |
| NegotiationAnswers.OfferAnswer | crates/runen-net-quic/src/negotiation.rs:312-348 | an offer is taken exactly if the manager has room, both offers are valid and they are compatible; otherwise the outcome reported has its exact condition |
| NegotiationAnswers.ProposalAnswer | crates/runen-net-quic/src/negotiation.rs:350-380 | a proposal is validated exactly if it is acceptable; otherwise the outcome reported has its condition |
| NegotiationAnswers.ProposingAnswer | crates/runen-net-quic/src/negotiation.rs:209-262 | the authority proposes exactly in its turn, with an acceptable contract whose body fits a frame; otherwise the error has its condition |
| NegotiationAnswers.OtherFramesAnswer | crates/runen-net-quic/src/negotiation.rs:264-300 | a frame that the state does not expect fails the exchange with both named; a failure report ends it with the peer's outcome |
| NegotiationAnswers.AcknowledgementAnswer | crates/runen-net-quic/src/negotiation.rs:382-431 | an acknowledgement in its place completes the exchange exactly if it is empty |
| NegotiationAnswers.OfferingAnswer | crates/runen-net-quic/src/negotiation.rs:177-207 | an offer goes out exactly if nothing happened before, it is valid and unlabelled, and its body fits a frame |
| NegotiationExchanges.NegotiationExchange.ReceiveFrame | crates/runen-net-quic/src/negotiation.rs:264-449 | the exchange in place, over a manager in place, computes the specified step |
| NegotiationExchanges.NegotiationExchange.ProposeAuthority | crates/runen-net-quic/src/negotiation.rs:209-262 | the same for proposing |
| NegotiationExchanges.NegotiationExchange.PrepareOffer | crates/runen-net-quic/src/negotiation.rs:177-207 | the same for offering |
| NegotiationRun.OfferArrives | crates/runen-net-quic/src/negotiation.rs:312-348 | an offer that the peer decodes is the offer that was sent |
| NegotiationRun.ContractArrives | crates/runen-net-quic/src/negotiation.rs:350-380 | a contract that the peer decodes is the contract that was proposed |
| NegotiationRun.AgreementHolds | crates/runen-net-quic/src/negotiation.rs:177-537 | in every run of two exchanges: the non-authority is established only after the authority was, on the contract proposed and validated, which suits both offers; a failed side holds nothing in its manager |
| NegotiationCompletes.AgreementExactly | crates/runen-net-quic/src/negotiation.rs:177-449 | two new exchanges that take their turns end with both established exactly if each offer may be sent, at both ends the offers are valid and compatible and there is room, and at both ends the contract is within the limits, suits both offers and gives the host what it requires |
| NegotiationCompletes.AgreementHappens | crates/runen-net-quic/src/negotiation.rs:1376-1444 | offers with one protocol in common, though not all, lead to both sides established |

## Left out

- The QUIC library, TLS, sockets, wakers, futures and async framing: `endpoint.rs`, `lifecycle.rs` and `control.rs` of `runen-net-quic` are not part of this model. Settings are a plain record and the control stream is a FIFO of frames.
- The public wrappers `facade.rs`, `public_connection.rs`, `public_flow.rs` and `lib.rs`, error display, close codes and reset codes: each is settled by reading one branch.
- Allocation failure: reserving memory always succeeds, except that routing an established flow may fail for memory in `Driver.RouteEstablished`.
- The order of termination codes sent to the peer's stream (`reset_reliable`, `stop_reliable`): the codes carry no state.
- Which effects a data poll of the driver has is an answer: `Driver.PollData` takes any sequence of stream associations, Core transfers, arrivals, closes and failures that the hypotheses allow, and carries them out on Core, registry and reports. That the bindings themselves produce such effects is `SenderSide`, `ReceiverSide` and `Datagrams`; their octet positions are not part of the driver's state.
- The order in which failing host requirements are noticed when several fail at once: the program iterates hash sets, `Managers.SelectionError` prefers an unavailable entry over an unselected one.
- Which rule an invalid offer breaks: `Managers.ValidOffer` is one predicate, since every such error becomes the same outcome. A diagnostic label's length is counted in characters.
- The manager's connections other than the exchange's own change only between operations; both managers of `NegotiationRun` serve one exchange each.
- The profile's SETTINGS body, `IncarnationRegistry`, `ConnectionSlots`, sessions, replication and input: they would only add easy members.
- Driver.NothingIsLost: a frame counts as sent when the control sender reports completion; whether the peer reads it is the transport's matter.
- Scheduler.BypassIsBounded: no flow is registered meanwhile; registration drops dead flows and renumbers the others.
- Pipeline.NormalCloseIsLossless: it says nothing about when a close comes, since the transport may stay silent for ever.
