/** Messages of unreliable flows as DATAGRAMs: submission, the drive of one message, and reception. */
module Datagrams {
  import opened Basics
  import opened Wire
  import opened Delivery
  import opened Core
  import opened CoreInvariant
  import opened CoreHistory
  import opened DeliveryEndpoints
  import opened Registry
  import opened Envelope

  datatype UseError = UnknownFlowId | NotOutbound | ReliableFlow

  function UsableOutbound(reg: Flows, id: FlowId): Result<RegisteredFlow, UseError> {
    if id !in reg then Err(UseError.UnknownFlowId)
    else if !reg[id].key.direction.Outbound? then Err(NotOutbound)
    else if reg[id].mode.ReliableOrdered? then Err(ReliableFlow)
    else Ok(reg[id])
  }

  datatype Submission =
    | Submitted(index: u64, drops: nat)
    | MessageTooLarge
    | Pressure
    | CounterExhausted
    | TransportUnavailable
    | ExceedsDatagramSize

  datatype SubmissionError =
    | CannotUse(useError: UseError)
    | SubmitCore(opError: OpError)
    | SubmitEnvelope(envelopeError: EnvelopeError)
    | AcceptedIndexMismatch(expected: u64, accepted: u64)

  /** The sequence number the next accepted message would carry. */
  function Candidate(ep: Endpoint, key: FlowKey): Result<Option<u64>, OpError> {
    if key !in ep.flows then Err(UnknownFlow)
    else if !key.direction.Outbound? then Err(OpError.WrongDirection)
    else Ok(ep.flows[key].nextIndex)
  }

  ghost function CoreSubmission(ep: Endpoint, key: FlowKey, payload: seq<u8>, candidate: Option<u64>): (Endpoint, Result<Submission, SubmissionError>) {
    var r := Submit(ep, key, payload);
    match r.1
    case Err(e) => (r.0, Err(SubmitCore(e)))
    case Ok(Accepted(index, drops)) =>
      if candidate.Some? && candidate.value != index then (r.0, Err(AcceptedIndexMismatch(candidate.value, index))) else (r.0, Ok(Submitted(index, drops)))
    case Ok(RejectedTooLarge) => (r.0, Ok(MessageTooLarge))
    case Ok(RejectedPressure) => (r.0, Ok(Pressure))
    case Ok(RejectedCounterExhausted) => (r.0, Ok(CounterExhausted))
  }

  ghost function SizedSubmission(ep: Endpoint, id: FlowId, flow: RegisteredFlow, payload: seq<u8>, candidate: Option<u64>, maxSize: Option<nat>)
    : (Endpoint, Result<Submission, SubmissionError>)
  {
    match DatagramLen(id, flow.mode, candidate, |payload|)
    case Err(e) => (ep, Err(SubmitEnvelope(e)))
    case Ok(length) =>
      if maxSize.None? then (ep, Ok(TransportUnavailable))
      else if length > maxSize.value then (ep, Ok(ExceedsDatagramSize))
      else CoreSubmission(ep, flow.key, payload, candidate)
  }

  ghost function SubmitDatagram(reg: Flows, ep: Endpoint, id: FlowId, payload: seq<u8>, maxSize: Option<nat>)
    : (Endpoint, Result<Submission, SubmissionError>)
  {
    match UsableOutbound(reg, id)
    case Err(e) => (ep, Err(CannotUse(e)))
    case Ok(flow) =>
      if |payload| > flow.maxMessageBytes then (ep, Ok(MessageTooLarge))
      else if flow.mode.UnreliableUnordered? then SizedSubmission(ep, id, flow, payload, None, maxSize)
      else match Candidate(ep, flow.key)
        case Err(e) => (ep, Err(SubmitCore(e)))
        case Ok(None) => (ep, Ok(CounterExhausted))
        case Ok(Some(index)) => SizedSubmission(ep, id, flow, payload, Some(index), maxSize)
  }

  // ---------------------------------------------------------------- driving one message

  datatype TrySend = SendTaken | SendTooLarge | SendUnsupported | SendConnectionLost

  /** What the transport reports during one drive: its sizes are read again right before the handoff. */
  datatype Transport = Transport(maxSize: Option<nat>, space: nat, maxAtSend: Option<nat>, spaceAtSend: nat, outcome: TrySend)

  datatype SendProgress =
    | Idle
    | BlockedNativeBuffer(needed: nat, available: nat)
    | Enqueued(index: u64)
    | DroppedTransport(index: u64)

  datatype SendError =
    | SendCannotUse(useError: UseError)
    | SendCore(opError: OpError)
    | SendCustody(custodyError: CustodyError)
    | SendEnvelope(envelopeError: EnvelopeError)
    | ModeMismatch
    | PayloadExceedsProfile
    | ProfileUnavailable
    | ConnectionLost

  /** The state after a drive, its result, and the datagram handed to the network. */
  datatype Drive = Drive(ep: Endpoint, result: Result<SendProgress, SendError>, handed: Option<seq<u8>>)

  function SequenceFor(mode: Mode, t: Transfer): Option<u64> {
    if mode.UnreliableSequenced? then Some(t.index) else None
  }

  function CommitFront(ep: Endpoint, key: FlowKey, index: u64, done: SendProgress, handed: Option<seq<u8>>): Drive {
    var r := Commit(ep, key, index);
    Drive(r.0, match r.1 case Err(e) => Err(SendCustody(e)) case Ok(_) => Ok(done), handed)
  }

  function HandOff(ep: Endpoint, key: FlowKey, index: u64, datagram: seq<u8>, tx: Transport): Drive {
    if tx.maxAtSend.None? then Drive(ep, Err(ProfileUnavailable), None)
    else if |datagram| > tx.maxAtSend.value then CommitFront(ep, key, index, DroppedTransport(index), None)
    else if |datagram| > tx.spaceAtSend then Drive(ep, Ok(BlockedNativeBuffer(|datagram|, tx.spaceAtSend)), None)
    else match tx.outcome
      case SendTaken => CommitFront(ep, key, index, Enqueued(index), Some(datagram))
      case SendTooLarge => CommitFront(ep, key, index, DroppedTransport(index), None)
      case SendUnsupported => Drive(ep, Err(ProfileUnavailable), None)
      case SendConnectionLost => Drive(ep, Err(ConnectionLost), None)
  }

  function DriveFront(ep: Endpoint, id: FlowId, flow: RegisteredFlow, t: Transfer, tx: Transport): Drive {
    if t.mode != flow.mode then Drive(ep, Err(ModeMismatch), None)
    else if |t.payload| > flow.maxMessageBytes then Drive(ep, Err(PayloadExceedsProfile), None)
    else match DatagramLen(id, flow.mode, SequenceFor(flow.mode, t), |t.payload|)
      case Err(e) => Drive(ep, Err(SendEnvelope(e)), None)
      case Ok(length) =>
        if tx.maxSize.None? then Drive(ep, Err(ProfileUnavailable), None)
        else if length > tx.maxSize.value then CommitFront(ep, flow.key, t.index, DroppedTransport(t.index), None)
        else if length > tx.space then Drive(ep, Ok(BlockedNativeBuffer(length, tx.space)), None)
        else match EncodeDatagram(id, flow.mode, SequenceFor(flow.mode, t), t.payload)
          case Err(e) => Drive(ep, Err(SendEnvelope(e)), None)
          case Ok(datagram) => HandOff(ep, flow.key, t.index, datagram, tx)
  }

  function DriveOne(reg: Flows, ep: Endpoint, id: FlowId, tx: Transport): Drive {
    match UsableOutbound(reg, id)
    case Err(e) => Drive(ep, Err(SendCannotUse(e)), None)
    case Ok(flow) =>
      match PeekOutbound(ep, flow.key)
      case Err(e) => Drive(ep, Err(SendCore(e)), None)
      case Ok(None) => Drive(ep, Ok(Idle), None)
      case Ok(Some(t)) => DriveFront(ep, id, flow, t, tx)
  }

  // ---------------------------------------------------------------- receiving

  datatype Received = DiscardedUnknownFlow | ToCore(key: FlowKey, outcome: ReceiveOutcome)

  datatype ReceiveFault =
    | FaultyVarint(varintError: VarintError)
    | NotInbound
    | ReceivedReliable
    | ReceivedTooLarge
    | ReceiveCore(opError: OpError)

  /** A failure carries the FlowId once it is resolved. */
  datatype ReceiveFailure = ReceiveFailure(id: Option<FlowId>, fault: ReceiveFault)

  ghost function ReceiveDatagram(reg: Flows, ep: Endpoint, datagram: seq<u8>): (Endpoint, Result<Received, ReceiveFailure>) {
    match DecodeVarint(datagram)
    case Err(e) => (ep, Err(ReceiveFailure(None, FaultyVarint(e))))
    case Ok((id, _)) =>
      if id !in reg then (ep, Ok(DiscardedUnknownFlow))
      else if !reg[id].key.direction.Inbound? then (ep, Err(ReceiveFailure(Some(id), NotInbound)))
      else if reg[id].mode.ReliableOrdered? then (ep, Err(ReceiveFailure(Some(id), ReceivedReliable)))
      else match DecodeEnvelope(datagram, reg[id].mode)
        case Err(e) => (ep, Err(ReceiveFailure(Some(id), FaultyVarint(e))))
        case Ok((_, sequence, payload)) => ReceiveMessage(ep, id, reg[id], sequence, payload)
  }

  ghost function ReceiveMessage(ep: Endpoint, id: FlowId, flow: RegisteredFlow, sequence: Option<u64>, payload: seq<u8>)
    : (Endpoint, Result<Received, ReceiveFailure>)
  {
    if |payload| > flow.maxMessageBytes then (ep, Err(ReceiveFailure(Some(id), ReceivedTooLarge)))
    else
      var r := ReceivePayload(ep, flow.key, if sequence.Some? then sequence.value else 0, payload);
      match r.1
      case Err(e) => (r.0, Err(ReceiveFailure(Some(id), ReceiveCore(e))))
      case Ok(outcome) => (r.0, Ok(ToCore(flow.key, outcome)))
  }

  // ---------------------------------------------------------------- the submitter in place

  class DatagramSender {
    var transportDrops: usize

    constructor ()
      ensures transportDrops == 0
    {
      transportDrops := 0;
    }

    method SubmitMessage(endpoint: DeliveryEndpoint, registry: AcceptedFlowRegistry, id: FlowId, payload: seq<u8>, maxSize: Option<nat>)
      returns (r: Result<Submission, SubmissionError>)
      requires endpoint.Valid()
      modifies endpoint
      ensures endpoint.Valid() && (endpoint.model, r) == SubmitDatagram(registry.flows, old(endpoint.model), id, payload, maxSize)
    {
      hide Submit, WellFormed;
      var usable := UsableOutbound(registry.flows, id);
      if usable.Err? {
        return Err(CannotUse(usable.error));
      }
      var flow := usable.value;
      if |payload| > flow.maxMessageBytes {
        return Ok(MessageTooLarge);
      }
      var candidate: Option<u64> := None;
      if flow.mode.UnreliableSequenced? {
        var next := endpoint.NextAcceptedIndex(flow.key);
        match next {
          case Err(e) => return Err(SubmitCore(e));
          case Ok(None) => return Ok(CounterExhausted);
          case Ok(index) => candidate := index;
        }
      }
      var length := DatagramLen(id, flow.mode, candidate, |payload|);
      if length.Err? {
        return Err(SubmitEnvelope(length.error));
      }
      if maxSize.None? {
        return Ok(TransportUnavailable);
      }
      if length.value > maxSize.value {
        return Ok(ExceedsDatagramSize);
      }
      var outcome := endpoint.SubmitMessage(flow.key, payload);
      match outcome {
        case Err(e) => return Err(SubmitCore(e));
        case Ok(Accepted(index, drops)) =>
          if candidate.Some? && candidate.value != index {
            return Err(AcceptedIndexMismatch(candidate.value, index));
          }
          return Ok(Submitted(index, drops));
        case Ok(RejectedTooLarge) => return Ok(MessageTooLarge);
        case Ok(RejectedPressure) => return Ok(Pressure);
        case Ok(RejectedCounterExhausted) => return Ok(CounterExhausted);
      }
    }

    /** Drive the oldest message of one flow to the transport. */
    method DriveFlow(endpoint: DeliveryEndpoint, registry: AcceptedFlowRegistry, id: FlowId, tx: Transport)
      returns (r: Result<SendProgress, SendError>, handed: Option<seq<u8>>)
      requires endpoint.Valid()
      modifies this, endpoint
      ensures endpoint.Valid() && Drive(endpoint.model, r, handed) == DriveOne(registry.flows, old(endpoint.model), id, tx)
      ensures transportDrops == if r.Ok? && r.value.DroppedTransport? then SaturatingAdd(old(transportDrops), 1) else old(transportDrops)
    {
      hide Commit, WellFormed;
      handed := None;
      var usable := UsableOutbound(registry.flows, id);
      if usable.Err? {
        r := Err(SendCannotUse(usable.error));
        return;
      }
      var flow := usable.value;
      var front := endpoint.Peek(flow.key);
      if front.Err? {
        r := Err(SendCore(front.error));
        return;
      }
      if front.value.None? {
        r := Ok(Idle);
        return;
      }
      var t := front.value.value;
      if t.mode != flow.mode {
        r := Err(ModeMismatch);
        return;
      }
      if |t.payload| > flow.maxMessageBytes {
        r := Err(PayloadExceedsProfile);
        return;
      }
      var sequence := SequenceFor(flow.mode, t);
      var length := DatagramLen(id, flow.mode, sequence, |t.payload|);
      if length.Err? {
        r := Err(SendEnvelope(length.error));
        return;
      }
      if tx.maxSize.None? {
        r := Err(ProfileUnavailable);
        return;
      }
      if length.value > tx.maxSize.value {
        r := DropTransport(endpoint, flow.key, t.index);
        return;
      }
      if length.value > tx.space {
        r := Ok(BlockedNativeBuffer(length.value, tx.space));
        return;
      }
      var encoded := EncodeDatagram(id, flow.mode, sequence, t.payload);
      if encoded.Err? {
        r := Err(SendEnvelope(encoded.error));
        return;
      }
      r, handed := HandToTransport(endpoint, flow.key, t.index, encoded.value, tx);
    }

    method HandToTransport(endpoint: DeliveryEndpoint, key: FlowKey, index: u64, datagram: seq<u8>, tx: Transport)
      returns (r: Result<SendProgress, SendError>, handed: Option<seq<u8>>)
      requires endpoint.Valid()
      modifies this, endpoint
      ensures endpoint.Valid() && Drive(endpoint.model, r, handed) == HandOff(old(endpoint.model), key, index, datagram, tx)
      ensures transportDrops == if r.Ok? && r.value.DroppedTransport? then SaturatingAdd(old(transportDrops), 1) else old(transportDrops)
    {
      hide Commit, WellFormed;
      handed := None;
      if tx.maxAtSend.None? {
        r := Err(ProfileUnavailable);
        return;
      }
      if |datagram| > tx.maxAtSend.value {
        r := DropTransport(endpoint, key, index);
        return;
      }
      if |datagram| > tx.spaceAtSend {
        r := Ok(BlockedNativeBuffer(|datagram|, tx.spaceAtSend));
        return;
      }
      match tx.outcome {
        case SendTaken =>
          handed := Some(datagram);
          var committed := endpoint.CommitCustody(key, index);
          match committed {
            case Err(e) => r := Err(SendCustody(e));
            case Ok(_) => r := Ok(Enqueued(index));
          }
        case SendTooLarge => r := DropTransport(endpoint, key, index);
        case SendUnsupported => r := Err(ProfileUnavailable);
        case SendConnectionLost => r := Err(ConnectionLost);
      }
    }

    method DropTransport(endpoint: DeliveryEndpoint, key: FlowKey, index: u64) returns (r: Result<SendProgress, SendError>)
      requires endpoint.Valid()
      modifies this, endpoint
      ensures endpoint.Valid() && Drive(endpoint.model, r, None) == CommitFront(old(endpoint.model), key, index, DroppedTransport(index), None)
      ensures transportDrops == if r.Ok? then SaturatingAdd(old(transportDrops), 1) else old(transportDrops)
    {
      hide Commit, WellFormed;
      var committed := endpoint.CommitCustody(key, index);
      if committed.Err? {
        return Err(SendCustody(committed.error));
      }
      transportDrops := SaturatingAdd(transportDrops, 1);
      return Ok(DroppedTransport(index));
    }
  }

  method ReceiveOne(endpoint: DeliveryEndpoint, registry: AcceptedFlowRegistry, datagram: seq<u8>) returns (r: Result<Received, ReceiveFailure>)
    requires endpoint.Valid()
    modifies endpoint
    ensures endpoint.Valid() && (endpoint.model, r) == ReceiveDatagram(registry.flows, old(endpoint.model), datagram)
  {
    hide ReceivePayload, WellFormed, DecodeVarint;
    var prefix := DecodeVarintLoop(datagram);
    if prefix.Err? {
      return Err(ReceiveFailure(None, FaultyVarint(prefix.error)));
    }
    var id: FlowId := prefix.value.0;
    if id !in registry.flows {
      return Ok(DiscardedUnknownFlow);
    }
    var flow := registry.flows[id];
    if !flow.key.direction.Inbound? {
      return Err(ReceiveFailure(Some(id), NotInbound));
    }
    if flow.mode.ReliableOrdered? {
      return Err(ReceiveFailure(Some(id), ReceivedReliable));
    }
    var offset := prefix.value.1;
    var index: u64 := 0;
    if flow.mode.UnreliableSequenced? {
      var sequence := DecodeVarintLoop(datagram[offset..]);
      if sequence.Err? {
        return Err(ReceiveFailure(Some(id), FaultyVarint(sequence.error)));
      }
      index := sequence.value.0;
      offset := offset + sequence.value.1;
    }
    var payload := datagram[offset..];
    if |payload| > flow.maxMessageBytes {
      return Err(ReceiveFailure(Some(id), ReceivedTooLarge));
    }
    var outcome := endpoint.ReceiveTransportPayload(flow.key, index, payload);
    match outcome {
      case Err(e) => return Err(ReceiveFailure(Some(id), ReceiveCore(e)));
      case Ok(received) => return Ok(ToCore(flow.key, received));
    }
  }

  // ---------------------------------------------------------------- what the two sides guarantee

  /** A submission either leaves Core alone or is exactly one Core submission. The index never mismatches;
      a sequenced message is only accepted with an index that fits a varint. */
  lemma SubmissionOutcomes(reg: Flows, ep: Endpoint, id: FlowId, payload: seq<u8>, maxSize: Option<nat>)
    ensures var r := SubmitDatagram(reg, ep, id, payload, maxSize);
            && (r.1.Err? ==> !r.1.error.AcceptedIndexMismatch?)
            && (r.0 == ep || (id in reg && reg[id].key.direction.Outbound? && r.0 == Submit(ep, reg[id].key, payload).0))
            && (r.1.Ok? && r.1.value.Submitted? ==>
                  && id in reg && (reg[id].mode.UnreliableSequenced? ==> r.1.value.index <= MAX_VARINT)
                  && |payload| <= reg[id].maxMessageBytes
                  && Submit(ep, reg[id].key, payload).1 == Ok(Accepted(r.1.value.index, r.1.value.drops)))
  {
    hide Submit;
    if id in reg && reg[id].key.direction.Outbound? && reg[id].key in ep.flows {
      SubmitConsumes(ep, reg[id].key, payload);
    }
  }

  /** A drive hands over at most one datagram: the one encoding of the message at the front of the queue,
      which leaves the queue with it. A message leaves the queue in no other way than by being handed over
      or dropped for its size. */
  lemma DriveOutcomes(reg: Flows, ep: Endpoint, id: FlowId, tx: Transport)
    ensures var d := DriveOne(reg, ep, id, tx);
            && (d.result.Err? ==> !d.result.error.SendCustody? && d.handed.None? && d.ep == ep)
            && (d.handed.Some? <==> d.result.Ok? && d.result.value.Enqueued?)
            && (d.result.Ok? && (d.result.value.Enqueued? || d.result.value.DroppedTransport?) ==>
                  && id in reg && reg[id].key.direction.Outbound? && reg[id].key in ep.flows && ep.flows[reg[id].key].outbound != []
                  && d.result.value.index == ep.flows[reg[id].key].outbound[0].index
                  && d.ep == Commit(ep, reg[id].key, d.result.value.index).0 && Commit(ep, reg[id].key, d.result.value.index).1.Ok?)
            && (d.handed.Some? ==>
                  && !reg[id].mode.ReliableOrdered? && ep.flows[reg[id].key].outbound[0].mode == reg[id].mode
                  && EncodeDatagram(id, reg[id].mode, SequenceFor(reg[id].mode, ep.flows[reg[id].key].outbound[0]), ep.flows[reg[id].key].outbound[0].payload)
                     == Ok(d.handed.value))
            && (d.result.Ok? && (d.result.value.Idle? || d.result.value.BlockedNativeBuffer?) ==> d.ep == ep)
  {
    hide EncodeDatagram, DatagramLen, Evict;
  }

  /** While the datagram size stays at least what it was when the flow was opened, no submission is refused
      and no message is dropped for its size, unless the transport itself refuses a size it announced. */
  lemma SizeNeverRejects(reg: Flows, ep: Endpoint, id: FlowId, payload: seq<u8>, maxSize: Option<nat>, tx: Transport, openSize: nat)
    requires id in reg && !reg[id].mode.ReliableOrdered?
    requires var preflight := DatagramLen(id, reg[id].mode, if reg[id].mode.UnreliableSequenced? then Some(MAX_VARINT) else None, reg[id].maxMessageBytes);
             preflight.Ok? && preflight.value <= openSize
    requires (maxSize.Some? ==> maxSize.value >= openSize) && (tx.maxSize.Some? ==> tx.maxSize.value >= openSize)
    requires (tx.maxAtSend.Some? ==> tx.maxAtSend.value >= openSize) && !tx.outcome.SendTooLarge?
    ensures SubmitDatagram(reg, ep, id, payload, maxSize).1 != Ok(ExceedsDatagramSize)
    ensures var d := DriveOne(reg, ep, id, tx); d.result.Ok? ==> !d.result.value.DroppedTransport?
  {
    hide Submit, Commit, DatagramLen, EncodeDatagram;
    SubmitFits(reg, ep, id, payload, maxSize, openSize);
    if reg[id].key in ep.flows && ep.flows[reg[id].key].outbound != [] {
      DriveFits(reg[id], ep, id, ep.flows[reg[id].key].outbound[0], tx, openSize);
    }
  }

  lemma SubmitFits(reg: Flows, ep: Endpoint, id: FlowId, payload: seq<u8>, maxSize: Option<nat>, openSize: nat)
    requires id in reg && !reg[id].mode.ReliableOrdered? && (maxSize.Some? ==> maxSize.value >= openSize)
    requires var preflight := DatagramLen(id, reg[id].mode, if reg[id].mode.UnreliableSequenced? then Some(MAX_VARINT) else None, reg[id].maxMessageBytes);
             preflight.Ok? && preflight.value <= openSize
    ensures SubmitDatagram(reg, ep, id, payload, maxSize).1 != Ok(ExceedsDatagramSize)
  {
    hide Submit, DatagramLen;
    var mode := reg[id].mode;
    var candidate := if mode.UnreliableUnordered? || reg[id].key !in ep.flows then None else ep.flows[reg[id].key].nextIndex;
    if maxSize.Some? && |payload| <= reg[id].maxMessageBytes && (mode.UnreliableSequenced? ==> candidate.Some?) {
      SizeFits(id, mode, candidate, reg[id].maxMessageBytes, |payload|, openSize, maxSize.value);
    }
  }

  lemma DriveFits(flow: RegisteredFlow, ep: Endpoint, id: FlowId, t: Transfer, tx: Transport, openSize: nat)
    requires !flow.mode.ReliableOrdered? && (tx.maxSize.Some? ==> tx.maxSize.value >= openSize)
    requires (tx.maxAtSend.Some? ==> tx.maxAtSend.value >= openSize) && !tx.outcome.SendTooLarge?
    requires var preflight := DatagramLen(id, flow.mode, if flow.mode.UnreliableSequenced? then Some(MAX_VARINT) else None, flow.maxMessageBytes);
             preflight.Ok? && preflight.value <= openSize
    ensures var d := DriveFront(ep, id, flow, t, tx); d.result.Ok? ==> !d.result.value.DroppedTransport?
  {
    hide Commit, DatagramLen, EncodeDatagram;
    var sequence := SequenceFor(flow.mode, t);
    LengthIsExact(id, flow.mode, sequence, t.payload);
    if |t.payload| <= flow.maxMessageBytes {
      SizeFits(id, flow.mode, sequence, flow.maxMessageBytes, |t.payload|, openSize, if tx.maxSize.Some? then tx.maxSize.value else openSize);
      SizeFits(id, flow.mode, sequence, flow.maxMessageBytes, |t.payload|, openSize, if tx.maxAtSend.Some? then tx.maxAtSend.value else openSize);
    }
  }

  /** A message's length is refused for its sequence number or fits. */
  lemma SizeFits(id: FlowId, mode: Mode, sequence: Option<u64>, stableMax: nonzero, length: nat, openSize: nat, size: nat)
    requires !mode.ReliableOrdered? && length <= stableMax && openSize <= size && (mode.UnreliableSequenced? ==> sequence.Some?)
    requires var preflight := DatagramLen(id, mode, if mode.UnreliableSequenced? then Some(MAX_VARINT) else None, stableMax);
             preflight.Ok? && preflight.value <= openSize
    ensures DatagramLen(id, mode, sequence, length).Ok? ==> DatagramLen(id, mode, sequence, length).value <= size
  {
    if mode.UnreliableSequenced? && sequence.value > MAX_VARINT {
      assert DatagramLen(id, mode, sequence, length) == Err(SequenceExhausted);
    } else {
      PreflightDominates(id, mode, sequence, stableMax, length, openSize, size);
    }
  }
}
