/** What a submission, a drive and a received datagram of an unreliable flow come to, told by octet counts
    and by what the transport announces. */
module DatagramAnswers {
  import opened Basics
  import opened Wire
  import opened Delivery
  import opened Core
  import opened CoreInvariant
  import CoreHistory
  import opened CoreAnswers
  import opened Registry
  import opened Envelope
  import opened Datagrams

  /** A registered outbound flow of an unreliable mode with its live Core flow. */
  ghost predicate Usable(reg: Flows, ep: Endpoint, id: FlowId) {
    && WellFormed(ep) && id in reg && reg[id].key.direction.Outbound? && reg[id].mode != ReliableOrdered
    && reg[id].key in ep.flows && ep.flows[reg[id].key].mode == reg[id].mode
  }

  /** Octets of a message with its FlowId and, on a sequenced flow, its index. */
  function Octets(id: FlowId, mode: Mode, index: u64, payload: seq<u8>): nat
    requires mode == UnreliableSequenced ==> index <= MAX_VARINT
  {
    |Varint(id)| + (if mode == UnreliableSequenced then |Varint(index)| else 0) + |payload|
  }

  /** The index does not fit the datagram. */
  predicate Unnumbered(mode: Mode, index: u64) {
    mode == UnreliableSequenced && index > MAX_VARINT
  }

  lemma OctetsAreLength(id: FlowId, mode: Mode, index: u64, payload: seq<u8>)
    requires mode != ReliableOrdered
    ensures DatagramLen(id, mode, if mode == UnreliableSequenced then Some(index) else None, |payload|) ==
              if Unnumbered(mode, index) then Err(SequenceExhausted)
              else if Octets(id, mode, index, payload) > U64_MAX then Err(EnvelopeOverflow)
              else Ok(Octets(id, mode, index, payload))
  {
  }

  // ---------------------------------------------------------------- submitting

  /** A flow that is unknown, inbound or reliable takes no datagram submission, and nothing changes. */
  lemma UnusableSubmission(reg: Flows, ep: Endpoint, id: FlowId, payload: seq<u8>, maxSize: Option<nat>, tx: Transport)
    requires id !in reg || reg[id].key.direction.Inbound? || reg[id].mode == ReliableOrdered
    ensures var e := if id !in reg then UseError.UnknownFlowId else if reg[id].key.direction.Inbound? then NotOutbound else ReliableFlow;
            && SubmitDatagram(reg, ep, id, payload, maxSize) == (ep, Err(CannotUse(e)))
            && DriveOne(reg, ep, id, tx) == Drive(ep, Err(SendCannotUse(e)), None)
  {
  }

  /** Core's own outcome of the submission, as this adapter reports it. */
  function AsSubmission(outcome: SubmissionOutcome): Submission {
    match outcome
    case Accepted(index, drops) => Submitted(index, drops)
    case RejectedTooLarge => MessageTooLarge
    case RejectedPressure => Pressure
    case RejectedCounterExhausted => CounterExhausted
  }

  /** On a usable flow a message is refused, leaving Core alone, if it exceeds the flow's maximum, if a sequenced
      flow has no index for it, if no datagrams can be sent, or exactly if its octets exceed the datagram
      size; every other message is submitted to Core, whose outcome is reported. */
  lemma SubmissionAnswers(reg: Flows, ep: Endpoint, id: FlowId, payload: seq<u8>, maxSize: Option<nat>)
    requires Usable(reg, ep, id)
    ensures var (after, r) := SubmitDatagram(reg, ep, id, payload, maxSize);
            var flow := reg[id];
            var next := ep.flows[flow.key].nextIndex;
            var large := |payload| > flow.maxMessageBytes;
            var counted := flow.mode == UnreliableSequenced;
            var index := if counted && next.Some? then next.value else 0;
            && (large ==> r == Ok(MessageTooLarge) && after == ep)
            && (!large && counted && next.None? ==> r == Ok(CounterExhausted) && after == ep)
            && (!large && counted && next.Some? && next.value > MAX_VARINT ==> r == Err(SubmitEnvelope(SequenceExhausted)) && after == ep)
            && (!large && !(counted && (next.None? || next.value > MAX_VARINT)) ==>
                  var octets := Octets(id, flow.mode, index, payload);
                  && (octets > U64_MAX ==> r == Err(SubmitEnvelope(EnvelopeOverflow)) && after == ep)
                  && (octets <= U64_MAX && maxSize.None? ==> r == Ok(TransportUnavailable) && after == ep)
                  && (r == Ok(ExceedsDatagramSize) <==> octets <= U64_MAX && maxSize.Some? && octets > maxSize.value)
                  && (r == Ok(ExceedsDatagramSize) ==> after == ep)
                  && (octets <= U64_MAX && maxSize.Some? && octets <= maxSize.value ==>
                        var submitted := Submit(ep, flow.key, payload);
                        after == submitted.0 && submitted.1.Ok? && r == Ok(AsSubmission(submitted.1.value))))
  {
    hide Submit, Varint, WellFormed;
    var flow := reg[id];
    var next := ep.flows[flow.key].nextIndex;
    SubmissionOutcomes(reg, ep, id, payload, maxSize);
    OctetsAreLength(id, flow.mode, if flow.mode == UnreliableSequenced && next.Some? then next.value else 0, payload);
    CoreHistory.SubmitConsumes(ep, flow.key, payload);
  }

  // ---------------------------------------------------------------- driving

  /** The oldest message of the flow can be put in a datagram at all. */
  ghost predicate Sendable(reg: Flows, ep: Endpoint, id: FlowId) {
    && Usable(reg, ep, id) && ep.flows[reg[id].key].outbound != []
    && var t := ep.flows[reg[id].key].outbound[0];
    |t.payload| <= reg[id].maxMessageBytes && !Unnumbered(reg[id].mode, t.index) && Octets(id, reg[id].mode, t.index, t.payload) <= U64_MAX
  }

  /** With nothing queued a drive is idle; a message that cannot be put in a datagram stays and is an error. */
  lemma UnsendableDrive(reg: Flows, ep: Endpoint, id: FlowId, tx: Transport)
    requires Usable(reg, ep, id) && !Sendable(reg, ep, id)
    ensures var q := ep.flows[reg[id].key].outbound;
            DriveOne(reg, ep, id, tx) ==
              Drive(ep, if q == [] then Ok(Idle)
                        else if |q[0].payload| > reg[id].maxMessageBytes then Err(PayloadExceedsProfile)
                        else if Unnumbered(reg[id].mode, q[0].index) then Err(SendEnvelope(SequenceExhausted))
                        else Err(SendEnvelope(EnvelopeOverflow)), None)
  {
    hide Commit, Varint, Octets, DatagramLen, EncodeDatagram;
    var flow := reg[id];
    var q := ep.flows[flow.key].outbound;
    assert FlowOk(flow.key, ep.flows[flow.key]);
    hide WellFormed;
    if q != [] {
      OctetsAreLength(id, flow.mode, q[0].index, q[0].payload);
    }
  }

  /** The transport read twice: both times datagrams can be sent, the octets are within the size, and within
      the free buffer. */
  predicate FitsFirst(tx: Transport, octets: nat) {
    tx.maxSize.Some? && octets <= tx.maxSize.value
  }

  predicate FitsAgain(tx: Transport, octets: nat) {
    FitsFirst(tx, octets) && octets <= tx.space && tx.maxAtSend.Some? && octets <= tx.maxAtSend.value
  }

  predicate Handed(tx: Transport, octets: nat) {
    FitsAgain(tx, octets) && octets <= tx.spaceAtSend
  }

  /** The oldest message is handed over exactly if its octets fit the size and the free buffer at both readings
      and the transport takes it; it is dropped exactly if it exceeds the size at either reading or the transport
      finds it too large; it waits exactly if the free buffer is too small at either reading. */
  lemma DriveAnswers(reg: Flows, ep: Endpoint, id: FlowId, tx: Transport)
    requires Sendable(reg, ep, id)
    ensures var d := DriveOne(reg, ep, id, tx);
            var flow := reg[id];
            var q := ep.flows[flow.key].outbound;
            var t := q[0];
            var n := Octets(id, flow.mode, t.index, t.payload);
            && (d.result == Ok(Enqueued(t.index)) <==> Handed(tx, n) && tx.outcome.SendTaken?)
            && (d.result == Ok(DroppedTransport(t.index)) <==>
                  || (tx.maxSize.Some? && n > tx.maxSize.value)
                  || (FitsFirst(tx, n) && n <= tx.space && tx.maxAtSend.Some? && n > tx.maxAtSend.value)
                  || (Handed(tx, n) && tx.outcome.SendTooLarge?))
            && (FitsFirst(tx, n) && n > tx.space ==> d.result == Ok(BlockedNativeBuffer(n, tx.space)))
            && (FitsAgain(tx, n) && n > tx.spaceAtSend ==> d.result == Ok(BlockedNativeBuffer(n, tx.spaceAtSend)))
            && (d.result.Ok? && d.result.value.BlockedNativeBuffer? ==>
                  (FitsFirst(tx, n) && n > tx.space) || (FitsAgain(tx, n) && n > tx.spaceAtSend))
            && (d.result == Err(ProfileUnavailable) <==>
                  || tx.maxSize.None? || (FitsFirst(tx, n) && n <= tx.space && tx.maxAtSend.None?)
                  || (Handed(tx, n) && tx.outcome.SendUnsupported?))
            && (d.result == Err(ConnectionLost) <==> Handed(tx, n) && tx.outcome.SendConnectionLost?)
            && (d.result == Ok(Enqueued(t.index)) || d.result == Ok(DroppedTransport(t.index)) || (d.result.Ok? && d.result.value.BlockedNativeBuffer?)
                || d.result == Err(ProfileUnavailable) || d.result == Err(ConnectionLost))
            && d.ep == (if d.result == Ok(Enqueued(t.index)) || d.result == Ok(DroppedTransport(t.index)) then WithQueued(ep, flow.key, q[1..]) else ep)
            && d.handed == (if d.result == Ok(Enqueued(t.index)) then
                              Some(Varint(id) + (if flow.mode == UnreliableSequenced then Varint(t.index) else []) + t.payload)
                            else None)
  {
    hide Commit, Varint, Octets, DatagramLen, EncodeDatagram;
    var flow := reg[id];
    var t := ep.flows[flow.key].outbound[0];
    assert FlowOk(flow.key, ep.flows[flow.key]);
    hide WellFormed;
    OctetsAreLength(id, flow.mode, t.index, t.payload);
    EncodingIs(id, flow.mode, t);
    CommitAnswers(ep, flow.key, t.index);
  }

  lemma EncodingIs(id: FlowId, mode: Mode, t: Transfer)
    requires mode != ReliableOrdered && !Unnumbered(mode, t.index) && Octets(id, mode, t.index, t.payload) <= U64_MAX
    ensures EncodeDatagram(id, mode, SequenceFor(mode, t), t.payload) ==
              Ok(Varint(id) + (if mode == UnreliableSequenced then Varint(t.index) else []) + t.payload)
    ensures |EncodeDatagram(id, mode, SequenceFor(mode, t), t.payload).value| == Octets(id, mode, t.index, t.payload)
  {
    hide Varint;
    OctetsAreLength(id, mode, t.index, t.payload);
    assert Varint(id) + [] == Varint(id);
  }

  // ---------------------------------------------------------------- receiving

  /** A datagram without a readable FlowId is an error of the connection; one for a FlowId that is not
      registered is discarded; for an outbound or a reliable flow it is an error of that flow. */
  lemma MisdirectedDatagram(reg: Flows, ep: Endpoint, datagram: seq<u8>)
    ensures var (after, r) := ReceiveDatagram(reg, ep, datagram);
            match DecodeVarint(datagram)
            case Err(e) => after == ep && r == Err(ReceiveFailure(None, FaultyVarint(e)))
            case Ok((id, _)) =>
              && (r == Ok(DiscardedUnknownFlow) <==> id !in reg)
              && (id !in reg ==> after == ep)
              && (id in reg && reg[id].key.direction.Outbound? ==> after == ep && r == Err(ReceiveFailure(Some(id), NotInbound)))
              && (id in reg && reg[id].key.direction.Inbound? && reg[id].mode == ReliableOrdered ==>
                    after == ep && r == Err(ReceiveFailure(Some(id), ReceivedReliable)))
  {
    hide DecodeVarint, ReceivePayload, DecodeEnvelope;
  }

  /** A message in its encoding reaches exactly its flow in Core, under its index on a sequenced flow and under 0
      on an unordered one, unless it exceeds the flow's maximum. */
  lemma DatagramArrives(reg: Flows, ep: Endpoint, id: FlowId, index: u64, payload: seq<u8>)
    requires id in reg && reg[id].key.direction.Inbound? && reg[id].mode != ReliableOrdered && reg[id].key in ep.flows && index <= MAX_VARINT
    ensures var flow := reg[id];
            var counted := flow.mode == UnreliableSequenced;
            var datagram := Varint(id) + (if counted then Varint(index) else []) + payload;
            var r := ReceiveDatagram(reg, ep, datagram);
            if |payload| > flow.maxMessageBytes then r == (ep, Err(ReceiveFailure(Some(id), ReceivedTooLarge)))
            else
              var core := Receive(ep, flow.key, Transfer(ep.flows[flow.key].mode, if counted then index else 0, payload));
              core.1.Ok? && r == (core.0, Ok(ToCore(flow.key, core.1.value)))
  {
    hide DecodeVarint, Varint, Receive;
    var flow := reg[id];
    var tail := (if flow.mode == UnreliableSequenced then Varint(index) else []) + payload;
    assert Varint(id) + (if flow.mode == UnreliableSequenced then Varint(index) else []) + payload == Varint(id) + tail;
    DecodeVarintAppend(id, tail);
    assert (Varint(id) + tail)[|Varint(id)|..] == tail;
    if flow.mode == UnreliableSequenced {
      DecodeVarintAppend(index, payload);
      assert tail[|Varint(index)|..] == payload;
      assert (Varint(id) + tail)[|Varint(id)| + |Varint(index)|..] == payload;
    } else {
      assert tail == payload;
    }
    InboundIsReceived(ep, flow.key, Transfer(ep.flows[flow.key].mode, if flow.mode == UnreliableSequenced then index else 0, payload));
  }

  lemma InboundIsReceived(ep: Endpoint, key: FlowKey, t: Transfer)
    requires key in ep.flows && key.direction.Inbound?
    ensures Receive(ep, key, t).1.Ok?
  {
    hide HasRoom, Held, Populated;
  }
}
