/** The unreliable DATAGRAM envelope: FlowId, an optional sequence number, then the payload. */
module Envelope {
  import opened Basics
  import opened Wire
  import opened Delivery

  datatype EnvelopeError = ReliableMode | EnvelopeOverflow | SequenceExhausted

  /** The octets in front of the payload. */
  function EnvelopeHead(id: FlowId, mode: Mode, sequence: Option<u64>): Result<seq<u8>, EnvelopeError> {
    match mode
    case ReliableOrdered => Err(ReliableMode)
    case UnreliableUnordered => Ok(Varint(id))
    case UnreliableSequenced =>
      if sequence.None? then Err(EnvelopeOverflow)
      else if sequence.value > MAX_VARINT then Err(SequenceExhausted)
      else Ok(Varint(id) + Varint(sequence.value))
  }

  function DatagramLen(id: FlowId, mode: Mode, sequence: Option<u64>, payloadLen: nat): Result<nat, EnvelopeError> {
    var idLen := |Varint(id)|;
    match mode
    case ReliableOrdered => Err(ReliableMode)
    case UnreliableUnordered => if idLen + payloadLen > U64_MAX then Err(EnvelopeOverflow) else Ok(idLen + payloadLen)
    case UnreliableSequenced =>
      if sequence.None? then Err(EnvelopeOverflow)
      else if sequence.value > MAX_VARINT then Err(SequenceExhausted)
      else
        var len := idLen + VarintLen(sequence.value).value + payloadLen;
        if len > U64_MAX then Err(EnvelopeOverflow) else Ok(len)
  }

  function EncodeDatagram(id: FlowId, mode: Mode, sequence: Option<u64>, payload: seq<u8>): Result<seq<u8>, EnvelopeError> {
    var _ :- DatagramLen(id, mode, sequence, |payload|);
    var head :- EnvelopeHead(id, mode, sequence);
    Ok(head + payload)
  }

  /** What a receiver reads in front of the payload of a flow in this mode. */
  function DecodeEnvelope(datagram: seq<u8>, mode: Mode): Result<(FlowId, Option<u64>, seq<u8>), VarintError> {
    var (id, n) :- DecodeVarint(datagram);
    if mode.UnreliableSequenced? then
      var (sequence, m) :- DecodeVarint(datagram[n..]);
      Ok((id, Some(sequence), datagram[n + m..]))
    else Ok((id, None, datagram[n..]))
  }

  /** The computed length is the encoded length. */
  lemma LengthIsExact(id: FlowId, mode: Mode, sequence: Option<u64>, payload: seq<u8>)
    ensures EncodeDatagram(id, mode, sequence, payload).Ok? <==> DatagramLen(id, mode, sequence, |payload|).Ok?
    ensures EncodeDatagram(id, mode, sequence, payload).Ok? ==>
              |EncodeDatagram(id, mode, sequence, payload).value| == DatagramLen(id, mode, sequence, |payload|).value
  {
  }

  /** A datagram decodes to a FlowId, sequence and payload exactly when it is their one encoding. */
  lemma EnvelopeBijection(datagram: seq<u8>, id: FlowId, mode: Mode, sequence: Option<u64>, payload: seq<u8>)
    requires !mode.ReliableOrdered? && |datagram| <= U64_MAX && (mode.UnreliableUnordered? ==> sequence.None?)
    ensures EncodeDatagram(id, mode, sequence, payload) == Ok(datagram) <==>
            DecodeEnvelope(datagram, mode) == Ok((id, sequence, payload))
  {
    hide DecodeVarint, Varint;
    if EncodeDatagram(id, mode, sequence, payload) == Ok(datagram) {
      EncodedEnvelope(datagram, id, mode, sequence, payload);
    }
    if DecodeEnvelope(datagram, mode) == Ok((id, sequence, payload)) {
      DecodedEnvelope(datagram, id, mode, sequence, payload);
    }
  }

  lemma EncodedEnvelope(datagram: seq<u8>, id: FlowId, mode: Mode, sequence: Option<u64>, payload: seq<u8>)
    requires EncodeDatagram(id, mode, sequence, payload) == Ok(datagram) && (mode.UnreliableUnordered? ==> sequence.None?)
    ensures DecodeEnvelope(datagram, mode) == Ok((id, sequence, payload))
  {
    hide DecodeVarint;
    var n := |Varint(id)|;
    DecodeVarintAppend(id, datagram[n..]);
    assert datagram == Varint(id) + datagram[n..];
    if mode.UnreliableSequenced? {
      assert datagram[n..] == Varint(sequence.value) + payload;
      DecodeVarintAppend(sequence.value, payload);
    }
  }

  lemma DecodedEnvelope(datagram: seq<u8>, id: FlowId, mode: Mode, sequence: Option<u64>, payload: seq<u8>)
    requires !mode.ReliableOrdered? && |datagram| <= U64_MAX
    requires DecodeEnvelope(datagram, mode) == Ok((id, sequence, payload))
    ensures EncodeDatagram(id, mode, sequence, payload) == Ok(datagram)
  {
    hide DecodeVarint;
    var (v, n) := DecodeVarint(datagram).value;
    DecodeVarintExactly(datagram, v, n);
    assert datagram == datagram[..n] + datagram[n..];
    if mode.UnreliableSequenced? {
      var (w, m) := DecodeVarint(datagram[n..]).value;
      DecodeVarintExactly(datagram[n..], w, m);
      assert datagram[n..] == datagram[n..][..m] + datagram[n + m..];
      assert datagram == Varint(v) + Varint(w) + payload;
    } else {
      assert datagram == Varint(v) + payload;
    }
  }

  /** The open-time preflight with the largest sequence number dominates every later message of the
      flow: while the datagram size does not shrink, no admissible message is ever too large. */
  lemma PreflightDominates(id: FlowId, mode: Mode, sequence: Option<u64>, stableMax: nonzero, payloadLen: nat, openSize: nat, sendSize: nat)
    requires !mode.ReliableOrdered? && payloadLen <= stableMax && openSize <= sendSize
    requires mode.UnreliableSequenced? ==> sequence.Some? && sequence.value <= MAX_VARINT
    requires var preflight := DatagramLen(id, mode, if mode.UnreliableSequenced? then Some(MAX_VARINT) else None, stableMax);
             preflight.Ok? && preflight.value <= openSize
    ensures DatagramLen(id, mode, sequence, payloadLen).Ok? && DatagramLen(id, mode, sequence, payloadLen).value <= sendSize
  {
  }
}
