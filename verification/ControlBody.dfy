/** The four flow-control bodies: OPEN_FLOW, FLOW_ACCEPT, FLOW_REJECT and FLOW_TERMINATE. */
module ControlBody {
  import opened Basics
  import opened Wire
  import opened Delivery

  datatype RejectReason = ResourceLimit | MessageLimit

  datatype TerminateReason = Normal | ResourceFailure | ProtocolFailure | ReliableDeliveryFailure

  datatype ControlMsg =
    | Open(id: FlowId, mode: Mode, maxMessageBytes: nat)
    | Accept(id: FlowId)
    | Reject(id: FlowId, rejectReason: RejectReason)
    | Terminate(id: FlowId, reason: TerminateReason)

  /** `OtherFrame` stands for the profile and negotiation frame types, which flow control refuses. */
  datatype FrameType = OpenFlow | FlowAccept | FlowReject | FlowTerminate | OtherFrame

  datatype ControlFrame = ControlFrame(frameType: FrameType, body: seq<u8>)

  datatype BodyError =
    | BadVarint(error: VarintError)
    | UnknownDeliveryMode(value: nat)
    | ZeroMaxMessageBytes
    | MaxMessageBytesOutOfRange
    | UnknownRejectReason(value: nat)
    | UnknownTerminateReason(value: nat)
    | TrailingBytes

  /** What OPEN_FLOW's constructor demands; the other bodies are always representable. */
  predicate Representable(m: ControlMsg) {
    m.Open? ==> 1 <= m.maxMessageBytes <= MAX_VARINT
  }

  // ---------------------------------------------------------------- encoding

  function ModeCode(mode: Mode): nat {
    match mode case ReliableOrdered => 0 case UnreliableUnordered => 1 case UnreliableSequenced => 2
  }

  function RejectCode(reason: RejectReason): nat {
    match reason case ResourceLimit => 0 case MessageLimit => 1
  }

  function TerminateCode(reason: TerminateReason): nat {
    match reason
    case Normal => 0
    case ResourceFailure => 1
    case ProtocolFailure => 2
    case ReliableDeliveryFailure => 3
  }

  function TypeOf(m: ControlMsg): FrameType {
    match m
    case Open(_, _, _) => OpenFlow
    case Accept(_) => FlowAccept
    case Reject(_, _) => FlowReject
    case Terminate(_, _) => FlowTerminate
  }

  function BodyOf(m: ControlMsg): seq<u8>
    requires Representable(m)
  {
    match m
    case Open(id, mode, max) => Varint(id) + Varint(ModeCode(mode)) + Varint(max)
    case Accept(id) => Varint(id)
    case Reject(id, reason) => Varint(id) + Varint(RejectCode(reason))
    case Terminate(id, reason) => Varint(id) + Varint(TerminateCode(reason))
  }

  function FrameOf(m: ControlMsg): ControlFrame
    requires Representable(m)
  {
    ControlFrame(TypeOf(m), BodyOf(m))
  }

  // ---------------------------------------------------------------- decoding

  function ReadVarint(s: seq<u8>): Result<(nat, seq<u8>), BodyError> {
    match DecodeVarint(s)
    case Err(e) => Err(BadVarint(e))
    case Ok((v, n)) => Ok((v, s[n..]))
  }

  lemma ReadVarintExactly(s: seq<u8>, v: nat, rest: seq<u8>)
    ensures ReadVarint(s) == Ok((v, rest)) <==> v <= MAX_VARINT && s == Varint(v) + rest
  {
    if ReadVarint(s) == Ok((v, rest)) {
      var n := DecodeVarint(s).value.1;
      DecodeVarintExactly(s, v, n);
      assert s == s[..n] + s[n..];
    } else if v <= MAX_VARINT && s == Varint(v) + rest {
      DecodeVarintAppend(v, rest);
    }
  }

  function Finish(rest: seq<u8>, m: ControlMsg): Result<ControlMsg, BodyError> {
    if rest == [] then Ok(m) else Err(TrailingBytes)
  }

  function ModeFrom(code: nat): Result<Mode, BodyError> {
    if code == 0 then Ok(ReliableOrdered)
    else if code == 1 then Ok(UnreliableUnordered)
    else if code == 2 then Ok(UnreliableSequenced)
    else Err(UnknownDeliveryMode(code))
  }

  function RejectFrom(code: nat): Result<RejectReason, BodyError> {
    if code == 0 then Ok(ResourceLimit)
    else if code == 1 then Ok(MessageLimit)
    else Err(UnknownRejectReason(code))
  }

  function TerminateFrom(code: nat): Result<TerminateReason, BodyError> {
    if code == 0 then Ok(Normal)
    else if code == 1 then Ok(ResourceFailure)
    else if code == 2 then Ok(ProtocolFailure)
    else if code == 3 then Ok(ReliableDeliveryFailure)
    else Err(UnknownTerminateReason(code))
  }

  function DecodeOpen(body: seq<u8>): (r: Result<ControlMsg, BodyError>)
    ensures r.Ok? ==> r.value.Open? && Representable(r.value)
  {
    var (id, s1) :- ReadVarint(body);
    var (code, s2) :- ReadVarint(s1);
    var mode :- ModeFrom(code);
    var (max, s3) :- ReadVarint(s2);
    if max == 0 then Err(ZeroMaxMessageBytes) else Finish(s3, Open(id, mode, max))
  }

  function DecodeAccept(body: seq<u8>): (r: Result<ControlMsg, BodyError>)
    ensures r.Ok? ==> r.value.Accept?
  {
    var (id, s1) :- ReadVarint(body);
    Finish(s1, Accept(id))
  }

  function DecodeReject(body: seq<u8>): (r: Result<ControlMsg, BodyError>)
    ensures r.Ok? ==> r.value.Reject?
  {
    var (id, s1) :- ReadVarint(body);
    var (code, s2) :- ReadVarint(s1);
    var reason :- RejectFrom(code);
    Finish(s2, Reject(id, reason))
  }

  function DecodeTerminate(body: seq<u8>): (r: Result<ControlMsg, BodyError>)
    ensures r.Ok? ==> r.value.Terminate?
  {
    var (id, s1) :- ReadVarint(body);
    var (code, s2) :- ReadVarint(s1);
    var reason :- TerminateFrom(code);
    Finish(s2, Terminate(id, reason))
  }

  function DecodeBody(t: FrameType, body: seq<u8>): Result<ControlMsg, BodyError>
    requires !t.OtherFrame?
  {
    match t
    case OpenFlow => DecodeOpen(body)
    case FlowAccept => DecodeAccept(body)
    case FlowReject => DecodeReject(body)
    case FlowTerminate => DecodeTerminate(body)
  }

  // ---------------------------------------------------------------- the bijection

  lemma TwoFields(body: seq<u8>, a: nat, b: nat, rest: seq<u8>)
    ensures (exists mid :: ReadVarint(body) == Ok((a, mid)) && ReadVarint(mid) == Ok((b, rest))) <==>
            a <= MAX_VARINT && b <= MAX_VARINT && body == Varint(a) + Varint(b) + rest
  {
    if a <= MAX_VARINT && b <= MAX_VARINT {
      ReadVarintExactly(Varint(b) + rest, b, rest);
      ReadVarintExactly(body, a, Varint(b) + rest);
      assert Varint(a) + Varint(b) + rest == Varint(a) + (Varint(b) + rest);
    }
    forall mid | ReadVarint(body) == Ok((a, mid)) && ReadVarint(mid) == Ok((b, rest))
      ensures a <= MAX_VARINT && b <= MAX_VARINT && body == Varint(a) + Varint(b) + rest
    {
      ReadVarintExactly(body, a, mid);
      ReadVarintExactly(mid, b, rest);
      assert Varint(a) + Varint(b) + rest == Varint(a) + (Varint(b) + rest);
    }
  }

  lemma EncodedOpenDecodes(id: FlowId, mode: Mode, max: nat)
    requires 1 <= max <= MAX_VARINT
    ensures DecodeOpen(BodyOf(Open(id, mode, max))) == Ok(Open(id, mode, max))
  {
    var body := BodyOf(Open(id, mode, max));
    TwoFields(body, id, ModeCode(mode), Varint(max));
    assert Varint(max) == Varint(max) + [];
    ReadVarintExactly(Varint(max), max, []);
  }

  lemma EncodedDecodes(m: ControlMsg)
    requires Representable(m)
    ensures DecodeBody(TypeOf(m), BodyOf(m)) == Ok(m)
  {
    hide ReadVarint;
    var id := m.id;
    match m
    case Open(_, mode, max) => EncodedOpenDecodes(id, mode, max);
    case Accept(_) =>
      assert BodyOf(m) == Varint(id) + [];
      ReadVarintExactly(BodyOf(m), id, []);
    case Reject(_, reason) =>
      assert BodyOf(m) == Varint(id) + Varint(RejectCode(reason)) + [];
      TwoFields(BodyOf(m), id, RejectCode(reason), []);
    case Terminate(_, reason) =>
      assert BodyOf(m) == Varint(id) + Varint(TerminateCode(reason)) + [];
      TwoFields(BodyOf(m), id, TerminateCode(reason), []);
  }

  lemma DecodedOpenEncodes(body: seq<u8>)
    requires DecodeOpen(body).Ok?
    ensures Representable(DecodeOpen(body).value) && DecodeOpen(body).value.Open?
    ensures BodyOf(DecodeOpen(body).value) == body
  {
    hide ReadVarint;
    var (id, s1) := ReadVarint(body).value;
    var (code, s2) := ReadVarint(s1).value;
    var (max, s3) := ReadVarint(s2).value;
    ReadVarintExactly(body, id, s1);
    ReadVarintExactly(s1, code, s2);
    ReadVarintExactly(s2, max, s3);
  }

  lemma DecodedEncodes(t: FrameType, body: seq<u8>)
    requires !t.OtherFrame? && DecodeBody(t, body).Ok?
    ensures var m := DecodeBody(t, body).value; Representable(m) && TypeOf(m) == t && BodyOf(m) == body
  {
    hide ReadVarint;
    var (id, s1) := ReadVarint(body).value;
    ReadVarintExactly(body, id, s1);
    match t
    case OpenFlow => DecodedOpenEncodes(body);
    case FlowAccept =>
    case FlowReject =>
      var (code, s2) := ReadVarint(s1).value;
      ReadVarintExactly(s1, code, s2);
    case FlowTerminate =>
      var (code, s2) := ReadVarint(s1).value;
      ReadVarintExactly(s1, code, s2);
  }

  /** A body decodes to a message exactly when it is that message's one encoding. */
  lemma BodyBijection(t: FrameType, body: seq<u8>, m: ControlMsg)
    requires !t.OtherFrame?
    ensures DecodeBody(t, body) == Ok(m) <==> Representable(m) && TypeOf(m) == t && BodyOf(m) == body
  {
    if Representable(m) && TypeOf(m) == t && BodyOf(m) == body {
      EncodedDecodes(m);
    }
    if DecodeBody(t, body) == Ok(m) {
      DecodedEncodes(t, body);
    }
  }

  // ---------------------------------------------------------------- the cursor-based reader and writer

  /** Reads varints from `input` at a moving offset. */
  class BodyReader {
    const input: seq<u8>
    var offset: nat

    ghost predicate Valid()
      reads this
    {
      offset <= |input|
    }

    constructor (input: seq<u8>)
      ensures Valid() && this.input == input && offset == 0
    {
      this.input := input;
      offset := 0;
    }

    method Next() returns (r: Result<nat, BodyError>)
      requires Valid()
      modifies this
      ensures Valid()
      ensures match ReadVarint(input[old(offset)..])
              case Err(e) => r == Err(e) && offset == old(offset)
              case Ok((v, rest)) => r == Ok(v) && input[offset..] == rest
    {
      var decoded := DecodeVarintLoop(input[offset..]);
      match decoded {
        case Err(e) => r := Err(BadVarint(e));
        case Ok((v, n)) =>
          assert input[offset..][n..] == input[offset + n..];
          offset := offset + n;
          r := Ok(v);
      }
    }

    method Finish() returns (r: Result<(), BodyError>)
      requires Valid()
      ensures r == if input[offset..] == [] then Ok(()) else Err(TrailingBytes)
    {
      r := if offset == |input| then Ok(()) else Err(TrailingBytes);
    }
  }

  method ReadOpen(body: seq<u8>) returns (r: Result<ControlMsg, BodyError>)
    ensures r == DecodeOpen(body)
  {
    var reader := new BodyReader(body);
    assert body[0..] == body;
    var id :- reader.Next();
    var code :- reader.Next();
    var mode :- ModeFrom(code);
    var max :- reader.Next();
    if max == 0 {
      return Err(ZeroMaxMessageBytes);
    }
    var _ :- reader.Finish();
    assert id <= MAX_VARINT;
    return Ok(Open(id, mode, max));
  }
}
