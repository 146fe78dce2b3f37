/** One reliable outbound flow bound to a byte stream: header, length and payload segments under
    arbitrary partial writes, with Core custody committed at each message's last octet. */
module OutboundBinding {
  import opened Basics
  import opened Wire
  import opened Framing
  import opened Delivery
  import opened Core
  import opened CoreInvariant
  import opened DeliveryEndpoints
  import opened Registry

  datatype IoFailure = ReadFailure | WriteFailure | ConnectionLost

  datatype SendError =
    | SendRegistry(registryError: RegistryError)
    | SendCore(coreError: OpError)
    | SendCustody(custodyError: CustodyError)
    | SendFraming(frameError: FrameError)
    | UnexpectedAcceptedIndex(expected: u64, actual: u64)
    | AcceptedIndexExhausted
    | InvalidWriteCount
    | WriteZero
    | SendIo(io: IoFailure)
    | PendingData
    | AlreadyFinishing
    | SendTerminal

  datatype SendProgress =
    | Progressed(bytes: nat)
    | CommittedMessage(index: u64)
    | Idle
    | SenderClosed(termination: Termination)

  datatype Poll<+T> = Pending | Ready(value: T)

  /** What the stream answers to one poll: a write of any count, or the end of the finish handshake. */
  datatype WriteIo = WritePending | WriteFailed(failure: IoFailure) | Wrote(count: nat)

  datatype FinishIo = FinishPending | FinishAcked | FinishStopped | FinishFailed(failure: IoFailure)

  // ---------------------------------------------------------------- the send state, as a value

  datatype Message = Message(snapshot: Transfer, length: seq<u8>, lengthOffset: nat, payloadOffset: nat)

  datatype Sender = Sender(header: seq<u8>, headerOffset: nat, maxMessageBytes: nat, next: Option<u64>, current: Option<Message>)

  function NewSender(id: FlowId, maxMessageBytes: nat): Sender {
    Sender(Varint(id), 0, maxMessageBytes, Some(0), None)
  }

  /** A loaded message always has an octet left to write. */
  predicate Loaded(m: Message) {
    && m.lengthOffset <= |m.length| && m.payloadOffset <= |m.snapshot.payload|
    && (m.lengthOffset < |m.length| || m.payloadOffset < |m.snapshot.payload|)
  }

  predicate SenderOk(s: Sender) {
    s.headerOffset <= |s.header| && (s.current.Some? ==> Loaded(s.current.value))
  }

  function LoadNext(s: Sender, ep: Endpoint, key: FlowKey): Result<Sender, SendError> {
    match PeekOutbound(ep, key)
    case Err(e) => Err(SendCore(e))
    case Ok(None) => Ok(s)
    case Ok(Some(t)) =>
      if !t.mode.ReliableOrdered? then Err(SendRegistry(FlowNotReliable))
      else if s.next.None? then Err(AcceptedIndexExhausted)
      else if t.index != s.next.value then Err(UnexpectedAcceptedIndex(s.next.value, t.index))
      else match EncodePayloadLength(|t.payload|, s.maxMessageBytes)
        case Err(e) => Err(SendFraming(e))
        case Ok(length) => Ok(s.(current := Some(Message(t, length, 0, 0))))
  }

  /** The state with the next octets to write loaded, when there are any. */
  function Prepared(s: Sender, ep: Endpoint, key: FlowKey): Result<Sender, SendError> {
    if s.headerOffset < |s.header| || s.current.Some? then Ok(s) else LoadNext(s, ep, key)
  }

  function Segment(s: Sender): Option<seq<u8>>
    requires SenderOk(s)
  {
    if s.headerOffset < |s.header| then Some(s.header[s.headerOffset..])
    else match s.current
      case None => None
      case Some(m) =>
        if m.lengthOffset < |m.length| then Some(m.length[m.lengthOffset..]) else Some(m.snapshot.payload[m.payloadOffset..])
  }

  datatype Advanced = Advanced(sender: Sender, ep: Endpoint, result: Result<Option<u64>, SendError>)

  function CommitCurrent(s: Sender, ep: Endpoint, key: FlowKey, m: Message): Advanced {
    var cleared := s.(current := None);
    match Commit(ep, key, m.snapshot.index)
    case (after, Err(e)) => Advanced(cleared, after, Err(SendCustody(e)))
    case (after, Ok(_)) => Advanced(cleared.(next := Next(m.snapshot.index)), after, Ok(Some(m.snapshot.index)))
  }

  /** Record that `bytes` octets of the current segment were taken by the stream. */
  function Advance(s: Sender, ep: Endpoint, key: FlowKey, bytes: nat): Advanced
    requires SenderOk(s) && Segment(s).Some?
  {
    if bytes == 0 then Advanced(s, ep, Err(WriteZero))
    else if bytes > |Segment(s).value| then Advanced(s, ep, Err(InvalidWriteCount))
    else if s.headerOffset < |s.header| then Advanced(s.(headerOffset := s.headerOffset + bytes), ep, Ok(None))
    else
      var m := s.current.value;
      var n := if m.lengthOffset < |m.length| then m.(lengthOffset := m.lengthOffset + bytes)
               else m.(payloadOffset := m.payloadOffset + bytes);
      if n.lengthOffset == |n.length| && n.payloadOffset == |n.snapshot.payload| then CommitCurrent(s, ep, key, n)
      else Advanced(s.(current := Some(n)), ep, Ok(None))
  }

  // ---------------------------------------------------------------- the binding, as a value

  datatype Outgoing = Outgoing(id: FlowId, key: FlowKey, sender: Sender, finishing: bool, failure: Option<Termination>, terminal: bool)

  datatype SendStep = SendStep(binding: Outgoing, ep: Endpoint, reg: Flows, written: seq<u8>, result: Poll<Result<SendProgress, SendError>>)

  ghost function FailSend(b: Outgoing, ep: Endpoint, reg: Flows, written: seq<u8>, error: SendError): SendStep {
    var (after, r) := FailCustody(ep, b.key);
    SendStep(b.(failure := match r case Ok(t) => Some(t) case Err(_) => None, terminal := true),
             after, reg - {b.id}, written, Ready(Err(error)))
  }

  ghost function PollFinish(b: Outgoing, ep: Endpoint, reg: Flows, io: FinishIo): SendStep {
    match PeekOutbound(ep, b.key)
    case Err(e) => FailSend(b, ep, reg, [], SendCore(e))
    case Ok(Some(_)) => FailSend(b, ep, reg, [], PendingData)
    case Ok(None) =>
      match io
      case FinishPending => SendStep(b, ep, reg, [], Pending)
      case FinishAcked =>
        (match Terminate(ep, b.key, Requested)
         case (_, Err(e)) => FailSend(b, ep, reg, [], SendCore(e))
         case (after, Ok(t)) =>
           SendStep(b.(finishing := false, terminal := true), after, reg - {b.id}, [], Ready(Ok(SenderClosed(t)))))
      case FinishFailed(ConnectionLost) => SendStep(b.(terminal := true), ep, reg, [], Ready(Err(SendIo(ConnectionLost))))
      case _ => FailSend(b, ep, reg, [], SendIo(WriteFailure))
  }

  ghost function PollWrite(b: Outgoing, ep: Endpoint, reg: Flows, io: WriteIo): SendStep
    requires SenderOk(b.sender)
  {
    match Prepared(b.sender, ep, b.key)
    case Err(e) => FailSend(b, ep, reg, [], e)
    case Ok(s) =>
      if !SenderOk(s) || Segment(s).None? then SendStep(b.(sender := s), ep, reg, [], Ready(Ok(Idle)))
      else
        var loaded := b.(sender := s);
        match io
        case WritePending => SendStep(loaded, ep, reg, [], Pending)
        case WriteFailed(ConnectionLost) => SendStep(loaded.(terminal := true), ep, reg, [], Ready(Err(SendIo(ConnectionLost))))
        case WriteFailed(failure) => FailSend(loaded, ep, reg, [], SendIo(failure))
        case Wrote(n) =>
          var written := Segment(s).value[..Min(n, |Segment(s).value|)];
          var a := Advance(s, ep, b.key, n);
          match a.result
          case Err(e) => FailSend(loaded.(sender := a.sender), a.ep, reg, written, e)
          case Ok(Some(index)) => SendStep(loaded.(sender := a.sender), a.ep, reg, written, Ready(Ok(CommittedMessage(index))))
          case Ok(None) => SendStep(loaded.(sender := a.sender), a.ep, reg, written, Ready(Ok(Progressed(n))))
  }

  ghost function PollSend(b: Outgoing, ep: Endpoint, reg: Flows, write: WriteIo, finish: FinishIo): SendStep
    requires SenderOk(b.sender)
  {
    if b.terminal then SendStep(b, ep, reg, [], Ready(Err(SendTerminal)))
    else if b.key !in ep.flows then FailSend(b, ep, reg, [], SendCore(UnknownFlow))
    else if b.finishing then PollFinish(b, ep, reg, finish)
    else PollWrite(b, ep, reg, write)
  }

  /** `request_finish_normal`: refuses while anything is unsent; otherwise ends the stream. */
  function RequestFinish(b: Outgoing, ep: Endpoint, finishOk: bool): (Outgoing, Result<(), SendError>)
    requires SenderOk(b.sender)
  {
    if b.terminal then (b, Err(SendTerminal))
    else if b.finishing then (b, Err(AlreadyFinishing))
    else if b.key !in ep.flows then (b, Err(SendCore(UnknownFlow)))
    else match Prepared(b.sender, ep, b.key)
      case Err(e) => (b, Err(e))
      case Ok(s) =>
        var loaded := b.(sender := s);
        if !SenderOk(s) || Segment(s).Some? then (loaded, Err(PendingData))
        else if !finishOk then (loaded, Err(SendIo(WriteFailure)))
        else (loaded.(finishing := true), Ok(()))
  }

  lemma PreparedOk(s: Sender, ep: Endpoint, key: FlowKey)
    requires SenderOk(s)
    ensures Prepared(s, ep, key).Ok? ==> SenderOk(Prepared(s, ep, key).value)
  {
  }

  // ---------------------------------------------------------------- the send state, in place

  class OutboundState {
    const header: seq<u8>
    const maxMessageBytes: nat
    var headerOffset: nat
    var next: Option<u64>
    var current: Option<Message>

    ghost function Value(): Sender
      reads this
    {
      Sender(header, headerOffset, maxMessageBytes, next, current)
    }

    ghost predicate Valid()
      reads this
    {
      SenderOk(Value())
    }

    constructor (id: FlowId, maxMessageBytes: nat)
      ensures Valid() && Value() == NewSender(id, maxMessageBytes)
    {
      header := Varint(id);
      this.maxMessageBytes := maxMessageBytes;
      headerOffset := 0;
      next := Some(0);
      current := None;
    }

    method NextSegment(endpoint: DeliveryEndpoint, key: FlowKey) returns (r: Result<Option<seq<u8>>, SendError>)
      requires Valid() && endpoint.Valid()
      modifies this`current
      ensures Valid()
      ensures match Prepared(old(Value()), endpoint.model, key)
              case Err(e) => r == Err(e) && Value() == old(Value())
              case Ok(s) => Value() == s && r == Ok(Segment(s))
    {
      hide WellFormed;
      PreparedOk(Value(), endpoint.model, key);
      if headerOffset < |header| {
        return Ok(Some(header[headerOffset..]));
      }
      if current.None? {
        var peeked := endpoint.Peek(key);
        match peeked {
          case Err(e) => return Err(SendCore(e));
          case Ok(None) => return Ok(None);
          case Ok(Some(t)) =>
            if !t.mode.ReliableOrdered? {
              return Err(SendRegistry(FlowNotReliable));
            }
            if next.None? {
              return Err(AcceptedIndexExhausted);
            }
            if t.index != next.value {
              return Err(UnexpectedAcceptedIndex(next.value, t.index));
            }
            var length := EncodePayloadLength(|t.payload|, maxMessageBytes);
            match length {
              case Err(e) => return Err(SendFraming(e));
              case Ok(octets) => current := Some(Message(t, octets, 0, 0));
            }
        }
      }
      var m := current.value;
      if m.lengthOffset < |m.length| {
        return Ok(Some(m.length[m.lengthOffset..]));
      }
      return Ok(Some(m.snapshot.payload[m.payloadOffset..]));
    }

    method AdvanceBy(bytes: nat, endpoint: DeliveryEndpoint, key: FlowKey) returns (r: Result<Option<u64>, SendError>)
      requires Valid() && endpoint.Valid() && Segment(Value()).Some?
      modifies this, endpoint
      ensures Valid() && endpoint.Valid()
      ensures Advanced(Value(), endpoint.model, r) == Advance(old(Value()), old(endpoint.model), key, bytes)
    {
      hide WellFormed;
      if bytes == 0 {
        return Err(WriteZero);
      }
      if headerOffset < |header| {
        if bytes > |header| - headerOffset {
          return Err(InvalidWriteCount);
        }
        headerOffset := headerOffset + bytes;
        return Ok(None);
      }
      var m := current.value;
      if m.lengthOffset < |m.length| {
        if bytes > |m.length| - m.lengthOffset {
          return Err(InvalidWriteCount);
        }
        m := m.(lengthOffset := m.lengthOffset + bytes);
        if m.lengthOffset < |m.length| || m.payloadOffset < |m.snapshot.payload| {
          current := Some(m);
          return Ok(None);
        }
      } else {
        if bytes > |m.snapshot.payload| - m.payloadOffset {
          return Err(InvalidWriteCount);
        }
        m := m.(payloadOffset := m.payloadOffset + bytes);
        if m.payloadOffset < |m.snapshot.payload| {
          current := Some(m);
          return Ok(None);
        }
      }
      current := None;
      var committed := endpoint.CommitCustody(key, m.snapshot.index);
      match committed {
        case Err(e) => return Err(SendCustody(e));
        case Ok(_) =>
          next := Next(m.snapshot.index);
          return Ok(Some(m.snapshot.index));
      }
    }
  }

  // ---------------------------------------------------------------- the binding, in place

  class OutboundReliable {
    const id: FlowId
    const key: FlowKey
    const state: OutboundState
    var finishing: bool
    var failure: Option<Termination>
    var terminal: bool

    ghost function Value(): Outgoing
      reads this, state
    {
      Outgoing(id, key, state.Value(), finishing, failure, terminal)
    }

    ghost predicate Valid()
      reads this, state
    {
      state.Valid()
    }

    constructor (id: FlowId, flow: RegisteredFlow)
      ensures Valid() && fresh(state)
      ensures Value() == Outgoing(id, flow.key, NewSender(id, flow.maxMessageBytes), false, None, false)
    {
      this.id := id;
      key := flow.key;
      state := new OutboundState(id, flow.maxMessageBytes);
      finishing, failure, terminal := false, None, false;
    }

    method Fail(endpoint: DeliveryEndpoint, registry: AcceptedFlowRegistry, ghost written: seq<u8>, error: SendError)
      returns (r: Poll<Result<SendProgress, SendError>>)
      requires Valid() && endpoint.Valid() && !terminal
      modifies this, endpoint, registry
      ensures endpoint.Valid() && Valid()
      ensures SendStep(Value(), endpoint.model, registry.flows, written, r)
           == FailSend(old(Value()), old(endpoint.model), old(registry.flows), written, error)
    {
      hide WellFormed, FailCustody, Terminate;
      var t := endpoint.FailReliableCustody(key);
      failure := match t case Ok(value) => Some(value) case Err(_) => None;
      registry.Release(id);
      terminal := true;
      return Ready(Err(error));
    }

    method PollStep(endpoint: DeliveryEndpoint, registry: AcceptedFlowRegistry, write: WriteIo, finish: FinishIo)
      returns (written: seq<u8>, r: Poll<Result<SendProgress, SendError>>)
      requires Valid() && endpoint.Valid()
      modifies this, state, endpoint, registry
      ensures Valid() && endpoint.Valid()
      ensures SendStep(Value(), endpoint.model, registry.flows, written, r)
           == PollSend(old(Value()), old(endpoint.model), old(registry.flows), write, finish)
    {
      hide WellFormed, FailCustody, Terminate, Prepared, Advance, Segment;
      written := [];
      if terminal {
        r := Ready(Err(SendTerminal));
        return;
      }
      var contract := endpoint.FlowContract(key);
      if contract.None? {
        r := Fail(endpoint, registry, [], SendCore(UnknownFlow));
        return;
      }
      if finishing {
        r := StepFinish(endpoint, registry, finish);
        return;
      }
      written, r := StepWrite(endpoint, registry, write);
    }

    method StepFinish(endpoint: DeliveryEndpoint, registry: AcceptedFlowRegistry, io: FinishIo)
      returns (r: Poll<Result<SendProgress, SendError>>)
      requires Valid() && endpoint.Valid() && !terminal
      modifies this, endpoint, registry
      ensures Valid() && endpoint.Valid()
      ensures SendStep(Value(), endpoint.model, registry.flows, [], r)
           == PollFinish(old(Value()), old(endpoint.model), old(registry.flows), io)
    {
      hide WellFormed, FailCustody, Terminate;
      var peeked := endpoint.Peek(key);
      match peeked {
        case Err(e) =>
          r := Fail(endpoint, registry, [], SendCore(e));
          return;
        case Ok(Some(_)) =>
          r := Fail(endpoint, registry, [], PendingData);
          return;
        case Ok(None) =>
      }
      match io {
        case FinishPending => return Pending;
        case FinishAcked =>
          var terminated := endpoint.TerminateFlow(key, Requested);
          match terminated {
            case Err(e) =>
              TerminateErr(old(endpoint.model), key);
              r := Fail(endpoint, registry, [], SendCore(e));
            case Ok(t) =>
              registry.Release(id);
              finishing := false;
              terminal := true;
              r := Ready(Ok(SenderClosed(t)));
          }
        case FinishFailed(ConnectionLost) =>
          terminal := true;
          r := Ready(Err(SendIo(ConnectionLost)));
        case _ => r := Fail(endpoint, registry, [], SendIo(WriteFailure));
      }
    }

    method StepWrite(endpoint: DeliveryEndpoint, registry: AcceptedFlowRegistry, io: WriteIo)
      returns (written: seq<u8>, r: Poll<Result<SendProgress, SendError>>)
      requires Valid() && endpoint.Valid() && !terminal
      modifies this, state, endpoint, registry
      ensures Valid() && endpoint.Valid()
      ensures SendStep(Value(), endpoint.model, registry.flows, written, r)
           == PollWrite(old(Value()), old(endpoint.model), old(registry.flows), io)
    {
      hide WellFormed, FailCustody, Prepared, Advance, Segment;
      written := [];
      PreparedOk(state.Value(), endpoint.model, key);
      var next := state.NextSegment(endpoint, key);
      match next {
        case Err(e) =>
          r := Fail(endpoint, registry, [], e);
          return;
        case Ok(None) =>
          r := Ready(Ok(Idle));
          return;
        case Ok(Some(segment)) =>
          match io {
            case WritePending => r := Pending;
            case WriteFailed(ConnectionLost) =>
              terminal := true;
              r := Ready(Err(SendIo(ConnectionLost)));
            case WriteFailed(failure) => r := Fail(endpoint, registry, [], SendIo(failure));
            case Wrote(n) =>
              written := segment[..Min(n, |segment|)];
              AdvanceZero(state.Value(), endpoint.model, key);
              var advanced := state.AdvanceBy(n, endpoint, key);
              match advanced {
                case Err(e) => r := Fail(endpoint, registry, written, e);
                case Ok(Some(index)) => r := Ready(Ok(CommittedMessage(index)));
                case Ok(None) => r := Ready(Ok(Progressed(n)));
              }
          }
      }
    }

    method RequestFinishNormal(endpoint: DeliveryEndpoint, finishOk: bool) returns (r: Result<(), SendError>)
      requires Valid() && endpoint.Valid()
      modifies this, state
      ensures Valid() && (Value(), r) == RequestFinish(old(Value()), endpoint.model, finishOk)
    {
      hide WellFormed, Prepared, Segment;
      if terminal {
        return Err(SendTerminal);
      }
      if finishing {
        return Err(AlreadyFinishing);
      }
      var contract := endpoint.FlowContract(key);
      if contract.None? {
        return Err(SendCore(UnknownFlow));
      }
      PreparedOk(state.Value(), endpoint.model, key);
      var next := state.NextSegment(endpoint, key);
      match next {
        case Err(e) => return Err(e);
        case Ok(Some(_)) => return Err(PendingData);
        case Ok(None) =>
          if !finishOk {
            return Err(SendIo(WriteFailure));
          }
          finishing := true;
          return Ok(());
      }
    }
  }

  /** A write of zero octets is the failure the binding reports without consulting the state. */
  lemma AdvanceZero(s: Sender, ep: Endpoint, key: FlowKey)
    requires SenderOk(s) && Segment(s).Some?
    ensures Advance(s, ep, key, 0) == Advanced(s, ep, Err(WriteZero))
  {
  }

  lemma TerminateErr(ep: Endpoint, key: FlowKey)
    ensures Terminate(ep, key, Requested).1.Err? ==> Terminate(ep, key, Requested).0 == ep
  {
  }
}
