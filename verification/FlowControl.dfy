/** One side's flow-control state: FlowId cursors, flows waiting for the peer's or the host's answer,
    and the registry of active flows. */
module FlowControls {
  import opened Basics
  import opened Wire
  import opened Delivery
  import opened Core
  import opened CoreInvariant
  import opened ControlBody
  import opened DeliveryEndpoints
  import opened Registry
  import opened Envelope

  datatype Settings = Settings(maxActiveIncoming: nonzero, maxIncomingMessage: nonzero)

  datatype PendingOut = PendingOut(key: FlowKey, mode: Mode, policy: Policy, limits: Limits, stableMax: nonzero)

  datatype PendingIn = PendingIn(id: FlowId, mode: Mode, maxMessageBytes: nonzero)

  datatype Control = Control(connection: u64, side: Side, local: Settings, peer: Settings,
                             localNext: CursorNext, peerNext: CursorNext,
                             pendingOut: map<FlowId, PendingOut>, pendingIn: Option<PendingIn>, reg: Flows)
  {
    function Capacity(): nat {
      local.maxActiveIncoming + peer.maxActiveIncoming
    }
  }

  function NewControl(connection: u64, side: Side, local: Settings, peer: Settings): Control {
    Control(connection, side, local, peer, Some(0), Some(0), map[], None, map[])
  }

  datatype Established = Established(id: FlowId, key: FlowKey, mode: Mode, maxMessageBytes: nonzero)

  datatype OpenRequest = OpenRequest(key: FlowKey, mode: Mode, policy: Policy, stableMax: nonzero, limits: Limits)

  datatype OpenError =
    | OpenWrongConnection
    | OpenWrongDirection
    | OpenInvalidPolicy(policyError: PolicyError)
    | CoreFlowAlreadyExists
    | PendingCoreFlow
    | StableMessageLimitMismatch
    | StableMessageLimitOutOfRange
    | PeerMessageLimit
    | PeerActiveFlowLimit(inUse: nat)
    | DatagramUnavailable
    | DatagramTooSmall(needed: nat, available: nat)
    | DatagramEnvelope(envelopeError: EnvelopeError)
    | OpenFlowId(cursorError: CursorError)

  datatype Progress =
    | InboundOpen(request: PendingIn)
    | InboundRejected(id: FlowId, rejectReason: RejectReason)
    | OutboundEstablished(flow: Established)
    | OutboundRejected(id: FlowId, key: FlowKey, rejectReason: RejectReason)
    | OutboundFailedAfterAccept(id: FlowId, key: FlowKey, rollback: Option<Termination>)
    | RemoteTerminated(flow: Established, reason: TerminateReason, termination: Termination)

  datatype ControlError =
    | InboundDecisionPending(id: FlowId)
    | UnexpectedFrame
    | BadBody(bodyError: BodyError)
    | BadFlowId(cursorError: CursorError)
    | WrongResponseSide(expectedSide: Side, receivedSide: Side)
    | UnknownPendingFlow(id: FlowId)
    | UnknownActiveFlow(id: FlowId)
    | ReliableNormalUsesFin(id: FlowId)
    | CoreState(opError: OpError)
    | LocalEstablishment(establishError: EstablishError)
    | RegistryFailure(registryError: RegistryError)

  datatype Admission = Admission(key: FlowKey, policy: Policy, limits: Limits)

  datatype Resolution = AcceptedInbound(flow: Established) | RejectedInbound(id: FlowId, rejectReason: RejectReason)

  datatype AdmissionError =
    | RequestNotPending
    | AdmitWrongConnection
    | AdmitWrongDirection
    | AdmitInvalidPolicy(policyError: PolicyError)
    | AdmitEstablishment(establishError: EstablishError)
    | AdmitRegistry(registryError: RegistryError)
    | CoreRollback(opError: OpError)

  datatype LocalTermination = LocalTermination(flow: Established, reason: TerminateReason, termination: Termination)

  /** State and Core after one operation, with its result. */
  datatype Done<+R> = Done(control: Control, ep: Endpoint, result: R)

  /** The frame an outcome obliges this side to send. */
  function ReplyTo(p: Progress): Option<ControlMsg> {
    match p
    case InboundRejected(id, reason) => Some(Reject(id, reason))
    case OutboundFailedAfterAccept(id, _, _) => Some(ControlMsg.Terminate(id, ResourceFailure))
    case _ => None
  }

  function ResolutionFrame(r: Resolution): ControlMsg {
    match r
    case AcceptedInbound(flow) => Accept(flow.id)
    case RejectedInbound(id, reason) => Reject(id, reason)
  }

  function EstablishedOf(id: FlowId, f: RegisteredFlow): Established {
    Established(id, f.key, f.mode, f.maxMessageBytes)
  }

  // ---------------------------------------------------------------- opening

  function OpenSequence(mode: Mode): Option<u64> {
    if mode.UnreliableSequenced? then Some(MAX_VARINT) else None
  }

  /** Why a request to open is refused, checked in this order; nothing is consumed by a refusal. */
  function OpenRefusal(c: Control, ep: Endpoint, q: OpenRequest, datagram: Option<nat>): Option<OpenError> {
    var inUse := |ActiveIds(c.reg, Outbound)| + |c.pendingOut|;
    if q.key.connection != c.connection then Some(OpenWrongConnection)
    else if !q.key.direction.Outbound? then Some(OpenWrongDirection)
    else if q.key in ep.flows then Some(CoreFlowAlreadyExists)
    else if exists id :: id in c.pendingOut && c.pendingOut[id].key == q.key then Some(PendingCoreFlow)
    else if q.policy.ValidateFor(q.mode).Some? then Some(OpenInvalidPolicy(q.policy.ValidateFor(q.mode).value))
    else if q.policy.maxMessageBytes != q.stableMax then Some(StableMessageLimitMismatch)
    else if q.stableMax > MAX_VARINT then Some(StableMessageLimitOutOfRange)
    else if q.stableMax > c.peer.maxIncomingMessage then Some(PeerMessageLimit)
    else if inUse >= c.peer.maxActiveIncoming then Some(PeerActiveFlowLimit(inUse))
    else if c.localNext.None? then Some(OpenFlowId(Exhausted))
    else if q.mode.ReliableOrdered? then None
    else match DatagramLen(FlowIdOf(c.side, c.localNext.value), q.mode, OpenSequence(q.mode), q.stableMax)
      case Err(e) => Some(DatagramEnvelope(e))
      case Ok(needed) =>
        if datagram.None? then Some(DatagramUnavailable)
        else if needed > datagram.value then Some(DatagramTooSmall(needed, datagram.value))
        else None
  }

  function PrepareOpen(c: Control, ep: Endpoint, q: OpenRequest, datagram: Option<nat>): (Control, Result<ControlMsg, OpenError>)
    ensures PrepareOpen(c, ep, q, datagram).1.Ok? ==> Representable(PrepareOpen(c, ep, q, datagram).1.value)
  {
    match OpenRefusal(c, ep, q, datagram)
    case Some(e) => (c, Err(e))
    case None =>
      var s := c.localNext.value;
      var id := FlowIdOf(c.side, s);
      (c.(localNext := AfterSequence(s), pendingOut := c.pendingOut[id := PendingOut(q.key, q.mode, q.policy, q.limits, q.stableMax)]),
       Ok(Open(id, q.mode, q.stableMax)))
  }

  // ---------------------------------------------------------------- receiving

  function HandleOpen(c: Control, ep: Endpoint, id: FlowId, mode: Mode, max: nonzero): Done<Result<Progress, ControlError>> {
    if c.pendingIn.Some? then Done(c, ep, Err(InboundDecisionPending(c.pendingIn.value.id)))
    else match AdmitId(Opposite(c.side), c.peerNext, id)
      case Err(e) => Done(c, ep, Err(BadFlowId(e)))
      case Ok(next) =>
        var consumed := c.(peerNext := next);
        if max > c.local.maxIncomingMessage then Done(consumed, ep, Ok(InboundRejected(id, MessageLimit)))
        else if |ActiveIds(c.reg, Inbound)| >= c.local.maxActiveIncoming then Done(consumed, ep, Ok(InboundRejected(id, ResourceLimit)))
        else
          var request := PendingIn(id, mode, max);
          Done(consumed.(pendingIn := Some(request)), ep, Ok(InboundOpen(request)))
  }

  ghost function HandleAccept(c: Control, ep: Endpoint, id: FlowId): Done<Result<Progress, ControlError>> {
    if SideOf(id) != c.side then Done(c, ep, Err(WrongResponseSide(c.side, SideOf(id))))
    else if id !in c.pendingOut then Done(c, ep, Err(UnknownPendingFlow(id)))
    else
      var p := c.pendingOut[id];
      var taken := c.(pendingOut := c.pendingOut - {id});
      var (admitted, r) := Establish(ep, p.key, p.mode, p.policy, p.limits);
      match r
      case Err(ActiveFlowLimitExceeded(_)) => Done(taken, ep, Ok(OutboundFailedAfterAccept(id, p.key, None)))
      case Err(e) => Done(taken, ep, Err(LocalEstablishment(e)))
      case Ok(_) =>
        match Register(c.reg, c.side, c.Capacity(), admitted, id, p.key, p.stableMax)
        case Ok(reg) => Done(taken.(reg := reg), admitted, Ok(OutboundEstablished(Established(id, p.key, p.mode, p.stableMax))))
        case Err(CapacityExceeded) =>
          var (closed, t) := Core.Terminate(admitted, p.key, Requested);
          if t.Err? then Done(taken, closed, Err(CoreState(t.error)))
          else Done(taken, closed, Ok(OutboundFailedAfterAccept(id, p.key, Some(t.value))))
        case Err(e) =>
          var (closed, t) := Core.Terminate(admitted, p.key, Requested);
          Done(taken, closed, Err(if t.Err? then CoreState(t.error) else RegistryFailure(e)))
  }

  function HandleReject(c: Control, ep: Endpoint, id: FlowId, reason: RejectReason): Done<Result<Progress, ControlError>> {
    if SideOf(id) != c.side then Done(c, ep, Err(WrongResponseSide(c.side, SideOf(id))))
    else if id !in c.pendingOut then Done(c, ep, Err(UnknownPendingFlow(id)))
    else Done(c.(pendingOut := c.pendingOut - {id}), ep, Ok(OutboundRejected(id, c.pendingOut[id].key, reason)))
  }

  ghost function HandleTerminate(c: Control, ep: Endpoint, id: FlowId, reason: TerminateReason): Done<Result<Progress, ControlError>> {
    if id !in c.reg then Done(c, ep, Err(UnknownActiveFlow(id)))
    else if c.reg[id].mode.ReliableOrdered? && reason.Normal? then Done(c, ep, Err(ReliableNormalUsesFin(id)))
    else
      var (closed, t) := Core.Terminate(ep, c.reg[id].key, Requested);
      match t
      case Err(e) => Done(c, closed, Err(CoreState(e)))
      case Ok(termination) =>
        Done(c.(reg := c.reg - {id}), closed, Ok(RemoteTerminated(EstablishedOf(id, c.reg[id]), reason, termination)))
  }

  ghost function Handle(c: Control, ep: Endpoint, m: ControlMsg): Done<Result<Progress, ControlError>>
    requires Representable(m)
  {
    match m
    case Open(id, mode, max) => HandleOpen(c, ep, id, mode, max)
    case Accept(id) => HandleAccept(c, ep, id)
    case Reject(id, reason) => HandleReject(c, ep, id, reason)
    case Terminate(id, reason) => HandleTerminate(c, ep, id, reason)
  }

  /** One received frame. A second OPEN while a decision is pending is refused before it is decoded. */
  ghost function ReceiveControl(c: Control, ep: Endpoint, frame: ControlFrame): Done<Result<Progress, ControlError>> {
    if frame.frameType.OtherFrame? then Done(c, ep, Err(UnexpectedFrame))
    else if frame.frameType.OpenFlow? && c.pendingIn.Some? then Done(c, ep, Err(InboundDecisionPending(c.pendingIn.value.id)))
    else match DecodeBody(frame.frameType, frame.body)
      case Err(e) => Done(c, ep, Err(BadBody(e)))
      case Ok(m) => Handle(c, ep, m)
  }

  // ---------------------------------------------------------------- deciding and terminating

  function RejectPending(c: Control, ep: Endpoint, q: PendingIn, reason: RejectReason): Done<Result<Resolution, AdmissionError>> {
    if c.pendingIn != Some(q) then Done(c, ep, Err(RequestNotPending))
    else Done(c.(pendingIn := None), ep, Ok(RejectedInbound(q.id, reason)))
  }

  ghost function AcceptPending(c: Control, ep: Endpoint, q: PendingIn, a: Admission): Done<Result<Resolution, AdmissionError>> {
    var cleared := c.(pendingIn := None);
    if c.pendingIn != Some(q) then Done(c, ep, Err(RequestNotPending))
    else if a.key.connection != c.connection then Done(cleared, ep, Err(AdmitWrongConnection))
    else if !a.key.direction.Inbound? then Done(cleared, ep, Err(AdmitWrongDirection))
    else if a.policy.ValidateFor(q.mode).Some? then Done(cleared, ep, Err(AdmitInvalidPolicy(a.policy.ValidateFor(q.mode).value)))
    else if q.maxMessageBytes > a.policy.maxMessageBytes then Done(cleared, ep, Ok(RejectedInbound(q.id, MessageLimit)))
    else if |ActiveIds(c.reg, Inbound)| >= c.local.maxActiveIncoming then Done(cleared, ep, Ok(RejectedInbound(q.id, ResourceLimit)))
    else
      var (admitted, r) := Establish(ep, a.key, q.mode, a.policy, a.limits);
      match r
      case Err(ActiveFlowLimitExceeded(_)) => Done(cleared, ep, Ok(RejectedInbound(q.id, ResourceLimit)))
      case Err(e) => Done(cleared, ep, Err(AdmitEstablishment(e)))
      case Ok(_) =>
        match Register(c.reg, c.side, c.Capacity(), admitted, q.id, a.key, q.maxMessageBytes)
        case Ok(reg) =>
          Done(cleared.(reg := reg), admitted, Ok(AcceptedInbound(Established(q.id, a.key, q.mode, q.maxMessageBytes))))
        case Err(CapacityExceeded) =>
          var (closed, t) := Core.Terminate(admitted, a.key, Requested);
          Done(cleared, closed, if t.Err? then Err(CoreRollback(t.error)) else Ok(RejectedInbound(q.id, ResourceLimit)))
        case Err(e) =>
          var (closed, t) := Core.Terminate(admitted, a.key, Requested);
          Done(cleared, closed, Err(if t.Err? then CoreRollback(t.error) else AdmitRegistry(e)))
  }

  ghost function TerminateLocal(c: Control, ep: Endpoint, id: FlowId, reason: TerminateReason): Done<Result<LocalTermination, ControlError>> {
    if id !in c.reg then Done(c, ep, Err(UnknownActiveFlow(id)))
    else if c.reg[id].mode.ReliableOrdered? && reason.Normal? then Done(c, ep, Err(ReliableNormalUsesFin(id)))
    else
      var (closed, t) := Core.Terminate(ep, c.reg[id].key, Requested);
      match t
      case Err(e) => Done(c, closed, Err(CoreState(e)))
      case Ok(termination) =>
        Done(c.(reg := c.reg - {id}), closed, Ok(LocalTermination(EstablishedOf(id, c.reg[id]), reason, termination)))
  }

  // ---------------------------------------------------------------- the state in place

  class FlowControl {
    const connection: u64
    const local: Settings
    const peer: Settings
    const localIds: FlowIdCursor
    const peerIds: FlowIdCursor
    const registry: AcceptedFlowRegistry
    var pendingOut: map<FlowId, PendingOut>
    var pendingIn: Option<PendingIn>

    ghost function Parts(): set<object> {
      {this, localIds, peerIds, registry}
    }

    ghost predicate Valid()
      reads Parts()
    {
      && localIds != peerIds && peerIds.side == Opposite(localIds.side)
      && registry.localSide == localIds.side && registry.capacity == Value().Capacity()
    }

    ghost function Value(): Control
      reads Parts()
    {
      Control(connection, localIds.side, local, peer, localIds.next, peerIds.next, pendingOut, pendingIn, registry.flows)
    }

    constructor (connection: u64, side: Side, local: Settings, peer: Settings)
      ensures Valid() && fresh(localIds) && fresh(peerIds) && fresh(registry) && Value() == NewControl(connection, side, local, peer)
    {
      this.connection := connection;
      this.local, this.peer := local, peer;
      localIds := new FlowIdCursor(side);
      peerIds := new FlowIdCursor(Opposite(side));
      registry := new AcceptedFlowRegistry(side, local.maxActiveIncoming + peer.maxActiveIncoming);
      pendingOut, pendingIn := map[], None;
    }

    method PrepareOutboundOpen(endpoint: DeliveryEndpoint, q: OpenRequest, datagram: Option<nat>) returns (r: Result<ControlFrame, OpenError>)
      requires Valid() && endpoint.Valid()
      modifies this, localIds
      ensures Valid()
      ensures var (after, m) := PrepareOpen(old(Value()), endpoint.model, q, datagram);
              Value() == after && r == match m case Err(e) => Err(e) case Ok(open) => Ok(FrameOf(open))
    {
      hide WellFormed, BodyOf;
      var contract := endpoint.FlowContract(q.key);
      var refusal := Refusal(contract.Some?, q, datagram, endpoint.model);
      if refusal.Some? {
        return Err(refusal.value);
      }
      var given := localIds.Allocate();
      var id := given.value;
      pendingOut := pendingOut[id := PendingOut(q.key, q.mode, q.policy, q.limits, q.stableMax)];
      return Ok(FrameOf(Open(id, q.mode, q.stableMax)));
    }

    method Refusal(known: bool, q: OpenRequest, datagram: Option<nat>, ghost ep: Endpoint) returns (refusal: Option<OpenError>)
      requires Valid() && known == (q.key in ep.flows)
      ensures refusal == OpenRefusal(Value(), ep, q, datagram)
    {
      if q.key.connection != connection {
        return Some(OpenWrongConnection);
      }
      if !q.key.direction.Outbound? {
        return Some(OpenWrongDirection);
      }
      if known {
        return Some(CoreFlowAlreadyExists);
      }
      if exists id :: id in pendingOut && pendingOut[id].key == q.key {
        return Some(PendingCoreFlow);
      }
      var invalid := q.policy.ValidateFor(q.mode);
      if invalid.Some? {
        return Some(OpenInvalidPolicy(invalid.value));
      }
      if q.policy.maxMessageBytes != q.stableMax {
        return Some(StableMessageLimitMismatch);
      }
      if q.stableMax > MAX_VARINT {
        return Some(StableMessageLimitOutOfRange);
      }
      if q.stableMax > peer.maxIncomingMessage {
        return Some(PeerMessageLimit);
      }
      var inUse := |ActiveIds(registry.flows, Outbound)| + |pendingOut|;
      if inUse >= peer.maxActiveIncoming {
        return Some(PeerActiveFlowLimit(inUse));
      }
      if localIds.next.None? {
        return Some(OpenFlowId(Exhausted));
      }
      if !q.mode.ReliableOrdered? {
        var needed := DatagramLen(FlowIdOf(localIds.side, localIds.next.value), q.mode, OpenSequence(q.mode), q.stableMax);
        if needed.Err? {
          return Some(DatagramEnvelope(needed.error));
        }
        if datagram.None? {
          return Some(DatagramUnavailable);
        }
        if needed.value > datagram.value {
          return Some(DatagramTooSmall(needed.value, datagram.value));
        }
      }
      return None;
    }

    /** Receive one frame; when the outcome obliges a reply, its frame comes back as well. */
    method ReceiveFrame(endpoint: DeliveryEndpoint, frame: ControlFrame) returns (r: Result<Progress, ControlError>, reply: Option<ControlFrame>)
      requires Valid() && endpoint.Valid()
      modifies Parts(), endpoint
      ensures Valid() && endpoint.Valid()
      ensures Done(Value(), endpoint.model, r) == ReceiveControl(old(Value()), old(endpoint.model), frame)
      ensures reply == if r.Ok? && ReplyTo(r.value).Some? then Some(FrameOf(ReplyTo(r.value).value)) else None
    {
      hide WellFormed, HandleOpen, HandleAccept, HandleReject, HandleTerminate, BodyOf, DecodeBody;
      reply := None;
      if frame.frameType.OtherFrame? {
        r := Err(UnexpectedFrame);
        return;
      }
      if frame.frameType.OpenFlow? && pendingIn.Some? {
        r := Err(InboundDecisionPending(pendingIn.value.id));
        return;
      }
      var decoded := DecodeBody(frame.frameType, frame.body);
      match decoded {
        case Err(e) => r := Err(BadBody(e));
        case Ok(m) =>
          assert Representable(m) by { BodyBijection(frame.frameType, frame.body, m); }
          match m {
            case Open(id, mode, max) => r := ReceiveOpen(endpoint, id, mode, max);
            case Accept(id) => r := ReceiveAccept(endpoint, id);
            case Reject(id, reason) => r := ReceiveReject(endpoint, id, reason);
            case Terminate(id, reason) => r := ReceiveTerminate(endpoint, id, reason);
          }
      }
      if r.Ok? && ReplyTo(r.value).Some? {
        reply := Some(FrameOf(ReplyTo(r.value).value));
      }
    }

    method ReceiveOpen(endpoint: DeliveryEndpoint, id: FlowId, mode: Mode, max: nonzero) returns (r: Result<Progress, ControlError>)
      requires Valid() && endpoint.Valid()
      modifies this, peerIds
      ensures Valid() && Done(Value(), endpoint.model, r) == HandleOpen(old(Value()), endpoint.model, id, mode, max)
    {
      hide WellFormed;
      if pendingIn.Some? {
        return Err(InboundDecisionPending(pendingIn.value.id));
      }
      var consumed := peerIds.ValidateAndConsume(id);
      if consumed.Err? {
        return Err(BadFlowId(consumed.error));
      }
      if max > local.maxIncomingMessage {
        return Ok(InboundRejected(id, MessageLimit));
      }
      if |ActiveIds(registry.flows, Inbound)| >= local.maxActiveIncoming {
        return Ok(InboundRejected(id, ResourceLimit));
      }
      pendingIn := Some(PendingIn(id, mode, max));
      return Ok(InboundOpen(PendingIn(id, mode, max)));
    }

    method ReceiveAccept(endpoint: DeliveryEndpoint, id: FlowId) returns (r: Result<Progress, ControlError>)
      requires Valid() && endpoint.Valid()
      modifies this, registry, endpoint
      ensures Valid() && endpoint.Valid() && Done(Value(), endpoint.model, r) == HandleAccept(old(Value()), old(endpoint.model), id)
    {
      hide WellFormed, Establish, Core.Terminate, Registry.Register;
      if SideOf(id) != localIds.side {
        return Err(WrongResponseSide(localIds.side, SideOf(id)));
      }
      if id !in pendingOut {
        return Err(UnknownPendingFlow(id));
      }
      var p := pendingOut[id];
      pendingOut := pendingOut - {id};
      FailedEstablish(endpoint.model, p.key, p.mode, p.policy, p.limits);
      var admitted := endpoint.EstablishFlow(p.key, p.mode, p.policy, p.limits);
      match admitted {
        case Err(ActiveFlowLimitExceeded(_)) => return Ok(OutboundFailedAfterAccept(id, p.key, None));
        case Err(e) => return Err(LocalEstablishment(e));
        case Ok(_) =>
      }
      var registered := registry.RegisterConsumed(endpoint, id, p.key, p.stableMax);
      match registered {
        case Ok(_) => return Ok(OutboundEstablished(Established(id, p.key, p.mode, p.stableMax)));
        case Err(e) =>
          var closed := endpoint.TerminateFlow(p.key, Requested);
          match closed {
            case Err(coreError) => return Err(CoreState(coreError));
            case Ok(t) => return if e.CapacityExceeded? then Ok(OutboundFailedAfterAccept(id, p.key, Some(t))) else Err(RegistryFailure(e));
          }
      }
    }

    method ReceiveReject(endpoint: DeliveryEndpoint, id: FlowId, reason: RejectReason) returns (r: Result<Progress, ControlError>)
      requires Valid() && endpoint.Valid()
      modifies this
      ensures Valid() && Done(Value(), endpoint.model, r) == HandleReject(old(Value()), endpoint.model, id, reason)
    {
      hide WellFormed;
      if SideOf(id) != localIds.side {
        return Err(WrongResponseSide(localIds.side, SideOf(id)));
      }
      if id !in pendingOut {
        return Err(UnknownPendingFlow(id));
      }
      var p := pendingOut[id];
      pendingOut := pendingOut - {id};
      return Ok(OutboundRejected(id, p.key, reason));
    }

    method ReceiveTerminate(endpoint: DeliveryEndpoint, id: FlowId, reason: TerminateReason) returns (r: Result<Progress, ControlError>)
      requires Valid() && endpoint.Valid()
      modifies this, registry, endpoint
      ensures Valid() && endpoint.Valid() && Done(Value(), endpoint.model, r) == HandleTerminate(old(Value()), old(endpoint.model), id, reason)
    {
      hide WellFormed, Core.Terminate;
      if id !in registry.flows {
        return Err(UnknownActiveFlow(id));
      }
      var flow := registry.flows[id];
      if flow.mode.ReliableOrdered? && reason.Normal? {
        return Err(ReliableNormalUsesFin(id));
      }
      var closed := endpoint.TerminateFlow(flow.key, Requested);
      match closed {
        case Err(e) => return Err(CoreState(e));
        case Ok(t) =>
          registry.Release(id);
          return Ok(RemoteTerminated(EstablishedOf(id, flow), reason, t));
      }
    }

    method AcceptInbound(endpoint: DeliveryEndpoint, q: PendingIn, a: Admission) returns (r: Result<Resolution, AdmissionError>)
      requires Valid() && endpoint.Valid()
      modifies this, registry, endpoint
      ensures Valid() && endpoint.Valid() && Done(Value(), endpoint.model, r) == AcceptPending(old(Value()), old(endpoint.model), q, a)
    {
      hide WellFormed, Establish, Core.Terminate, Registry.Register;
      if pendingIn != Some(q) {
        return Err(RequestNotPending);
      }
      pendingIn := None;
      if a.key.connection != connection {
        return Err(AdmitWrongConnection);
      }
      if !a.key.direction.Inbound? {
        return Err(AdmitWrongDirection);
      }
      var invalid := a.policy.ValidateFor(q.mode);
      if invalid.Some? {
        return Err(AdmitInvalidPolicy(invalid.value));
      }
      if q.maxMessageBytes > a.policy.maxMessageBytes {
        return Ok(RejectedInbound(q.id, MessageLimit));
      }
      if |ActiveIds(registry.flows, Inbound)| >= local.maxActiveIncoming {
        return Ok(RejectedInbound(q.id, ResourceLimit));
      }
      FailedEstablish(endpoint.model, a.key, q.mode, a.policy, a.limits);
      var admitted := endpoint.EstablishFlow(a.key, q.mode, a.policy, a.limits);
      match admitted {
        case Err(ActiveFlowLimitExceeded(_)) => return Ok(RejectedInbound(q.id, ResourceLimit));
        case Err(e) => return Err(AdmitEstablishment(e));
        case Ok(_) =>
      }
      var registered := registry.RegisterConsumed(endpoint, q.id, a.key, q.maxMessageBytes);
      match registered {
        case Ok(_) => return Ok(AcceptedInbound(Established(q.id, a.key, q.mode, q.maxMessageBytes)));
        case Err(e) =>
          var closed := endpoint.TerminateFlow(a.key, Requested);
          match closed {
            case Err(coreError) => return Err(CoreRollback(coreError));
            case Ok(_) => return if e.CapacityExceeded? then Ok(RejectedInbound(q.id, ResourceLimit)) else Err(AdmitRegistry(e));
          }
      }
    }

    method RejectInbound(endpoint: DeliveryEndpoint, q: PendingIn, reason: RejectReason) returns (r: Result<Resolution, AdmissionError>)
      requires Valid() && endpoint.Valid()
      modifies this
      ensures Valid() && Done(Value(), endpoint.model, r) == RejectPending(old(Value()), endpoint.model, q, reason)
    {
      hide WellFormed;
      if pendingIn != Some(q) {
        return Err(RequestNotPending);
      }
      pendingIn := None;
      return Ok(RejectedInbound(q.id, reason));
    }

    method TerminateLocally(endpoint: DeliveryEndpoint, id: FlowId, reason: TerminateReason) returns (r: Result<LocalTermination, ControlError>)
      requires Valid() && endpoint.Valid()
      modifies this, registry, endpoint
      ensures Valid() && endpoint.Valid() && Done(Value(), endpoint.model, r) == TerminateLocal(old(Value()), old(endpoint.model), id, reason)
    {
      hide WellFormed, Core.Terminate;
      if id !in registry.flows {
        return Err(UnknownActiveFlow(id));
      }
      var flow := registry.flows[id];
      if flow.mode.ReliableOrdered? && reason.Normal? {
        return Err(ReliableNormalUsesFin(id));
      }
      var closed := endpoint.TerminateFlow(flow.key, Requested);
      match closed {
        case Err(e) => return Err(CoreState(e));
        case Ok(t) =>
          registry.Release(id);
          return Ok(LocalTermination(EstablishedOf(id, flow), reason, t));
      }
    }
  }

  lemma FailedEstablish(ep: Endpoint, key: FlowKey, mode: Mode, policy: Policy, limits: Limits)
    ensures Establish(ep, key, mode, policy, limits).1.Err? ==> Establish(ep, key, mode, policy, limits).0 == ep
  {
  }
}
