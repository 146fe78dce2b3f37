/** What each received control frame, each decision and each request to open is answered with, frame by
    frame and error by error, for a side in any reachable state. */
module FlowAnswers {
  import opened Basics
  import opened Wire
  import opened Delivery
  import opened Core
  import opened CoreInvariant
  import opened CoreAnswers
  import opened ControlBody
  import opened Registry
  import opened Envelope
  import opened FlowControls
  import opened FlowNode

  // ---------------------------------------------------------------- received frames

  /** What arrives at the control decoder without being one of its messages is refused and changes nothing; an
      OPEN is refused unread while another one waits for the host. */
  lemma UnreadableFrame(n: Node, frame: ControlFrame)
    ensures var d := ReceiveControl(n.c, n.ep, frame);
            && (d.result == Err(UnexpectedFrame) <==> frame.frameType.OtherFrame?)
            && (d.result.Err? && d.result.error.InboundDecisionPending? <==> frame.frameType.OpenFlow? && n.c.pendingIn.Some?)
            && (d.result.Err? && d.result.error.InboundDecisionPending? ==> d.result.error.id == n.c.pendingIn.value.id)
            && (d.result.Err? && d.result.error.BadBody? <==>
                  !frame.frameType.OtherFrame? && !(frame.frameType.OpenFlow? && n.c.pendingIn.Some?) && DecodeBody(frame.frameType, frame.body).Err?)
            && (d.result.Err? && (d.result.error.UnexpectedFrame? || d.result.error.InboundDecisionPending? || d.result.error.BadBody?) ==>
                  d.control == n.c && d.ep == n.ep)
  {
    hide Establish, Core.Terminate, Register, DecodeBody;
    if !frame.frameType.OtherFrame? && !(frame.frameType.OpenFlow? && n.c.pendingIn.Some?) && DecodeBody(frame.frameType, frame.body).Ok? {
      KindIsKept(frame.frameType, frame.body);
      HandledOtherwise(n, DecodeBody(frame.frameType, frame.body).value);
    }
  }

  lemma KindIsKept(kind: FrameType, body: seq<u8>)
    requires !kind.OtherFrame? && DecodeBody(kind, body).Ok?
    ensures Representable(DecodeBody(kind, body).value)
    ensures DecodeBody(kind, body).value.Open? ==> kind.OpenFlow?
  {
    BodyBijection(kind, body, DecodeBody(kind, body).value);
    hide DecodeVarint;
  }

  lemma HandledOtherwise(n: Node, m: ControlMsg)
    requires Representable(m) && !(m.Open? && n.c.pendingIn.Some?)
    ensures var r := Handle(n.c, n.ep, m).result;
            r.Err? ==> !r.error.UnexpectedFrame? && !r.error.InboundDecisionPending? && !r.error.BadBody?
  {
    hide Establish, Core.Terminate, Register;
  }

  /** The peer's next FlowId in sequence. */
  predicate NextFromPeer(c: Control, id: FlowId) {
    SideOf(id) != c.side && c.peerNext == Some(SequenceOf(id))
  }

  /** An OPEN under the peer's next FlowId uses that FlowId up and either is put before the host with the
      frame's own terms, or is rejected: for its maximum exactly if that exceeds what this side announced,
      otherwise for resources exactly if as many inbound flows are active as this side announced. The
      rejection is sent with the same FlowId and reason. */
  lemma OpenReport(n: Node, id: FlowId, mode: Mode, max: nonzero)
    requires NodeInv(n) && n.c.pendingIn.None? && NextFromPeer(n.c, id) && Representable(Open(id, mode, max))
    ensures var d := ReceiveControl(n.c, n.ep, FrameOf(Open(id, mode, max)));
            var passed := n.c.(peerNext := if SequenceOf(id) == MAX_FLOW_SEQUENCE then None else Some(SequenceOf(id) + 1));
            var full := |ActiveIds(n.c.reg, Inbound)| == n.c.local.maxActiveIncoming;
            && d.ep == n.ep && d.result.Ok?
            && (d.result.value == InboundRejected(id, MessageLimit) <==> max > n.c.local.maxIncomingMessage)
            && (d.result.value == InboundRejected(id, ResourceLimit) <==> max <= n.c.local.maxIncomingMessage && full)
            && (d.result.value == InboundOpen(PendingIn(id, mode, max)) <==> max <= n.c.local.maxIncomingMessage && !full)
            && d.control == (if d.result.value.InboundOpen? then passed.(pendingIn := Some(PendingIn(id, mode, max))) else passed)
            && (d.result.value.InboundRejected? ==> ReplyTo(d.result.value) == Some(Reject(id, d.result.value.rejectReason)))
            && (d.result.value.InboundOpen? ==> ReplyTo(d.result.value) == None)
  {
    hide WellFormed, PendingOk, RegistryOk, DistinctKeys, AllGone, EndedOnce, ReceiveControl, FrameOf, BodyOf, HandleAccept, HandleReject, HandleTerminate;
    TakeDecodes(n, Open(id, mode, max));
  }

  /** Any other OPEN is refused for its FlowId and changes nothing. */
  lemma StrayOpen(n: Node, id: FlowId, mode: Mode, max: nonzero)
    requires n.c.pendingIn.None? && !NextFromPeer(n.c, id) && Representable(Open(id, mode, max))
    ensures ReceiveControl(n.c, n.ep, FrameOf(Open(id, mode, max))) ==
              Done(n.c, n.ep, Err(BadFlowId(if n.c.peerNext.None? then Exhausted
                                            else if SideOf(id) == n.c.side then WrongSide(Opposite(n.c.side), n.c.side)
                                            else UnexpectedSequence(n.c.peerNext.value, SequenceOf(id)))))
  {
    TakeDecodes(n, Open(id, mode, max));
    hide ReceiveControl, FrameOf, BodyOf;
  }

  /** Core still has room for the flow asked for, in the endpoint and in its connection. */
  predicate CoreHasRoom(ep: Endpoint, key: FlowKey, limits: Limits) {
    |ep.flows| < ep.aggregate.maxFlows && |Members(OfConnection(key.connection), ep.flows)| < limits.maxFlows
  }

  /** The host runs the connection under other limits. */
  predicate OtherLimits(ep: Endpoint, key: FlowKey, limits: Limits) {
    key.connection in ep.connections && ep.connections[key.connection] != limits
  }

  /** An ACCEPT for a FlowId that was asked for establishes exactly what was asked for if Core has room and
      the host left the key and the limits alone; if Core has no room the flow is reported failed and the peer
      is told so. In every case the FlowId is no longer waited for. */
  lemma AcceptReport(n: Node, id: FlowId)
    requires NodeInv(n) && id in n.c.pendingOut && SideOf(id) == n.c.side
    ensures var d := ReceiveControl(n.c, n.ep, FrameOf(Accept(id)));
            var p := n.c.pendingOut[id];
            var taken := n.c.(pendingOut := n.c.pendingOut - {id});
            var free := p.key !in n.ep.flows && |n.ep.flows| < n.ep.aggregate.maxFlows && !OtherLimits(n.ep, p.key, p.limits);
            && (d.result == Ok(OutboundEstablished(Established(id, p.key, p.mode, p.stableMax))) <==>
                  free && CoreHasRoom(n.ep, p.key, p.limits))
            && (d.result == Ok(OutboundFailedAfterAccept(id, p.key, None)) <==>
                  p.key !in n.ep.flows && !CoreHasRoom(n.ep, p.key, p.limits)
                  && (|n.ep.flows| < n.ep.aggregate.maxFlows ==> !OtherLimits(n.ep, p.key, p.limits)))
            && (d.result == Err(LocalEstablishment(FlowAlreadyExists)) <==> p.key in n.ep.flows)
            && (d.result == Err(LocalEstablishment(ConnectionLimitsMismatch)) <==>
                  p.key !in n.ep.flows && |n.ep.flows| < n.ep.aggregate.maxFlows && OtherLimits(n.ep, p.key, p.limits))
            && (d.result.Ok? && d.result.value.OutboundEstablished? ==>
                  && d.control == taken.(reg := n.c.reg[id := RegisteredFlow(p.key, p.mode, p.stableMax, NewAssociation(p.mode))])
                  && p.key in d.ep.flows && d.ep.flows[p.key].mode == p.mode && d.ep.flows[p.key].policy == p.policy
                  && ReplyTo(d.result.value) == None)
            && (!(d.result.Ok? && d.result.value.OutboundEstablished?) ==> d.control == taken && d.ep == n.ep)
            && (d.result.Ok? && d.result.value.OutboundFailedAfterAccept? ==>
                  ReplyTo(d.result.value) == Some(ControlMsg.Terminate(id, ResourceFailure)))
  {
    hide NodeInv, Establish, Register, ReceiveControl, FrameOf, BodyOf, HandleAccept, HostPrevents, WellFormed;
    var p := n.c.pendingOut[id];
    TakeDecodes(n, Accept(id));
    AcceptOutcomes(n, id);
    assert PendingOutOk(n.c, id, p) by { PendingFacts(n, id); }
    EstablishAnswers(n.ep, p.key, p.mode, p.policy, p.limits);
    AcceptFollows(n, id);
  }

  /** The outcome of an ACCEPT is that of establishing the flow in Core. */
  lemma AcceptFollows(n: Node, id: FlowId)
    requires NodeInv(n) && id in n.c.pendingOut && SideOf(id) == n.c.side
    ensures var p := n.c.pendingOut[id];
            var r := Establish(n.ep, p.key, p.mode, p.policy, p.limits).1;
            var d := HandleAccept(n.c, n.ep, id);
            && (r.Ok? ==> d.result == Ok(OutboundEstablished(Established(id, p.key, p.mode, p.stableMax))))
            && (r.Err? && r.error.ActiveFlowLimitExceeded? ==> d.result == Ok(OutboundFailedAfterAccept(id, p.key, None)))
            && (r.Err? && !r.error.ActiveFlowLimitExceeded? ==> d.result == Err(LocalEstablishment(r.error)) && d.ep == n.ep && d.control == n.c.(pendingOut := n.c.pendingOut - {id}))
  {
    hide Establish, WellFormed, Core.Terminate;
    var p := n.c.pendingOut[id];
    EstablishIsLocal(n.ep, p.key, p.mode, p.policy, p.limits);
    CapacityNeverHit(n);
    assert PendingOutOk(n.c, id, p);
  }

  /** A REJECT for a FlowId that was asked for reports the key asked for and the peer's own reason. */
  lemma RejectReport(n: Node, id: FlowId, reason: RejectReason)
    requires id in n.c.pendingOut && SideOf(id) == n.c.side
    ensures ReceiveControl(n.c, n.ep, FrameOf(Reject(id, reason))) ==
              Done(n.c.(pendingOut := n.c.pendingOut - {id}), n.ep, Ok(OutboundRejected(id, n.c.pendingOut[id].key, reason)))
  {
    TakeDecodes(n, Reject(id, reason));
    hide ReceiveControl, FrameOf, BodyOf;
  }

  /** An answer to something never asked for, or asked by the other side, is refused and changes nothing. */
  lemma StrayAnswer(n: Node, m: ControlMsg)
    requires (m.Accept? || m.Reject?) && (SideOf(m.id) != n.c.side || m.id !in n.c.pendingOut)
    ensures ReceiveControl(n.c, n.ep, FrameOf(m)) ==
              Done(n.c, n.ep, Err(if SideOf(m.id) != n.c.side then WrongResponseSide(n.c.side, Opposite(n.c.side)) else UnknownPendingFlow(m.id)))
  {
    TakeDecodes(n, m);
    hide ReceiveControl, FrameOf, BodyOf;
  }

  /** What Core reports when a flow is ended on request: all it held, and for a reliable flow a failed
      obligation exactly if it held anything. */
  function EndOf(key: FlowKey, f: Flow): Termination {
    var held := |f.outbound| + Unexposed(f);
    Termination(key, Requested, held, f.mode == ReliableOrdered && held > 0)
  }

  lemma EndedByRequest(ep: Endpoint, key: FlowKey)
    requires key in ep.flows
    ensures Core.Terminate(ep, key, Requested).1 == Ok(EndOf(key, ep.flows[key]))
    ensures Core.Terminate(ep, key, Requested).0.flows == ep.flows - {key}
  {
    hide Core.Terminate;
    TerminationReport(ep, key, Requested);
  }

  lemma KeyIsLive(n: Node, id: FlowId)
    requires NodeInv(n) && id in n.c.reg
    ensures n.c.reg[id].key in n.ep.flows
  {
    hide WellFormed;
    assert RegisteredOk(n.c, n.ep, id, n.c.reg[id]);
  }

  /** A TERMINATE of a registered flow reports the flow's own key, mode and maximum, the reason in the frame
      and what Core still held; the flow leaves the registry and Core, and no reply is due. It is refused for
      an unknown FlowId, and for a normal end of a reliable flow, and then changes nothing. */
  lemma TerminateReport(n: Node, id: FlowId, reason: TerminateReason)
    requires NodeInv(n)
    ensures var d := ReceiveControl(n.c, n.ep, FrameOf(ControlMsg.Terminate(id, reason)));
            if id !in n.c.reg then d == Done(n.c, n.ep, Err(UnknownActiveFlow(id)))
            else if n.c.reg[id].mode == ReliableOrdered && reason == Normal then d == Done(n.c, n.ep, Err(ReliableNormalUsesFin(id)))
            else
              var f := n.c.reg[id];
              && f.key in n.ep.flows
              && d.result == Ok(RemoteTerminated(Established(id, f.key, f.mode, f.maxMessageBytes), reason, EndOf(f.key, n.ep.flows[f.key])))
              && d.control == n.c.(reg := n.c.reg - {id}) && d.ep.flows == n.ep.flows - {f.key}
              && ReplyTo(d.result.value) == None
  {
    hide NodeInv, HandleTerminate, ReceiveControl, FrameOf, BodyOf, EndOf;
    TakeDecodes(n, ControlMsg.Terminate(id, reason));
    TerminateHandled(n, id, reason);
  }

  lemma TerminateHandled(n: Node, id: FlowId, reason: TerminateReason)
    requires NodeInv(n)
    ensures var d := HandleTerminate(n.c, n.ep, id, reason);
            if id !in n.c.reg then d == Done(n.c, n.ep, Err(UnknownActiveFlow(id)))
            else if n.c.reg[id].mode == ReliableOrdered && reason == Normal then d == Done(n.c, n.ep, Err(ReliableNormalUsesFin(id)))
            else
              var f := n.c.reg[id];
              && f.key in n.ep.flows
              && d.result == Ok(RemoteTerminated(Established(id, f.key, f.mode, f.maxMessageBytes), reason, EndOf(f.key, n.ep.flows[f.key])))
              && d.control == n.c.(reg := n.c.reg - {id}) && d.ep.flows == n.ep.flows - {f.key}
  {
    hide NodeInv, Core.Terminate, EndOf;
    if id in n.c.reg {
      KeyIsLive(n, id);
      EndedByRequest(n.ep, n.c.reg[id].key);
    }
  }

  /** The same for an end by this side. */
  lemma LocalEndReport(n: Node, id: FlowId, reason: TerminateReason)
    requires NodeInv(n)
    ensures var d := TerminateLocal(n.c, n.ep, id, reason);
            if id !in n.c.reg then d == Done(n.c, n.ep, Err(UnknownActiveFlow(id)))
            else if n.c.reg[id].mode == ReliableOrdered && reason == Normal then d == Done(n.c, n.ep, Err(ReliableNormalUsesFin(id)))
            else
              var f := n.c.reg[id];
              && f.key in n.ep.flows
              && d.result == Ok(LocalTermination(Established(id, f.key, f.mode, f.maxMessageBytes), reason, EndOf(f.key, n.ep.flows[f.key])))
              && d.control == n.c.(reg := n.c.reg - {id}) && d.ep.flows == n.ep.flows - {f.key}
  {
    hide NodeInv, Core.Terminate, EndOf;
    if id in n.c.reg {
      KeyIsLive(n, id);
      EndedByRequest(n.ep, n.c.reg[id].key);
    }
  }

  // ---------------------------------------------------------------- the host's decision

  /** Only the request that is pending can be decided, and a decision takes it, whatever becomes of it. */
  lemma DecisionTakes(n: Node, q: PendingIn, a: Admission, reason: RejectReason)
    ensures n.c.pendingIn != Some(q) ==>
              && AcceptPending(n.c, n.ep, q, a) == Done(n.c, n.ep, Err(RequestNotPending))
              && RejectPending(n.c, n.ep, q, reason) == Done(n.c, n.ep, Err(RequestNotPending))
    ensures n.c.pendingIn == Some(q) ==>
              && AcceptPending(n.c, n.ep, q, a).control.pendingIn == None
              && RejectPending(n.c, n.ep, q, reason) == Done(n.c.(pendingIn := None), n.ep, Ok(RejectedInbound(q.id, reason)))
              && ResolutionFrame(RejectPending(n.c, n.ep, q, reason).result.value) == Reject(q.id, reason)
  {
    hide Establish, Core.Terminate, Register;
  }

  /** The host's own key, direction and policy fit the request. */
  predicate Suitable(c: Control, q: PendingIn, a: Admission) {
    a.key.connection == c.connection && a.key.direction == Inbound && PolicySuits(a.policy, q.mode)
  }

  /** An unsuitable admission is an error; a suitable one is refused for the host's smaller maximum, refused
      for resources when this side's limit or Core's is reached, fails if the key or the limits are in use
      otherwise, and else registers the flow under the request's terms. */
  lemma AdmitReport(n: Node, q: PendingIn, a: Admission)
    requires NodeInv(n) && n.c.pendingIn == Some(q)
    ensures var d := AcceptPending(n.c, n.ep, q, a);
            var small := a.policy.maxMessageBytes < q.maxMessageBytes;
            var full := |ActiveIds(n.c.reg, Inbound)| == n.c.local.maxActiveIncoming;
            var known := a.key in n.ep.flows;
            var crowded := |n.ep.flows| >= n.ep.aggregate.maxFlows;
            && (d.result == Err(AdmitWrongConnection) <==> a.key.connection != n.c.connection)
            && (d.result == Err(AdmitWrongDirection) <==> a.key.connection == n.c.connection && a.key.direction == Outbound)
            && (d.result.Err? && d.result.error.AdmitInvalidPolicy? <==>
                  a.key.connection == n.c.connection && a.key.direction == Inbound && !PolicySuits(a.policy, q.mode))
            && (d.result == Ok(RejectedInbound(q.id, MessageLimit)) <==> Suitable(n.c, q, a) && small)
            && (d.result == Ok(RejectedInbound(q.id, ResourceLimit)) <==>
                  Suitable(n.c, q, a) && !small
                  && (full || (!known && (crowded || (!OtherLimits(n.ep, a.key, a.limits) && !CoreHasRoom(n.ep, a.key, a.limits))))))
            && (d.result == Err(AdmitEstablishment(FlowAlreadyExists)) <==> Suitable(n.c, q, a) && !small && !full && known)
            && (d.result == Err(AdmitEstablishment(ConnectionLimitsMismatch)) <==>
                  Suitable(n.c, q, a) && !small && !full && !known && !crowded && OtherLimits(n.ep, a.key, a.limits))
            && (d.result == Ok(AcceptedInbound(Established(q.id, a.key, q.mode, q.maxMessageBytes))) <==>
                  Suitable(n.c, q, a) && !small && !full && !known && !OtherLimits(n.ep, a.key, a.limits) && CoreHasRoom(n.ep, a.key, a.limits))
            && (d.result.Ok? && d.result.value.AcceptedInbound? ==>
                  && d.control == n.c.(pendingIn := None, reg := n.c.reg[q.id := RegisteredFlow(a.key, q.mode, q.maxMessageBytes, NewAssociation(q.mode))])
                  && a.key in d.ep.flows && d.ep.flows[a.key].mode == q.mode && d.ep.flows[a.key].policy == a.policy
                  && ResolutionFrame(d.result.value) == Accept(q.id))
            && (!(d.result.Ok? && d.result.value.AcceptedInbound?) ==> d.control == n.c.(pendingIn := None) && d.ep == n.ep)
  {
    hide NodeInv, Establish, Register, AcceptPending, Load;
    EstablishAnswers(n.ep, a.key, q.mode, a.policy, a.limits);
    hide Members;
    AdmitOutcomes(n, q, a);
    AdmitFollows(n, q, a);
    hide WellFormed;
  }

  lemma AdmitFollows(n: Node, q: PendingIn, a: Admission)
    requires NodeInv(n) && n.c.pendingIn == Some(q)
    ensures var d := AcceptPending(n.c, n.ep, q, a);
            var r := Establish(n.ep, a.key, q.mode, a.policy, a.limits).1;
            if a.key.connection != n.c.connection then d.result == Err(AdmitWrongConnection)
            else if a.key.direction == Outbound then d.result == Err(AdmitWrongDirection)
            else if !PolicySuits(a.policy, q.mode) then d.result.Err? && d.result.error.AdmitInvalidPolicy?
            else if a.policy.maxMessageBytes < q.maxMessageBytes then d.result == Ok(RejectedInbound(q.id, MessageLimit))
            else if |ActiveIds(n.c.reg, Inbound)| == n.c.local.maxActiveIncoming then d.result == Ok(RejectedInbound(q.id, ResourceLimit))
            else if r.Ok? then d.result == Ok(AcceptedInbound(Established(q.id, a.key, q.mode, q.maxMessageBytes)))
            else if r.error.ActiveFlowLimitExceeded? then d.result == Ok(RejectedInbound(q.id, ResourceLimit))
            else d.result == Err(AdmitEstablishment(r.error))
    ensures AcceptPending(n.c, n.ep, q, a).result.Err? ==> AcceptPending(n.c, n.ep, q, a).control == n.c.(pendingIn := None) && AcceptPending(n.c, n.ep, q, a).ep == n.ep
  {
    hide WellFormed, Establish, Core.Terminate;
    EstablishIsLocal(n.ep, a.key, q.mode, a.policy, a.limits);
    CapacityNeverHit(n);
  }

  // ---------------------------------------------------------------- asking for a flow

  /** Octets of the longest message the flow may have: FlowId, the longest sequence number, payload. */
  function LongestDatagram(id: FlowId, mode: Mode, max: nat): nat {
    |Varint(id)| + (if mode == UnreliableSequenced then 8 else 0) + max
  }

  predicate KeyIsFree(n: Node, key: FlowKey) {
    key !in n.ep.flows && forall id :: id in n.c.pendingOut ==> n.c.pendingOut[id].key != key
  }

  /** The flows this side has open or has asked for. */
  function InUse(c: Control): nat {
    |ActiveIds(c.reg, Outbound)| + |c.pendingOut|
  }

  predicate DatagramFits(n: Node, q: OpenRequest, datagram: Option<nat>) {
    q.mode != ReliableOrdered && n.c.localNext.Some? ==>
      datagram.Some? && LongestDatagram(FlowIdOf(n.c.side, n.c.localNext.value), q.mode, q.stableMax) <= datagram.value
  }

  /** All that is asked of a request to open, of the host, of the peer's settings and of the transport. */
  predicate Openable(n: Node, q: OpenRequest, datagram: Option<nat>) {
    && q.key.connection == n.c.connection && q.key.direction == Outbound && KeyIsFree(n, q.key)
    && PolicySuits(q.policy, q.mode) && q.policy.maxMessageBytes == q.stableMax <= MAX_VARINT
    && q.stableMax <= n.c.peer.maxIncomingMessage && InUse(n.c) < n.c.peer.maxActiveIncoming
    && n.c.localNext.Some? && DatagramFits(n, q, datagram)
  }

  /** What a refusal says is so. */
  predicate Justified(n: Node, q: OpenRequest, datagram: Option<nat>, e: OpenError) {
    match e
    case OpenWrongConnection => q.key.connection != n.c.connection
    case OpenWrongDirection => q.key.direction == Inbound
    case CoreFlowAlreadyExists => q.key in n.ep.flows
    case PendingCoreFlow => exists id :: id in n.c.pendingOut && n.c.pendingOut[id].key == q.key
    case OpenInvalidPolicy(fault) => !PolicySuits(q.policy, q.mode) && fault == PolicyFault(q.policy, q.mode)
    case StableMessageLimitMismatch => q.policy.maxMessageBytes != q.stableMax
    case StableMessageLimitOutOfRange => q.stableMax > MAX_VARINT
    case PeerMessageLimit => q.stableMax > n.c.peer.maxIncomingMessage
    case PeerActiveFlowLimit(inUse) => inUse == InUse(n.c) >= n.c.peer.maxActiveIncoming
    case OpenFlowId(cursorError) => cursorError == Exhausted && n.c.localNext.None?
    case DatagramUnavailable => q.mode != ReliableOrdered && datagram.None?
    case DatagramTooSmall(needed, available) =>
      && q.mode != ReliableOrdered && datagram == Some(available) && needed > available
      && n.c.localNext.Some? && needed == LongestDatagram(FlowIdOf(n.c.side, n.c.localNext.value), q.mode, q.stableMax)
    case DatagramEnvelope(_) => false
  }

  /** A request is granted exactly if all of that holds; then the side's next FlowId is used up, what was asked
      for is remembered under it, and the OPEN carries its terms. A refusal changes nothing and is justified. */
  lemma OpenAnswers(n: Node, q: OpenRequest, datagram: Option<nat>)
    ensures var (c, r) := PrepareOpen(n.c, n.ep, q, datagram);
            && (r.Ok? <==> Openable(n, q, datagram))
            && (r.Err? ==> c == n.c && Justified(n, q, datagram, r.error))
            && (r.Ok? ==>
                  var s := n.c.localNext.value;
                  && r.value.Open? && SideOf(r.value.id) == n.c.side && SequenceOf(r.value.id) == s
                  && r.value.mode == q.mode && r.value.maxMessageBytes == q.stableMax
                  && c == n.c.(localNext := if s == MAX_FLOW_SEQUENCE then None else Some(s + 1),
                               pendingOut := n.c.pendingOut[r.value.id := PendingOut(q.key, q.mode, q.policy, q.limits, q.stableMax)]))
  {
    hide OpenRefusal, Openable, Justified;
    RefusalAnswers(n, q, datagram);
    if OpenRefusal(n.c, n.ep, q, datagram).None? {
      OpenedOk(n.c, n.ep, q, datagram);
      FlowIdParts(n.c.side, n.c.localNext.value);
    }
  }

  lemma RefusalAnswers(n: Node, q: OpenRequest, datagram: Option<nat>)
    ensures var refusal := OpenRefusal(n.c, n.ep, q, datagram);
            (refusal.None? <==> Openable(n, q, datagram)) && (refusal.Some? ==> Justified(n, q, datagram, refusal.value))
  {
    hide ActiveIds, Varint, LongestDatagram, DatagramLen;
    if n.c.localNext.Some? {
      if q.stableMax <= MAX_VARINT && q.mode != ReliableOrdered {
        LongestIsNeeded(FlowIdOf(n.c.side, n.c.localNext.value), q.mode, q.stableMax);
      }
    }
  }

  lemma LongestIsNeeded(id: FlowId, mode: Mode, max: nonzero)
    requires mode != ReliableOrdered && max <= MAX_VARINT
    ensures DatagramLen(id, mode, OpenSequence(mode), max) == Ok(LongestDatagram(id, mode, max))
  {
  }
}
