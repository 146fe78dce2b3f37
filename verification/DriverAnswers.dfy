/** What the driver tells the host and what it sends, step by step. */
module DriverAnswers {
  import opened Basics
  import opened Wire
  import opened Delivery
  import opened Core
  import opened CoreInvariant
  import opened ControlBody
  import opened Registry
  import opened FlowControls
  import opened FlowAnswers
  import opened FailureReports
  import opened FlowNode
  import opened Driver
  import opened DriverNode

  /** The frame is handed to the sender and noted. */
  predicate SendsNow(m: Machine, after: Machine, msg: ControlMsg)
    requires Representable(msg)
  {
    && after.phase.Active? && after.sender == Sending(FrameOf(msg)) && after.log.prepared == m.log.prepared + [FrameOf(msg)]
    && after.receiver == m.receiver && after.cursor == m.cursor
  }

  /** Nothing is sent and the driver goes on. */
  predicate SendsNothing(m: Machine, after: Machine) {
    after.phase == m.phase && after.sender == m.sender && after.log.prepared == m.log.prepared && after.receiver == m.receiver && after.cursor == m.cursor
  }

  predicate IsOver(after: Machine) {
    after.phase.Ended? && after.sender.SendClosed? && after.receiver.ReceiveClosed?
  }

  // ---------------------------------------------------------------- sending

  /** The send in flight: its end frees the sender and is reported with its frame; its failure ends the driver. */
  lemma SendAnswers(m: Machine, poll: SendPoll)
    requires m.phase.Active?
    ensures var r := PollSend(m, poll);
            && (!m.sender.Sending? || poll.SendPending? ==> r == (m, Quiet))
            && (m.sender.Sending? && poll.SendDone? ==>
                  && r.1 == Progressing(SendCompleted(m.sender.frame)) && r.0.sender.ReadyToSend? && r.0.phase.Active?
                  && r.0.log.completed == m.log.completed + [m.sender.frame])
            && (m.sender.Sending? && poll.SendFails? ==> r.1 == Failing(ControlSendFailed) && IsOver(r.0))
  {
  }

  // ---------------------------------------------------------------- failures

  /** A failing binding of a registered flow: one TERMINATE with the FlowId and the reason given, and the flow is
      gone; of a flow already gone: nothing but the word that it was handled. */
  lemma BindingFailureAnswer(m: Machine, id: FlowId, key: FlowKey, handled: bool, reason: TerminateReason)
    requires DataAllowed(m) && !reason.Normal?
    requires id in m.control.reg ==> m.control.reg[id].key == key && (if key in m.ep.flows then handled ==> m.ep.flows[key].mode.ReliableOrdered? else handled)
    requires id !in m.control.reg ==> key !in m.ep.flows
    ensures var r := DoEffect(m, Fails(id, key, handled, reason));
            && r.1 == Progressing(FailureHandled(id))
            && (if id in m.control.reg then SendsNow(m, r.0, ControlMsg.Terminate(id, reason)) else SendsNothing(m, r.0))
            && r.0.control == m.control.(reg := m.control.reg - {id}) && key !in r.0.ep.flows
  {
    hide BindingFailure, FrameOf, Core.Terminate;
    BindingFailureOutcomes(m.control, m.ep, id, key, handled, reason);
    TerminateIsLocal(m.ep, key, if handled then ReliableCustodyLost else Requested);
    assert id !in m.control.reg ==> m.control.reg - {id} == m.control.reg;
  }

  /** A flow that fails for a reason of its own: the same, by its FlowId alone. */
  lemma FlowFailureAnswer(m: Machine, id: FlowId, reason: TerminateReason)
    requires DataAllowed(m)
    requires id in m.control.reg ==> m.control.reg[id].key in m.ep.flows && !(m.control.reg[id].mode.ReliableOrdered? && reason.Normal?)
    ensures var r := DoEffect(m, FlowDataFails(id, reason));
            && r.1 == Progressing(FailureHandled(id))
            && (if id in m.control.reg then SendsNow(m, r.0, ControlMsg.Terminate(id, reason)) else SendsNothing(m, r.0))
            && r.0.control == m.control.(reg := m.control.reg - {id})
            && (id in m.control.reg ==> m.control.reg[id].key !in r.0.ep.flows)
  {
    hide FlowFailure, FrameOf;
    FlowFailureOutcomes(m.control, m.ep, id, reason);
    if id in m.control.reg {
      TerminateIsLocal(m.ep, m.control.reg[id].key, Requested);
    }
    hide Core.Terminate;
    assert id !in m.control.reg ==> m.control.reg - {id} == m.control.reg;
  }

  /** A received message that ends its reliable flow in Core is reported to the peer under its FlowId. */
  lemma ArrivalAnswer(m: Machine, id: FlowId, index: u64, payload: seq<u8>, reason: TerminateReason)
    requires DataAllowed(m) && NodeInv(NodeOf(m)) && id in m.control.reg && !reason.Normal?
    ensures var r := DoEffect(m, Receives(id, index, payload, reason));
            var after := ReceivePayload(m.ep, m.control.reg[id].key, index, payload).0;
            if m.control.reg[id].key in after.flows then r == (m.(ep := after), Quiet)
            else
              && r.1 == Progressing(FailureHandled(id)) && SendsNow(m, r.0, ControlMsg.Terminate(id, reason))
              && r.0.control == m.control.(reg := m.control.reg - {id}) && r.0.ep == after
  {
    hide NodeInv, ReceivePayload, BindingFailure, FrameOf;
    var key := m.control.reg[id].key;
    var after := ReceivePayload(m.ep, key, index, payload).0;
    if key !in after.flows {
      BindingFailureOutcomes(m.control, after, id, key, true, reason);
    }
  }

  // ---------------------------------------------------------------- received frames

  /** A frame that is processed: an error ends the driver and is reported as it is; an outcome that obliges a
      reply has it sent; an established flow goes to its transport, and is ended for resources if there is no
      memory for it; everything else is told to the host. */
  lemma FrameAnswer(m: Machine, frame: ControlFrame, routing: Routing)
    requires DataAllowed(m) && NodeInv(NodeOf(m))
    ensures var r := ProcessFrame(m, frame, routing);
            var d := ReceiveControl(m.control, m.ep, frame);
            match d.result
            case Err(e) => r.1 == Failing(ReceivedFlowControl(e)) && IsOver(r.0)
            case Ok(p) =>
              && (ReplyTo(p).Some? ==>
                    && r.1 == Progressing(SendStarted) && Representable(ReplyTo(p).value) && r.0.control == d.control && r.0.ep == d.ep
                    && r.0.sender == Sending(FrameOf(ReplyTo(p).value)) && r.0.log.prepared == m.log.prepared + [FrameOf(ReplyTo(p).value)])
              && (ReplyTo(p).None? && !p.OutboundEstablished? ==>
                    r.1 == Progressing(FlowProgress(p)) && r.0.control == d.control && r.0.ep == d.ep && r.0.log.prepared == m.log.prepared)
              && (p.OutboundEstablished? && routing.Scheduled? ==> r.1 == Progressing(FlowProgress(p)) && r.0.control == d.control && r.0.ep == d.ep)
              && (p.OutboundEstablished? && routing.RoutingRefused? ==> r.1 == Failing(DataFailed) && IsOver(r.0))
  {
    hide NodeInv, ReceiveControl, FlowFailure, FrameOf, BodyOf;
    match ReceiveControl(m.control, m.ep, frame).result
    case Err(_) =>
    case Ok(p) => ReplyIsSendable(p);
  }

  /** A flow that the peer accepted but that there is no memory for is ended again at once, for resources. */
  lemma NoMemoryAnswer(m: Machine, id: FlowId)
    requires DataAllowed(m) && NodeInv(NodeOf(m)) && id in m.control.pendingOut && SideOf(id) == m.control.side
    requires var d := ReceiveControl(m.control, m.ep, FrameOf(Accept(id))).result; d.Ok? && d.value.OutboundEstablished?
    ensures var r := ProcessFrame(m, FrameOf(Accept(id)), NoMemory);
            && r.1 == Progressing(FailureHandled(id)) && r.0.sender == Sending(FrameOf(ControlMsg.Terminate(id, ResourceFailure)))
            && r.0.log.prepared == m.log.prepared + [FrameOf(ControlMsg.Terminate(id, ResourceFailure))]
            && id !in r.0.control.reg && id !in r.0.control.pendingOut && m.control.pendingOut[id].key !in r.0.ep.flows
  {
    hide NodeInv, ReceiveControl, ApplyFailure, FlowFailure, FrameOf, BodyOf;
    AcceptedFacts(m, id);
    var d := ReceiveControl(m.control, m.ep, FrameOf(Accept(id)));
    var p := d.result.value;
    var mid := m.(control := d.control, ep := d.ep, log := m.log.(processed := m.log.processed + [FrameOf(Accept(id))]), receiver := Listening,
                  retired := m.retired + RetiredBy(p), ended := m.ended + EndedBy(p));
    assert ProcessFrame(m, FrameOf(Accept(id)), NoMemory) == DoEffect(mid, FlowDataFails(id, ResourceFailure));
    FlowFailureAnswer(mid, id, ResourceFailure);
  }

  lemma AcceptedFacts(m: Machine, id: FlowId)
    requires NodeInv(NodeOf(m)) && id in m.control.pendingOut && SideOf(id) == m.control.side
    requires var d := ReceiveControl(m.control, m.ep, FrameOf(Accept(id))).result; d.Ok? && d.value.OutboundEstablished?
    ensures var d := ReceiveControl(m.control, m.ep, FrameOf(Accept(id)));
            var key := m.control.pendingOut[id].key;
            && d.result.value.flow.id == id && ReplyTo(d.result.value).None?
            && id in d.control.reg && d.control.reg[id].key == key && key in d.ep.flows && id !in d.control.pendingOut
  {
    hide NodeInv, ReceiveControl, FrameOf, BodyOf;
    AcceptReport(NodeOf(m), id);
  }

  lemma ReplyIsSendable(p: Progress)
    ensures ReplyTo(p).Some? ==> Representable(ReplyTo(p).value) && !p.OutboundEstablished?
  {
  }

  // ---------------------------------------------------------------- requests

  /** No request is served by a driver that ended or whose sender is busy. */
  lemma UnavailableAnswer(m: Machine, q: Request)
    requires m.phase.Ended? || !m.sender.ReadyToSend?
    ensures Serve(m, q) == (m, Failing(State(if m.phase.Active? && m.sender.Sending? then ControlSendBusy else DriverEnded)))
  {
  }

  /** A request to open sends the OPEN exactly if it can be granted; a refusal leaves the driver as it is, except
      that a transport without datagrams ends it. */
  lemma OpenRequestAnswer(m: Machine, q: OpenRequest, datagram: Option<nat>)
    requires DataAllowed(m)
    ensures var r := Serve(m, OpenOutbound(q, datagram));
            if Openable(NodeOf(m), q, datagram) then
              && r.1 == Progressing(SendStarted)
              && m.control.localNext.Some? && 1 <= q.stableMax <= MAX_VARINT
              && var id := FlowIdOf(m.control.side, m.control.localNext.value);
              && SendsNow(m, r.0, Open(id, q.mode, q.stableMax))
              && id in r.0.control.pendingOut && r.0.control.pendingOut[id].key == q.key && r.0.ep == m.ep
            else
              && r.1.Failing? && r.1.error.OpenFailed? && Justified(NodeOf(m), q, datagram, r.1.error.openError)
              && (if r.1.error.openError.DatagramUnavailable? then IsOver(r.0) else r.0 == m)
  {
    hide FrameOf, Justified, Openable, OpenRefusal;
    OpenAnswers(NodeOf(m), q, datagram);
    RefusalAnswers(NodeOf(m), q, datagram);
    if Openable(NodeOf(m), q, datagram) {
      OpenedOk(m.control, m.ep, q, datagram);
    }
  }

  /** A request to decide sends the decision's own frame; a request that is not pending is refused without effect;
      every other error ends the driver. */
  lemma DecisionAnswer(m: Machine, d: Done<Result<Resolution, AdmissionError>>)
    requires DataAllowed(m) && (d.result == Err(RequestNotPending) ==> d.control == m.control && d.ep == m.ep)
    ensures var r := Answer(m, d);
            match d.result
            case Ok(resolution) =>
              r.1 == Progressing(SendStarted) && SendsNow(m, r.0, ResolutionFrame(resolution)) && r.0.control == d.control && r.0.ep == d.ep
            case Err(e) => r.1 == Failing(AdmissionFailed(e)) && if e == RequestNotPending then r.0 == m else IsOver(r.0)
  {
    hide FrameOf;
  }

  /** An admission is answered as flow control answers it, except that a reliable request that the stream buffer
      cannot hold is rejected for resources. */
  lemma AdmissionAnswer(m: Machine, q: PendingIn, a: Admission, reason: RejectReason, maxStaging: nonzero)
    requires DataAllowed(m)
    ensures Serve(m, RejectInbound(q, reason)) == Answer(m, RejectPending(m.control, m.ep, q, reason))
    ensures var held := q.mode == ReliableOrdered && maxStaging < q.maxMessageBytes;
            && (held && m.control.pendingIn == Some(q) ==>
                  var r := Serve(m, Request.AcceptInbound(q, a, maxStaging));
                  r.1 == Progressing(SendStarted) && SendsNow(m, r.0, Reject(q.id, ResourceLimit)) && r.0.control == m.control.(pendingIn := None) && r.0.ep == m.ep)
            && (!held ==> Serve(m, Request.AcceptInbound(q, a, maxStaging)) == Answer(m, AcceptPending(m.control, m.ep, q, a)))
  {
    hide FrameOf, AcceptPending;
  }

  /** The normal end of an unreliable flow is a TERMINATE, and the flow is gone at once. */
  lemma FinishAnswer(m: Machine, id: FlowId)
    requires DataAllowed(m) && NodeInv(NodeOf(m)) && id in m.control.reg && m.control.reg[id].mode != ReliableOrdered
    ensures var r := Serve(m, FinishUnreliable(id));
            && r.1 == Progressing(SendStarted) && SendsNow(m, r.0, ControlMsg.Terminate(id, Normal))
            && r.0.control == m.control.(reg := m.control.reg - {id}) && r.0.ep.flows == m.ep.flows - {m.control.reg[id].key}
  {
    hide NodeInv, FrameOf, TerminateLocal;
    LocalEndReport(NodeOf(m), id, Normal);
  }
}
