/** The driver in place: the same calls as `Driver`, on a flow control and a Core endpoint that change. */
module ConnectionDrivers {
  import opened Basics
  import opened Wire
  import opened Delivery
  import opened Core
  import opened CoreInvariant
  import opened ControlBody
  import opened DeliveryEndpoints
  import opened Registry
  import opened FlowControls
  import opened FailureReports
  import opened FlowNode
  import opened Driver

  class ConnectionDriver {
    const flowControl: FlowControl
    var sender: SendState
    var receiver: ReceiveState
    var phase: Phase
    var cursor: nat
    ghost var log: Log
    ghost var retired: set<FlowId>
    ghost var ended: multiset<FlowId>

    ghost function Parts(): set<object> {
      {this} + flowControl.Parts()
    }

    ghost predicate Valid()
      reads Parts()
    {
      this !in flowControl.Parts() && flowControl.Valid()
    }

    ghost function Value(endpoint: DeliveryEndpoint): Machine
      reads Parts(), endpoint
    {
      Machine(flowControl.Value(), endpoint.model, retired, ended, sender, receiver, phase, cursor, log)
    }

    constructor (connection: u64, side: Side, local: Settings, peer: Settings)
      ensures Valid() && fresh(flowControl) && fresh(flowControl.Parts())
      ensures forall endpoint: DeliveryEndpoint :: Value(endpoint) == NewMachine(NewControl(connection, side, local, peer), endpoint.model)
    {
      flowControl := new FlowControl(connection, side, local, peer);
      sender, receiver, phase, cursor := ReadyToSend, Listening, Active, 0;
      log, retired, ended := Log([], [], [], []), {}, multiset{};
    }

    method EndDriver(ghost endpoint: DeliveryEndpoint)
      requires Valid()
      modifies this
      ensures Valid() && Value(endpoint) == EnterTerminal(old(Value(endpoint)))
    {
      if phase.Active? {
        phase, sender, receiver := Ended, SendClosed, ReceiveClosed;
      }
    }

    method StartPreparedSend(ghost endpoint: DeliveryEndpoint, frame: ControlFrame, done: Progressed) returns (step: Step)
      requires Valid()
      modifies this
      ensures Valid() && (Value(endpoint), step) == StartSend(old(Value(endpoint)), frame, done)
    {
      log := log.(prepared := log.prepared + [frame]);
      if phase.Ended? {
        return Failing(State(DriverEnded));
      }
      match sender {
        case ReadyToSend =>
          sender := Sending(frame);
          return Progressing(done);
        case Sending(_) =>
          EndDriver(endpoint);
          return Failing(State(ControlSendBusy));
        case SendClosed =>
          EndDriver(endpoint);
          return Failing(State(DriverEnded));
      }
    }

    method PollControlSend(ghost endpoint: DeliveryEndpoint, poll: SendPoll) returns (step: Step)
      requires Valid()
      modifies this
      ensures Valid() && (Value(endpoint), step) == PollSend(old(Value(endpoint)), poll)
    {
      if !sender.Sending? {
        return Quiet;
      }
      match poll {
        case SendPending => return Quiet;
        case SendDone =>
          var frame := sender.frame;
          log := log.(completed := log.completed + [frame]);
          sender := ReadyToSend;
          return Progressing(SendCompleted(frame));
        case SendFails =>
          EndDriver(endpoint);
          return Failing(ControlSendFailed);
      }
    }

    /** Carry out a disposition: end and report the flow, report only, or note the cleanup. */
    method Prepare(endpoint: DeliveryEndpoint, d: Disposition) returns (r: Result<Outcome, ControlError>)
      requires Valid() && endpoint.Valid()
      modifies flowControl.Parts(), endpoint
      ensures Valid() && endpoint.Valid()
      ensures Done(flowControl.Value(), endpoint.model, r) == PrepareFailure(old(flowControl.Value()), old(endpoint.model), d)
      ensures sender == old(sender) && receiver == old(receiver) && phase == old(phase) && cursor == old(cursor)
      ensures log == old(log) && retired == old(retired) && ended == old(ended)
    {
      hide TerminateLocal;
      if d.CleanupOnly? {
        return Ok(CleanedUp(d.id));
      }
      if d.CloseConnection? {
        return Ok(Closing);
      }
      if d.ReportOnly? && d.id !in flowControl.registry.flows {
        return Ok(SendReport(d.id, d.reason, d.termination));
      }
      var result := flowControl.TerminateLocally(endpoint, d.id, d.reason);
      match result {
        case Err(e) => return Err(e);
        case Ok(t) => return Ok(SendReport(d.id, d.reason, Some(t.termination)));
      }
    }

    /** What a prepared failure obliges the driver to do. */
    method CarryOut(ghost endpoint: DeliveryEndpoint, r: Result<Outcome, ControlError>) returns (step: Step)
      requires Valid()
      modifies this
      ensures Valid()
      ensures (Value(endpoint), step) == ApplyFailure(old(Value(endpoint)), Done(flowControl.Value(), endpoint.model, r))
    {
      hide BodyOf;
      match r {
        case Err(e) =>
          EndDriver(endpoint);
          return Failing(FailurePreparation(e));
        case Ok(SendReport(id, reason, _)) =>
          retired, ended := retired + {id}, ended + multiset{id};
          step := StartPreparedSend(endpoint, FrameOf(ControlMsg.Terminate(id, reason)), FailureHandled(id));
        case Ok(CleanedUp(id)) => return Progressing(FailureHandled(id));
        case Ok(Closing) =>
          EndDriver(endpoint);
          return Failing(DataFailed);
      }
    }

    method FailFlow(endpoint: DeliveryEndpoint, id: FlowId, reason: TerminateReason) returns (step: Step)
      requires Valid() && endpoint.Valid()
      modifies Parts(), endpoint
      ensures Valid() && endpoint.Valid()
      ensures var m := old(Value(endpoint));
              (Value(endpoint), step) == ApplyFailure(m, FlowFailure(m.control, m.ep, id, reason))
    {
      hide PrepareFailure, ApplyFailure;
      ghost var before := Value(endpoint);
      var r := Prepare(endpoint, KnownFlowDisposition(id, reason, id in flowControl.registry.flows));
      ApplyFailureFrom(before, Value(endpoint), Done(flowControl.Value(), endpoint.model, r));
      step := CarryOut(endpoint, r);
    }

    /** A binding fails: its own failure path gives up custody and the registry entry first. */
    method FailBinding(endpoint: DeliveryEndpoint, id: FlowId, key: FlowKey, handled: bool, reason: TerminateReason) returns (step: Step)
      requires Valid() && endpoint.Valid()
      modifies Parts(), endpoint
      ensures Valid() && endpoint.Valid()
      ensures var m := old(Value(endpoint));
              (Value(endpoint), step) == ApplyFailure(m, BindingFailure(m.control, m.ep, id, key, handled, reason))
    {
      hide PrepareFailure, ApplyFailure, Core.FailCustody;
      ghost var before := Value(endpoint);
      var registeredBefore := id in flowControl.registry.flows;
      var termination: Option<Termination> := None;
      if handled {
        var lost := endpoint.FailReliableCustody(key);
        if lost.Ok? {
          termination := Some(lost.value);
        }
        flowControl.registry.Release(id);
      }
      var context := ResolvedContext(id, key, registeredBefore, termination);
      var r := Prepare(endpoint, ContextDisposition(context, reason, id in flowControl.registry.flows));
      ApplyFailureFrom(before, Value(endpoint), Done(flowControl.Value(), endpoint.model, r));
      step := CarryOut(endpoint, r);
    }

    /** Received data; a flow that Core ends because of it fails in the same poll. */
    method ReceiveFlowData(endpoint: DeliveryEndpoint, id: FlowId, index: u64, payload: seq<u8>, reason: TerminateReason) returns (step: Step)
      requires Valid() && endpoint.Valid() && id in flowControl.registry.flows
      modifies Parts(), endpoint
      ensures Valid() && endpoint.Valid() && (Value(endpoint), step) == ReceiveData(old(Value(endpoint)), id, index, payload, reason)
    {
      hide ApplyFailure, BindingFailure, ReceivePayload, Core.Terminate;
      var key := flowControl.registry.flows[id].key;
      var _ := endpoint.ReceiveTransportPayload(key, index, payload);
      var contract := endpoint.FlowContract(key);
      if contract.Some? {
        return Quiet;
      }
      step := FailBinding(endpoint, id, key, true, reason);
    }

    /** One Core operation on behalf of a transport. */
    method Transfer(endpoint: DeliveryEndpoint, op: Op)
      requires endpoint.Valid()
      modifies endpoint
      ensures endpoint.Valid() && endpoint.model == Apply(old(endpoint.model), op)
    {
      hide Establish, Associate, Submit, Commit, Receive, ReceivePayload, Expose, Core.Terminate, FailCustody, WellFormed;
      match op {
        case DoEstablish(key, mode, policy, limits) =>
          EstablishedOrNot(endpoint.model, key, mode, policy, limits);
          var _ := endpoint.EstablishFlow(key, mode, policy, limits);
        case DoAssociate(key, session, open, limits) => var _ := endpoint.AssociateFlow(key, session, open, limits);
        case DoSubmit(key, payload) => var _ := endpoint.SubmitMessage(key, payload);
        case DoCommit(key, index) => var _ := endpoint.CommitCustody(key, index);
        case DoReceive(key, transfer) => var _ := endpoint.ReceiveTransfer(key, transfer);
        case DoReceivePayload(key, index, payload) => var _ := endpoint.ReceiveTransportPayload(key, index, payload);
        case DoExpose(key) => var _ := endpoint.PollExposure(key);
        case DoTerminate(key, reason) => var _ := endpoint.TerminateFlow(key, reason);
        case DoFailCustody(key) => var _ := endpoint.FailReliableCustody(key);
      }
    }

    method CloseBoundFlow(endpoint: DeliveryEndpoint, id: FlowId)
      requires Valid() && endpoint.Valid()
      modifies Parts(), endpoint
      ensures Valid() && endpoint.Valid() && Value(endpoint) == CloseFlow(old(Value(endpoint)), id)
    {
      hide Core.Terminate;
      if id in flowControl.registry.flows {
        var _ := endpoint.TerminateFlow(flowControl.registry.flows[id].key, Requested);
        flowControl.registry.Release(id);
        retired, ended := retired + {id}, ended + multiset{id};
      }
    }

    method PerformEffect(endpoint: DeliveryEndpoint, e: Effect) returns (step: Step)
      requires Valid() && endpoint.Valid()
      modifies Parts(), endpoint
      ensures Valid() && endpoint.Valid() && (Value(endpoint), step) == DoEffect(old(Value(endpoint)), e)
    {
      hide ApplyFailure, BindingFailure, FlowFailure, ReceiveData, CloseFlow, Apply, Bind;
      match e {
        case Associates(id, direction) =>
          var _ := flowControl.registry.AssociateStream(id, direction);
          return Quiet;
        case Transfers(op) =>
          Transfer(endpoint, op);
          return Quiet;
        case Receives(id, index, payload, reason) =>
          if id !in flowControl.registry.flows {
            return Quiet;
          }
          step := ReceiveFlowData(endpoint, id, index, payload, reason);
        case Closes(id) =>
          CloseBoundFlow(endpoint, id);
          return Progressing(DataMoved);
        case Fails(id, key, handled, reason) => step := FailBinding(endpoint, id, key, handled, reason);
        case FlowDataFails(id, reason) => step := FailFlow(endpoint, id, reason);
        case ConnectionFails =>
          EndDriver(endpoint);
          return Failing(DataFailed);
      }
    }

    method PollDataCategory(endpoint: DeliveryEndpoint, poll: DataPoll) returns (step: Step)
      requires Valid() && endpoint.Valid()
      modifies Parts(), endpoint
      ensures Valid() && endpoint.Valid() && (Value(endpoint), step) == PollData(old(Value(endpoint)), poll)
    {
      hide DoEffect;
      if poll.DataQuiet? {
        return Quiet;
      }
      ghost var before := Value(endpoint);
      assert poll.effects[0..] == poll.effects;
      for i := 0 to |poll.effects|
        invariant Valid() && endpoint.Valid()
        invariant RunEffects(before, poll.effects) == RunEffects(Value(endpoint), poll.effects[i..])
      {
        assert poll.effects[i..][0] == poll.effects[i] && poll.effects[i..][1..] == poll.effects[i + 1..];
        step := PerformEffect(endpoint, poll.effects[i]);
        if !step.Quiet? {
          return;
        }
      }
      return Progressing(DataMoved);
    }

    method ProcessReceivedFrame(endpoint: DeliveryEndpoint, frame: ControlFrame, routing: Routing) returns (step: Step)
      requires Valid() && endpoint.Valid()
      modifies Parts(), endpoint
      ensures Valid() && endpoint.Valid() && (Value(endpoint), step) == ProcessFrame(old(Value(endpoint)), frame, routing)
    {
      hide ApplyFailure, FlowFailure, ReceiveControl, BodyOf;
      var received, reply := flowControl.ReceiveFrame(endpoint, frame);
      log := log.(processed := log.processed + [frame]);
      if received.Err? {
        receiver := ReceiveClosed;
        EndDriver(endpoint);
        return Failing(ReceivedFlowControl(received.error));
      }
      receiver := Listening;
      retired, ended := retired + RetiredBy(received.value), ended + EndedBy(received.value);
      if reply.Some? {
        step := StartPreparedSend(endpoint, reply.value, SendStarted);
        return;
      }
      if !received.value.OutboundEstablished? || routing.Scheduled? {
        return Progressing(FlowProgress(received.value));
      }
      if routing.NoMemory? {
        step := FailFlow(endpoint, received.value.flow.id, ResourceFailure);
        return;
      }
      EndDriver(endpoint);
      return Failing(DataFailed);
    }

    method PollControlReceive(endpoint: DeliveryEndpoint, poll: ReceivePoll, routing: Routing) returns (step: Step)
      requires Valid() && endpoint.Valid()
      modifies Parts(), endpoint
      ensures Valid() && endpoint.Valid() && (Value(endpoint), step) == PollReceive(old(Value(endpoint)), poll, routing)
    {
      hide ProcessFrame;
      if receiver.ReceiveClosed? {
        return Quiet;
      }
      var frame: ControlFrame;
      if receiver.Deferred? {
        frame := receiver.frame;
        if ShouldDefer(frame.frameType, flowControl.pendingIn.Some?, sender) {
          return Quiet;
        }
      } else {
        match poll {
          case ReceivePending => return Quiet;
          case ReceiveFails =>
            receiver := ReceiveClosed;
            EndDriver(endpoint);
            return Failing(ControlReceiveFailed);
          case Arrives(arrived) =>
            frame := arrived;
            log := log.(arrived := log.arrived + [frame]);
            if ShouldDefer(frame.frameType, flowControl.pendingIn.Some?, sender) {
              receiver := Deferred(frame);
              return Quiet;
            }
        }
      }
      step := ProcessReceivedFrame(endpoint, frame, routing);
    }

    method PollCategory(endpoint: DeliveryEndpoint, index: nat, polls: Polls) returns (step: Step)
      requires Valid() && endpoint.Valid()
      modifies Parts(), endpoint
      ensures Valid() && endpoint.Valid() && (Value(endpoint), step) == Category(old(Value(endpoint)), index, polls)
    {
      hide PollSend, PollReceive, PollData;
      if index == 0 {
        step := PollControlSend(endpoint, polls.send);
      } else if index == 1 {
        if polls.peerClosed {
          return Quiet;
        }
        step := PollControlReceive(endpoint, polls.receive, polls.routing);
      } else if phase.Active? && sender.ReadyToSend? {
        step := PollDataCategory(endpoint, polls.data(index));
      } else {
        return Quiet;
      }
    }

    method PollOnce(endpoint: DeliveryEndpoint, polls: Polls) returns (step: Step)
      requires Valid() && endpoint.Valid()
      modifies Parts(), endpoint
      ensures Valid() && endpoint.Valid() && (Value(endpoint), step) == PollStep(old(Value(endpoint)), polls)
    {
      hide PollReceive, Category;
      if phase.Ended? {
        return Failing(State(DriverEnded));
      }
      if polls.peerClosed {
        step := PollControlReceive(endpoint, polls.receive, polls.routing);
        if !step.Quiet? {
          cursor := NextCategory(1);
          return;
        }
      }
      ghost var before := Value(endpoint);
      var start := cursor % CATEGORIES;
      for offset := 0 to CATEGORIES
        invariant Valid() && endpoint.Valid()
        invariant Rotate(before, start, 0, polls) == Rotate(Value(endpoint), start, offset, polls)
      {
        var index := (start + offset) % CATEGORIES;
        step := PollCategory(endpoint, index, polls);
        if !step.Quiet? {
          cursor := NextCategory(index);
          return;
        }
      }
      cursor := NextCategory(start);
      return Quiet;
    }

    // ---------------------------------------------------------------- host requests

    method Answered(ghost endpoint: DeliveryEndpoint, r: Result<Resolution, AdmissionError>) returns (step: Step)
      requires Valid()
      modifies this
      ensures Valid()
      ensures (Value(endpoint), step) == Answer(old(Value(endpoint)), Done(flowControl.Value(), endpoint.model, r))
    {
      hide BodyOf;
      match r {
        case Ok(resolution) => step := StartPreparedSend(endpoint, FrameOf(ResolutionFrame(resolution)), SendStarted);
        case Err(e) =>
          if !e.RequestNotPending? {
            EndDriver(endpoint);
          }
          return Failing(AdmissionFailed(e));
      }
    }

    method AcceptPendingInbound(endpoint: DeliveryEndpoint, q: PendingIn, a: Admission, maxStaging: nonzero) returns (step: Step)
      requires Valid() && endpoint.Valid()
      modifies Parts(), endpoint
      ensures Valid() && endpoint.Valid() && (Value(endpoint), step) == AcceptPeer(old(Value(endpoint)), q, a, maxStaging)
    {
      hide AcceptPending, RejectPending, Answer;
      ghost var before := Value(endpoint);
      var r: Result<Resolution, AdmissionError>;
      if q.mode.ReliableOrdered? && q.maxMessageBytes > maxStaging {
        r := flowControl.RejectInbound(endpoint, q, ResourceLimit);
      } else {
        r := flowControl.AcceptInbound(endpoint, q, a);
      }
      AnswerFrom(before, Value(endpoint), Done(flowControl.Value(), endpoint.model, r));
      step := Answered(endpoint, r);
    }

    method OpenFlow(endpoint: DeliveryEndpoint, q: OpenRequest, datagram: Option<nat>) returns (step: Step)
      requires Valid() && endpoint.Valid()
      modifies Parts()
      ensures Valid() && (Value(endpoint), step) == Driver.OpenFlow(old(Value(endpoint)), q, datagram)
    {
      hide OpenRefusal, BodyOf;
      var prepared := flowControl.PrepareOutboundOpen(endpoint, q, datagram);
      if prepared.Err? {
        if prepared.error.DatagramUnavailable? {
          EndDriver(endpoint);
        }
        return Failing(OpenFailed(prepared.error));
      }
      step := StartPreparedSend(endpoint, prepared.value, SendStarted);
    }

    method FinishFlow(endpoint: DeliveryEndpoint, id: FlowId) returns (step: Step)
      requires Valid() && endpoint.Valid()
      modifies Parts(), endpoint
      ensures Valid() && endpoint.Valid() && (Value(endpoint), step) == FinishWithFrame(old(Value(endpoint)), id)
    {
      hide TerminateLocal, BodyOf;
      var finished := flowControl.TerminateLocally(endpoint, id, Normal);
      if finished.Err? {
        return Failing(FailurePreparation(finished.error));
      }
      retired, ended := retired + {id}, ended + multiset{id};
      step := StartPreparedSend(endpoint, FrameOf(ControlMsg.Terminate(id, Normal)), SendStarted);
    }

    /** A request of the host; nothing is touched unless the sender is free. */
    method Request(endpoint: DeliveryEndpoint, q: Driver.Request) returns (step: Step)
      requires Valid() && endpoint.Valid()
      modifies Parts(), endpoint
      ensures Valid() && endpoint.Valid() && (Value(endpoint), step) == Serve(old(Value(endpoint)), q)
    {
      hide Driver.OpenFlow, AcceptPeer, FinishWithFrame, Answer, ApplyFailure, FlowFailure, RejectPending;
      if phase.Ended? || sender.SendClosed? {
        return Failing(State(DriverEnded));
      }
      if sender.Sending? {
        return Failing(State(ControlSendBusy));
      }
      ghost var before := Value(endpoint);
      match q {
        case OpenOutbound(open, datagram) => step := OpenFlow(endpoint, open, datagram);
        case AcceptInbound(pending, admission, maxStaging) => step := AcceptPendingInbound(endpoint, pending, admission, maxStaging);
        case RejectInbound(pending, reason) =>
          var r := flowControl.RejectInbound(endpoint, pending, reason);
          AnswerFrom(before, Value(endpoint), Done(flowControl.Value(), endpoint.model, r));
          step := Answered(endpoint, r);
        case FinishUnreliable(id) => step := FinishFlow(endpoint, id);
        case FinishReliableFails(id, reason) => step := FailFlow(endpoint, id, reason);
        case SubmitFails(id, reason) => step := FailFlow(endpoint, id, reason);
        case SubmitLosesTransport =>
          EndDriver(endpoint);
          return Failing(DataFailed);
      }
    }
  }

  lemma EstablishedOrNot(ep: Endpoint, key: FlowKey, mode: Mode, policy: Policy, limits: Limits)
    ensures Establish(ep, key, mode, policy, limits).1.Err? ==> Establish(ep, key, mode, policy, limits).0 == ep
  {
  }
}
