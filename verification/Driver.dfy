/** The established connection's driver: one control sender, one control receiver that may hold one
    deferred frame, and a rotation over eight categories of work. */
module Driver {
  import opened Basics
  import opened Wire
  import opened Delivery
  import opened Core
  import opened CoreInvariant
  import opened ControlBody
  import opened Registry
  import opened FlowControls
  import opened FailureReports
  import opened FlowNode

  datatype Phase = Active | Ended

  datatype SendState = ReadyToSend | Sending(frame: ControlFrame) | SendClosed

  datatype ReceiveState = Listening | Deferred(frame: ControlFrame) | ReceiveClosed

  datatype StateError = DriverEnded | ControlSendBusy

  datatype DriverError =
    | State(stateError: StateError)
    | OpenFailed(openError: OpenError)
    | AdmissionFailed(admissionError: AdmissionError)
    | ControlReceiveFailed
    | ControlSendFailed
    | ReceivedFlowControl(controlError: ControlError)
    | DataFailed
    | FailurePreparation(controlError: ControlError)

  datatype Progressed =
    | SendStarted
    | SendCompleted(frame: ControlFrame)
    | FlowProgress(progress: Progress)
    | DataMoved
    | FailureHandled(id: FlowId)

  datatype Step = Quiet | Progressing(what: Progressed) | Failing(error: DriverError)

  /** What was prepared for sending, what was sent, what arrived and what was processed, in order. */
  datatype Log = Log(prepared: seq<ControlFrame>, completed: seq<ControlFrame>, arrived: seq<ControlFrame>, processed: seq<ControlFrame>)

  /** The driver with its flow state; `retired` and `ended` record, for the proofs, the FlowIds this side
      ended itself and how often each FlowId had a termination-carrying outcome. */
  datatype Machine = Machine(control: Control, ep: Endpoint, retired: set<FlowId>, ended: multiset<FlowId>,
                             sender: SendState, receiver: ReceiveState, phase: Phase, cursor: nat, log: Log)

  const CATEGORIES: nat := 8

  // ---------------------------------------------------------------- what polling the transport finds

  datatype SendPoll = SendPending | SendDone | SendFails

  datatype ReceivePoll = ReceivePending | Arrives(frame: ControlFrame) | ReceiveFails

  /** How handing an established outbound flow to its transport owner goes. */
  datatype Routing = Scheduled | NoMemory | RoutingRefused

  /** What one poll of a data category does, effect by effect: it binds streams, moves Core's queues,
      receives data, closes, or fails. `reason` says how a failure would be reported. */
  datatype Effect =
    | Associates(id: FlowId, direction: Direction)
    | Transfers(op: Op)
    | Receives(id: FlowId, index: u64, payload: seq<u8>, reason: TerminateReason)
    | Closes(id: FlowId)
    | Fails(id: FlowId, key: FlowKey, handled: bool, reason: TerminateReason)
    | FlowDataFails(id: FlowId, reason: TerminateReason)
    | ConnectionFails

  datatype DataPoll = DataQuiet | DataMoves(effects: seq<Effect>)

  datatype Polls = Polls(peerClosed: bool, send: SendPoll, receive: ReceivePoll, routing: Routing, data: nat -> DataPoll)

  // ---------------------------------------------------------------- the sole sender

  function NextCategory(category: nat): nat {
    (category + 1) % CATEGORIES
  }

  function ShouldDefer(frameType: FrameType, pendingInbound: bool, sender: SendState): bool {
    !sender.ReadyToSend? || (pendingInbound && frameType.OpenFlow?)
  }

  function Unavailable(m: Machine): Option<StateError> {
    if m.phase.Ended? || m.sender.SendClosed? then Some(DriverEnded)
    else if m.sender.Sending? then Some(ControlSendBusy)
    else None
  }

  function EnterTerminal(m: Machine): Machine {
    if m.phase.Ended? then m else m.(phase := Ended, sender := SendClosed, receiver := ReceiveClosed)
  }

  /** A prepared frame goes to the sender, which must be free. */
  function StartSend(m: Machine, frame: ControlFrame, done: Progressed): (Machine, Step) {
    var noted := m.(log := m.log.(prepared := m.log.prepared + [frame]));
    if m.phase.Ended? then (EnterTerminal(noted), Failing(State(DriverEnded)))
    else match m.sender
      case ReadyToSend => (noted.(sender := Sending(frame)), Progressing(done))
      case Sending(_) => (EnterTerminal(noted), Failing(State(ControlSendBusy)))
      case SendClosed => (EnterTerminal(noted), Failing(State(DriverEnded)))
  }

  function PollSend(m: Machine, poll: SendPoll): (Machine, Step) {
    if !m.sender.Sending? then (m, Quiet)
    else match poll
      case SendPending => (m, Quiet)
      case SendDone =>
        (m.(sender := ReadyToSend, log := m.log.(completed := m.log.completed + [m.sender.frame])), Progressing(SendCompleted(m.sender.frame)))
      case SendFails => (EnterTerminal(m), Failing(ControlSendFailed))
  }

  // ---------------------------------------------------------------- failures of established flows

  /** One more termination-carrying outcome, of a FlowId that this side ends. */
  function NoteEnded(m: Machine, id: FlowId): Machine {
    m.(retired := m.retired + {id}, ended := m.ended + multiset{id})
  }

  ghost function ApplyFailure(m: Machine, d: Done<Result<Outcome, ControlError>>): (Machine, Step) {
    var after := m.(control := d.control, ep := d.ep);
    match d.result
    case Err(e) => (EnterTerminal(after), Failing(FailurePreparation(e)))
    case Ok(SendReport(id, reason, _)) => StartSend(NoteEnded(after, id), FrameOf(ControlMsg.Terminate(id, reason)), FailureHandled(id))
    case Ok(CleanedUp(id)) => (after, Progressing(FailureHandled(id)))
    case Ok(Closing) => (EnterTerminal(after), Failing(DataFailed))
  }

  /** Only the prepared flow state counts, not the one the preparation started from. */
  lemma ApplyFailureFrom(m: Machine, from: Machine, d: Done<Result<Outcome, ControlError>>)
    requires from == m.(control := from.control, ep := from.ep)
    ensures ApplyFailure(from, d) == ApplyFailure(m, d)
  {
  }

  /** A binding closes normally; its flow may already be gone from the registry. */
  ghost function CloseFlow(m: Machine, id: FlowId): Machine {
    if id !in m.control.reg then m
    else
      var closed := Core.Terminate(m.ep, m.control.reg[id].key, Requested).0;
      NoteEnded(m.(ep := closed, control := m.control.(reg := m.control.reg - {id})), id)
  }

  /** Received data of a registered flow. If Core ends the flow because of it, its binding fails at once:
      it was registered before, and no termination is left to hand over. */
  ghost function ReceiveData(m: Machine, id: FlowId, index: u64, payload: seq<u8>, reason: TerminateReason): (Machine, Step)
    requires id in m.control.reg
  {
    var key := m.control.reg[id].key;
    var after := ReceivePayload(m.ep, key, index, payload).0;
    if key in after.flows then (m.(ep := after), Quiet)
    else ApplyFailure(m.(ep := after), BindingFailure(m.control, after, id, key, true, reason))
  }

  /** One effect; a quiet step lets the poll go on. */
  ghost function DoEffect(m: Machine, e: Effect): (Machine, Step) {
    match e
    case Associates(id, direction) => (m.(control := Bound(m.control, id, direction)), Quiet)
    case Transfers(op) => (m.(ep := Apply(m.ep, op)), Quiet)
    case Receives(id, index, payload, reason) => if id in m.control.reg then ReceiveData(m, id, index, payload, reason) else (m, Quiet)
    case Closes(id) => (CloseFlow(m, id), Progressing(DataMoved))
    case Fails(id, key, handled, reason) => ApplyFailure(m, BindingFailure(m.control, m.ep, id, key, handled, reason))
    case FlowDataFails(id, reason) => ApplyFailure(m, FlowFailure(m.control, m.ep, id, reason))
    case ConnectionFails => (EnterTerminal(m), Failing(DataFailed))
  }

  /** Effects in order, up to the first that ends the poll. */
  ghost function RunEffects(m: Machine, effects: seq<Effect>): (Machine, Step)
    decreases |effects|
  {
    if effects == [] then (m, Progressing(DataMoved))
    else
      var r := DoEffect(m, effects[0]);
      if r.1.Quiet? then RunEffects(r.0, effects[1..]) else r
  }

  ghost function PollData(m: Machine, poll: DataPoll): (Machine, Step) {
    match poll
    case DataQuiet => (m, Quiet)
    case DataMoves(effects) => RunEffects(m, effects)
  }

  // ---------------------------------------------------------------- receiving control frames

  ghost function RouteEstablished(m: Machine, p: Progress, routing: Routing): (Machine, Step)
    requires p.OutboundEstablished?
  {
    match routing
    case Scheduled => (m, Progressing(FlowProgress(p)))
    case NoMemory => ApplyFailure(m, FlowFailure(m.control, m.ep, p.flow.id, ResourceFailure))
    case RoutingRefused => (EnterTerminal(m), Failing(DataFailed))
  }

  ghost function Route(m: Machine, p: Progress, routing: Routing): (Machine, Step) {
    if ReplyTo(p).Some? then StartSend(m, FrameOf(ReplyTo(p).value), SendStarted)
    else if p.OutboundEstablished? then RouteEstablished(m, p, routing)
    else (m, Progressing(FlowProgress(p)))
  }

  ghost function ProcessFrame(m: Machine, frame: ControlFrame, routing: Routing): (Machine, Step) {
    var d := ReceiveControl(m.control, m.ep, frame);
    var after := m.(control := d.control, ep := d.ep, log := m.log.(processed := m.log.processed + [frame]));
    match d.result
    case Err(e) => (EnterTerminal(after.(receiver := ReceiveClosed)), Failing(ReceivedFlowControl(e)))
    case Ok(p) =>
      Route(after.(receiver := Listening, retired := m.retired + RetiredBy(p), ended := m.ended + EndedBy(p)), p, routing)
  }

  ghost function PollReceive(m: Machine, poll: ReceivePoll, routing: Routing): (Machine, Step) {
    match m.receiver
    case Deferred(frame) =>
      if ShouldDefer(frame.frameType, m.control.pendingIn.Some?, m.sender) then (m, Quiet) else ProcessFrame(m, frame, routing)
    case ReceiveClosed => (m, Quiet)
    case Listening =>
      match poll
      case ReceivePending => (m, Quiet)
      case ReceiveFails => (EnterTerminal(m.(receiver := ReceiveClosed)), Failing(ControlReceiveFailed))
      case Arrives(frame) => TakeArrival(m, frame, routing)
  }

  ghost function TakeArrival(m: Machine, frame: ControlFrame, routing: Routing): (Machine, Step) {
    var noted := m.(log := m.log.(arrived := m.log.arrived + [frame]));
    if ShouldDefer(frame.frameType, m.control.pendingIn.Some?, m.sender) then (noted.(receiver := Deferred(frame)), Quiet)
    else ProcessFrame(noted, frame, routing)
  }

  // ---------------------------------------------------------------- one step of the rotation

  predicate DataAllowed(m: Machine) {
    m.phase.Active? && m.sender.ReadyToSend?
  }

  ghost function Category(m: Machine, index: nat, polls: Polls): (Machine, Step) {
    if index == 0 then PollSend(m, polls.send)
    else if index == 1 then if polls.peerClosed then (m, Quiet) else PollReceive(m, polls.receive, polls.routing)
    else if DataAllowed(m) then PollData(m, polls.data(index))
    else (m, Quiet)
  }

  ghost function Rotate(m: Machine, start: nat, offset: nat, polls: Polls): (Machine, Step)
    requires offset <= CATEGORIES
    decreases CATEGORIES - offset
  {
    if offset == CATEGORIES then (m.(cursor := NextCategory(start)), Quiet)
    else
      var index := (start + offset) % CATEGORIES;
      var r := Category(m, index, polls);
      if r.1.Quiet? then Rotate(r.0, start, offset + 1, polls) else (r.0.(cursor := NextCategory(index)), r.1)
  }

  /** One poll. A clean close by the peer gives the control receiver one poll ahead of the rotation. */
  ghost function PollStep(m: Machine, polls: Polls): (Machine, Step) {
    if m.phase.Ended? then (m, Failing(State(DriverEnded)))
    else if polls.peerClosed then
      var r := PollReceive(m, polls.receive, polls.routing);
      if r.1.Quiet? then Rotate(r.0, r.0.cursor % CATEGORIES, 0, polls) else (r.0.(cursor := NextCategory(1)), r.1)
    else Rotate(m, m.cursor % CATEGORIES, 0, polls)
  }

  // ---------------------------------------------------------------- what the host may ask for

  datatype Request =
    | OpenOutbound(open: OpenRequest, datagram: Option<nat>)
    | AcceptInbound(pending: PendingIn, admission: Admission, maxStaging: nonzero)
    | RejectInbound(pending: PendingIn, rejectReason: RejectReason)
    | FinishUnreliable(id: FlowId)
    | FinishReliableFails(id: FlowId, reason: TerminateReason)
    | SubmitFails(id: FlowId, reason: TerminateReason)
    | SubmitLosesTransport

  ghost function Answer(m: Machine, d: Done<Result<Resolution, AdmissionError>>): (Machine, Step) {
    var after := m.(control := d.control, ep := d.ep);
    match d.result
    case Ok(r) => StartSend(after, FrameOf(ResolutionFrame(r)), SendStarted)
    case Err(e) => (if e.RequestNotPending? then after else EnterTerminal(after), Failing(AdmissionFailed(e)))
  }

  lemma AnswerFrom(m: Machine, from: Machine, d: Done<Result<Resolution, AdmissionError>>)
    requires from == m.(control := from.control, ep := from.ep)
    ensures Answer(from, d) == Answer(m, d)
  {
  }

  ghost function OpenFlow(m: Machine, q: OpenRequest, datagram: Option<nat>): (Machine, Step) {
    var (control, r) := PrepareOpen(m.control, m.ep, q, datagram);
    match r
    case Err(e) => (if e.DatagramUnavailable? then EnterTerminal(m) else m, Failing(OpenFailed(e)))
    case Ok(open) => StartSend(m.(control := control), FrameOf(open), SendStarted)
  }

  /** A reliable flow whose messages do not fit the adapter's staging buffer is refused. */
  ghost function AcceptPeer(m: Machine, q: PendingIn, a: Admission, maxStaging: nonzero): (Machine, Step) {
    if q.mode.ReliableOrdered? && q.maxMessageBytes > maxStaging then Answer(m, RejectPending(m.control, m.ep, q, ResourceLimit))
    else Answer(m, AcceptPending(m.control, m.ep, q, a))
  }

  ghost function FinishWithFrame(m: Machine, id: FlowId): (Machine, Step) {
    var d := TerminateLocal(m.control, m.ep, id, Normal);
    var after := m.(control := d.control, ep := d.ep);
    match d.result
    case Err(e) => (after, Failing(FailurePreparation(e)))
    case Ok(_) => StartSend(NoteEnded(after, id), FrameOf(ControlMsg.Terminate(id, Normal)), SendStarted)
  }

  /** Every request needs the free sender before it touches any state. */
  ghost function Serve(m: Machine, q: Request): (Machine, Step) {
    if Unavailable(m).Some? then (m, Failing(State(Unavailable(m).value)))
    else match q
      case OpenOutbound(open, datagram) => OpenFlow(m, open, datagram)
      case AcceptInbound(pending, admission, maxStaging) => AcceptPeer(m, pending, admission, maxStaging)
      case RejectInbound(pending, reason) => Answer(m, RejectPending(m.control, m.ep, pending, reason))
      case FinishUnreliable(id) => FinishWithFrame(m, id)
      case FinishReliableFails(id, reason) => ApplyFailure(m, FlowFailure(m.control, m.ep, id, reason))
      case SubmitFails(id, reason) => ApplyFailure(m, FlowFailure(m.control, m.ep, id, reason))
      case SubmitLosesTransport => (EnterTerminal(m), Failing(DataFailed))
  }

  // ---------------------------------------------------------------- nothing is lost

  function InFlight(sender: SendState): seq<ControlFrame> {
    if sender.Sending? then [sender.frame] else []
  }

  function Held(receiver: ReceiveState): seq<ControlFrame> {
    if receiver.Deferred? then [receiver.frame] else []
  }

  /** While active, every prepared frame is sent or being sent and every arrived frame is processed or
      held, in order; when the driver ends, at most the last of each is left behind. */
  ghost predicate Accounted(m: Machine) {
    var log := m.log;
    if m.phase.Active? then
      && !m.sender.SendClosed? && !m.receiver.ReceiveClosed?
      && log.prepared == log.completed + InFlight(m.sender) && log.arrived == log.processed + Held(m.receiver)
    else
      && m.sender.SendClosed? && m.receiver.ReceiveClosed?
      && log.completed <= log.prepared && |log.prepared| <= |log.completed| + 1
      && log.processed <= log.arrived && |log.arrived| <= |log.processed| + 1
  }

  /** The log only grows. */
  ghost predicate Extends(before: Log, after: Log) {
    && before.prepared <= after.prepared && before.completed <= after.completed
    && before.arrived <= after.arrived && before.processed <= after.processed
  }

  /** A step that keeps the accounts and never finds the sender busy with a prepared frame in hand. */
  ghost predicate Sound(m: Machine, r: (Machine, Step)) {
    Accounted(r.0) && Extends(m.log, r.0.log) && r.1 != Failing(State(ControlSendBusy))
  }

  lemma ApplyFailureSound(m: Machine, d: Done<Result<Outcome, ControlError>>)
    requires Accounted(m) && DataAllowed(m)
    ensures Sound(m, ApplyFailure(m, d))
  {
  }

  lemma EffectSound(m: Machine, e: Effect)
    requires Accounted(m) && DataAllowed(m)
    ensures Sound(m, DoEffect(m, e))
    ensures DoEffect(m, e).1.Quiet? ==> DataAllowed(DoEffect(m, e).0)
  {
    hide BindingFailure, FlowFailure, BodyOf, Core.Terminate, ReceivePayload, Apply, Bound;
    match e
    case Receives(id, index, payload, reason) =>
      if id in m.control.reg {
        var key := m.control.reg[id].key;
        var after := ReceivePayload(m.ep, key, index, payload).0;
        ApplyFailureSound(m.(ep := after), BindingFailure(m.control, after, id, key, true, reason));
      }
    case Fails(id, key, handled, reason) => ApplyFailureSound(m, BindingFailure(m.control, m.ep, id, key, handled, reason));
    case FlowDataFails(id, reason) => ApplyFailureSound(m, FlowFailure(m.control, m.ep, id, reason));
    case _ =>
  }

  lemma {:induction false} EffectsSound(m: Machine, effects: seq<Effect>)
    requires Accounted(m) && DataAllowed(m)
    ensures Sound(m, RunEffects(m, effects)) && !RunEffects(m, effects).1.Quiet?
    decreases |effects|
  {
    hide DoEffect, Accounted;
    if effects != [] {
      EffectSound(m, effects[0]);
      if DoEffect(m, effects[0]).1.Quiet? {
        EffectsSound(DoEffect(m, effects[0]).0, effects[1..]);
      }
    }
  }

  lemma PollDataSound(m: Machine, poll: DataPoll)
    requires Accounted(m) && DataAllowed(m)
    ensures Sound(m, PollData(m, poll))
    ensures PollData(m, poll).1.Quiet? ==> PollData(m, poll).0 == m
  {
    hide RunEffects;
    if poll.DataMoves? {
      EffectsSound(m, poll.effects);
    }
  }

  /** Deferral keeps a second OPEN, and any frame that might need a reply while the sender is busy, from
      being processed: a received frame never fails for want of the sender or of a host decision. */
  lemma ProcessFrameSound(m: Machine, frame: ControlFrame, routing: Routing)
    requires m.phase.Active? && !ShouldDefer(frame.frameType, m.control.pendingIn.Some?, m.sender)
    requires !m.receiver.ReceiveClosed? && m.log.prepared == m.log.completed && m.log.arrived == m.log.processed + [frame]
    ensures Sound(m, ProcessFrame(m, frame, routing))
  {
    hide ReceiveControl, Route, BodyOf, FlowFailure;
    var d := ReceiveControl(m.control, m.ep, frame);
    if d.result.Ok? {
      var p := d.result.value;
      RouteSound(m.(control := d.control, ep := d.ep, log := m.log.(processed := m.log.processed + [frame]), receiver := Listening,
                    retired := m.retired + RetiredBy(p), ended := m.ended + EndedBy(p)), p, routing);
    }
  }

  lemma RouteSound(m: Machine, p: Progress, routing: Routing)
    requires Accounted(m) && DataAllowed(m)
    ensures Sound(m, Route(m, p, routing))
  {
    hide BodyOf, FlowFailure;
    if p.OutboundEstablished? {
      ApplyFailureSound(m, FlowFailure(m.control, m.ep, p.flow.id, ResourceFailure));
    }
  }

  lemma DecisionNeverPending(m: Machine, frame: ControlFrame)
    requires !ShouldDefer(frame.frameType, m.control.pendingIn.Some?, m.sender)
    ensures var r := ReceiveControl(m.control, m.ep, frame).result; r.Err? ==> !r.error.InboundDecisionPending?
  {
    hide Establish, Core.Terminate, Register, BodyOf, DecodeBody;
    if !frame.frameType.OtherFrame? && DecodeBody(frame.frameType, frame.body).Ok? {
      BodyBijection(frame.frameType, frame.body, DecodeBody(frame.frameType, frame.body).value);
    }
  }

  lemma PollReceiveSound(m: Machine, poll: ReceivePoll, routing: Routing)
    requires Accounted(m) && m.phase.Active?
    ensures Sound(m, PollReceive(m, poll, routing))
  {
    hide ProcessFrame;
    match m.receiver
    case Deferred(frame) =>
      if !ShouldDefer(frame.frameType, m.control.pendingIn.Some?, m.sender) {
        ProcessFrameSound(m, frame, routing);
      }
    case Listening =>
      if poll.Arrives? && !ShouldDefer(poll.frame.frameType, m.control.pendingIn.Some?, m.sender) {
        ProcessFrameSound(m.(log := m.log.(arrived := m.log.arrived + [poll.frame])), poll.frame, routing);
      }
    case _ =>
  }

  lemma CategorySound(m: Machine, index: nat, polls: Polls)
    requires Accounted(m) && m.phase.Active?
    ensures Sound(m, Category(m, index, polls))
    ensures Category(m, index, polls).1.Quiet? ==> Category(m, index, polls).0.phase.Active?
  {
    hide PollReceive, PollData;
    PollReceiveSound(m, polls.receive, polls.routing);
    if PollReceive(m, polls.receive, polls.routing).1.Quiet? {
      QuietStaysActive(m, polls);
    }
    if DataAllowed(m) {
      PollDataSound(m, polls.data(index));
    }
  }

  lemma QuietStaysActive(m: Machine, polls: Polls)
    requires Accounted(m) && m.phase.Active? && PollReceive(m, polls.receive, polls.routing).1.Quiet?
    ensures PollReceive(m, polls.receive, polls.routing).0.phase.Active?
  {
    hide ReceiveControl, FlowFailure, BodyOf;
  }

  lemma {:induction false} RotateSound(m: Machine, start: nat, offset: nat, polls: Polls)
    requires Accounted(m) && m.phase.Active? && offset <= CATEGORIES
    ensures Sound(m, Rotate(m, start, offset, polls))
    decreases CATEGORIES - offset
  {
    hide Category;
    if offset < CATEGORIES {
      CategorySound(m, (start + offset) % CATEGORIES, polls);
      if Category(m, (start + offset) % CATEGORIES, polls).1.Quiet? {
        RotateSound(Category(m, (start + offset) % CATEGORIES, polls).0, start, offset + 1, polls);
      }
    }
  }

  lemma PollStepSound(m: Machine, polls: Polls)
    requires Accounted(m)
    ensures Sound(m, PollStep(m, polls))
  {
    hide PollReceive, Rotate;
    if m.phase.Active? {
      var r := PollReceive(m, polls.receive, polls.routing);
      PollReceiveSound(m, polls.receive, polls.routing);
      if !polls.peerClosed {
        RotateSound(m, m.cursor % CATEGORIES, 0, polls);
      } else if r.1.Quiet? {
        QuietStaysActive(m, polls);
        RotateSound(r.0, r.0.cursor % CATEGORIES, 0, polls);
      }
    }
  }

  lemma AnswerSound(m: Machine, d: Done<Result<Resolution, AdmissionError>>)
    requires Accounted(m) && DataAllowed(m)
    ensures Sound(m, Answer(m, d))
  {
  }

  lemma ServeSound(m: Machine, q: Request)
    requires Accounted(m)
    ensures Accounted(Serve(m, q).0) && Extends(m.log, Serve(m, q).0.log)
    ensures Serve(m, q).1 == Failing(State(ControlSendBusy)) ==> m.sender.Sending? && Serve(m, q).0 == m
  {
    hide FlowFailure, BodyOf, PrepareOpen, AcceptPending, RejectPending, TerminateLocal, Answer, ApplyFailure;
    if DataAllowed(m) {
      match q
      case AcceptInbound(pending, admission, _) =>
        AnswerSound(m, RejectPending(m.control, m.ep, pending, ResourceLimit));
        AnswerSound(m, AcceptPending(m.control, m.ep, pending, admission));
      case RejectInbound(pending, reason) => AnswerSound(m, RejectPending(m.control, m.ep, pending, reason));
      case FinishReliableFails(id, reason) => ApplyFailureSound(m, FlowFailure(m.control, m.ep, id, reason));
      case SubmitFails(id, reason) => ApplyFailureSound(m, FlowFailure(m.control, m.ep, id, reason));
      case _ =>
    }
  }

  // ---------------------------------------------------------------- every run

  /** A poll, a request to the driver, or a Core operation that the host does on its own. */
  datatype Call = Poll(polls: Polls) | Ask(request: Request) | Host(op: Op)

  ghost function Does(m: Machine, call: Call): (Machine, Step) {
    match call
    case Poll(polls) => PollStep(m, polls)
    case Ask(q) => Serve(m, q)
    case Host(op) => (m.(ep := Apply(m.ep, op)), Quiet)
  }

  ghost function After(m: Machine, calls: seq<Call>): Machine
    decreases |calls|
  {
    if calls == [] then m else After(Does(m, calls[0]).0, calls[1..])
  }

  function NewMachine(control: Control, ep: Endpoint): Machine {
    Machine(control, ep, {}, multiset{}, ReadyToSend, Listening, Active, 0, Log([], [], [], []))
  }

  lemma HostSound(m: Machine, op: Op)
    requires Accounted(m)
    ensures Accounted(m.(ep := Apply(m.ep, op)))
  {
    hide Apply;
  }

  lemma {:induction false} AfterKeeps(m: Machine, calls: seq<Call>)
    requires Accounted(m)
    ensures Accounted(After(m, calls)) && Extends(m.log, After(m, calls).log)
    decreases |calls|
  {
    hide Accounted, PollStep, Serve, Apply;
    if calls != [] {
      match calls[0] {
        case Poll(polls) => PollStepSound(m, polls);
        case Ask(q) => ServeSound(m, q);
        case Host(op) => HostSound(m, op);
      }
      AfterKeeps(Does(m, calls[0]).0, calls[1..]);
    }
  }

  /** In every run of a driver, until it ends: each prepared frame has been sent, in order, or is the one
      being sent; each arrived frame has been processed once, in order, or is the one held back. When it
      ends, at most one frame of each kind is left behind. No later call revives it. */
  lemma NothingIsLost(control: Control, ep: Endpoint, calls: seq<Call>)
    ensures var m := After(NewMachine(control, ep), calls);
            && (m.phase.Active? ==>
                  m.log.prepared == m.log.completed + InFlight(m.sender) && m.log.arrived == m.log.processed + Held(m.receiver))
            && m.log.completed <= m.log.prepared && |m.log.prepared| <= |m.log.completed| + 1
            && m.log.processed <= m.log.arrived && |m.log.arrived| <= |m.log.processed| + 1
  {
    hide PollStep, Serve, After;
    AfterKeeps(NewMachine(control, ep), calls);
  }

  /** Polling never finds the sender busy with a prepared frame in hand, and never processes a frame that
      has to wait for a host decision. */
  lemma SenderIsAlwaysFree(control: Control, ep: Endpoint, calls: seq<Call>, polls: Polls)
    ensures PollStep(After(NewMachine(control, ep), calls), polls).1 != Failing(State(ControlSendBusy))
  {
    hide PollStep, Serve, After, Accounted;
    assert Accounted(NewMachine(control, ep)) by { FreshAccounts(control, ep); }
    AfterKeeps(NewMachine(control, ep), calls);
    PollStepSound(After(NewMachine(control, ep), calls), polls);
  }

  lemma FreshAccounts(control: Control, ep: Endpoint)
    ensures Accounted(NewMachine(control, ep))
  {
  }
}
