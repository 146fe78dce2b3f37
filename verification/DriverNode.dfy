/** A driver's calls are acts of its node: whatever a poll or a request does to the flow state is a run of
    `FlowNode`, and the frames it prepares are the frames that run sends. Each FlowId is therefore reported
    ended at most once over every run of a driver. */
module DriverNode {
  import opened Basics
  import opened Wire
  import opened Delivery
  import opened Core
  import opened CoreInvariant
  import opened ControlBody
  import opened Registry
  import opened FlowControls
  import opened FailureReports
  import opened FlowNode
  import opened Driver

  function NodeOf(m: Machine): Node {
    Node(m.control, m.ep, m.retired, m.ended)
  }

  function FramesOf(sent: Option<ControlMsg>): seq<ControlFrame> {
    if sent.Some? && Representable(sent.value) then [FrameOf(sent.value)] else []
  }

  /** An error-free run of a node with the frames it sends. */
  ghost predicate Trace(n: Node, acts: seq<Act>, last: Node, frames: seq<ControlFrame>)
    decreases |acts|
  {
    if acts == [] then n == last && frames == []
    else
      && Legal(n, acts[0]) && !NodeNext(n, acts[0]).failed
      && FramesOf(NodeNext(n, acts[0]).sent) <= frames
      && Trace(NodeNext(n, acts[0]).node, acts[1..], last, frames[|FramesOf(NodeNext(n, acts[0]).sent)|..])
  }

  lemma {:induction false} TraceIsRun(n: Node, acts: seq<Act>, last: Node, frames: seq<ControlFrame>)
    requires Trace(n, acts, last, frames)
    ensures NodeRun(n, acts, last)
    decreases |acts|
  {
    hide NodeNext, Legal, FramesOf;
    if acts != [] {
      TraceIsRun(NodeNext(n, acts[0]).node, acts[1..], last, frames[|FramesOf(NodeNext(n, acts[0]).sent)|..]);
    }
  }

  lemma {:induction false} TraceJoin(n: Node, acts: seq<Act>, mid: Node, frames: seq<ControlFrame>, more: seq<Act>, last: Node, rest: seq<ControlFrame>)
    requires Trace(n, acts, mid, frames) && Trace(mid, more, last, rest)
    ensures Trace(n, acts + more, last, frames + rest)
    decreases |acts|
  {
    hide NodeNext, Legal, FramesOf;
    if acts == [] {
      assert acts + more == more && frames + rest == rest;
    } else {
      var sent := FramesOf(NodeNext(n, acts[0]).sent);
      TraceJoin(NodeNext(n, acts[0]).node, acts[1..], mid, frames[|sent|..], more, last, rest);
      assert (acts + more)[1..] == acts[1..] + more;
      assert (frames + rest)[|sent|..] == frames[|sent|..] + rest;
    }
  }

  /** The flow state moves by acts of the node, and the frames prepared are the frames those acts send. */
  ghost predicate Performs(m: Machine, after: Machine) {
    exists acts, frames :: Trace(NodeOf(m), acts, NodeOf(after), frames) && after.log.prepared == m.log.prepared + frames
  }

  lemma PerformsNone(m: Machine, after: Machine)
    requires NodeOf(after) == NodeOf(m) && after.log.prepared == m.log.prepared
    ensures Performs(m, after)
  {
    assert Trace(NodeOf(m), [], NodeOf(after), []);
  }

  lemma PerformsOne(m: Machine, after: Machine, act: Act)
    requires Legal(NodeOf(m), act) && !NodeNext(NodeOf(m), act).failed
    requires NodeOf(after) == NodeNext(NodeOf(m), act).node
    requires after.log.prepared == m.log.prepared + FramesOf(NodeNext(NodeOf(m), act).sent)
    ensures Performs(m, after)
  {
    hide NodeNext, Legal, FramesOf, NodeOf;
    var frames := FramesOf(NodeNext(NodeOf(m), act).sent);
    assert [act][1..] == [] && frames[|frames|..] == [];
    assert Trace(NodeOf(after), [], NodeOf(after), []);
    assert Trace(NodeOf(m), [act], NodeOf(after), frames);
  }

  lemma PerformsThen(m: Machine, mid: Machine, after: Machine)
    requires Performs(m, mid) && Performs(mid, after)
    ensures Performs(m, after)
  {
    hide Trace, NodeOf;
    var acts, frames :| Trace(NodeOf(m), acts, NodeOf(mid), frames) && mid.log.prepared == m.log.prepared + frames;
    var more, rest :| Trace(NodeOf(mid), more, NodeOf(after), rest) && after.log.prepared == mid.log.prepared + rest;
    TraceJoin(NodeOf(m), acts, NodeOf(mid), frames, more, NodeOf(after), rest);
    assert after.log.prepared == m.log.prepared + (frames + rest);
  }

  // ---------------------------------------------------------------- what every call keeps

  ghost predicate AtMostOnce(m: Machine) {
    forall id :: m.ended[id] <= 1
  }

  lemma NodeEndsOnce(m: Machine)
    requires NodeInv(NodeOf(m))
    ensures AtMostOnce(m)
  {
    hide WellFormed, PendingOk, RegistryOk, DistinctKeys, WithinLimits, AllGone, Gone;
  }

  lemma SameEnded(m: Machine, after: Machine)
    requires AtMostOnce(m) && after.ended == m.ended
    ensures AtMostOnce(after)
  {
  }

  predicate NoInternalError(step: Step) {
    && !(step.Failing? && step.error.FailurePreparation?)
    && (step.Failing? && step.error.ReceivedFlowControl? ==>
          !step.error.controlError.RegistryFailure? && !step.error.controlError.CoreState? && !step.error.controlError.InboundDecisionPending?)
    && (step.Failing? && step.error.AdmissionFailed? ==> !step.error.admissionError.AdmitRegistry? && !step.error.admissionError.CoreRollback?)
  }

  ghost predicate Kept(m: Machine, r: (Machine, Step)) {
    && (r.0.phase.Active? ==> NodeInv(NodeOf(r.0)) && Performs(m, r.0))
    && AtMostOnce(r.0) && NoInternalError(r.1)
  }

  predicate LegalEffect(n: Node, e: Effect) {
    match e
    case Associates(id, direction) => true
    case Transfers(op) => Legal(n, HostActs(op))
    case Receives(id, index, payload, reason) => Legal(n, DataArrives(id, index, payload, reason))
    case Closes(id) => id in n.c.reg ==> Legal(n, BindingCloses(id))
    case Fails(id, key, handled, reason) => Legal(n, BindingFails(id, key, handled, reason))
    case FlowDataFails(id, reason) => Legal(n, FlowFails(id, reason))
    case ConnectionFails => true
  }

  /** The node after an effect that lets its poll go on; none if the effect ends the poll. */
  ghost function GoesOn(n: Node, e: Effect): Option<Node> {
    match e
    case Associates(id, direction) => Some(n.(c := Bound(n.c, id, direction)))
    case Transfers(op) => Some(n.(ep := Apply(n.ep, op)))
    case Receives(id, index, payload, reason) =>
      if id !in n.c.reg then Some(n)
      else
        var after := ReceivePayload(n.ep, n.c.reg[id].key, index, payload).0;
        if n.c.reg[id].key in after.flows then Some(n.(ep := after)) else None
    case _ => None
  }

  ghost predicate LegalEffects(n: Node, effects: seq<Effect>)
    decreases |effects|
  {
    effects != [] ==>
      && LegalEffect(n, effects[0])
      && (GoesOn(n, effects[0]).Some? ==> LegalEffects(GoesOn(n, effects[0]).value, effects[1..]))
  }

  ghost predicate LegalData(n: Node, poll: DataPoll) {
    poll.DataMoves? ==> LegalEffects(n, poll.effects)
  }

  ghost predicate LegalPolls(n: Node, polls: Polls) {
    forall index :: LegalData(n, polls.data(index))
  }

  /** The host finishes only unreliable flows with a frame, and never reports a stream's failure as normal. */
  predicate LegalRequest(n: Node, q: Request) {
    match q
    case FinishUnreliable(id) => id in n.c.reg && !n.c.reg[id].mode.ReliableOrdered?
    case FinishReliableFails(id, reason) => Legal(n, FlowFails(id, reason))
    case SubmitFails(id, reason) => Legal(n, FlowFails(id, reason))
    case _ => true
  }

  // ---------------------------------------------------------------- failures and data

  /** A failure outcome is carried out as its report says. */
  lemma FailureApplied(m: Machine, id: FlowId, d: Done<Result<Outcome, ControlError>>)
    requires DataAllowed(m) && d.result.Ok? && !d.result.value.Closing?
    requires d.result.value.SendReport? ==> d.result.value.id == id
    ensures var r := ApplyFailure(m, d);
            var step := Report(NodeOf(m), id, d);
            && !step.failed && r.0.phase.Active? && NodeOf(r.0) == step.node && r.1.Progressing?
            && r.0.log.prepared == m.log.prepared + FramesOf(step.sent)
  {
    hide BodyOf;
    if d.result.value.CleanedUp? {
      assert m.log.prepared + [] == m.log.prepared;
    }
  }

  lemma BindingFailureKept(m: Machine, id: FlowId, key: FlowKey, handled: bool, reason: TerminateReason)
    requires DataAllowed(m) && NodeInv(NodeOf(m)) && Legal(NodeOf(m), BindingFails(id, key, handled, reason))
    ensures Kept(m, ApplyFailure(m, BindingFailure(m.control, m.ep, id, key, handled, reason)))
  {
    hide NodeInv, BindingFailure, ApplyFailure, FramesOf, Performs, AtMostOnce;
    var n := NodeOf(m);
    var d := BindingFailure(m.control, m.ep, id, key, handled, reason);
    BindingFailureKeeps(n, id, key, handled, reason);
    FailureApplied(m, id, d);
    PerformsOne(m, ApplyFailure(m, d).0, BindingFails(id, key, handled, reason));
    NodeEndsOnce(ApplyFailure(m, d).0);
  }

  lemma FlowFailureKept(m: Machine, id: FlowId, reason: TerminateReason)
    requires DataAllowed(m) && NodeInv(NodeOf(m)) && Legal(NodeOf(m), FlowFails(id, reason))
    ensures Kept(m, ApplyFailure(m, FlowFailure(m.control, m.ep, id, reason)))
    ensures ApplyFailure(m, FlowFailure(m.control, m.ep, id, reason)).0.phase.Active?
  {
    hide NodeInv, FlowFailure, ApplyFailure, FramesOf, Performs, AtMostOnce;
    var n := NodeOf(m);
    var d := FlowFailure(m.control, m.ep, id, reason);
    FlowFailureKeeps(n, id, reason);
    FailureApplied(m, id, d);
    PerformsOne(m, ApplyFailure(m, d).0, FlowFails(id, reason));
    NodeEndsOnce(ApplyFailure(m, d).0);
  }

  /** An arrival is one act, whether Core keeps the flow or ends it in the failing poll. */
  lemma ArrivalKept(m: Machine, id: FlowId, index: u64, payload: seq<u8>, reason: TerminateReason)
    requires DataAllowed(m) && NodeInv(NodeOf(m)) && Legal(NodeOf(m), DataArrives(id, index, payload, reason))
    ensures Kept(m, ReceiveData(m, id, index, payload, reason))
  {
    hide NodeInv, BindingFailure, ApplyFailure, ReceivePayload, FramesOf, Performs, AtMostOnce;
    var n := NodeOf(m);
    var key := m.control.reg[id].key;
    var after := ReceivePayload(m.ep, key, index, payload).0;
    ArrivalKeeps(n, id, index, payload, reason);
    var r := ReceiveData(m, id, index, payload, reason);
    if key in after.flows {
      assert m.log.prepared + FramesOf(None) == m.log.prepared by { NothingSent(m.log.prepared); }
    } else {
      BindingFailureOutcomes(m.control, after, id, key, true, reason);
      FailureApplied(m.(ep := after), id, BindingFailure(m.control, after, id, key, true, reason));
    }
    PerformsOne(m, r.0, DataArrives(id, index, payload, reason));
    NodeEndsOnce(r.0);
  }

  lemma NothingSent(frames: seq<ControlFrame>)
    ensures frames + FramesOf(None) == frames
  {
  }

  lemma CloseKept(m: Machine, id: FlowId)
    requires NodeInv(NodeOf(m)) && (id in m.control.reg ==> Legal(NodeOf(m), BindingCloses(id)))
    ensures Kept(m, (CloseFlow(m, id), Progressing(DataMoved)))
  {
    hide NodeInv, FramesOf, Performs, AtMostOnce, Core.Terminate;
    if id in m.control.reg {
      BindingCloseKeeps(NodeOf(m), id);
      NothingSent(m.log.prepared);
      PerformsOne(m, CloseFlow(m, id), BindingCloses(id));
    } else {
      PerformsNone(m, m);
    }
    NodeEndsOnce(CloseFlow(m, id));
  }

  lemma EffectKept(m: Machine, e: Effect)
    requires DataAllowed(m) && NodeInv(NodeOf(m)) && LegalEffect(NodeOf(m), e)
    ensures Kept(m, DoEffect(m, e))
    ensures DoEffect(m, e).1.Quiet? ==> DataAllowed(DoEffect(m, e).0) && GoesOn(NodeOf(m), e) == Some(NodeOf(DoEffect(m, e).0))
  {
    hide NodeInv, BindingFailure, FlowFailure, ApplyFailure, ReceivePayload, Apply, Bound, FramesOf, Performs, AtMostOnce, CloseFlow;
    var n := NodeOf(m);
    match e
    case Associates(id, direction) =>
      FlowNode.AssociateKeeps(n, id, direction);
      NothingSent(m.log.prepared);
      PerformsOne(m, DoEffect(m, e).0, AssociateStream(id, direction));
      NodeEndsOnce(DoEffect(m, e).0);
    case Transfers(op) =>
      HostKeeps(n, op);
      NothingSent(m.log.prepared);
      PerformsOne(m, DoEffect(m, e).0, HostActs(op));
      NodeEndsOnce(DoEffect(m, e).0);
    case Receives(id, index, payload, reason) =>
      ArrivalKept(m, id, index, payload, reason);
      AppliedIsNotQuiet(m, id, index, payload, reason);
    case Closes(id) => CloseKept(m, id);
    case Fails(id, key, handled, reason) =>
      BindingFailureKept(m, id, key, handled, reason);
      FailureIsNotQuiet(m, BindingFailure(m.control, m.ep, id, key, handled, reason));
    case FlowDataFails(id, reason) =>
      FlowFailureKept(m, id, reason);
      FailureIsNotQuiet(m, FlowFailure(m.control, m.ep, id, reason));
    case ConnectionFails =>
      NodeEndsOnce(m);
      SameEnded(m, EnterTerminal(m));
  }

  lemma FailureIsNotQuiet(m: Machine, d: Done<Result<Outcome, ControlError>>)
    ensures !ApplyFailure(m, d).1.Quiet?
  {
    hide BodyOf;
  }

  lemma AppliedIsNotQuiet(m: Machine, id: FlowId, index: u64, payload: seq<u8>, reason: TerminateReason)
    requires id in m.control.reg
    ensures ReceiveData(m, id, index, payload, reason).1.Quiet? <==> m.control.reg[id].key in ReceivePayload(m.ep, m.control.reg[id].key, index, payload).0.flows
  {
    hide ReceivePayload, BindingFailure, ApplyFailure;
    var after := ReceivePayload(m.ep, m.control.reg[id].key, index, payload).0;
    FailureIsNotQuiet(m.(ep := after), BindingFailure(m.control, after, id, m.control.reg[id].key, true, reason));
  }

  lemma {:induction false} EffectsKept(m: Machine, effects: seq<Effect>)
    requires DataAllowed(m) && NodeInv(NodeOf(m)) && LegalEffects(NodeOf(m), effects)
    ensures Kept(m, RunEffects(m, effects))
    decreases |effects|
  {
    hide NodeInv, DoEffect, LegalEffect, GoesOn, Performs, AtMostOnce, NodeOf, NoInternalError;
    if effects == [] {
      PerformsNone(m, m);
      NodeEndsOnce(m);
      FineSteps();
    } else {
      EffectKept(m, effects[0]);
      var r := DoEffect(m, effects[0]);
      if r.1.Quiet? {
        EffectsKept(r.0, effects[1..]);
        if RunEffects(r.0, effects[1..]).0.phase.Active? {
          PerformsThen(m, r.0, RunEffects(r.0, effects[1..]).0);
        }
      }
    }
  }

  lemma FineSteps()
    ensures NoInternalError(Quiet) && NoInternalError(Progressing(DataMoved))
  {
  }

  lemma DataKept(m: Machine, poll: DataPoll)
    requires DataAllowed(m) && NodeInv(NodeOf(m)) && LegalData(NodeOf(m), poll)
    ensures Kept(m, PollData(m, poll))
  {
    hide NodeInv, RunEffects, LegalEffects, Performs, AtMostOnce;
    if poll.DataMoves? {
      EffectsKept(m, poll.effects);
    } else {
      PerformsNone(m, m);
      NodeEndsOnce(m);
    }
  }

  // ---------------------------------------------------------------- control frames

  /** Any received frame, well formed or not: one that is processed is the act of taking its message. */
  lemma FrameTaken(m: Machine, frame: ControlFrame)
    requires NodeInv(NodeOf(m)) && !ShouldDefer(frame.frameType, m.control.pendingIn.Some?, m.sender)
    ensures var d := ReceiveControl(m.control, m.ep, frame);
            && (d.result.Ok? ==>
                  exists msg ::
                    && Representable(msg) && frame == FrameOf(msg) && !Take(NodeOf(m), msg).failed
                    && Take(NodeOf(m), msg).node == Node(d.control, d.ep, m.retired + RetiredBy(d.result.value), m.ended + EndedBy(d.result.value))
                    && Take(NodeOf(m), msg).sent == ReplyTo(d.result.value))
            && (d.result.Ok? && d.result.value.OutboundEstablished? ==> d.result.value.flow.id in d.control.reg)
            && (d.result.Err? ==> !d.result.error.RegistryFailure? && !d.result.error.CoreState? && !d.result.error.InboundDecisionPending?)
  {
    hide NodeInv, ReceiveControl, DecodeBody, BodyOf;
    DecisionNeverPending(m, frame);
    if frame.frameType.OtherFrame? || DecodeBody(frame.frameType, frame.body).Err? {
      RefusedFrame(m.control, m.ep, frame);
    } else {
      var msg := DecodeBody(frame.frameType, frame.body).value;
      BodyBijection(frame.frameType, frame.body, msg);
      assert frame == FrameOf(msg);
      DecodedOutcome(NodeOf(m), msg);
      assert ReceiveControl(m.control, m.ep, frame).result.Ok? ==> !Take(NodeOf(m), msg).failed;
    }
  }

  lemma RefusedFrame(c: Control, ep: Endpoint, frame: ControlFrame)
    requires frame.frameType.OtherFrame? || DecodeBody(frame.frameType, frame.body).Err?
    ensures var r := ReceiveControl(c, ep, frame).result;
            r.Err? && !r.error.RegistryFailure? && !r.error.CoreState?
  {
    hide DecodeBody;
  }

  lemma DecodedOutcome(n: Node, msg: ControlMsg)
    requires NodeInv(n) && Representable(msg)
    ensures var d := ReceiveControl(n.c, n.ep, FrameOf(msg));
            && (d.result.Ok? && d.result.value.OutboundEstablished? ==> d.result.value.flow.id in d.control.reg)
            && (d.result.Err? ==> !d.result.error.RegistryFailure? && !d.result.error.CoreState?)
  {
    hide NodeInv, ReceiveControl, HandleAccept, HandleTerminate;
    TakeDecodes(n, msg);
    match msg
    case Accept(id) =>
      if id in n.c.pendingOut {
        AcceptOutcomes(n, id);
      } else {
        StrangeError(n, id);
      }
    case Terminate(id, reason) => TerminateOutcomes(n, id, reason);
    case _ =>
  }

  lemma StrangeError(n: Node, id: FlowId)
    requires id !in n.c.pendingOut
    ensures var r := HandleAccept(n.c, n.ep, id).result; r.Err? && (r.error.WrongResponseSide? || r.error.UnknownPendingFlow?)
  {
  }

  /** The machine once a frame's progress is known, before it is routed. */
  ghost function Taken(m: Machine, frame: ControlFrame): Machine {
    var d := ReceiveControl(m.control, m.ep, frame);
    var after := m.(control := d.control, ep := d.ep, receiver := Listening, log := m.log.(processed := m.log.processed + [frame]));
    if d.result.Err? then after else after.(retired := m.retired + RetiredBy(d.result.value), ended := m.ended + EndedBy(d.result.value))
  }

  /** Routing sends the reply the act sends, or carries out a further failure as a second act. */
  lemma RouteKept(m: Machine, p: Progress, routing: Routing)
    requires DataAllowed(m) && NodeInv(NodeOf(m)) && (p.OutboundEstablished? ==> p.flow.id in m.control.reg)
    ensures var r := Route(m, p, routing);
            && (r.0.phase.Active? ==>
                  && NodeInv(NodeOf(r.0))
                  && Performs(m.(log := m.log.(prepared := m.log.prepared + FramesOf(ReplyTo(p)))), r.0))
            && AtMostOnce(r.0) && NoInternalError(r.1)
  {
    hide NodeInv, FlowFailure, ApplyFailure, BodyOf, Performs, AtMostOnce;
    NodeEndsOnce(m);
    var replied := m.(log := m.log.(prepared := m.log.prepared + FramesOf(ReplyTo(p))));
    if ReplyTo(p).Some? {
      ReplyRepresentable(p);
      PerformsNone(replied, Route(m, p, routing).0);
      SameEnded(m, Route(m, p, routing).0);
    } else {
      NothingSent(m.log.prepared);
      assert replied == m;
      if p.OutboundEstablished? && routing.NoMemory? {
        FlowFailureKept(m, p.flow.id, ResourceFailure);
      } else {
        PerformsNone(m, m);
        SameEnded(m, Route(m, p, routing).0);
      }
    }
  }

  lemma ReplyRepresentable(p: Progress)
    ensures ReplyTo(p).Some? ==> Representable(ReplyTo(p).value)
  {
  }

  lemma ProcessKept(m: Machine, frame: ControlFrame, routing: Routing)
    requires m.phase.Active? && NodeInv(NodeOf(m)) && !ShouldDefer(frame.frameType, m.control.pendingIn.Some?, m.sender)
    ensures Kept(m, ProcessFrame(m, frame, routing))
  {
    hide NodeInv, ReceiveControl, Route, Performs, AtMostOnce, Take, FramesOf, BodyOf;
    FrameTaken(m, frame);
    var d := ReceiveControl(m.control, m.ep, frame);
    if d.result.Err? {
      NodeEndsOnce(m);
      SameEnded(m, ProcessFrame(m, frame, routing).0);
    } else {
      var msg :| && Representable(msg) && frame == FrameOf(msg) && !Take(NodeOf(m), msg).failed
                 && Take(NodeOf(m), msg).node == Node(d.control, d.ep, m.retired + RetiredBy(d.result.value), m.ended + EndedBy(d.result.value))
                 && Take(NodeOf(m), msg).sent == ReplyTo(d.result.value);
      TakeKeeps(NodeOf(m), msg);
      var mid := Taken(m, frame);
      RouteKept(mid, d.result.value, routing);
      var replied := mid.(log := mid.log.(prepared := mid.log.prepared + FramesOf(ReplyTo(d.result.value))));
      PerformsOne(m, replied, TakeFrame(msg));
      if ProcessFrame(m, frame, routing).0.phase.Active? {
        PerformsThen(m, replied, ProcessFrame(m, frame, routing).0);
      }
    }
  }

  lemma ReceiveKept(m: Machine, poll: ReceivePoll, routing: Routing)
    requires m.phase.Active? && NodeInv(NodeOf(m))
    ensures var r := PollReceive(m, poll, routing);
            && Kept(m, r)
            && (r.1.Quiet? ==> NodeOf(r.0) == NodeOf(m) && r.0.phase.Active? && r.0.log.prepared == m.log.prepared)
  {
    hide NodeInv, ProcessFrame, Performs, AtMostOnce;
    NodeEndsOnce(m);
    var r := PollReceive(m, poll, routing);
    if m.receiver.Deferred? && !ShouldDefer(m.receiver.frame.frameType, m.control.pendingIn.Some?, m.sender) {
      ProcessKept(m, m.receiver.frame, routing);
      ProcessIsNotQuiet(m, m.receiver.frame, routing);
    } else if m.receiver.Listening? && poll.Arrives? && !ShouldDefer(poll.frame.frameType, m.control.pendingIn.Some?, m.sender) {
      var noted := m.(log := m.log.(arrived := m.log.arrived + [poll.frame]));
      PerformsNone(m, noted);
      ProcessKept(noted, poll.frame, routing);
      ProcessIsNotQuiet(noted, poll.frame, routing);
      if r.0.phase.Active? {
        PerformsThen(m, noted, r.0);
      }
    } else {
      PerformsNone(m, r.0);
      SameEnded(m, r.0);
    }
  }

  lemma ProcessIsNotQuiet(m: Machine, frame: ControlFrame, routing: Routing)
    ensures !ProcessFrame(m, frame, routing).1.Quiet?
  {
    hide ReceiveControl, FlowFailure, BodyOf;
  }

  lemma SendKept(m: Machine, poll: SendPoll)
    requires m.phase.Active? && NodeInv(NodeOf(m))
    ensures Kept(m, PollSend(m, poll))
    ensures PollSend(m, poll).1.Quiet? ==> PollSend(m, poll).0 == m
  {
    hide NodeInv, Performs, AtMostOnce;
    NodeEndsOnce(m);
    SameEnded(m, PollSend(m, poll).0);
    PerformsNone(m, PollSend(m, poll).0);
  }

  // ---------------------------------------------------------------- one poll

  lemma CategoryKept(m: Machine, index: nat, polls: Polls)
    requires m.phase.Active? && NodeInv(NodeOf(m)) && LegalPolls(NodeOf(m), polls)
    ensures var r := Category(m, index, polls);
            && Kept(m, r)
            && (r.1.Quiet? ==> NodeOf(r.0) == NodeOf(m) && r.0.phase.Active? && r.0.log.prepared == m.log.prepared)
  {
    hide NodeInv, PollReceive, PollData, PollSend, LegalData, Performs, AtMostOnce;
    NodeEndsOnce(m);
    PerformsNone(m, m);
    SendKept(m, polls.send);
    ReceiveKept(m, polls.receive, polls.routing);
    if DataAllowed(m) {
      DataKept(m, polls.data(index));
      QuietDataStays(m, polls.data(index));
    }
  }

  lemma QuietDataStays(m: Machine, poll: DataPoll)
    ensures PollData(m, poll).1.Quiet? ==> PollData(m, poll).0 == m
  {
    hide RunEffects;
    if poll.DataMoves? {
      EffectsNotQuiet(m, poll.effects);
    }
  }

  lemma {:induction false} EffectsNotQuiet(m: Machine, effects: seq<Effect>)
    ensures !RunEffects(m, effects).1.Quiet?
    decreases |effects|
  {
    hide DoEffect;
    if effects != [] && DoEffect(m, effects[0]).1.Quiet? {
      EffectsNotQuiet(DoEffect(m, effects[0]).0, effects[1..]);
    }
  }

  lemma {:induction false} RotateKept(m: Machine, start: nat, offset: nat, polls: Polls)
    requires m.phase.Active? && NodeInv(NodeOf(m)) && LegalPolls(NodeOf(m), polls) && offset <= CATEGORIES
    ensures Kept(m, Rotate(m, start, offset, polls))
    decreases CATEGORIES - offset
  {
    hide NodeInv, Category, LegalPolls, Performs, AtMostOnce;
    if offset == CATEGORIES {
      NodeEndsOnce(m);
      SameEnded(m, Rotate(m, start, offset, polls).0);
      PerformsNone(m, Rotate(m, start, offset, polls).0);
    } else {
      var index := (start + offset) % CATEGORIES;
      var r := Category(m, index, polls);
      CategoryKept(m, index, polls);
      if r.1.Quiet? {
        RotateKept(r.0, start, offset + 1, polls);
        PerformsNone(m, r.0);
        if Rotate(m, start, offset, polls).0.phase.Active? {
          PerformsThen(m, r.0, Rotate(m, start, offset, polls).0);
        }
      } else {
        CursorKept(m, r, NextCategory(index));
      }
    }
  }

  /** Moving the cursor changes nothing else. */
  lemma CursorKept(m: Machine, r: (Machine, Step), cursor: nat)
    requires Kept(m, r)
    ensures Kept(m, (r.0.(cursor := cursor), r.1))
  {
    hide NodeInv, Performs;
    if r.0.phase.Active? {
      PerformsNone(r.0, r.0.(cursor := cursor));
      PerformsThen(m, r.0, r.0.(cursor := cursor));
    }
  }

  /** A poll is a run of acts: it keeps the node's invariant and its reports, whatever the peer sends and
      however the data transports fail; preparing a failure report never fails and no rollback is reported. */
  lemma PollStepKeepsNode(m: Machine, polls: Polls)
    requires m.phase.Active? && NodeInv(NodeOf(m)) && LegalPolls(NodeOf(m), polls)
    ensures Kept(m, PollStep(m, polls))
  {
    hide NodeInv, PollReceive, Rotate, LegalPolls, Performs, AtMostOnce;
    if !polls.peerClosed {
      RotateKept(m, m.cursor % CATEGORIES, 0, polls);
    } else {
      var r := PollReceive(m, polls.receive, polls.routing);
      ReceiveKept(m, polls.receive, polls.routing);
      if r.1.Quiet? {
        RotateKept(r.0, r.0.cursor % CATEGORIES, 0, polls);
        PerformsNone(m, r.0);
        if PollStep(m, polls).0.phase.Active? {
          PerformsThen(m, r.0, PollStep(m, polls).0);
        }
      } else {
        CursorKept(m, r, NextCategory(1));
      }
    }
  }

  // ---------------------------------------------------------------- one request

  lemma StartKept(m: Machine, mid: Machine, msg: ControlMsg, done: Progressed, act: Act)
    requires DataAllowed(m) && Representable(msg) && mid == m.(control := mid.control, ep := mid.ep, retired := mid.retired, ended := mid.ended)
    requires Legal(NodeOf(m), act) && NodeNext(NodeOf(m), act) == NodeStep(NodeOf(mid), Some(msg), false) && NodeInv(NodeOf(mid))
    ensures Kept(m, StartSend(mid, FrameOf(msg), done))
  {
    hide NodeInv, NodeNext, Legal, Performs, AtMostOnce, BodyOf;
    var after := StartSend(mid, FrameOf(msg), done).0;
    PerformsOne(m, after, act);
    NodeEndsOnce(after);
  }

  lemma NothingKept(m: Machine, after: Machine, step: Step)
    requires NodeInv(NodeOf(m)) && after.ended == m.ended && NoInternalError(step)
    requires after.phase.Active? ==> NodeOf(after) == NodeOf(m) && after.log.prepared == m.log.prepared
    ensures Kept(m, (after, step))
  {
    hide NodeInv, Performs, AtMostOnce;
    NodeEndsOnce(m);
    SameEnded(m, after);
    if after.phase.Active? {
      PerformsNone(m, after);
    }
  }

  lemma OpenKept(m: Machine, q: OpenRequest, datagram: Option<nat>)
    requires DataAllowed(m) && NodeInv(NodeOf(m))
    ensures Kept(m, Driver.OpenFlow(m, q, datagram))
  {
    hide NodeInv, OpenRefusal, Kept, BodyOf;
    var n := NodeOf(m);
    var (control, r) := PrepareOpen(m.control, m.ep, q, datagram);
    if r.Ok? {
      OpenKeeps(n, q, datagram);
      StartKept(m, m.(control := control), r.value, SendStarted, OpenOne(q, datagram));
    } else {
      NothingKept(m, Driver.OpenFlow(m, q, datagram).0, Driver.OpenFlow(m, q, datagram).1);
    }
  }

  lemma AnswerKept(m: Machine, d: Done<Result<Resolution, AdmissionError>>, act: Act)
    requires DataAllowed(m) && NodeInv(NodeOf(m)) && Legal(NodeOf(m), act) && NodeNext(NodeOf(m), act) == Decide(NodeOf(m), d)
    requires !Decide(NodeOf(m), d).failed ==> NodeInv(Decide(NodeOf(m), d).node)
    requires d.result.Err? ==> !d.result.error.AdmitRegistry? && !d.result.error.CoreRollback?
    requires d.result.Err? && d.result.error.RequestNotPending? ==> d.control == m.control && d.ep == m.ep
    ensures Kept(m, Answer(m, d))
  {
    hide NodeInv, NodeNext, Legal, Kept, BodyOf;
    if d.result.Ok? {
      StartKept(m, m.(control := d.control, ep := d.ep), ResolutionFrame(d.result.value), SendStarted, act);
    } else {
      NothingKept(m, Answer(m, d).0, Answer(m, d).1);
    }
  }

  lemma AdmitErrors(n: Node, q: PendingIn, a: Admission)
    requires NodeInv(n)
    ensures var d := AcceptPending(n.c, n.ep, q, a);
            && (d.result.Err? ==> !d.result.error.AdmitRegistry? && !d.result.error.CoreRollback?)
            && (d.result.Err? && d.result.error.RequestNotPending? ==> d.control == n.c && d.ep == n.ep)
  {
    hide NodeInv, AcceptPending;
    if n.c.pendingIn == Some(q) {
      AdmitOutcomes(n, q, a);
    } else {
      NotPending(n, q, a);
    }
  }

  lemma AdmitKept(m: Machine, q: PendingIn, a: Admission)
    requires DataAllowed(m) && NodeInv(NodeOf(m))
    ensures Kept(m, Answer(m, AcceptPending(m.control, m.ep, q, a)))
  {
    hide NodeInv, AcceptPending, Answer, Kept, Decide;
    var n := NodeOf(m);
    AdmitErrors(n, q, a);
    if !Decide(n, AcceptPending(n.c, n.ep, q, a)).failed {
      AdmitKeeps(n, q, a);
    }
    AnswerKept(m, AcceptPending(m.control, m.ep, q, a), Admit(q, a));
  }

  lemma RefusalKept(m: Machine, q: PendingIn, reason: RejectReason)
    requires DataAllowed(m) && NodeInv(NodeOf(m))
    ensures Kept(m, Answer(m, RejectPending(m.control, m.ep, q, reason)))
  {
    hide NodeInv, Answer, Kept;
    RefuseKeeps(NodeOf(m), q, reason);
    AnswerKept(m, RejectPending(m.control, m.ep, q, reason), Refuse(q, reason));
  }

  lemma FinishKept(m: Machine, id: FlowId)
    requires DataAllowed(m) && NodeInv(NodeOf(m)) && id in m.control.reg && !m.control.reg[id].mode.ReliableOrdered?
    ensures Kept(m, FinishWithFrame(m, id))
  {
    hide NodeInv, TerminateLocal, Kept, BodyOf;
    var n := NodeOf(m);
    EndOutcomes(n, id, Normal);
    EndKeeps(n, id, Normal);
    EndedControl(m.control, m.ep, id, Normal);
    var d := TerminateLocal(m.control, m.ep, id, Normal);
    StartKept(m, NoteEnded(m.(control := d.control, ep := d.ep), id), ControlMsg.Terminate(id, Normal), SendStarted, EndLocally(id, Normal));
  }

  lemma EndedControl(c: Control, ep: Endpoint, id: FlowId, reason: TerminateReason)
    ensures TerminateLocal(c, ep, id, reason).result.Ok? ==> TerminateLocal(c, ep, id, reason).control == c.(reg := c.reg - {id})
  {
  }

  /** A request is at most one act, and keeps what a poll keeps. */
  lemma ServeKeepsNode(m: Machine, q: Request)
    requires m.phase.Active? && NodeInv(NodeOf(m)) && LegalRequest(NodeOf(m), q)
    ensures Kept(m, Serve(m, q))
  {
    hide NodeInv, FlowFailure, AcceptPending, RejectPending, Answer, ApplyFailure, FinishWithFrame, Driver.OpenFlow, Kept;
    if !DataAllowed(m) {
      NothingKept(m, m, Serve(m, q).1);
    } else {
      match q
      case OpenOutbound(request, datagram) => OpenKept(m, request, datagram);
      case AcceptInbound(pending, admission, _) =>
        RefusalKept(m, pending, ResourceLimit);
        AdmitKept(m, pending, admission);
      case RejectInbound(pending, reason) => RefusalKept(m, pending, reason);
      case FinishUnreliable(id) => FinishKept(m, id);
      case FinishReliableFails(id, reason) => FlowFailureKept(m, id, reason);
      case SubmitFails(id, reason) => FlowFailureKept(m, id, reason);
      case SubmitLosesTransport => NothingKept(m, EnterTerminal(m), Failing(DataFailed));
    }
  }

  // ---------------------------------------------------------------- every run

  ghost predicate LegalCall(m: Machine, call: Call) {
    match call
    case Poll(polls) => LegalPolls(NodeOf(m), polls)
    case Ask(q) => LegalRequest(NodeOf(m), q)
    case Host(op) => Legal(NodeOf(m), HostActs(op))
  }

  /** A run of calls that respects the hypotheses on bindings and hosts, as long as the driver is active. */
  ghost predicate LegalRun(m: Machine, calls: seq<Call>)
    decreases |calls|
  {
    calls != [] ==>
      && (m.phase.Active? ==> LegalCall(m, calls[0]))
      && LegalRun(Does(m, calls[0]).0, calls[1..])
  }

  lemma CallKept(m: Machine, call: Call)
    requires m.phase.Active? && NodeInv(NodeOf(m)) && LegalCall(m, call)
    ensures Kept(m, Does(m, call))
  {
    hide NodeInv, PollStep, Serve, LegalPolls, LegalRequest, Performs, AtMostOnce, Apply, Legal;
    match call
    case Poll(polls) => PollStepKeepsNode(m, polls);
    case Ask(q) => ServeKeepsNode(m, q);
    case Host(op) => HostKept(m, op);
  }

  lemma HostKept(m: Machine, op: Op)
    requires NodeInv(NodeOf(m)) && Legal(NodeOf(m), HostActs(op))
    ensures Kept(m, (m.(ep := Apply(m.ep, op)), Quiet))
  {
    hide NodeInv, Apply, Performs, AtMostOnce, FramesOf;
    HostKeeps(NodeOf(m), op);
    NothingSent(m.log.prepared);
    PerformsOne(m, m.(ep := Apply(m.ep, op)), HostActs(op));
    NodeEndsOnce(m.(ep := Apply(m.ep, op)));
  }

  lemma EndedForGood(m: Machine, call: Call)
    requires m.phase.Ended?
    ensures Does(m, call).0 == m.(ep := Does(m, call).0.ep)
  {
  }

  lemma {:induction false} RunKept(m: Machine, calls: seq<Call>)
    requires LegalRun(m, calls) && AtMostOnce(m) && (m.phase.Active? ==> NodeInv(NodeOf(m)))
    ensures var last := After(m, calls);
            AtMostOnce(last) && (last.phase.Active? ==> NodeInv(NodeOf(last)) && Performs(m, last))
    decreases |calls|
  {
    hide NodeInv, Does, LegalCall, Performs, AtMostOnce, NoInternalError;
    if calls == [] {
      PerformsNone(m, m);
    } else {
      var next := Does(m, calls[0]).0;
      if m.phase.Active? {
        CallKept(m, calls[0]);
      } else {
        EndedForGood(m, calls[0]);
        SameEnded(m, next);
      }
      RunKept(next, calls[1..]);
      if m.phase.Ended? {
        EndedStays(m, calls);
      } else if next.phase.Ended? {
        EndedStays(next, calls[1..]);
      } else if After(m, calls).phase.Active? {
        PerformsThen(m, next, After(m, calls));
      }
    }
  }

  lemma {:induction false} EndedStays(m: Machine, calls: seq<Call>)
    requires m.phase.Ended?
    ensures After(m, calls).phase.Ended?
    decreases |calls|
  {
    hide Does;
    if calls != [] {
      EndedForGood(m, calls[0]);
      EndedStays(Does(m, calls[0]).0, calls[1..]);
    }
  }

  /** Over every run of a driver with host operations and data in between: each FlowId has at most one
      termination-carrying outcome. While the driver is active, its flow state is what a run of the node leads
      to, its prepared frames are that run's frames in order, and so the node's invariant holds. */
  lemma EveryDriverRun(connection: u64, side: Side, local: Settings, peer: Settings, ep: Endpoint, calls: seq<Call>)
    requires WellFormed(ep) && LegalRun(NewMachine(NewControl(connection, side, local, peer), ep), calls)
    ensures var m := After(NewMachine(NewControl(connection, side, local, peer), ep), calls);
            && (forall id :: m.ended[id] <= 1)
            && (m.phase.Active? ==>
                  && NodeInv(NodeOf(m))
                  && exists acts :: Trace(NewNode(connection, side, local, peer, ep), acts, NodeOf(m), m.log.prepared))
  {
    hide NodeInv, LegalRun, After, WellFormed, Trace;
    var m := NewMachine(NewControl(connection, side, local, peer), ep);
    NewNodeHolds(connection, side, local, peer, ep);
    NodeEndsOnce(m);
    RunKept(m, calls);
    var last := After(m, calls);
    if last.phase.Active? {
      var acts, frames :| Trace(NodeOf(m), acts, NodeOf(last), frames) && last.log.prepared == m.log.prepared + frames;
      assert m.log.prepared + frames == frames;
    }
  }
}
