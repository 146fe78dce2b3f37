/** The frames a driver prepares: at most one FLOW_TERMINATE for each FlowId over every run. */
module DriverReports {
  import opened Basics
  import opened Wire
  import opened Delivery
  import opened Core
  import opened CoreInvariant
  import opened ControlBody
  import opened Registry
  import opened FlowControls
  import opened FailureReports
  import opened FlowNode
  import opened Driver
  import opened DriverNode

  predicate IsEndOf(f: ControlFrame, id: FlowId) {
    && f.frameType.FlowTerminate? && DecodeBody(f.frameType, f.body).Ok?
    && DecodeBody(f.frameType, f.body).value.id == id
  }

  /** How many of the frames are TERMINATEs of this FlowId. */
  function EndsIn(frames: seq<ControlFrame>, id: FlowId): nat {
    if frames == [] then 0
    else EndsIn(frames[..|frames| - 1], id) + if IsEndOf(frames[|frames| - 1], id) then 1 else 0
  }

  /** Every prepared TERMINATE is one of the recorded outcomes of its FlowId. */
  ghost predicate Matched(m: Machine) {
    forall id :: EndsIn(m.log.prepared, id) <= m.ended[id]
  }

  lemma EndsAppend(frames: seq<ControlFrame>, f: ControlFrame, id: FlowId)
    ensures EndsIn(frames + [f], id) == EndsIn(frames, id) + if IsEndOf(f, id) then 1 else 0
  {
    assert (frames + [f])[..|frames|] == frames;
  }

  lemma FrameEnds(msg: ControlMsg, id: FlowId)
    requires Representable(msg)
    ensures IsEndOf(FrameOf(msg), id) <==> msg.Terminate? && msg.id == id
  {
    hide BodyOf, DecodeBody;
    EncodedDecodes(msg);
  }

  function EndOf(msg: ControlMsg): multiset<FlowId> {
    if msg.Terminate? then multiset{msg.id} else multiset{}
  }

  lemma StartMatched(m: Machine, mid: Machine, msg: ControlMsg, done: Progressed)
    requires Matched(m) && Representable(msg) && mid.log.prepared == m.log.prepared
    requires forall id :: m.ended[id] + EndOf(msg)[id] <= mid.ended[id]
    ensures Matched(StartSend(mid, FrameOf(msg), done).0)
  {
    hide BodyOf, IsEndOf, EndsIn;
    forall id ensures EndsIn(m.log.prepared + [FrameOf(msg)], id) <= mid.ended[id] {
      EndsAppend(m.log.prepared, FrameOf(msg), id);
      FrameEnds(msg, id);
    }
  }

  lemma Carried(m: Machine, after: Machine)
    requires Matched(m) && after.log.prepared == m.log.prepared && m.ended <= after.ended
    ensures Matched(after)
  {
    hide EndsIn;
  }

  lemma FailureMatched(m: Machine, d: Done<Result<Outcome, ControlError>>)
    requires Matched(m)
    ensures Matched(ApplyFailure(m, d).0)
  {
    hide Matched, BodyOf;
    match d.result
    case Ok(SendReport(id, reason, _)) =>
      StartMatched(m, NoteEnded(m.(control := d.control, ep := d.ep), id), ControlMsg.Terminate(id, reason), FailureHandled(id));
    case _ => Carried(m, ApplyFailure(m, d).0);
  }

  lemma EffectMatched(m: Machine, e: Effect)
    requires Matched(m)
    ensures Matched(DoEffect(m, e).0)
  {
    hide Matched, ApplyFailure, BindingFailure, FlowFailure, ReceivePayload, Apply, Bound, Core.Terminate;
    match e
    case Receives(id, index, payload, reason) =>
      if id in m.control.reg {
        var key := m.control.reg[id].key;
        var after := ReceivePayload(m.ep, key, index, payload).0;
        Carried(m, m.(ep := after));
        FailureMatched(m.(ep := after), BindingFailure(m.control, after, id, key, true, reason));
      }
    case Fails(id, key, handled, reason) => FailureMatched(m, BindingFailure(m.control, m.ep, id, key, handled, reason));
    case FlowDataFails(id, reason) => FailureMatched(m, FlowFailure(m.control, m.ep, id, reason));
    case _ => Carried(m, DoEffect(m, e).0);
  }

  lemma {:induction false} EffectsMatched(m: Machine, effects: seq<Effect>)
    requires Matched(m)
    ensures Matched(RunEffects(m, effects).0)
    decreases |effects|
  {
    hide Matched, DoEffect;
    if effects != [] {
      EffectMatched(m, effects[0]);
      if DoEffect(m, effects[0]).1.Quiet? {
        EffectsMatched(DoEffect(m, effects[0]).0, effects[1..]);
      }
    }
  }

  lemma ProcessMatched(m: Machine, frame: ControlFrame, routing: Routing)
    requires Matched(m)
    ensures Matched(ProcessFrame(m, frame, routing).0)
  {
    hide Matched, ReceiveControl, FlowFailure, ApplyFailure, BodyOf;
    var d := ReceiveControl(m.control, m.ep, frame);
    if d.result.Ok? {
      var p := d.result.value;
      var mid := m.(control := d.control, ep := d.ep, log := m.log.(processed := m.log.processed + [frame]), receiver := Listening,
                    retired := m.retired + RetiredBy(p), ended := m.ended + EndedBy(p));
      if ReplyTo(p).Some? {
        StartMatched(m, mid, ReplyTo(p).value, SendStarted);
      } else {
        Carried(m, mid);
        if p.OutboundEstablished? {
          FailureMatched(mid, FlowFailure(mid.control, mid.ep, p.flow.id, ResourceFailure));
          Carried(mid, EnterTerminal(mid));
        }
      }
    } else {
      Carried(m, ProcessFrame(m, frame, routing).0);
    }
  }

  lemma ReceiveMatched(m: Machine, poll: ReceivePoll, routing: Routing)
    requires Matched(m)
    ensures Matched(PollReceive(m, poll, routing).0)
  {
    hide Matched, ProcessFrame;
    if m.receiver.Deferred? {
      ProcessMatched(m, m.receiver.frame, routing);
    } else if m.receiver.Listening? && poll.Arrives? {
      var noted := m.(log := m.log.(arrived := m.log.arrived + [poll.frame]));
      Carried(m, noted);
      Carried(m, noted.(receiver := Deferred(poll.frame)));
      ProcessMatched(noted, poll.frame, routing);
    } else {
      Carried(m, PollReceive(m, poll, routing).0);
    }
  }

  lemma CategoryMatched(m: Machine, index: nat, polls: Polls)
    requires Matched(m)
    ensures Matched(Category(m, index, polls).0)
  {
    hide Matched, PollReceive, RunEffects;
    Carried(m, PollSend(m, polls.send).0);
    ReceiveMatched(m, polls.receive, polls.routing);
    if polls.data(index).DataMoves? {
      EffectsMatched(m, polls.data(index).effects);
    }
  }

  lemma {:induction false} RotateMatched(m: Machine, start: nat, offset: nat, polls: Polls)
    requires Matched(m) && offset <= CATEGORIES
    ensures Matched(Rotate(m, start, offset, polls).0)
    decreases CATEGORIES - offset
  {
    hide Matched, Category;
    if offset == CATEGORIES {
      Carried(m, Rotate(m, start, offset, polls).0);
    } else {
      var r := Category(m, (start + offset) % CATEGORIES, polls);
      CategoryMatched(m, (start + offset) % CATEGORIES, polls);
      if r.1.Quiet? {
        RotateMatched(r.0, start, offset + 1, polls);
      } else {
        Carried(r.0, Rotate(m, start, offset, polls).0);
      }
    }
  }

  lemma PollMatched(m: Machine, polls: Polls)
    requires Matched(m)
    ensures Matched(PollStep(m, polls).0)
  {
    hide Matched, PollReceive, Rotate;
    if m.phase.Active? {
      if polls.peerClosed {
        var r := PollReceive(m, polls.receive, polls.routing);
        ReceiveMatched(m, polls.receive, polls.routing);
        if r.1.Quiet? {
          RotateMatched(r.0, r.0.cursor % CATEGORIES, 0, polls);
        } else {
          Carried(r.0, PollStep(m, polls).0);
        }
      } else {
        RotateMatched(m, m.cursor % CATEGORIES, 0, polls);
      }
    }
  }

  lemma AnswerMatched(m: Machine, d: Done<Result<Resolution, AdmissionError>>)
    requires Matched(m)
    ensures Matched(Answer(m, d).0)
  {
    hide Matched, BodyOf;
    if d.result.Ok? {
      StartMatched(m, m.(control := d.control, ep := d.ep), ResolutionFrame(d.result.value), SendStarted);
    } else {
      Carried(m, Answer(m, d).0);
    }
  }

  lemma OpenMatched(m: Machine, q: OpenRequest, datagram: Option<nat>)
    requires Matched(m)
    ensures Matched(Driver.OpenFlow(m, q, datagram).0)
  {
    hide Matched, OpenRefusal, BodyOf;
    var (control, r) := PrepareOpen(m.control, m.ep, q, datagram);
    if r.Ok? {
      StartMatched(m, m.(control := control), r.value, SendStarted);
    } else {
      Carried(m, EnterTerminal(m));
    }
  }

  lemma FinishMatched(m: Machine, id: FlowId)
    requires Matched(m)
    ensures Matched(FinishWithFrame(m, id).0)
  {
    hide Matched, TerminateLocal, BodyOf;
    var d := TerminateLocal(m.control, m.ep, id, Normal);
    if d.result.Ok? {
      StartMatched(m, NoteEnded(m.(control := d.control, ep := d.ep), id), ControlMsg.Terminate(id, Normal), SendStarted);
    } else {
      Carried(m, FinishWithFrame(m, id).0);
    }
  }

  lemma ServeMatched(m: Machine, q: Request)
    requires Matched(m)
    ensures Matched(Serve(m, q).0)
  {
    hide Matched, FlowFailure, AcceptPending, RejectPending, Answer, ApplyFailure, FinishWithFrame, Driver.OpenFlow;
    match q
    case OpenOutbound(request, datagram) => OpenMatched(m, request, datagram);
    case AcceptInbound(pending, admission, _) =>
      AnswerMatched(m, RejectPending(m.control, m.ep, pending, ResourceLimit));
      AnswerMatched(m, AcceptPending(m.control, m.ep, pending, admission));
    case RejectInbound(pending, reason) => AnswerMatched(m, RejectPending(m.control, m.ep, pending, reason));
    case FinishUnreliable(id) => FinishMatched(m, id);
    case FinishReliableFails(id, reason) => FailureMatched(m, FlowFailure(m.control, m.ep, id, reason));
    case SubmitFails(id, reason) => FailureMatched(m, FlowFailure(m.control, m.ep, id, reason));
    case SubmitLosesTransport => Carried(m, EnterTerminal(m));
  }

  lemma {:induction false} RunMatched(m: Machine, calls: seq<Call>)
    requires Matched(m)
    ensures Matched(After(m, calls))
    decreases |calls|
  {
    hide Matched, PollStep, Serve, Apply;
    if calls != [] {
      match calls[0] {
        case Poll(polls) => PollMatched(m, polls);
        case Ask(q) => ServeMatched(m, q);
        case Host(op) => Carried(m, m.(ep := Apply(m.ep, op)));
      }
      RunMatched(Does(m, calls[0]).0, calls[1..]);
    }
  }

  /** Over every run of a driver, at most one FLOW_TERMINATE frame is prepared for each FlowId, and each is
      matched by a recorded outcome of that FlowId, of which there is at most one. */
  lemma OneReportPerFlow(connection: u64, side: Side, local: Settings, peer: Settings, ep: Endpoint, calls: seq<Call>)
    requires WellFormed(ep) && LegalRun(NewMachine(NewControl(connection, side, local, peer), ep), calls)
    ensures var m := After(NewMachine(NewControl(connection, side, local, peer), ep), calls);
            forall id :: EndsIn(m.log.prepared, id) <= m.ended[id] <= 1
  {
    hide LegalRun, After, WellFormed, EndsIn, Trace;
    EveryDriverRun(connection, side, local, peer, ep, calls);
    FreshMatched(NewControl(connection, side, local, peer), ep);
    RunMatched(NewMachine(NewControl(connection, side, local, peer), ep), calls);
  }

  lemma FreshMatched(control: Control, ep: Endpoint)
    ensures Matched(NewMachine(control, ep))
  {
  }
}
