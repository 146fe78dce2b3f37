/** Every act of a node is, for each FlowId, one of the moves of `FlowPhases`. */
module FlowMoves {
  import opened Basics
  import opened Wire
  import opened Delivery
  import opened Core
  import opened CoreInvariant
  import opened ControlBody
  import opened Registry
  import opened FlowControls
  import opened FailureReports
  import opened FlowNode
  import opened FlowPhases

  function LocalOf(n: Node, id: FlowId): Local {
    var c := n.c;
    Local(SequenceOf(id) < Issued(if SideOf(id) == c.side then c.localNext else c.peerNext),
          if id in c.pendingOut then Some(Terms(c.pendingOut[id].mode, c.pendingOut[id].stableMax)) else None,
          if c.pendingIn.Some? && c.pendingIn.value.id == id then Some(Terms(c.pendingIn.value.mode, c.pendingIn.value.maxMessageBytes)) else None,
          if id in c.reg then Some(Terms(c.reg[id].mode, c.reg[id].maxMessageBytes)) else None,
          id in n.retired)
  }

  /** The frames of a channel that are about one FlowId. */
  function About(id: FlowId, s: seq<ControlMsg>): seq<ControlMsg> {
    if s == [] then [] else (if s[0].id == id then [s[0]] else []) + About(id, s[1..])
  }

  lemma {:induction false} AboutConcat(id: FlowId, s: seq<ControlMsg>, t: seq<ControlMsg>)
    ensures About(id, s + t) == About(id, s) + About(id, t)
  {
    if s == [] {
      assert s + t == t;
    } else {
      var head := if s[0].id == id then [s[0]] else [];
      assert (s + t)[1..] == s[1..] + t;
      AboutConcat(id, s[1..], t);
      assert About(id, s + t) == head + About(id, s[1..] + t);
      assert head + (About(id, s[1..]) + About(id, t)) == (head + About(id, s[1..])) + About(id, t);
    }
  }

  lemma AboutOne(id: FlowId, s: seq<ControlMsg>)
    requires |s| <= 1
    ensures About(id, s) == if s != [] && s[0].id == id then s else []
  {
  }

  function Taken(act: Act): seq<ControlMsg> {
    if act.TakeFrame? then [act.msg] else []
  }

  function Sent(step: NodeStep): seq<ControlMsg> {
    match step.sent case None => [] case Some(m) => [m]
  }

  /** One step of a node, as far as one FlowId is concerned. */
  ghost predicate MovesFor(n: Node, step: NodeStep, taken: seq<ControlMsg>, id: FlowId) {
    Moves(id, SideOf(id) == n.c.side, LocalOf(n, id), LocalOf(step.node, id), About(id, taken), About(id, Sent(step)))
  }

  lemma FreshLocal(n: Node, id: FlowId)
    requires NodeInv(n) && SequenceOf(id) >= Issued(if SideOf(id) == n.c.side then n.c.localNext else n.c.peerNext)
    ensures LocalOf(n, id) == Nothing
  {
    hide NodeInv;
    Fresh(n, id);
  }

  lemma OpenMoves(n: Node, q: OpenRequest, datagram: Option<nat>, id: FlowId)
    requires NodeInv(n)
    ensures MovesFor(n, NodeNext(n, OpenOne(q, datagram)), [], id)
  {
    hide NodeInv, OpenRefusal;
    if OpenRefusal(n.c, n.ep, q, datagram).None? {
      OpenedOk(n.c, n.ep, q, datagram);
      var s := n.c.localNext.value;
      FlowIdParts(n.c.side, s);
      FreshLocal(n, FlowIdOf(n.c.side, s));
      OneSequence(id, n.c.side, s);
      AboutOne(id, [Open(FlowIdOf(n.c.side, s), q.mode, q.stableMax)]);
    }
  }

  lemma OneSequence(id: FlowId, side: Side, s: nat)
    requires s <= MAX_FLOW_SEQUENCE
    ensures id == FlowIdOf(side, s) <==> SideOf(id) == side && SequenceOf(id) == s
  {
  }

  lemma OpenTakenMoves(n: Node, m: ControlMsg, id: FlowId)
    requires NodeInv(n) && m.Open? && Representable(m) && !Take(n, m).failed
    ensures MovesFor(n, Take(n, m), [m], id)
  {
    hide NodeInv, ReceiveControl;
    TakeDecodes(n, m);
    AdmitExactlyAllocated(Opposite(n.c.side), n.c.peerNext, m.id);
    FlowIdParts(Opposite(n.c.side), n.c.peerNext.value);
    OneSequence(id, Opposite(n.c.side), n.c.peerNext.value);
    FreshLocal(n, m.id);
    AboutOne(id, [m]);
    AboutOne(id, Sent(Take(n, m)));
  }

  lemma AcceptTakenMoves(n: Node, m: ControlMsg, id: FlowId)
    requires NodeInv(n) && m.Accept? && !Take(n, m).failed
    ensures MovesFor(n, Take(n, m), [m], id)
  {
    hide ReceiveControl, HandleAccept, NodeInv;
    TakeDecodes(n, m);
    if m.id !in n.c.pendingOut {
      StrangeAnswer(n, m.id);
    }
    AcceptOutcomes(n, m.id);
    AskedHere(n, m.id);
    hide WellFormed, Establish, NewFlow;
    AboutOne(id, [m]);
    AboutOne(id, Sent(Take(n, m)));
  }

  lemma AskedHere(n: Node, id: FlowId)
    requires NodeInv(n) && id in n.c.pendingOut
    ensures SideOf(id) == n.c.side && SequenceOf(id) < Issued(n.c.localNext)
  {
    hide WellFormed;
    assert PendingOutOk(n.c, id, n.c.pendingOut[id]);
  }

  lemma RejectTakenMoves(n: Node, m: ControlMsg, id: FlowId)
    requires NodeInv(n) && m.Reject? && !Take(n, m).failed
    ensures MovesFor(n, Take(n, m), [m], id)
  {
    hide NodeInv, ReceiveControl;
    TakeDecodes(n, m);
    AboutOne(id, [m]);
  }

  lemma TerminateTakenMoves(n: Node, m: ControlMsg, id: FlowId)
    requires NodeInv(n) && m.Terminate? && !Take(n, m).failed
    ensures MovesFor(n, Take(n, m), [m], id)
  {
    hide NodeInv, ReceiveControl, HandleTerminate, WellFormed;
    TakeDecodes(n, m);
    TerminateOutcomes(n, m.id, m.reason);
    AboutOne(id, [m]);
  }

  lemma TakeMoves(n: Node, m: ControlMsg, id: FlowId)
    requires NodeInv(n) && Representable(m) && !Take(n, m).failed
    ensures MovesFor(n, Take(n, m), [m], id)
  {
    hide *;
    match m
    case Open(_, _, _) => OpenTakenMoves(n, m, id);
    case Accept(_) => AcceptTakenMoves(n, m, id);
    case Reject(_, _) => RejectTakenMoves(n, m, id);
    case Terminate(_, _) => TerminateTakenMoves(n, m, id);
  }

  lemma DecideMoves(n: Node, q: PendingIn, d: Done<Result<Resolution, AdmissionError>>, id: FlowId)
    requires NodeInv(n) && n.c.pendingIn == Some(q) && d.result.Ok?
    requires var cleared := n.c.(pendingIn := None);
             || (d.result.value.RejectedInbound? && d.result.value.id == q.id && d.control == cleared)
             || (d.result.value.AcceptedInbound? && d.result.value.flow.id == q.id
                 && exists f: RegisteredFlow :: f.mode == q.mode && f.maxMessageBytes == q.maxMessageBytes && d.control == cleared.(reg := cleared.reg[q.id := f]))
    ensures MovesFor(n, Decide(n, d), [], id)
  {
    assert SideOf(q.id) != n.c.side by { hide WellFormed, RegistryOk, DistinctKeys, WithinLimits, AllGone, EndedOnce; }
    hide NodeInv;
    AboutOne(id, [ResolutionFrame(d.result.value)]);
  }

  lemma AdmitMoves(n: Node, q: PendingIn, a: Admission, id: FlowId)
    requires NodeInv(n) && !Decide(n, AcceptPending(n.c, n.ep, q, a)).failed
    ensures MovesFor(n, Decide(n, AcceptPending(n.c, n.ep, q, a)), [], id)
  {
    hide NodeInv, AcceptPending, WellFormed, Moves;
    if n.c.pendingIn == Some(q) {
      AdmitOutcomes(n, q, a);
      DecideMoves(n, q, AcceptPending(n.c, n.ep, q, a), id);
    } else {
      NotPending(n, q, a);
      IdleMoves(n, n, id);
    }
  }

  lemma RefuseMoves(n: Node, q: PendingIn, reason: RejectReason, id: FlowId)
    requires NodeInv(n)
    ensures MovesFor(n, Decide(n, RejectPending(n.c, n.ep, q, reason)), [], id)
  {
    hide NodeInv, Moves;
    if n.c.pendingIn == Some(q) {
      DecideMoves(n, q, RejectPending(n.c, n.ep, q, reason), id);
    } else {
      IdleMoves(n, n, id);
    }
  }

  lemma IdleMoves(n: Node, after: Node, id: FlowId)
    requires LocalOf(after, id) == LocalOf(n, id)
    ensures MovesFor(n, NodeStep(after, None, false), [], id)
  {
  }

  /** This side ends one registered flow, with or without a report. */
  lemma RetireMoves(n: Node, ep: Endpoint, ended: FlowId, sent: Option<ControlMsg>, id: FlowId)
    requires NodeInv(n) && ended in n.c.reg
    requires sent.Some? ==> sent.value.Terminate? && sent.value.id == ended && !(n.c.reg[ended].mode.ReliableOrdered? && sent.value.reason.Normal?)
    ensures MovesFor(n, NodeStep(Retire(n, ep, ended), sent, false), [], id)
  {
    hide NodeInv;
    AboutOne(id, Sent(NodeStep(n, sent, false)));
  }

  lemma EndMoves(n: Node, ended: FlowId, reason: TerminateReason, id: FlowId)
    requires NodeInv(n)
    ensures MovesFor(n, EndOne(n, ended, reason), [], id)
  {
    hide NodeInv, WellFormed, TerminateLocal, MovesFor;
    EndOutcomes(n, ended, reason);
    if TerminateLocal(n.c, n.ep, ended, reason).result.Ok? {
      RetireMoves(n, TerminateLocal(n.c, n.ep, ended, reason).ep, ended, Some(ControlMsg.Terminate(ended, reason)), id);
    } else {
      IdleMoves(n, n, id);
    }
  }

  lemma AssociateMoves(n: Node, bound: FlowId, direction: Direction, id: FlowId)
    ensures MovesFor(n, NodeStep(n.(c := Bound(n.c, bound, direction)), None, false), [], id)
  {
    hide Moves;
    IdleMoves(n, n.(c := Bound(n.c, bound, direction)), id);
  }

  lemma ReportMoves(n: Node, ended: FlowId, step: NodeStep, reason: TerminateReason, id: FlowId)
    requires NodeInv(n) && !step.failed
    requires ended !in n.c.reg ==> step == NodeStep(n, None, false)
    requires ended in n.c.reg ==>
               && step.sent == Some(ControlMsg.Terminate(ended, reason)) && step.node == Retire(n, step.node.ep, ended)
               && !(n.c.reg[ended].mode.ReliableOrdered? && reason.Normal?)
    ensures MovesFor(n, step, [], id)
  {
    hide NodeInv, MovesFor;
    if ended in n.c.reg {
      RetireMoves(n, step.node.ep, ended, step.sent, id);
    } else {
      IdleMoves(n, n, id);
    }
  }

  lemma FailureMoves(n: Node, act: Act, id: FlowId)
    requires NodeInv(n) && Legal(n, act) && (act.BindingFails? || act.FlowFails?)
    ensures MovesFor(n, NodeNext(n, act), [], id)
  {
    hide NodeInv, MovesFor, Report, BindingFailure, FlowFailure, Retire;
    match act
    case BindingFails(ended, key, handled, reason) =>
      BindingFailureKeeps(n, ended, key, handled, reason);
      ReportMoves(n, ended, Report(n, ended, BindingFailure(n.c, n.ep, ended, key, handled, reason)), reason, id);
    case FlowFails(ended, reason) =>
      FlowFailureKeeps(n, ended, reason);
      ReportMoves(n, ended, Report(n, ended, FlowFailure(n.c, n.ep, ended, reason)), reason, id);
  }

  lemma ArrivalMoves(n: Node, to: FlowId, index: u64, payload: seq<u8>, reason: TerminateReason, id: FlowId)
    requires NodeInv(n) && to in n.c.reg && !reason.Normal?
    ensures MovesFor(n, Arrival(n, to, index, payload, reason), [], id)
  {
    hide NodeInv, MovesFor, ReceivePayload, Arrival, Retire;
    ArrivalShape(n, to, index, payload, reason);
    var after := ReceivePayload(n.ep, n.c.reg[to].key, index, payload).0;
    if n.c.reg[to].key in after.flows {
      IdleMoves(n, n.(ep := after), id);
    } else {
      RetireMoves(n, after, to, Some(ControlMsg.Terminate(to, reason)), id);
    }
  }

  /** Every act of a node, seen from any FlowId. */
  lemma NodeMoves(n: Node, act: Act, id: FlowId)
    requires NodeInv(n) && Legal(n, act) && !NodeNext(n, act).failed
    ensures MovesFor(n, NodeNext(n, act), Taken(act), id)
  {
    hide NodeInv, MovesFor, PrepareOpen, Take, Decide, EndOne, Bound, Report, BindingFailure, FlowFailure, Arrival, Apply, AcceptPending, RejectPending;
    match act
    case OpenOne(q, datagram) => OpenMoves(n, q, datagram, id);
    case TakeFrame(m) => TakeMoves(n, m, id);
    case Admit(q, a) => AdmitMoves(n, q, a, id);
    case Refuse(q, reason) => RefuseMoves(n, q, reason, id);
    case EndLocally(ended, reason) => EndMoves(n, ended, reason, id);
    case AssociateStream(bound, direction) => AssociateMoves(n, bound, direction, id);
    case BindingCloses(ended) => RetireMoves(n, Core.Terminate(n.ep, n.c.reg[ended].key, Requested).0, ended, None, id);
    case BindingFails(_, _, _, _) => FailureMoves(n, act, id);
    case FlowFails(_, _) => FailureMoves(n, act, id);
    case DataArrives(to, index, payload, reason) => ArrivalMoves(n, to, index, payload, reason, id);
    case HostActs(op) => IdleMoves(n, n.(ep := Apply(n.ep, op)), id);
  }
}
