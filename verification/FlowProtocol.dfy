/** Two peers joined by two FIFO control channels: what holds in every run, and which received frame can
    still fail. */
module FlowProtocol {
  import opened Basics
  import opened Wire
  import opened Delivery
  import opened Core
  import opened CoreInvariant
  import opened ControlBody
  import opened Registry
  import opened FlowControls
  import opened FailureReports
  import opened FlowNode
  import opened FlowPhases
  import opened FlowMoves

  datatype Sys = Sys(a: Node, b: Node, ab: seq<ControlMsg>, ba: seq<ControlMsg>)

  function Swap(s: Sys): Sys {
    Sys(s.b, s.a, s.ba, s.ab)
  }

  /** A frame is taken only from the head of the incoming channel; an OPEN waits at the head while a
      decision is pending. */
  predicate Enabled(s: Sys, act: Act) {
    && Legal(s.a, act)
    && (act.TakeFrame? ==> s.ba != [] && act.msg == s.ba[0] && !(act.msg.Open? && s.a.c.pendingIn.Some?))
  }

  /** Side `a` acts: a frame it takes leaves `ba`, a frame it sends joins `ab`. */
  ghost function StepA(s: Sys, act: Act): Sys
    requires Enabled(s, act)
  {
    var step := NodeNext(s.a, act);
    Sys(step.node, s.b, s.ab + Sent(step), s.ba[|Taken(act)|..])
  }

  datatype Turn = Turn(byA: bool, act: Act)

  ghost predicate CanStep(s: Sys, t: Turn) {
    var own := if t.byA then s else Swap(s);
    Enabled(own, t.act) && !NodeNext(own.a, t.act).failed
  }

  ghost function Step(s: Sys, t: Turn): Sys
    requires CanStep(s, t)
  {
    if t.byA then StepA(s, t.act) else Swap(StepA(Swap(s), t.act))
  }

  // ---------------------------------------------------------------- the invariant

  /** One FlowId, with the side it belongs to as the opener. */
  function ViewOf(s: Sys, id: FlowId): View {
    if SideOf(id) == s.a.c.side then View(id, LocalOf(s.a, id), LocalOf(s.b, id), About(id, s.ab), About(id, s.ba))
    else View(id, LocalOf(s.b, id), LocalOf(s.a, id), About(id, s.ba), About(id, s.ab))
  }

  ghost predicate AllPhased(s: Sys) {
    forall id: FlowId :: Phased(ViewOf(s, id))
  }

  function Opens(channel: seq<ControlMsg>): seq<FlowId> {
    if channel == [] then [] else (if channel[0].Open? then [channel[0].id] else []) + Opens(channel[1..])
  }

  /** The OPENs in flight are numbered one after another, from the FlowId the receiver expects next to
      the last one the opener issued. */
  ghost predicate InOrder(opener: Control, acceptor: Control, channel: seq<ControlMsg>) {
    && Issued(acceptor.peerNext) + |Opens(channel)| == Issued(opener.localNext)
    && forall i :: 0 <= i < |Opens(channel)| ==>
         SideOf(Opens(channel)[i]) == opener.side && SequenceOf(Opens(channel)[i]) == Issued(acceptor.peerNext) + i
  }

  ghost predicate Paired(s: Sys) {
    && s.b.c.side == Opposite(s.a.c.side) && s.a.c.local == s.b.c.peer && s.b.c.local == s.a.c.peer
    && (forall i :: 0 <= i < |s.ab| ==> Representable(s.ab[i]))
    && (forall i :: 0 <= i < |s.ba| ==> Representable(s.ba[i]))
  }

  ghost predicate SysInv(s: Sys) {
    && NodeInv(s.a) && NodeInv(s.b) && Paired(s) && AllPhased(s)
    && InOrder(s.a.c, s.b.c, s.ab) && InOrder(s.b.c, s.a.c, s.ba)
  }

  lemma SwapKeeps(s: Sys)
    requires SysInv(s)
    ensures SysInv(Swap(s))
  {
    hide NodeInv, Phased, InOrder;
    forall id: FlowId ensures Phased(ViewOf(Swap(s), id)) {
      assert ViewOf(Swap(s), id) == ViewOf(s, id);
    }
  }

  lemma {:induction false} OpensConcat(s: seq<ControlMsg>, t: seq<ControlMsg>)
    ensures Opens(s + t) == Opens(s) + Opens(t)
  {
    if s == [] {
      assert s + t == t;
    } else {
      var head := if s[0].Open? then [s[0].id] else [];
      assert (s + t)[1..] == s[1..] + t;
      OpensConcat(s[1..], t);
      assert Opens(s + t) == head + Opens(s[1..] + t);
      assert head + (Opens(s[1..]) + Opens(t)) == (head + Opens(s[1..])) + Opens(t);
    }
  }

  // ---------------------------------------------------------------- every step keeps it

  lemma ViewMoves(s: Sys, act: Act, id: FlowId)
    requires SysInv(s) && Enabled(s, act) && !NodeNext(s.a, act).failed
    ensures Phased(ViewOf(StepA(s, act), id))
  {
    hide NodeInv, Phased, InOrder, NodeNext, Moves, Legal;
    var step := NodeNext(s.a, act);
    var after := StepA(s, act);
    var own := SideOf(id) == s.a.c.side;
    var v := ViewOf(s, id);
    NodeMoves(s.a, act, id);
    assert step.node.c.side == s.a.c.side by { ActSteady(s.a, act); }
    AboutConcat(id, s.ab, Sent(step));
    assert s.ba == Taken(act) + s.ba[|Taken(act)|..];
    AboutConcat(id, Taken(act), s.ba[|Taken(act)|..]);
    var taken := About(id, Taken(act));
    assert taken <= About(id, s.ba) && About(id, s.ba[|Taken(act)|..]) == About(id, s.ba)[|taken|..];
    assert Phased(v);
    MovesKeepPhase(v, own, LocalOf(step.node, id), taken, About(id, Sent(step)));
  }

  /** What no act changes, and how the cursors and the OPENs move together. */
  ghost predicate Steady(n: Node, step: NodeStep, taken: seq<ControlMsg>) {
    && step.node.c.side == n.c.side && step.node.c.local == n.c.local && step.node.c.peer == n.c.peer
    && Issued(step.node.c.localNext) == Issued(n.c.localNext) + |Opens(Sent(step))|
    && Issued(step.node.c.peerNext) == Issued(n.c.peerNext) + |Opens(taken)|
    && (Opens(Sent(step)) != [] ==> SideOf(Opens(Sent(step))[0]) == n.c.side && SequenceOf(Opens(Sent(step))[0]) == Issued(n.c.localNext))
    && (step.sent.Some? ==> Representable(step.sent.value))
  }

  /** An act that neither issues nor admits a FlowId. */
  lemma SteadyWithoutOpen(n: Node, step: NodeStep, taken: seq<ControlMsg>)
    requires step.node.c == n.c.(reg := step.node.c.reg, pendingOut := step.node.c.pendingOut, pendingIn := step.node.c.pendingIn)
    requires step.sent.Some? ==> !step.sent.value.Open?
    requires |taken| <= 1 && (taken != [] ==> !taken[0].Open?)
    ensures Steady(n, step, taken)
  {
  }

  lemma OpenSteady(n: Node, q: OpenRequest, datagram: Option<nat>)
    ensures Steady(n, NodeNext(n, OpenOne(q, datagram)), [])
  {
    hide OpenRefusal;
    if OpenRefusal(n.c, n.ep, q, datagram).None? {
      OpenedOk(n.c, n.ep, q, datagram);
      var id := FlowIdOf(n.c.side, n.c.localNext.value);
      FlowIdParts(n.c.side, n.c.localNext.value);
      assert Opens([Open(id, q.mode, q.stableMax)]) == [id];
    }
  }

  lemma TakeSteady(n: Node, m: ControlMsg)
    requires NodeInv(n) && Representable(m) && !Take(n, m).failed
    ensures Steady(n, Take(n, m), [m])
  {
    hide NodeInv, ReceiveControl, HandleAccept, HandleTerminate, Steady, WellFormed;
    TakeDecodes(n, m);
    match m
    case Open(id, mode, max) => OpenTakenSteady(n, id, mode, max);
    case Accept(id) =>
      if id !in n.c.pendingOut {
        StrangeAnswer(n, id);
      }
      AcceptOutcomes(n, id);
      SteadyWithoutOpen(n, Take(n, m), [m]);
    case Reject(_, _) => SteadyWithoutOpen(n, Take(n, m), [m]);
    case Terminate(id, reason) =>
      TerminateOutcomes(n, id, reason);
      SteadyWithoutOpen(n, Take(n, m), [m]);
  }

  lemma OpenTakenSteady(n: Node, id: FlowId, mode: Mode, max: nat)
    requires NodeInv(n) && Representable(Open(id, mode, max)) && !Take(n, Open(id, mode, max)).failed
    ensures Steady(n, Take(n, Open(id, mode, max)), [Open(id, mode, max)])
  {
    hide NodeInv, ReceiveControl;
    TakeDecodes(n, Open(id, mode, max));
    AdmitExactlyAllocated(Opposite(n.c.side), n.c.peerNext, id);
    OpensOne(Open(id, mode, max));
    if Take(n, Open(id, mode, max)).sent.Some? {
      OpensOne(Take(n, Open(id, mode, max)).sent.value);
    }
  }

  lemma OpensOne(m: ControlMsg)
    ensures Opens([m]) == if m.Open? then [m.id] else []
  {
  }

  lemma DecideSteady(n: Node, act: Act)
    requires NodeInv(n) && Legal(n, act) && (act.Admit? || act.Refuse?) && !NodeNext(n, act).failed
    ensures Steady(n, NodeNext(n, act), [])
  {
    hide NodeInv, WellFormed, AcceptPending, Steady;
    if act.Admit? {
      if n.c.pendingIn == Some(act.pending) {
        AdmitOutcomes(n, act.pending, act.admission);
      } else {
        NotPending(n, act.pending, act.admission);
      }
    }
    SteadyWithoutOpen(n, NodeNext(n, act), []);
  }

  lemma EndSteady(n: Node, act: Act)
    requires NodeInv(n) && Legal(n, act) && (act.EndLocally? || act.BindingFails? || act.FlowFails?)
    ensures Steady(n, NodeNext(n, act), [])
  {
    hide NodeInv, WellFormed, TerminateLocal, BindingFailure, FlowFailure, Report, Steady;
    match act
    case EndLocally(id, reason) =>
      EndOutcomes(n, id, reason);
      SteadyWithoutOpen(n, EndOne(n, id, reason), []);
    case BindingFails(id, key, handled, reason) =>
      BindingFailureKeeps(n, id, key, handled, reason);
      SteadyWithoutOpen(n, NodeNext(n, act), []);
    case FlowFails(id, reason) =>
      FlowFailureKeeps(n, id, reason);
      SteadyWithoutOpen(n, NodeNext(n, act), []);
  }

  lemma ActSteady(n: Node, act: Act)
    requires NodeInv(n) && Legal(n, act) && !NodeNext(n, act).failed
    ensures Steady(n, NodeNext(n, act), Taken(act))
  {
    hide NodeInv, WellFormed, Take, Decide, EndOne, Report, BindingFailure, FlowFailure, PrepareOpen, AcceptPending, RejectPending;
    hide Apply, ReceivePayload, Core.Terminate, Steady;
    match act
    case OpenOne(q, datagram) => OpenSteady(n, q, datagram);
    case TakeFrame(m) => TakeSteady(n, m);
    case Admit(_, _) => DecideSteady(n, act);
    case Refuse(_, _) => DecideSteady(n, act);
    case EndLocally(_, _) => EndSteady(n, act);
    case BindingFails(_, _, _, _) => EndSteady(n, act);
    case FlowFails(_, _) => EndSteady(n, act);
    case AssociateStream(_, _) => SteadyWithoutOpen(n, NodeNext(n, act), []);
    case BindingCloses(_) => SteadyWithoutOpen(n, NodeNext(n, act), []);
    case DataArrives(id, index, payload, reason) =>
      ArrivalShape(n, id, index, payload, reason);
      SteadyWithoutOpen(n, NodeNext(n, act), []);
    case HostActs(_) => SteadyWithoutOpen(n, NodeNext(n, act), []);
  }

  lemma SentInOrder(n: Node, step: NodeStep, other: Control, channel: seq<ControlMsg>)
    requires Steady(n, step, []) || (exists m :: Steady(n, step, [m]))
    requires InOrder(n.c, other, channel)
    ensures InOrder(step.node.c, other, channel + Sent(step))
  {
    OpensConcat(channel, Sent(step));
  }

  lemma TakenInOrder(n: Node, step: NodeStep, act: Act, opener: Control, channel: seq<ControlMsg>)
    requires Steady(n, step, Taken(act)) && InOrder(opener, n.c, channel) && Taken(act) <= channel
    ensures InOrder(opener, step.node.c, channel[|Taken(act)|..])
  {
    var rest := channel[|Taken(act)|..];
    assert channel == Taken(act) + rest;
    OpensConcat(Taken(act), rest);
    assert forall i :: 0 <= i < |Opens(rest)| ==> Opens(rest)[i] == Opens(channel)[i + |Opens(Taken(act))|];
  }

  lemma StepAKeeps(s: Sys, act: Act)
    requires SysInv(s) && Enabled(s, act) && !NodeNext(s.a, act).failed
    ensures SysInv(StepA(s, act))
  {
    hide NodeInv, Phased, InOrder, NodeNext, Legal, ViewOf;
    NodeKeeps(s.a, act);
    ActSteady(s.a, act);
    SentInOrder(s.a, NodeNext(s.a, act), s.b.c, s.ab);
    TakenInOrder(s.a, NodeNext(s.a, act), act, s.b.c, s.ba);
    forall id: FlowId ensures Phased(ViewOf(StepA(s, act), id)) {
      ViewMoves(s, act, id);
    }
  }

  lemma StepKeeps(s: Sys, t: Turn)
    requires SysInv(s) && CanStep(s, t)
    ensures SysInv(Step(s, t))
  {
    hide SysInv, NodeNext, Enabled, StepA;
    if t.byA {
      StepAKeeps(s, t.act);
    } else {
      SwapKeeps(s);
      StepAKeeps(Swap(s), t.act);
      SwapKeeps(StepA(Swap(s), t.act));
    }
  }

  // ---------------------------------------------------------------- every run

  ghost predicate Run(s: Sys, turns: seq<Turn>, last: Sys)
    decreases |turns|
  {
    if turns == [] then s == last else CanStep(s, turns[0]) && Run(Step(s, turns[0]), turns[1..], last)
  }

  /** Two new peers that exchanged their settings. */
  ghost predicate Initial(s: Sys) {
    && WellFormed(s.a.ep) && WellFormed(s.b.ep) && s.ab == [] && s.ba == []
    && s.b.c.side == Opposite(s.a.c.side) && s.a.c.local == s.b.c.peer && s.b.c.local == s.a.c.peer
    && s.a == NewNode(s.a.c.connection, s.a.c.side, s.a.c.local, s.a.c.peer, s.a.ep)
    && s.b == NewNode(s.b.c.connection, s.b.c.side, s.b.c.local, s.b.c.peer, s.b.ep)
  }

  lemma InitialHolds(s: Sys)
    requires Initial(s)
    ensures SysInv(s)
  {
    hide WellFormed, NodeInv;
    NewNodeHolds(s.a.c.connection, s.a.c.side, s.a.c.local, s.a.c.peer, s.a.ep);
    NewNodeHolds(s.b.c.connection, s.b.c.side, s.b.c.local, s.b.c.peer, s.b.ep);
    forall id: FlowId ensures Phased(ViewOf(s, id)) {
      assert Unissued(ViewOf(s, id));
    }
  }

  lemma {:induction false} RunKeeps(s: Sys, turns: seq<Turn>, last: Sys)
    requires SysInv(s) && Run(s, turns, last)
    ensures SysInv(last)
    decreases |turns|
  {
    hide SysInv, CanStep, Step;
    if turns != [] {
      StepKeeps(s, turns[0]);
      RunKeeps(Step(s, turns[0]), turns[1..], last);
    }
  }

  function Answers(channel: seq<ControlMsg>): set<FlowId> {
    set i | 0 <= i < |channel| && (channel[i].Accept? || channel[i].Reject?) :: channel[i].id
  }

  function OpenIds(channel: seq<ControlMsg>): set<FlowId> {
    set i | 0 <= i < |channel| && channel[i].Open? :: channel[i].id
  }

  function DecidingIds(c: Control): set<FlowId> {
    if c.pendingIn.Some? then {c.pendingIn.value.id} else {}
  }

  lemma {:induction false} AboutMember(id: FlowId, s: seq<ControlMsg>, m: ControlMsg)
    ensures m in About(id, s) <==> m in s && m.id == id
  {
    if s != [] {
      AboutMember(id, s[1..], m);
      assert s == [s[0]] + s[1..];
    }
  }

  /** Waiting for an answer means: the OPEN is still travelling, or the peer is deciding, or the answer
      is travelling back; the three never overlap. */
  lemma PendingIsConserved(s: Sys)
    requires SysInv(s)
    ensures s.a.c.pendingOut.Keys == OpenIds(s.ab) + DecidingIds(s.b.c) + Answers(s.ba)
    ensures OpenIds(s.ab) !! DecidingIds(s.b.c) && OpenIds(s.ab) !! Answers(s.ba) && DecidingIds(s.b.c) !! Answers(s.ba)
  {
    hide SysInv;
    forall id: FlowId
      ensures id in s.a.c.pendingOut <==> id in OpenIds(s.ab) || id in DecidingIds(s.b.c) || id in Answers(s.ba)
      ensures !(id in OpenIds(s.ab) && id in DecidingIds(s.b.c)) && !(id in OpenIds(s.ab) && id in Answers(s.ba))
      ensures !(id in DecidingIds(s.b.c) && id in Answers(s.ba))
    {
      PendingOne(s, id);
    }
  }

  lemma PendingOne(s: Sys, id: FlowId)
    requires SysInv(s)
    ensures id in s.a.c.pendingOut <==> id in OpenIds(s.ab) || id in DecidingIds(s.b.c) || id in Answers(s.ba)
    ensures !(id in OpenIds(s.ab) && id in DecidingIds(s.b.c)) && !(id in OpenIds(s.ab) && id in Answers(s.ba))
    ensures !(id in DecidingIds(s.b.c) && id in Answers(s.ba))
  {
    hide *;
    var v := ViewOf(s, id);
    InvPhased(s, id);
    AskingIsSomewhere(v);
    ViewLocals(s, id);
    HeadsTell(v, id, s.ab, s.ba);
  }

  lemma InvPhased(s: Sys, id: FlowId)
    requires SysInv(s)
    ensures Phased(ViewOf(s, id)) && ViewOf(s, id).id == id
  {
    hide NodeInv, Paired, InOrder, Phased;
  }

  lemma ViewLocals(s: Sys, id: FlowId)
    ensures var v := ViewOf(s, id);
            if SideOf(id) == s.a.c.side then
              && v.down == About(id, s.ab) && v.up == About(id, s.ba)
              && (id in s.a.c.pendingOut <==> v.o.asking.Some?) && (id in DecidingIds(s.b.c) <==> v.p.deciding.Some?)
            else
              && v.down == About(id, s.ba) && v.up == About(id, s.ab)
              && (id in s.a.c.pendingOut <==> v.p.asking.Some?) && (id in DecidingIds(s.b.c) <==> v.o.deciding.Some?)
  {
  }

  /** The frames about a FlowId, by channel: OPENs travel only down, answers only up. */
  lemma HeadsTell(v: View, id: FlowId, ab: seq<ControlMsg>, ba: seq<ControlMsg>)
    requires Phased(v)
    requires (v.down == About(id, ab) && v.up == About(id, ba)) || (v.down == About(id, ba) && v.up == About(id, ab))
    ensures v.down == About(id, ab) && v.up == About(id, ba) ==>
              && (id in OpenIds(ab) <==> v.down != [] && v.down[0].Open?)
              && (id in Answers(ba) <==> v.up != [] && (v.up[0].Accept? || v.up[0].Reject?))
    ensures v.down == About(id, ba) && v.up == About(id, ab) ==> id !in OpenIds(ab) && id !in Answers(ba)
  {
    InPhase(v);
    hide Phased, About;
    AboutOpens(id, ab);
    AboutAnswers(id, ba);
  }

  lemma AboutOpens(id: FlowId, s: seq<ControlMsg>)
    ensures id in OpenIds(s) <==> exists m :: m in About(id, s) && m.Open?
  {
    forall m ensures m in About(id, s) <==> m in s && m.id == id {
      AboutMember(id, s, m);
    }
    if id in OpenIds(s) {
      var i :| 0 <= i < |s| && s[i].Open? && s[i].id == id;
      assert s[i] in About(id, s);
    }
  }

  lemma AboutAnswers(id: FlowId, s: seq<ControlMsg>)
    ensures id in Answers(s) <==> exists m :: m in About(id, s) && (m.Accept? || m.Reject?)
  {
    forall m ensures m in About(id, s) <==> m in s && m.id == id {
      AboutMember(id, s, m);
    }
    if id in Answers(s) {
      var i :| 0 <= i < |s| && (s[i].Accept? || s[i].Reject?) && s[i].id == id;
      assert s[i] in About(id, s);
    }
  }

  /** OPENs travel only down, answers only up, and each is the first of its FlowId in its channel. */
  lemma InPhase(v: View)
    requires Phased(v)
    ensures forall m :: m in v.down ==> (m.Open? ==> m == v.down[0]) && !m.Accept? && !m.Reject?
    ensures forall m :: m in v.up ==> (m.Accept? || m.Reject? ==> m == v.up[0]) && !m.Open?
  {
  }

  /** Both ends of an established flow agree on what it is, and see it in opposite directions. */
  lemma EstablishedAgree(s: Sys, id: FlowId)
    requires SysInv(s) && id in s.a.c.reg && id in s.b.c.reg
    ensures s.a.c.reg[id].mode == s.b.c.reg[id].mode && s.a.c.reg[id].maxMessageBytes == s.b.c.reg[id].maxMessageBytes
    ensures s.a.c.reg[id].key.direction != s.b.c.reg[id].key.direction
    ensures s.a.c.reg[id].key.direction.Outbound? <==> SideOf(id) == s.a.c.side
    ensures About(id, s.ab) == [] && About(id, s.ba) == []
  {
    InvPhased(s, id);
    BothAgree(ViewOf(s, id));
    Directed(s.a, id);
    Directed(s.b, id);
    assert s.b.c.side == Opposite(s.a.c.side) by { hide NodeInv, AllPhased, InOrder; }
    hide SysInv, Phased;
  }

  lemma Directed(n: Node, id: FlowId)
    requires NodeInv(n) && id in n.c.reg
    ensures n.c.reg[id].key.direction.Outbound? <==> SideOf(id) == n.c.side
  {
    hide WellFormed;
    assert RegisteredOk(n.c, n.ep, id, n.c.reg[id]);
  }

  /** Why a frame taken from the peer of the protocol can still be refused. */
  predicate Excused(n: Node, m: ControlMsg, e: ControlError) {
    || (m.Terminate? && e == UnknownActiveFlow(m.id) && m.id in n.retired)
    || (m.Accept? && (e == LocalEstablishment(FlowAlreadyExists) || e == LocalEstablishment(ConnectionLimitsMismatch)))
  }

  /** Between two such peers the cursor checks, the pending-flow checks and the response-side checks never
      fail. An ACCEPT fails exactly when the host prevents it, a TERMINATE exactly when its receiver has
      already ended that flow itself. */
  lemma HeadFrameFate(s: Sys)
    requires SysInv(s) && s.ba != [] && !(s.ba[0].Open? && s.a.c.pendingIn.Some?)
    ensures Representable(s.ba[0])
    ensures var d := ReceiveControl(s.a.c, s.a.ep, FrameOf(s.ba[0]));
            && (d.result.Err? ==> Excused(s.a, s.ba[0], d.result.error))
            && (s.ba[0].Terminate? ==> (d.result.Err? <==> s.ba[0].id in s.a.retired))
            && (s.ba[0].Accept? ==> s.ba[0].id in s.a.c.pendingOut && (d.result.Err? <==> HostPrevents(s.a.ep, s.a.c.pendingOut[s.ba[0].id])))
            && (s.ba[0].Open? || s.ba[0].Reject? ==> d.result.Ok?)
  {
    var m := s.ba[0];
    var own := SideOf(m.id) == s.a.c.side;
    assert Representable(m) && s.b.c.side == Opposite(s.a.c.side) by { hide NodeInv, AllPhased, InOrder; }
    InvPhased(s, m.id);
    assert About(m.id, s.ba) != [] && About(m.id, s.ba)[0] == m;
    HeadIsExpected(ViewOf(s, m.id), own);
    hide Phased, ReceiveControl;
    TakeDecodes(s.a, m);
    match m
    case Open(id, mode, max) =>
      HeadOpenIsNext(s.b.c, s.a.c, s.ba);
      OpenFate(s.a, m);
    case Accept(id) => AcceptFate(s.a, id);
    case Reject(id, reason) => RejectFate(s.a, id, reason);
    case Terminate(id, reason) => TerminateFate(s.a, id, reason);
  }

  lemma HeadOpenIsNext(opener: Control, acceptor: Control, channel: seq<ControlMsg>)
    requires InOrder(opener, acceptor, channel) && channel != [] && channel[0].Open? && opener.side == Opposite(acceptor.side)
    ensures acceptor.peerNext.Some? && channel[0].id == FlowIdOf(Opposite(acceptor.side), acceptor.peerNext.value)
  {
    assert Opens(channel)[0] == channel[0].id;
  }

  lemma OpenFate(n: Node, m: ControlMsg)
    requires m.Open? && Representable(m) && n.c.pendingIn.None?
    requires n.c.peerNext.Some? && m.id == FlowIdOf(Opposite(n.c.side), n.c.peerNext.value)
    ensures HandleOpen(n.c, n.ep, m.id, m.mode, m.maxMessageBytes).result.Ok?
  {
    AdmitExactlyAllocated(Opposite(n.c.side), n.c.peerNext, m.id);
  }

  lemma AcceptFate(n: Node, id: FlowId)
    requires NodeInv(n) && id in n.c.pendingOut
    ensures var d := HandleAccept(n.c, n.ep, id);
            && (d.result.Err? ==> Excused(n, Accept(id), d.result.error))
            && (d.result.Err? <==> HostPrevents(n.ep, n.c.pendingOut[id]))
  {
    hide NodeInv, HandleAccept;
    AcceptOutcomes(n, id);
  }

  lemma RejectFate(n: Node, id: FlowId, reason: RejectReason)
    requires NodeInv(n) && id in n.c.pendingOut
    ensures HandleReject(n.c, n.ep, id, reason).result.Ok?
  {
    AskedHere(n, id);
  }

  lemma TerminateFate(n: Node, id: FlowId, reason: TerminateReason)
    requires NodeInv(n) && (id in n.retired <==> id !in n.c.reg)
    requires id in n.c.reg ==> ReasonOk(Terms(n.c.reg[id].mode, n.c.reg[id].maxMessageBytes), reason)
    ensures var d := HandleTerminate(n.c, n.ep, id, reason);
            && (d.result.Err? <==> id in n.retired)
            && (d.result.Err? ==> d.result.error == UnknownActiveFlow(id))
  {
    hide NodeInv, HandleTerminate;
    TerminateOutcomes(n, id, reason);
  }

  lemma EndSends(s: Sys, id: FlowId, reason: TerminateReason)
    requires SysInv(s) && id in s.a.c.reg && ReasonOk(Terms(s.a.c.reg[id].mode, s.a.c.reg[id].maxMessageBytes), reason)
    ensures var t := Turn(true, EndLocally(id, reason));
            && CanStep(s, t)
            && Step(s, t).ab == s.ab + [ControlMsg.Terminate(id, reason)] && Step(s, t).ba == s.ba && Step(s, t).b == s.b
            && id in Step(s, t).a.retired
  {
    EndOneSends(s.a, id, reason) by { assert NodeInv(s.a) by { hide NodeInv, AllPhased, InOrder; } }
    hide SysInv, NodeNext;
  }

  lemma EndOneSends(n: Node, id: FlowId, reason: TerminateReason)
    requires NodeInv(n) && id in n.c.reg && ReasonOk(Terms(n.c.reg[id].mode, n.c.reg[id].maxMessageBytes), reason)
    ensures Legal(n, EndLocally(id, reason))
    ensures var step := NodeNext(n, EndLocally(id, reason));
            step.sent == Some(ControlMsg.Terminate(id, reason)) && !step.failed && id in step.node.retired
  {
    hide NodeInv, TerminateLocal;
    EndOutcomes(n, id, reason);
  }

  /** Crossing TERMINATEs: when both ends end a flow before either frame arrives, each frame is refused
      on arrival, so honest peers do not always run without error. */
  lemma CrossedTerminatesFail(s: Sys, id: FlowId, reason: TerminateReason, other: TerminateReason)
    requires SysInv(s) && id in s.a.c.reg && id in s.b.c.reg && s.ab == [] && s.ba == []
    requires ReasonOk(Terms(s.a.c.reg[id].mode, s.a.c.reg[id].maxMessageBytes), reason)
    requires ReasonOk(Terms(s.b.c.reg[id].mode, s.b.c.reg[id].maxMessageBytes), other)
    ensures var one := Turn(true, EndLocally(id, reason));
            var two := Turn(false, EndLocally(id, other));
            && CanStep(s, one) && CanStep(Step(s, one), two)
            && var t := Step(Step(s, one), two);
               && SysInv(t) && t.ab == [ControlMsg.Terminate(id, reason)] && t.ba == [ControlMsg.Terminate(id, other)]
               && ReceiveControl(t.a.c, t.a.ep, FrameOf(t.ba[0])).result == Err(UnknownActiveFlow(id))
               && ReceiveControl(t.b.c, t.b.ep, FrameOf(t.ab[0])).result == Err(UnknownActiveFlow(id))
  {
    hide SysInv, NodeNext, Enabled, StepA, ReceiveControl, ReasonOk;
    EndSends(s, id, reason);
    StepKeeps(s, Turn(true, EndLocally(id, reason)));
    var mid := Step(s, Turn(true, EndLocally(id, reason)));
    SwapKeeps(mid);
    EndSends(Swap(mid), id, other);
    StepKeeps(mid, Turn(false, EndLocally(id, other)));
    var last := Step(mid, Turn(false, EndLocally(id, other)));
    HeadFrameFate(last);
    SwapKeeps(last);
    HeadFrameFate(Swap(last));
  }

  /** Both ends hold the flow: on the same terms, in opposite directions, and nothing about it travels. */
  predicate Agreed(s: Sys, id: FlowId)
    requires id in s.a.c.reg && id in s.b.c.reg
  {
    var f, g := s.a.c.reg[id], s.b.c.reg[id];
    && f.mode == g.mode && f.maxMessageBytes == g.maxMessageBytes
    && f.key.direction != g.key.direction && (f.key.direction.Outbound? <==> SideOf(id) == s.a.c.side)
    && About(id, s.ab) == [] && About(id, s.ba) == []
  }

  /** What becomes of the frame at the head of the channel to `a`, should `a` take it now: which kinds can
      fail, exactly when, and with which error. */
  ghost predicate Fate(s: Sys) {
    s.ba != [] && !(s.ba[0].Open? && s.a.c.pendingIn.Some?) ==>
      var m := s.ba[0];
      && Representable(m)
      && var r := ReceiveControl(s.a.c, s.a.ep, FrameOf(m)).result;
      && (r.Err? ==> Excused(s.a, m, r.error))
      && (m.Terminate? ==> (r.Err? <==> m.id in s.a.retired))
      && (m.Accept? ==> m.id in s.a.c.pendingOut && (r.Err? <==> HostPrevents(s.a.ep, s.a.c.pendingOut[m.id])))
      && (m.Open? || m.Reject? ==> r.Ok?)
  }

  lemma HeadFate(s: Sys)
    requires SysInv(s)
    ensures Fate(s)
  {
    hide SysInv, ReceiveControl, Excused, HostPrevents, BodyOf;
    if s.ba != [] && !(s.ba[0].Open? && s.a.c.pendingIn.Some?) {
      HeadFrameFate(s);
    }
  }

  /** In every error-free run of two peers: waiting requests are conserved, established flows agree, and
      the next frame of either channel fails exactly when `Fate` says. */
  lemma EveryRunAgrees(s: Sys, turns: seq<Turn>, last: Sys)
    requires Initial(s) && Run(s, turns, last)
    ensures last.a.c.pendingOut.Keys == OpenIds(last.ab) + DecidingIds(last.b.c) + Answers(last.ba)
    ensures last.b.c.pendingOut.Keys == OpenIds(last.ba) + DecidingIds(last.a.c) + Answers(last.ab)
    ensures forall id :: id in last.a.c.reg && id in last.b.c.reg ==> Agreed(last, id)
    ensures Fate(last) && Fate(Swap(last))
  {
    hide SysInv, Initial, Run, Fate, Agreed;
    InitialHolds(s);
    RunKeeps(s, turns, last);
    SwapKeeps(last);
    PendingIsConserved(last);
    PendingIsConserved(Swap(last));
    forall id | id in last.a.c.reg && id in last.b.c.reg ensures Agreed(last, id) {
      AgreedOne(last, id);
    }
    HeadFate(last);
    HeadFate(Swap(last));
  }

  lemma AgreedOne(s: Sys, id: FlowId)
    requires SysInv(s) && id in s.a.c.reg && id in s.b.c.reg
    ensures Agreed(s, id)
  {
    hide SysInv;
    EstablishedAgree(s, id);
  }
}
