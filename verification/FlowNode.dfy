/** One side of the flow protocol over whole runs, against any peer: its limits, its registry and the
    terminations it reports. */
module FlowNode {
  import opened Basics
  import opened Wire
  import opened Delivery
  import opened Core
  import opened CoreInvariant
  import opened CoreHistory
  import opened ControlBody
  import opened Registry
  import opened FlowControls
  import opened FailureReports

  /** A side's flow control and Core, with the FlowIds it retired itself and, for each FlowId, how many
      termination-carrying outcomes it produced. */
  datatype Node = Node(c: Control, ep: Endpoint, retired: set<FlowId>, ended: multiset<FlowId>)

  datatype Act =
    | OpenOne(request: OpenRequest, datagram: Option<nat>)
    | TakeFrame(msg: ControlMsg)
    | Admit(pending: PendingIn, admission: Admission)
    | Refuse(pending: PendingIn, rejectReason: RejectReason)
    | EndLocally(id: FlowId, reason: TerminateReason)
    | AssociateStream(id: FlowId, direction: Direction)
    | BindingCloses(id: FlowId)
    | BindingFails(id: FlowId, key: FlowKey, handled: bool, reason: TerminateReason)
    | FlowFails(id: FlowId, reason: TerminateReason)
    | DataArrives(id: FlowId, index: u64, payload: seq<u8>, reason: TerminateReason)
    | HostActs(op: Op)

  predicate Registered(c: Control, key: FlowKey) {
    exists id :: id in c.reg && c.reg[id].key == key
  }

  /** What the adapter's environment may do: bindings belong to reliable flows and never outlive a flow
      whose Core key is in use again, a failing stream is never reported `Normal`, data enters only
      registered inbound flows, and the host does not end or feed a flow that the adapter owns. */
  predicate Legal(n: Node, act: Act) {
    match act
    case TakeFrame(m) => Representable(m)
    case BindingCloses(id) => id in n.c.reg && n.c.reg[id].mode.ReliableOrdered?
    case BindingFails(id, key, _, reason) =>
      !reason.Normal? && if id in n.c.reg then n.c.reg[id].key == key && n.c.reg[id].mode.ReliableOrdered? else key !in n.ep.flows
    case FlowFails(id, reason) => id in n.c.reg && n.c.reg[id].mode.ReliableOrdered? ==> !reason.Normal?
    case DataArrives(id, _, _, reason) => !reason.Normal? && id in n.c.reg && n.c.reg[id].key.direction.Inbound?
    case HostActs(op) => Registered(n.c, op.key) ==> !op.DoTerminate? && !op.DoFailCustody? && !op.DoReceive? && !op.DoReceivePayload?
    case _ => true
  }

  /** The node after an act, the frame it sends, and whether the act ended the run with an error. */
  datatype NodeStep = NodeStep(node: Node, sent: Option<ControlMsg>, failed: bool)

  function EndedBy(p: Progress): multiset<FlowId> {
    match p
    case OutboundFailedAfterAccept(id, _, _) => multiset{id}
    case RemoteTerminated(flow, _, _) => multiset{flow.id}
    case _ => multiset{}
  }

  function RetiredBy(p: Progress): set<FlowId> {
    if p.OutboundFailedAfterAccept? then {p.id} else {}
  }

  ghost function Take(n: Node, m: ControlMsg): NodeStep
    requires Representable(m)
  {
    var d := ReceiveControl(n.c, n.ep, FrameOf(m));
    match d.result
    case Err(_) => NodeStep(n.(c := d.control, ep := d.ep), None, true)
    case Ok(p) => NodeStep(Node(d.control, d.ep, n.retired + RetiredBy(p), n.ended + EndedBy(p)), ReplyTo(p), false)
  }

  ghost function Decide(n: Node, d: Done<Result<Resolution, AdmissionError>>): NodeStep {
    match d.result
    case Err(e) => NodeStep(n.(c := d.control, ep := d.ep), None, !e.RequestNotPending?)
    case Ok(r) => NodeStep(n.(c := d.control, ep := d.ep), Some(ResolutionFrame(r)), false)
  }

  /** A flow leaving the registry by this side's own doing. */
  function Retire(n: Node, ep: Endpoint, id: FlowId): Node {
    Node(n.c.(reg := n.c.reg - {id}), ep, n.retired + {id}, n.ended + multiset{id})
  }

  ghost function EndOne(n: Node, id: FlowId, reason: TerminateReason): NodeStep {
    var d := TerminateLocal(n.c, n.ep, id, reason);
    match d.result
    case Err(_) => NodeStep(n.(c := d.control, ep := d.ep), None, false)
    case Ok(_) => NodeStep(Retire(n, d.ep, id), Some(ControlMsg.Terminate(id, reason)), false)
  }

  /** A stream is bound to a registered reliable flow, if the registry allows it. */
  function Bound(c: Control, id: FlowId, direction: Direction): Control {
    match Bind(c.reg, id, direction) case Ok(reg) => c.(reg := reg) case Err(_) => c
  }

  /** A reliable binding closes normally: its Core flow and registry entry go together, without a report. */
  ghost function CloseBinding(n: Node, id: FlowId): NodeStep
    requires id in n.c.reg
  {
    NodeStep(Retire(n, Core.Terminate(n.ep, n.c.reg[id].key, Requested).0, id), None, false)
  }

  /** A failure outcome of a flow; a report counts as one more termination of its FlowId. */
  ghost function Report(n: Node, id: FlowId, d: Done<Result<Outcome, ControlError>>): NodeStep {
    var after := n.(c := d.control, ep := d.ep);
    if d.result.Err? then NodeStep(after, None, true)
    else if d.result.value.SendReport? then
      NodeStep(after.(retired := n.retired + {id}, ended := n.ended + multiset{id}), Some(ControlMsg.Terminate(d.result.value.id, d.result.value.reason)), false)
    else NodeStep(after, None, d.result.value.Closing?)
  }

  /** Received data. If Core ends the reliable flow because of it, the binding fails in the same poll and
      `reason` says how that is reported. */
  ghost function Arrival(n: Node, id: FlowId, index: u64, payload: seq<u8>, reason: TerminateReason): NodeStep
    requires id in n.c.reg
  {
    var key := n.c.reg[id].key;
    var after := ReceivePayload(n.ep, key, index, payload).0;
    if key in after.flows then NodeStep(n.(ep := after), None, false)
    else Report(n.(ep := after), id, BindingFailure(n.c, after, id, key, true, reason))
  }

  ghost function NodeNext(n: Node, act: Act): NodeStep
    requires Legal(n, act)
  {
    match act
    case OpenOne(q, datagram) =>
      var (c, r) := PrepareOpen(n.c, n.ep, q, datagram);
      NodeStep(n.(c := c), match r case Err(_) => None case Ok(m) => Some(m), false)
    case TakeFrame(m) => Take(n, m)
    case Admit(q, a) => Decide(n, AcceptPending(n.c, n.ep, q, a))
    case Refuse(q, reason) => Decide(n, RejectPending(n.c, n.ep, q, reason))
    case EndLocally(id, reason) => EndOne(n, id, reason)
    case AssociateStream(id, direction) => NodeStep(n.(c := Bound(n.c, id, direction)), None, false)
    case BindingCloses(id) => CloseBinding(n, id)
    case BindingFails(id, key, handled, reason) => Report(n, id, BindingFailure(n.c, n.ep, id, key, handled, reason))
    case FlowFails(id, reason) => Report(n, id, FlowFailure(n.c, n.ep, id, reason))
    case DataArrives(id, index, payload, reason) => Arrival(n, id, index, payload, reason)
    case HostActs(op) => NodeStep(n.(ep := Apply(n.ep, op)), None, false)
  }

  // ---------------------------------------------------------------- the invariant of one node

  ghost predicate PendingOutOk(c: Control, id: FlowId, p: PendingOut) {
    && SideOf(id) == c.side && SequenceOf(id) < Issued(c.localNext) && id !in c.reg
    && p.key.connection == c.connection && p.key.direction.Outbound?
    && p.policy.ValidateFor(p.mode).None? && p.policy.maxMessageBytes == p.stableMax <= MAX_VARINT
  }

  ghost predicate RegisteredOk(c: Control, ep: Endpoint, id: FlowId, f: RegisteredFlow) {
    && SideOf(id) == OwnerSide(c.side, f.key.direction)
    && SequenceOf(id) < Issued(if f.key.direction.Outbound? then c.localNext else c.peerNext)
    && f.key in ep.flows && ep.flows[f.key].mode == f.mode
  }

  /** The FlowId has been used and nothing is left of it. */
  ghost predicate Gone(c: Control, id: FlowId) {
    && id !in c.reg && id !in c.pendingOut && (c.pendingIn.Some? ==> c.pendingIn.value.id != id)
    && SequenceOf(id) < Issued(if SideOf(id) == c.side then c.localNext else c.peerNext)
  }

  ghost predicate PendingOk(c: Control) {
    && (forall id :: id in c.pendingOut ==> PendingOutOk(c, id, c.pendingOut[id]))
    && (c.pendingIn.Some? ==>
          SideOf(c.pendingIn.value.id) != c.side && SequenceOf(c.pendingIn.value.id) < Issued(c.peerNext) && c.pendingIn.value.id !in c.reg)
  }

  ghost predicate RegistryOk(c: Control, ep: Endpoint) {
    forall id :: id in c.reg ==> RegisteredOk(c, ep, id, c.reg[id])
  }

  ghost predicate DistinctKeys(reg: Flows) {
    forall id, id' :: id in reg && id' in reg && id != id' ==> reg[id].key != reg[id'].key
  }

  ghost predicate WithinLimits(c: Control) {
    && |ActiveIds(c.reg, Outbound)| + |c.pendingOut| <= c.peer.maxActiveIncoming
    && |ActiveIds(c.reg, Inbound)| <= c.local.maxActiveIncoming
  }

  ghost predicate AllGone(c: Control, ids: set<FlowId>) {
    forall id :: id in ids ==> Gone(c, id)
  }

  ghost predicate EndedOnce(c: Control, ended: multiset<FlowId>) {
    forall id :: ended[id] <= 1 && (id in ended ==> Gone(c, id))
  }

  ghost predicate NodeInv(n: Node) {
    && WellFormed(n.ep) && PendingOk(n.c) && RegistryOk(n.c, n.ep) && DistinctKeys(n.c.reg) && WithinLimits(n.c)
    && AllGone(n.c, n.retired) && EndedOnce(n.c, n.ended)
  }

  function NewNode(connection: u64, side: Side, local: Settings, peer: Settings, ep: Endpoint): Node {
    Node(NewControl(connection, side, local, peer), ep, {}, multiset{})
  }

  lemma NewNodeHolds(connection: u64, side: Side, local: Settings, peer: Settings, ep: Endpoint)
    requires WellFormed(ep)
    ensures NodeInv(NewNode(connection, side, local, peer, ep))
  {
  }

  // ---------------------------------------------------------------- counting

  lemma DropActive(reg: Flows, id: FlowId, d: Direction)
    requires id in reg
    ensures |ActiveIds(reg - {id}, d)| == |ActiveIds(reg, d)| - (if reg[id].key.direction == d then 1 else 0)
  {
    if reg[id].key.direction == d {
      assert ActiveIds(reg - {id}, d) == ActiveIds(reg, d) - {id};
    } else {
      assert ActiveIds(reg - {id}, d) == ActiveIds(reg, d);
    }
  }

  lemma AddActive(reg: Flows, id: FlowId, f: RegisteredFlow, d: Direction)
    requires id !in reg
    ensures |ActiveIds(reg[id := f], d)| == |ActiveIds(reg, d)| + (if f.key.direction == d then 1 else 0)
  {
    if f.key.direction == d {
      assert ActiveIds(reg[id := f], d) == ActiveIds(reg, d) + {id};
    } else {
      assert ActiveIds(reg[id := f], d) == ActiveIds(reg, d);
    }
  }

  /** The registry's capacity is the sum of the two peers' limits, and whenever a flow is about to be
      registered there is room left: the capacity check and its rollback are never reached. */
  lemma CapacityNeverHit(n: Node)
    requires NodeInv(n)
    ensures n.c.pendingOut != map[] ==> |n.c.reg| < n.c.Capacity()
    ensures |ActiveIds(n.c.reg, Inbound)| < n.c.local.maxActiveIncoming ==> |n.c.reg| < n.c.Capacity()
  {
    ActiveIdsSplit(n.c.reg);
    if n.c.pendingOut != map[] {
      assert |n.c.pendingOut| > 0;
    }
  }

  // ---------------------------------------------------------------- Core flows coming and going

  lemma EstablishIsLocal(ep: Endpoint, key: FlowKey, mode: Mode, policy: Policy, limits: Limits)
    ensures var (after, r) := Establish(ep, key, mode, policy, limits);
            && (r.Ok? ==> key !in ep.flows && after.flows == ep.flows[key := NewFlow(mode, policy)])
            && (r.Err? ==> after == ep)
            && (r.Err? && r.error.InvalidPolicy? ==> policy.ValidateFor(mode).Some?)
  {
  }

  lemma TerminateIsLocal(ep: Endpoint, key: FlowKey, reason: Reason)
    ensures var (after, r) := Core.Terminate(ep, key, reason);
            && (r.Ok? <==> key in ep.flows) && after.flows == ep.flows - {key}
  {
    assert key !in ep.flows ==> ep.flows - {key} == ep.flows;
  }

  /** What is gone stays gone while a FlowId is neither issued anew nor brought back. */
  lemma GoneStays(c: Control, d: Control, id: FlowId)
    requires Gone(c, id) && d.side == c.side && id !in d.reg && id !in d.pendingOut
    requires d.pendingIn.Some? ==> d.pendingIn.value.id != id
    requires Issued(c.localNext) <= Issued(d.localNext) && Issued(c.peerNext) <= Issued(d.peerNext)
    ensures Gone(d, id)
  {
  }

  lemma GoneParts(c: Control, id: FlowId)
    requires Gone(c, id)
    ensures id !in c.reg && id !in c.pendingOut && (c.pendingIn.Some? ==> c.pendingIn.value.id != id)
  {
  }

  lemma PendingOutStays(c: Control, d: Control, id: FlowId)
    requires id in c.pendingOut && PendingOutOk(c, id, c.pendingOut[id])
    requires d.side == c.side && d.connection == c.connection && (id in d.reg ==> id in c.reg) && Issued(c.localNext) <= Issued(d.localNext)
    ensures PendingOutOk(d, id, c.pendingOut[id])
  {
  }

  lemma RegisteredStays(c: Control, d: Control, ep: Endpoint, id: FlowId)
    requires id in c.reg && RegisteredOk(c, ep, id, c.reg[id])
    requires d.side == c.side && Issued(c.localNext) <= Issued(d.localNext) && Issued(c.peerNext) <= Issued(d.peerNext)
    ensures RegisteredOk(d, ep, id, c.reg[id])
  {
  }

  /** Nothing enters the registry or the pending sets and the cursors do not move. */
  ghost predicate Shrinks(c: Control, d: Control) {
    && d == c.(reg := d.reg, pendingOut := d.pendingOut, pendingIn := d.pendingIn)
    && (forall id :: id in d.reg ==> id in c.reg && d.reg[id] == c.reg[id])
    && (forall id :: id in d.pendingOut ==> id in c.pendingOut && d.pendingOut[id] == c.pendingOut[id])
    && (d.pendingIn.Some? ==> d.pendingIn == c.pendingIn)
  }

  lemma ShrinkKeepsGone(c: Control, d: Control, ids: set<FlowId>, ended: multiset<FlowId>)
    requires Shrinks(c, d) && AllGone(c, ids) && EndedOnce(c, ended)
    ensures AllGone(d, ids) && EndedOnce(d, ended)
  {
    hide Gone;
    forall id | Gone(c, id) ensures Gone(d, id) {
      GoneParts(c, id);
      GoneStays(c, d, id);
    }
  }

  lemma ShrinkKeepsPending(c: Control, d: Control)
    requires Shrinks(c, d) && PendingOk(c)
    ensures PendingOk(d)
  {
    forall id | id in d.pendingOut ensures PendingOutOk(d, id, d.pendingOut[id]) {
      assert PendingOutOk(c, id, c.pendingOut[id]);
    }
  }

  lemma DropKeepsRegistry(c: Control, ep: Endpoint, after: Endpoint, id: FlowId)
    requires RegistryOk(c, ep) && DistinctKeys(c.reg) && id in c.reg && after.flows == ep.flows - {c.reg[id].key}
    ensures RegistryOk(c.(reg := c.reg - {id}), after) && DistinctKeys(c.reg - {id})
  {
    var d := c.(reg := c.reg - {id});
    forall other | other in d.reg ensures RegisteredOk(d, after, other, d.reg[other]) {
      assert RegisteredOk(c, ep, other, c.reg[other]);
    }
  }

  lemma DropKeepsLimits(c: Control, id: FlowId)
    requires WithinLimits(c) && id in c.reg
    ensures WithinLimits(c.(reg := c.reg - {id}))
  {
    hide ActiveIds;
    DropActive(c.reg, id, Outbound);
    DropActive(c.reg, id, Inbound);
  }

  /** One FlowId leaves the registry together with its Core flow; everything else stays as it was. */
  lemma DropKeeps(n: Node, ep: Endpoint, id: FlowId)
    requires NodeInv(n) && id in n.c.reg && WellFormed(ep) && ep.flows == n.ep.flows - {n.c.reg[id].key}
    ensures NodeInv(n.(c := n.c.(reg := n.c.reg - {id}), ep := ep)) && Gone(n.c.(reg := n.c.reg - {id}), id) && n.ended[id] == 0
  {
    hide WellFormed, PendingOk, RegistryOk, DistinctKeys, AllGone, EndedOnce, WithinLimits, Gone;
    var d := n.c.(reg := n.c.reg - {id});
    DropKeepsLimits(n.c, id);
    DropKeepsRegistry(n.c, n.ep, ep, id);
    ShrinkKeepsPending(n.c, d);
    ShrinkKeepsGone(n.c, d, n.retired, n.ended);
    RegisteredIsFree(n, id);
  }

  /** A registered FlowId is nowhere else. */
  lemma RegisteredIsFree(n: Node, id: FlowId)
    requires NodeInv(n) && id in n.c.reg
    ensures Gone(n.c.(reg := n.c.reg - {id}), id) && n.ended[id] == 0
  {
    hide WellFormed, DistinctKeys, WithinLimits;
    assert RegisteredOk(n.c, n.ep, id, n.c.reg[id]);
    assert id in n.c.pendingOut ==> PendingOutOk(n.c, id, n.c.pendingOut[id]);
    assert id in n.ended ==> Gone(n.c, id);
  }

  /** A FlowId that is gone and was not reported ended may be reported ended once, and noted as retired. */
  lemma NoteEnd(n: Node, id: FlowId, retires: set<FlowId>)
    requires NodeInv(n) && Gone(n.c, id) && n.ended[id] == 0 && retires <= {id}
    ensures NodeInv(n.(retired := n.retired + retires, ended := n.ended + multiset{id}))
  {
    hide WellFormed, PendingOk, RegistryOk, DistinctKeys, WithinLimits, Gone;
  }

  lemma RetireKeeps(n: Node, ep: Endpoint, id: FlowId)
    requires NodeInv(n) && id in n.c.reg && WellFormed(ep) && ep.flows == n.ep.flows - {n.c.reg[id].key}
    ensures NodeInv(Retire(n, ep, id))
  {
    hide NodeInv, Gone, WellFormed;
    DropKeeps(n, ep, id);
    NoteEnd(n.(c := n.c.(reg := n.c.reg - {id}), ep := ep), id, {id});
  }

  lemma RemoteEndKeeps(n: Node, ep: Endpoint, id: FlowId)
    requires NodeInv(n) && id in n.c.reg && WellFormed(ep) && ep.flows == n.ep.flows - {n.c.reg[id].key}
    ensures NodeInv(Node(n.c.(reg := n.c.reg - {id}), ep, n.retired + {}, n.ended + multiset{id}))
  {
    hide NodeInv, Gone, WellFormed;
    DropKeeps(n, ep, id);
    NoteEnd(n.(c := n.c.(reg := n.c.reg - {id}), ep := ep), id, {});
  }

  /** A free FlowId of the right side enters the registry with a new Core flow. */
  lemma EnterKeepsRegistry(c: Control, ep: Endpoint, after: Endpoint, id: FlowId, f: RegisteredFlow)
    requires RegistryOk(c, ep) && DistinctKeys(c.reg) && id !in c.reg && f.key !in ep.flows
    requires after.flows.Keys == ep.flows.Keys + {f.key} && forall k :: k in ep.flows ==> after.flows[k] == ep.flows[k]
    requires RegisteredOk(c, after, id, f)
    ensures RegistryOk(c.(reg := c.reg[id := f]), after) && DistinctKeys(c.reg[id := f])
  {
    var d := c.(reg := c.reg[id := f]);
    forall other | other in c.reg ensures RegisteredOk(d, after, other, c.reg[other]) && c.reg[other].key != f.key {
      assert RegisteredOk(c, ep, other, c.reg[other]);
    }
  }

  lemma EnterKeeps(n: Node, ep: Endpoint, id: FlowId, f: RegisteredFlow)
    requires NodeInv(n) && WellFormed(ep) && id !in n.c.reg && id !in n.retired && id !in n.ended && f.key !in n.ep.flows
    requires id !in n.c.pendingOut && (n.c.pendingIn.Some? ==> n.c.pendingIn.value.id != id)
    requires ep.flows.Keys == n.ep.flows.Keys + {f.key} && forall k :: k in n.ep.flows ==> ep.flows[k] == n.ep.flows[k]
    requires RegisteredOk(n.c, ep, id, f) && WithinLimits(n.c.(reg := n.c.reg[id := f]))
    ensures NodeInv(n.(c := n.c.(reg := n.c.reg[id := f]), ep := ep))
  {
    hide WellFormed, RegistryOk, DistinctKeys, WithinLimits, RegisteredOk, Gone, PendingOutOk;
    var d := n.c.(reg := n.c.reg[id := f]);
    EnterKeepsRegistry(n.c, n.ep, ep, id, f);
    forall other | Gone(n.c, other) && other != id ensures Gone(d, other) {
      GoneParts(n.c, other);
      GoneStays(n.c, d, other);
    }
    forall other | other in d.pendingOut ensures PendingOutOk(d, other, d.pendingOut[other]) {
      PendingElsewhere(n.c, id, other, f);
    }
  }

  lemma PendingElsewhere(c: Control, id: FlowId, other: FlowId, f: RegisteredFlow)
    requires other in c.pendingOut && PendingOutOk(c, other, c.pendingOut[other]) && other != id
    ensures PendingOutOk(c.(reg := c.reg[id := f]), other, c.pendingOut[other])
  {
  }

  // ---------------------------------------------------------------- receiving frames

  lemma TakeDecodes(n: Node, m: ControlMsg)
    requires Representable(m)
    ensures ReceiveControl(n.c, n.ep, FrameOf(m)) ==
            if m.Open? && n.c.pendingIn.Some? then Done(n.c, n.ep, Err(InboundDecisionPending(n.c.pendingIn.value.id)))
            else Handle(n.c, n.ep, m)
  {
    hide HandleAccept, HandleOpen, HandleReject, HandleTerminate, BodyOf, DecodeBody;
    EncodedDecodes(m);
  }

  /** The peer's next OPEN only moves the cursor past its FlowId. */
  lemma OpenOutcomes(n: Node, id: FlowId, mode: Mode, max: nonzero)
    ensures var d := HandleOpen(n.c, n.ep, id, mode, max);
            && d.ep == n.ep
            && (d.result.Ok? ==>
                  && n.c.pendingIn.None? && EndedBy(d.result.value) == multiset{} && RetiredBy(d.result.value) == {}
                  && SideOf(id) != n.c.side && Issued(n.c.peerNext) <= SequenceOf(id) < Issued(d.control.peerNext)
                  && (d.control == n.c.(peerNext := d.control.peerNext) || d.control == n.c.(peerNext := d.control.peerNext, pendingIn := Some(PendingIn(id, mode, max)))))
  {
  }

  lemma AdvancedKeeps(n: Node, d: Control)
    requires NodeInv(n) && d == n.c.(localNext := d.localNext, peerNext := d.peerNext)
    requires Issued(n.c.localNext) <= Issued(d.localNext) && Issued(n.c.peerNext) <= Issued(d.peerNext)
    ensures NodeInv(n.(c := d))
  {
    hide WellFormed, DistinctKeys, Gone, PendingOutOk, RegisteredOk;
    forall id | Gone(n.c, id) ensures Gone(d, id) {
      GoneParts(n.c, id);
      GoneStays(n.c, d, id);
    }
    forall id | id in d.pendingOut ensures PendingOutOk(d, id, d.pendingOut[id]) {
      PendingOutStays(n.c, d, id);
    }
    forall id | id in d.reg ensures RegisteredOk(d, n.ep, id, d.reg[id]) {
      RegisteredStays(n.c, d, n.ep, id);
    }
  }

  /** A FlowId the cursors have not reached is unknown here. */
  lemma Fresh(n: Node, id: FlowId)
    requires NodeInv(n) && SequenceOf(id) >= Issued(if SideOf(id) == n.c.side then n.c.localNext else n.c.peerNext)
    ensures id !in n.c.reg && id !in n.c.pendingOut && id !in n.retired && id !in n.ended
    ensures n.c.pendingIn.Some? ==> n.c.pendingIn.value.id != id
  {
    hide WellFormed, DistinctKeys, WithinLimits;
    assert id in n.c.reg ==> RegisteredOk(n.c, n.ep, id, n.c.reg[id]);
    assert id in n.c.pendingOut ==> PendingOutOk(n.c, id, n.c.pendingOut[id]);
    assert id in n.ended ==> Gone(n.c, id);
  }

  lemma PendKeeps(n: Node, q: PendingIn)
    requires NodeInv(n) && n.c.pendingIn.None? && q.id !in n.c.reg && q.id !in n.retired && q.id !in n.ended
    requires SideOf(q.id) != n.c.side && SequenceOf(q.id) < Issued(n.c.peerNext)
    ensures NodeInv(n.(c := n.c.(pendingIn := Some(q))))
  {
    hide WellFormed, DistinctKeys, PendingOutOk, RegisteredOk, Gone;
    var d := n.c.(pendingIn := Some(q));
    forall id | Gone(n.c, id) && id != q.id ensures Gone(d, id) {
      GoneParts(n.c, id);
      GoneStays(n.c, d, id);
    }
    forall id | id in d.pendingOut ensures PendingOutOk(d, id, d.pendingOut[id]) {
      PendingOutStays(n.c, d, id);
    }
    forall id | id in d.reg ensures RegisteredOk(d, n.ep, id, d.reg[id]) {
      RegisteredStays(n.c, d, n.ep, id);
    }
  }

  lemma OpenTakenKeeps(n: Node, id: FlowId, mode: Mode, max: nonzero)
    requires NodeInv(n)
    ensures var d := HandleOpen(n.c, n.ep, id, mode, max);
            d.result.Ok? ==> NodeInv(n.(c := d.control, ep := d.ep)) && EndedBy(d.result.value) == multiset{} && RetiredBy(d.result.value) == {}
  {
    hide NodeInv, HandleOpen;
    var d := HandleOpen(n.c, n.ep, id, mode, max);
    OpenOutcomes(n, id, mode, max);
    if d.result.Ok? {
      var moved := n.c.(peerNext := d.control.peerNext);
      Fresh(n, id);
      AdvancedKeeps(n, moved);
      if d.control != moved {
        PendKeeps(n.(c := moved), PendingIn(id, mode, max));
      }
    }
  }

  /** The host used the Core key meanwhile, or other flows of the connection run under other limits. */
  ghost predicate HostPrevents(ep: Endpoint, p: PendingOut) {
    || p.key in ep.flows
    || (Load(Aggregate, ep.flows).flows < ep.aggregate.maxFlows
        && p.key.connection in ep.connections && ep.connections[p.key.connection] != p.limits)
  }

  lemma EstablishErrors(ep: Endpoint, p: PendingOut)
    requires p.policy.ValidateFor(p.mode).None?
    ensures var r := Establish(ep, p.key, p.mode, p.policy, p.limits).1;
            HostPrevents(ep, p) <==> r.Err? && !r.error.ActiveFlowLimitExceeded?
  {
    hide Load, NewFlow;
  }

  /** An ACCEPT for a flow this side asked for establishes it, unless Core's own flow limits or the
      host's use of the key prevent that. */
  lemma AcceptOutcomes(n: Node, id: FlowId)
    requires NodeInv(n) && id in n.c.pendingOut
    ensures var d := HandleAccept(n.c, n.ep, id);
            var p := n.c.pendingOut[id];
            var taken := n.c.(pendingOut := n.c.pendingOut - {id});
            var f := RegisteredFlow(p.key, p.mode, p.stableMax, NewAssociation(p.mode));
            && WellFormed(d.ep)
            && (d.result.Ok? ==>
                  || (d.result.value == OutboundEstablished(Established(id, p.key, p.mode, p.stableMax))
                      && d.control == taken.(reg := taken.reg[id := f])
                      && p.key !in n.ep.flows && d.ep.flows == n.ep.flows[p.key := NewFlow(p.mode, p.policy)])
                  || (d.result.value == OutboundFailedAfterAccept(id, p.key, None) && d.control == taken && d.ep == n.ep))
            && (d.result.Err? <==> HostPrevents(n.ep, p))
            && (d.result.Err? ==>
                  || d.result.error == LocalEstablishment(FlowAlreadyExists)
                  || d.result.error == LocalEstablishment(ConnectionLimitsMismatch))
  {
    hide WellFormed, Establish, Core.Terminate, HostPrevents;
    var p := n.c.pendingOut[id];
    EstablishErrors(n.ep, p) by {
      assert PendingOutOk(n.c, id, p);
    }
    EstablishIsLocal(n.ep, p.key, p.mode, p.policy, p.limits);
    EstablishKeeps(n.ep, p.key, p.mode, p.policy, p.limits);
    CapacityNeverHit(n);
    assert PendingOutOk(n.c, id, p);
  }

  /** A FlowId this side asked for leaves the pending set: it is known nowhere else. */
  lemma AnsweredKeeps(n: Node, id: FlowId)
    requires NodeInv(n) && id in n.c.pendingOut
    ensures var taken := n.c.(pendingOut := n.c.pendingOut - {id});
            && NodeInv(n.(c := taken)) && Gone(taken, id) && n.ended[id] == 0 && id !in n.retired
            && |taken.pendingOut| == |n.c.pendingOut| - 1
  {
    hide WellFormed, DistinctKeys, RegisteredOk;
    var taken := n.c.(pendingOut := n.c.pendingOut - {id});
    assert taken.pendingOut.Keys == n.c.pendingOut.Keys - {id};
    assert PendingOutOk(n.c, id, n.c.pendingOut[id]);
    assert id !in n.ended by {
      assert id in n.ended ==> Gone(n.c, id);
    }
    ShrinkKeepsPending(n.c, taken);
    ShrinkKeepsGone(n.c, taken, n.retired, n.ended);
    AnsweredRegistry(n.c, n.ep, taken);
  }

  lemma AnsweredRegistry(c: Control, ep: Endpoint, d: Control)
    requires RegistryOk(c, ep) && d == c.(pendingOut := d.pendingOut, pendingIn := d.pendingIn)
    ensures RegistryOk(d, ep)
  {
    forall id | id in d.reg ensures RegisteredOk(d, ep, id, d.reg[id]) {
      assert RegisteredOk(c, ep, id, c.reg[id]);
    }
  }

  /** The limits still hold with one more flow when there was room for it. */
  lemma RoomForOne(c: Control, id: FlowId, f: RegisteredFlow)
    requires id !in c.reg && WithinLimits(c)
    requires if f.key.direction.Outbound? then |ActiveIds(c.reg, Outbound)| + |c.pendingOut| < c.peer.maxActiveIncoming
             else |ActiveIds(c.reg, Inbound)| < c.local.maxActiveIncoming
    ensures WithinLimits(c.(reg := c.reg[id := f]))
  {
    hide ActiveIds;
    AddActive(c.reg, id, f, Outbound);
    AddActive(c.reg, id, f, Inbound);
  }

  /** What a pending FlowId and its limits say. */
  lemma PendingFacts(n: Node, id: FlowId)
    requires NodeInv(n) && id in n.c.pendingOut
    ensures PendingOutOk(n.c, id, n.c.pendingOut[id]) && WithinLimits(n.c)
  {
    hide WellFormed, PendingOutOk, WithinLimits, RegistryOk, DistinctKeys, AllGone, EndedOnce;
  }

  lemma AcceptedKeeps(n: Node, id: FlowId, ep: Endpoint)
    requires NodeInv(n) && id in n.c.pendingOut && WellFormed(ep)
    requires var p := n.c.pendingOut[id]; p.key !in n.ep.flows && ep.flows == n.ep.flows[p.key := NewFlow(p.mode, p.policy)]
    ensures var p := n.c.pendingOut[id];
            var f := RegisteredFlow(p.key, p.mode, p.stableMax, NewAssociation(p.mode));
            NodeInv(n.(c := n.c.(pendingOut := n.c.pendingOut - {id}, reg := n.c.reg[id := f]), ep := ep))
  {
    hide NodeInv, WellFormed, WithinLimits, Gone, ActiveIds;
    var p := n.c.pendingOut[id];
    var f := RegisteredFlow(p.key, p.mode, p.stableMax, NewAssociation(p.mode));
    var taken := n.c.(pendingOut := n.c.pendingOut - {id});
    PendingFacts(n, id);
    AnsweredKeeps(n, id);
    GoneParts(taken, id);
    OneLessPending(n.c, id);
    RoomForOne(taken, id, f);
    EnterKeeps(n.(c := taken), ep, id, f);
  }

  lemma OneLessPending(c: Control, id: FlowId)
    requires WithinLimits(c) && id in c.pendingOut
    ensures var taken := c.(pendingOut := c.pendingOut - {id});
            WithinLimits(taken) && |ActiveIds(taken.reg, Outbound)| + |taken.pendingOut| < taken.peer.maxActiveIncoming
  {
    assert (c.pendingOut - {id}).Keys == c.pendingOut.Keys - {id};
  }

  lemma AcceptTakenKeeps(n: Node, id: FlowId)
    requires NodeInv(n)
    ensures var d := HandleAccept(n.c, n.ep, id);
            d.result.Ok? ==> NodeInv(Node(d.control, d.ep, n.retired + RetiredBy(d.result.value), n.ended + EndedBy(d.result.value)))
  {
    hide NodeInv, WellFormed, HandleAccept, Gone;
    if id in n.c.pendingOut {
      AcceptOutcomes(n, id);
      assert n.retired + {} == n.retired && n.ended + multiset{} == n.ended;
      var d := HandleAccept(n.c, n.ep, id);
      if d.result.Ok? && d.result.value.OutboundEstablished? {
        AcceptedKeeps(n, id, d.ep);
      } else if d.result.Ok? {
        AnsweredKeeps(n, id);
        NoteEnd(n.(c := d.control), id, {id});
      }
    } else {
      StrangeAnswer(n, id);
    }
  }

  lemma StrangeAnswer(n: Node, id: FlowId)
    requires id !in n.c.pendingOut
    ensures HandleAccept(n.c, n.ep, id).result.Err?
  {
  }

  lemma RejectTakenKeeps(n: Node, id: FlowId, reason: RejectReason)
    requires NodeInv(n)
    ensures var d := HandleReject(n.c, n.ep, id, reason);
            d.result.Ok? ==> NodeInv(n.(c := d.control, ep := d.ep)) && EndedBy(d.result.value) == multiset{} && RetiredBy(d.result.value) == {}
  {
    hide NodeInv;
    if id in n.c.pendingOut {
      AnsweredKeeps(n, id);
    }
  }

  /** A TERMINATE ends exactly its own registered flow; it fails only for an unknown FlowId or a normal
      end of a reliable flow, and then touches nothing. */
  lemma TerminateOutcomes(n: Node, id: FlowId, reason: TerminateReason)
    requires NodeInv(n)
    ensures var d := HandleTerminate(n.c, n.ep, id, reason);
            && (d.result.Ok? <==> id in n.c.reg && !(n.c.reg[id].mode.ReliableOrdered? && reason.Normal?))
            && (d.result.Ok? ==>
                  && d.result.value.RemoteTerminated? && d.result.value.flow.id == id
                  && d.control == n.c.(reg := n.c.reg - {id})
                  && WellFormed(d.ep) && d.ep.flows == n.ep.flows - {n.c.reg[id].key})
            && (d.result.Err? ==>
                  && d.result.error == (if id !in n.c.reg then UnknownActiveFlow(id) else ReliableNormalUsesFin(id))
                  && d.control == n.c && d.ep == n.ep)
  {
    hide WellFormed, Core.Terminate;
    if id in n.c.reg {
      assert RegisteredOk(n.c, n.ep, id, n.c.reg[id]);
      TerminateIsLocal(n.ep, n.c.reg[id].key, Requested);
      TerminateKeeps(n.ep, n.c.reg[id].key, Requested);
    }
  }

  lemma TakeKeeps(n: Node, m: ControlMsg)
    requires NodeInv(n) && Representable(m) && !Take(n, m).failed
    ensures NodeInv(Take(n, m).node)
  {
    hide NodeInv, HandleOpen, HandleAccept, HandleReject, HandleTerminate, ReceiveControl;
    TakeDecodes(n, m);
    assert n.retired + {} == n.retired && n.ended + multiset{} == n.ended;
    match m
    case Open(id, mode, max) => OpenTakenKeeps(n, id, mode, max);
    case Accept(id) => AcceptTakenKeeps(n, id);
    case Reject(id, reason) => RejectTakenKeeps(n, id, reason);
    case Terminate(id, reason) =>
      TerminateOutcomes(n, id, reason);
      if id in n.c.reg {
        RemoteEndKeeps(n, HandleTerminate(n.c, n.ep, id, reason).ep, id);
      }
  }

  // ---------------------------------------------------------------- local acts

  lemma AskedIsOk(c: Control, d: Control, id: FlowId, p: PendingOut)
    requires PendingOutOk(c, id, p) && d == c.(pendingOut := d.pendingOut)
    ensures PendingOutOk(d, id, p) && id !in c.reg && SideOf(id) == c.side
  {
  }

  lemma AskKeepsGone(c: Control, id: FlowId, p: PendingOut, ids: set<FlowId>, ended: multiset<FlowId>)
    requires AllGone(c, ids) && EndedOnce(c, ended) && id !in ids && id !in ended
    ensures AllGone(c.(pendingOut := c.pendingOut[id := p]), ids) && EndedOnce(c.(pendingOut := c.pendingOut[id := p]), ended)
  {
    hide Gone;
    var d := c.(pendingOut := c.pendingOut[id := p]);
    forall other | Gone(c, other) && other != id ensures Gone(d, other) {
      GoneParts(c, other);
      GoneStays(c, d, other);
    }
  }

  lemma AskKeepsPending(c: Control, id: FlowId, p: PendingOut)
    requires PendingOk(c) && PendingOutOk(c, id, p)
    ensures PendingOk(c.(pendingOut := c.pendingOut[id := p]))
  {
    hide PendingOutOk;
    var d := c.(pendingOut := c.pendingOut[id := p]);
    AskedIsOk(c, d, id, p);
    forall other | other in c.pendingOut ensures PendingOutOk(d, other, c.pendingOut[other]) {
      PendingOutStays(c, d, other);
    }
  }

  lemma AskKeepsLimits(c: Control, id: FlowId, p: PendingOut)
    requires WithinLimits(c) && id !in c.pendingOut && |ActiveIds(c.reg, Outbound)| + |c.pendingOut| < c.peer.maxActiveIncoming
    ensures WithinLimits(c.(pendingOut := c.pendingOut[id := p]))
  {
    hide ActiveIds;
    assert c.pendingOut[id := p].Keys == c.pendingOut.Keys + {id};
  }

  lemma AskKeeps(n: Node, id: FlowId, p: PendingOut)
    requires NodeInv(n) && PendingOutOk(n.c, id, p) && id !in n.c.pendingOut && id !in n.retired && id !in n.ended
    requires |ActiveIds(n.c.reg, Outbound)| + |n.c.pendingOut| < n.c.peer.maxActiveIncoming
    ensures NodeInv(n.(c := n.c.(pendingOut := n.c.pendingOut[id := p])))
  {
    hide WellFormed, DistinctKeys, PendingOutOk, RegistryOk, PendingOk, AllGone, EndedOnce, WithinLimits, ActiveIds;
    AskKeepsGone(n.c, id, p, n.retired, n.ended);
    AskKeepsPending(n.c, id, p);
    AskKeepsLimits(n.c, id, p);
    AnsweredRegistry(n.c, n.ep, n.c.(pendingOut := n.c.pendingOut[id := p]));
  }

  lemma OpenedOk(c: Control, ep: Endpoint, q: OpenRequest, datagram: Option<nat>)
    requires OpenRefusal(c, ep, q, datagram).None?
    ensures c.localNext.Some? && |ActiveIds(c.reg, Outbound)| + |c.pendingOut| < c.peer.maxActiveIncoming
    ensures q.key.connection == c.connection && q.key.direction.Outbound? && q.policy.ValidateFor(q.mode).None?
    ensures q.policy.maxMessageBytes == q.stableMax <= MAX_VARINT && q.stableMax <= c.peer.maxIncomingMessage
  {
  }

  lemma OpenKeeps(n: Node, q: OpenRequest, datagram: Option<nat>)
    requires NodeInv(n)
    ensures NodeInv(n.(c := PrepareOpen(n.c, n.ep, q, datagram).0))
  {
    hide NodeInv, OpenRefusal;
    if OpenRefusal(n.c, n.ep, q, datagram).None? {
      OpenedOk(n.c, n.ep, q, datagram);
      var s := n.c.localNext.value;
      var id := FlowIdOf(n.c.side, s);
      FlowIdParts(n.c.side, s);
      Fresh(n, id);
      var moved := n.c.(localNext := AfterSequence(s));
      AdvancedKeeps(n, moved);
      AskKeeps(n.(c := moved), id, PendingOut(q.key, q.mode, q.policy, q.limits, q.stableMax));
    }
  }

  lemma FlowIdParts(side: Side, sequence: nat)
    requires sequence <= MAX_FLOW_SEQUENCE
    ensures SideOf(FlowIdOf(side, sequence)) == side && SequenceOf(FlowIdOf(side, sequence)) == sequence
  {
  }

  /** Admitting the pending request either registers it under its own terms or refuses it. */
  lemma AdmitOutcomes(n: Node, q: PendingIn, a: Admission)
    requires NodeInv(n) && n.c.pendingIn == Some(q)
    ensures var d := AcceptPending(n.c, n.ep, q, a);
            var cleared := n.c.(pendingIn := None);
            var f := RegisteredFlow(a.key, q.mode, q.maxMessageBytes, NewAssociation(q.mode));
            && WellFormed(d.ep)
            && (d.result.Ok? ==>
                  || (d.result.value == AcceptedInbound(Established(q.id, a.key, q.mode, q.maxMessageBytes))
                      && d.control == cleared.(reg := cleared.reg[q.id := f])
                      && a.key.direction.Inbound? && |ActiveIds(n.c.reg, Inbound)| < n.c.local.maxActiveIncoming
                      && a.key !in n.ep.flows && d.ep.flows == n.ep.flows[a.key := NewFlow(q.mode, a.policy)])
                  || (d.result.value.RejectedInbound? && d.result.value.id == q.id && d.control == cleared && d.ep == n.ep))
            && (d.result.Err? ==> !d.result.error.RequestNotPending? && !d.result.error.AdmitRegistry? && !d.result.error.CoreRollback?)
  {
    hide WellFormed, Establish, Core.Terminate;
    EstablishIsLocal(n.ep, a.key, q.mode, a.policy, a.limits);
    EstablishKeeps(n.ep, a.key, q.mode, a.policy, a.limits);
    CapacityNeverHit(n);
  }

  /** The pending request is taken: its FlowId is known nowhere else. */
  lemma ClearedKeeps(n: Node)
    requires NodeInv(n) && n.c.pendingIn.Some?
    ensures var cleared := n.c.(pendingIn := None);
            && NodeInv(n.(c := cleared)) && Gone(cleared, n.c.pendingIn.value.id)
            && n.c.pendingIn.value.id !in n.retired && n.c.pendingIn.value.id !in n.ended
  {
    hide WellFormed, DistinctKeys, RegisteredOk;
    var id := n.c.pendingIn.value.id;
    var cleared := n.c.(pendingIn := None);
    assert id !in n.c.pendingOut by {
      assert id in n.c.pendingOut ==> PendingOutOk(n.c, id, n.c.pendingOut[id]);
    }
    assert id in n.ended ==> Gone(n.c, id);
    ShrinkKeepsPending(n.c, cleared);
    ShrinkKeepsGone(n.c, cleared, n.retired, n.ended);
    AnsweredRegistry(n.c, n.ep, cleared);
  }

  lemma AdmittedKeeps(n: Node, q: PendingIn, a: Admission, ep: Endpoint)
    requires NodeInv(n) && n.c.pendingIn == Some(q) && WellFormed(ep)
    requires a.key.direction.Inbound? && |ActiveIds(n.c.reg, Inbound)| < n.c.local.maxActiveIncoming
    requires a.key !in n.ep.flows && ep.flows == n.ep.flows[a.key := NewFlow(q.mode, a.policy)]
    ensures var f := RegisteredFlow(a.key, q.mode, q.maxMessageBytes, NewAssociation(q.mode));
            NodeInv(n.(c := n.c.(pendingIn := None, reg := n.c.reg[q.id := f]), ep := ep))
  {
    hide NodeInv, WellFormed, WithinLimits, Gone, ActiveIds;
    var f := RegisteredFlow(a.key, q.mode, q.maxMessageBytes, NewAssociation(q.mode));
    var cleared := n.c.(pendingIn := None);
    DecidingFacts(n);
    ClearedKeeps(n);
    ClearedLimits(n.c);
    RoomForOne(cleared, q.id, f);
    EnterKeeps(n.(c := cleared), ep, q.id, f);
  }

  lemma ClearedLimits(c: Control)
    requires WithinLimits(c)
    ensures WithinLimits(c.(pendingIn := None))
  {
    hide ActiveIds;
  }

  lemma DecidingFacts(n: Node)
    requires NodeInv(n) && n.c.pendingIn.Some?
    ensures WithinLimits(n.c) && SideOf(n.c.pendingIn.value.id) != n.c.side && SequenceOf(n.c.pendingIn.value.id) < Issued(n.c.peerNext)
    ensures n.c.pendingIn.value.id !in n.c.reg && n.c.pendingIn.value.id !in n.c.pendingOut
  {
    hide WellFormed, WithinLimits, RegistryOk, DistinctKeys, AllGone, EndedOnce;
    assert n.c.pendingIn.value.id in n.c.pendingOut ==> PendingOutOk(n.c, n.c.pendingIn.value.id, n.c.pendingOut[n.c.pendingIn.value.id]);
  }

  lemma AdmitKeeps(n: Node, q: PendingIn, a: Admission)
    requires NodeInv(n) && !Decide(n, AcceptPending(n.c, n.ep, q, a)).failed
    ensures NodeInv(Decide(n, AcceptPending(n.c, n.ep, q, a)).node)
  {
    hide NodeInv, WellFormed, AcceptPending, Gone;
    if n.c.pendingIn == Some(q) {
      AdmitOutcomes(n, q, a);
      ClearedKeeps(n);
      var d := AcceptPending(n.c, n.ep, q, a);
      if d.result.Ok? && d.result.value.AcceptedInbound? {
        AdmittedKeeps(n, q, a, d.ep);
      }
    } else {
      NotPending(n, q, a);
    }
  }

  lemma NotPending(n: Node, q: PendingIn, a: Admission)
    requires n.c.pendingIn != Some(q)
    ensures AcceptPending(n.c, n.ep, q, a) == Done(n.c, n.ep, Err(RequestNotPending))
  {
  }

  lemma RefuseKeeps(n: Node, q: PendingIn, reason: RejectReason)
    requires NodeInv(n)
    ensures NodeInv(Decide(n, RejectPending(n.c, n.ep, q, reason)).node)
  {
    hide NodeInv;
    if n.c.pendingIn == Some(q) {
      ClearedKeeps(n);
    }
  }

  lemma EndOutcomes(n: Node, id: FlowId, reason: TerminateReason)
    requires NodeInv(n)
    ensures var d := TerminateLocal(n.c, n.ep, id, reason);
            && (d.result.Ok? <==> id in n.c.reg && !(n.c.reg[id].mode.ReliableOrdered? && reason.Normal?))
            && (d.result.Ok? ==> WellFormed(d.ep) && d.ep.flows == n.ep.flows - {n.c.reg[id].key})
            && (d.result.Err? ==> d.control == n.c && d.ep == n.ep)
  {
    hide WellFormed, Core.Terminate;
    if id in n.c.reg {
      assert RegisteredOk(n.c, n.ep, id, n.c.reg[id]);
      TerminateIsLocal(n.ep, n.c.reg[id].key, Requested);
      TerminateKeeps(n.ep, n.c.reg[id].key, Requested);
    }
  }

  lemma EndKeeps(n: Node, id: FlowId, reason: TerminateReason)
    requires NodeInv(n)
    ensures NodeInv(EndOne(n, id, reason).node)
  {
    hide NodeInv, TerminateLocal;
    EndOutcomes(n, id, reason);
    if TerminateLocal(n.c, n.ep, id, reason).result.Ok? {
      RetireKeeps(n, TerminateLocal(n.c, n.ep, id, reason).ep, id);
    }
  }

  /** Binding a stream changes nothing but one flow's association. */
  lemma BoundShape(c: Control, id: FlowId, direction: Direction)
    ensures var d := Bound(c, id, direction);
            && d == c.(reg := d.reg) && d.reg.Keys == c.reg.Keys
            && (forall k :: k in c.reg ==> d.reg[k] == c.reg[k].(association := d.reg[k].association))
            && ActiveIds(d.reg, Outbound) == ActiveIds(c.reg, Outbound) && ActiveIds(d.reg, Inbound) == ActiveIds(c.reg, Inbound)
  {
  }

  lemma AssociateKeeps(n: Node, id: FlowId, direction: Direction)
    requires NodeInv(n)
    ensures NodeInv(n.(c := Bound(n.c, id, direction)))
  {
    hide WellFormed, Gone, RegisteredOk, PendingOutOk, ActiveIds, Bound;
    var d := Bound(n.c, id, direction);
    BoundShape(n.c, id, direction);
    forall other | Gone(n.c, other) ensures Gone(d, other) {
      GoneParts(n.c, other);
      GoneStays(n.c, d, other);
    }
    forall other | other in d.pendingOut ensures PendingOutOk(d, other, d.pendingOut[other]) {
      PendingOutStays(n.c, d, other);
    }
    forall other | other in d.reg ensures RegisteredOk(d, n.ep, other, d.reg[other]) {
      RegisteredAs(n.c, d, n.ep, other);
    }
  }

  lemma RegisteredAs(c: Control, d: Control, ep: Endpoint, id: FlowId)
    requires id in c.reg && RegisteredOk(c, ep, id, c.reg[id]) && id in d.reg && d == c.(reg := d.reg)
    requires d.reg[id] == c.reg[id].(association := d.reg[id].association)
    ensures RegisteredOk(d, ep, id, d.reg[id])
  {
  }

  lemma CoreEnds(n: Node, id: FlowId, reason: Reason)
    requires NodeInv(n) && id in n.c.reg
    ensures WellFormed(Core.Terminate(n.ep, n.c.reg[id].key, reason).0)
    ensures Core.Terminate(n.ep, n.c.reg[id].key, reason).0.flows == n.ep.flows - {n.c.reg[id].key}
    ensures n.c.reg[id].key in n.ep.flows && n.ep.flows[n.c.reg[id].key].mode == n.c.reg[id].mode
  {
    hide WellFormed, Core.Terminate;
    var key := n.c.reg[id].key;
    assert RegisteredOk(n.c, n.ep, id, n.c.reg[id]);
    TerminateIsLocal(n.ep, key, reason);
    TerminateKeeps(n.ep, key, reason);
  }

  lemma BindingCloseKeeps(n: Node, id: FlowId)
    requires NodeInv(n) && id in n.c.reg
    ensures NodeInv(CloseBinding(n, id).node)
  {
    hide NodeInv, WellFormed, Core.Terminate;
    CoreEnds(n, id, Requested);
    RetireKeeps(n, Core.Terminate(n.ep, n.c.reg[id].key, Requested).0, id);
  }

  /** A failing binding ends its flow with one report if the flow was still registered, else does nothing. */
  lemma BindingFailureKeeps(n: Node, id: FlowId, key: FlowKey, handled: bool, reason: TerminateReason)
    requires NodeInv(n) && Legal(n, BindingFails(id, key, handled, reason))
    ensures var after := Report(n, id, BindingFailure(n.c, n.ep, id, key, handled, reason));
            && !after.failed && NodeInv(after.node)
            && (id !in n.c.reg ==> after == NodeStep(n, None, false))
            && (id in n.c.reg ==>
                  && after.sent == Some(ControlMsg.Terminate(id, reason))
                  && after.node == Retire(n, after.node.ep, id))
  {
    hide NodeInv, WellFormed, Core.Terminate, BindingFailure;
    if id in n.c.reg {
      CoreEnds(n, id, Requested);
      CoreEnds(n, id, ReliableCustodyLost);
      BindingFailureOutcomes(n.c, n.ep, id, key, handled, reason);
      RetireKeeps(n, Core.Terminate(n.ep, key, if handled then ReliableCustodyLost else Requested).0, id);
    } else {
      BindingFailureOutcomes(n.c, n.ep, id, key, handled, reason);
    }
  }

  lemma FlowFailureKeeps(n: Node, id: FlowId, reason: TerminateReason)
    requires NodeInv(n) && Legal(n, FlowFails(id, reason))
    ensures var after := Report(n, id, FlowFailure(n.c, n.ep, id, reason));
            && !after.failed && NodeInv(after.node)
            && (id !in n.c.reg ==> after == NodeStep(n, None, false))
            && (id in n.c.reg ==>
                  && after.sent == Some(ControlMsg.Terminate(id, reason))
                  && after.node == Retire(n, after.node.ep, id))
  {
    hide NodeInv, WellFormed, Core.Terminate, FlowFailure;
    if id in n.c.reg {
      CoreEnds(n, id, Requested);
      FlowFailureOutcomes(n.c, n.ep, id, reason);
      RetireKeeps(n, Core.Terminate(n.ep, n.c.reg[id].key, Requested).0, id);
    } else {
      FlowFailureOutcomes(n.c, n.ep, id, reason);
    }
  }

  // ---------------------------------------------------------------- data and host operations

  ghost predicate OnlyEnds(ep: Endpoint, after: Endpoint, key: FlowKey) {
    && (key in after.flows ==> after.flows.Keys == ep.flows.Keys && forall k :: k in ep.flows ==> after.flows[k].mode == ep.flows[k].mode)
    && (key !in after.flows ==> after.flows == ep.flows - {key})
  }

  lemma ReliableArrivalIsLocal(ep: Endpoint, key: FlowKey, t: Transfer)
    requires key in ep.flows && ep.flows[key].receiver.Reliable?
    ensures OnlyEnds(ep, ReceiveReliable(ep, key, t).0, key)
  {
    hide HasRoom, Held, Populated, EvictionCount;
  }

  lemma UnreliableArrivalIsLocal(ep: Endpoint, key: FlowKey, t: Transfer)
    requires key in ep.flows && ep.flows[key].receiver.Unreliable?
    ensures OnlyEnds(ep, ReceiveUnreliable(ep, key, t).0, key)
  {
    hide HasRoom, Held, Populated, EvictionCount;
  }

  /** An arrival either leaves the set of live flows alone or ends exactly its own flow. */
  lemma ArrivalIsLocal(ep: Endpoint, key: FlowKey, index: u64, payload: seq<u8>)
    requires key in ep.flows
    ensures OnlyEnds(ep, ReceivePayload(ep, key, index, payload).0, key)
  {
    hide HasRoom, Held, Populated, EvictionCount, ReceiveReliable, ReceiveUnreliable;
    var t := Transfer(ep.flows[key].mode, index, payload);
    if ep.flows[key].receiver.Reliable? {
      ReliableArrivalIsLocal(ep, key, t);
    } else if ep.flows[key].receiver.Unreliable? {
      UnreliableArrivalIsLocal(ep, key, t);
    }
  }

  /** An arrival leaves the flow registered and live, or retires it with one report. */
  lemma ArrivalShape(n: Node, id: FlowId, index: u64, payload: seq<u8>, reason: TerminateReason)
    requires id in n.c.reg && !reason.Normal?
    ensures var key := n.c.reg[id].key;
            var after := ReceivePayload(n.ep, key, index, payload).0;
            Arrival(n, id, index, payload, reason)
            == if key in after.flows then NodeStep(n.(ep := after), None, false)
               else NodeStep(Retire(n, after, id), Some(ControlMsg.Terminate(id, reason)), false)
  {
    hide ReceivePayload, BindingFailure;
    var key := n.c.reg[id].key;
    var after := ReceivePayload(n.ep, key, index, payload).0;
    if key !in after.flows {
      BindingFailureOutcomes(n.c, after, id, key, true, reason);
    }
  }

  lemma LiveHere(n: Node, id: FlowId)
    requires NodeInv(n) && id in n.c.reg
    ensures WellFormed(n.ep) && n.c.reg[id].key in n.ep.flows
  {
    hide WellFormed;
    assert RegisteredOk(n.c, n.ep, id, n.c.reg[id]);
  }

  lemma ArrivalKeeps(n: Node, id: FlowId, index: u64, payload: seq<u8>, reason: TerminateReason)
    requires NodeInv(n) && id in n.c.reg && !reason.Normal?
    ensures NodeInv(Arrival(n, id, index, payload, reason).node) && !Arrival(n, id, index, payload, reason).failed
  {
    hide NodeInv, WellFormed, ReceivePayload, Arrival, Retire;
    ArrivalShape(n, id, index, payload, reason);
    var key := n.c.reg[id].key;
    LiveHere(n, id);
    ArrivalIsLocal(n.ep, key, index, payload);
    ApplyKeeps(n.ep, DoReceivePayload(key, index, payload));
    var after := ReceivePayload(n.ep, key, index, payload).0;
    if key in after.flows {
      LiveFlowsKeep(n, after);
    } else {
      RetireKeeps(n, after, id);
    }
  }

  lemma LiveFlowsKeep(n: Node, ep: Endpoint)
    requires NodeInv(n) && WellFormed(ep)
    requires forall id :: id in n.c.reg && n.c.reg[id].key in n.ep.flows ==>
               n.c.reg[id].key in ep.flows && ep.flows[n.c.reg[id].key].mode == n.ep.flows[n.c.reg[id].key].mode
    ensures NodeInv(n.(ep := ep))
  {
    hide WellFormed;
    forall id | id in n.c.reg ensures RegisteredOk(n.c, ep, id, n.c.reg[id]) {
      assert RegisteredOk(n.c, n.ep, id, n.c.reg[id]);
    }
  }

  lemma HostOpOnOwned(ep: Endpoint, op: Op)
    requires op.key in ep.flows && !op.DoTerminate? && !op.DoFailCustody? && !op.DoReceive? && !op.DoReceivePayload?
    ensures op.key in Apply(ep, op).flows && Apply(ep, op).flows[op.key].mode == ep.flows[op.key].mode
  {
    hide HasRoom, Held, EvictionCount, CoreInvariant.Run;
  }

  lemma HostKeeps(n: Node, op: Op)
    requires NodeInv(n) && Legal(n, HostActs(op))
    ensures NodeInv(n.(ep := Apply(n.ep, op)))
  {
    hide WellFormed, Apply;
    ApplyKeeps(n.ep, op);
    var after := Apply(n.ep, op);
    forall id | id in n.c.reg && n.c.reg[id].key in n.ep.flows
      ensures n.c.reg[id].key in after.flows && after.flows[n.c.reg[id].key].mode == n.ep.flows[n.c.reg[id].key].mode
    {
      if n.c.reg[id].key == op.key {
        HostOpOnOwned(n.ep, op);
      } else {
        OtherKeysUntouched(n.ep, op, n.c.reg[id].key);
      }
    }
    LiveFlowsKeep(n, after);
  }

  // ---------------------------------------------------------------- every run of one node

  lemma NodeKeeps(n: Node, act: Act)
    requires NodeInv(n) && Legal(n, act) && !NodeNext(n, act).failed
    ensures NodeInv(NodeNext(n, act).node)
  {
    hide NodeInv, PrepareOpen, Take, Decide, EndOne, Bound, CloseBinding, Report, BindingFailure, FlowFailure, Arrival, Apply, AcceptPending, RejectPending;
    match act
    case OpenOne(q, datagram) => OpenKeeps(n, q, datagram);
    case TakeFrame(m) => TakeKeeps(n, m);
    case Admit(q, a) => AdmitKeeps(n, q, a);
    case Refuse(q, reason) => RefuseKeeps(n, q, reason);
    case EndLocally(id, reason) => EndKeeps(n, id, reason);
    case AssociateStream(id, direction) => AssociateKeeps(n, id, direction);
    case BindingCloses(id) => BindingCloseKeeps(n, id);
    case BindingFails(id, key, handled, reason) => BindingFailureKeeps(n, id, key, handled, reason);
    case FlowFails(id, reason) => FlowFailureKeeps(n, id, reason);
    case DataArrives(id, index, payload, reason) => ArrivalKeeps(n, id, index, payload, reason);
    case HostActs(op) => HostKeeps(n, op);
  }

  ghost predicate NodeRun(n: Node, acts: seq<Act>, last: Node)
    decreases |acts|
  {
    if acts == [] then n == last
    else Legal(n, acts[0]) && !NodeNext(n, acts[0]).failed && NodeRun(NodeNext(n, acts[0]).node, acts[1..], last)
  }

  lemma {:induction false} NodeRunKeeps(n: Node, acts: seq<Act>, last: Node)
    requires NodeInv(n) && NodeRun(n, acts, last)
    ensures NodeInv(last)
    decreases |acts|
  {
    hide NodeInv, NodeNext, Legal;
    if acts != [] {
      NodeKeeps(n, acts[0]);
      NodeRunKeeps(NodeNext(n, acts[0]).node, acts[1..], last);
    }
  }

  /** Over every error-free run, whatever the peer sends: the flow limits hold, every registered FlowId
      has a live Core flow of its own mode, and no FlowId is ever reported terminated twice. */
  lemma EveryNodeRun(connection: u64, side: Side, local: Settings, peer: Settings, ep: Endpoint, acts: seq<Act>, last: Node)
    requires WellFormed(ep) && NodeRun(NewNode(connection, side, local, peer, ep), acts, last)
    ensures |ActiveIds(last.c.reg, Outbound)| + |last.c.pendingOut| <= last.c.peer.maxActiveIncoming
    ensures |ActiveIds(last.c.reg, Inbound)| <= last.c.local.maxActiveIncoming
    ensures forall id :: id in last.c.reg ==> last.c.reg[id].key in last.ep.flows && last.ep.flows[last.c.reg[id].key].mode == last.c.reg[id].mode
    ensures forall id :: last.ended[id] <= 1
    ensures forall id :: id in last.ended ==> id !in last.c.reg && id !in last.c.pendingOut
  {
    hide WellFormed, NodeRun;
    NewNodeHolds(connection, side, local, peer, ep);
    NodeRunKeeps(NewNode(connection, side, local, peer, ep), acts, last);
    forall id | id in last.c.reg ensures last.c.reg[id].key in last.ep.flows && last.ep.flows[last.c.reg[id].key].mode == last.c.reg[id].mode {
      assert RegisteredOk(last.c, last.ep, id, last.c.reg[id]);
    }
  }
}
