/** The invariant of the delivery core and its preservation by every operation and every run. */
module CoreInvariant {
  import opened Basics
  import opened Delivery
  import opened Core

  // ---------------------------------------------------------------- one flow

  /** The outbound queue holds consecutive indices that end just below the next one to be given. */
  ghost predicate QueueOk(f: Flow) {
    && |f.outbound| <= Count(f.nextIndex)
    && forall j :: 0 <= j < |f.outbound| ==>
         && f.outbound[j].index == Count(f.nextIndex) - |f.outbound| + j
         && f.outbound[j].mode == f.mode
         && |f.outbound[j].payload| <= f.policy.maxMessageBytes
  }

  /** Buffered reliable messages sit at their own index, never below the next exposure; unreliable
      entries carry the flow's mode. */
  ghost predicate ReceiverOk(f: Flow) {
    match f.receiver
    case Reliable(byIndex, next) =>
      && f.mode.ReliableOrdered?
      && forall i :: i in byIndex ==>
           && Count(next) <= i && byIndex[i].index == i && byIndex[i].mode == f.mode
           && |byIndex[i].payload| <= f.policy.maxMessageBytes
    case Unreliable(queue, _) =>
      && !f.mode.ReliableOrdered?
      && forall j :: 0 <= j < |queue| ==> queue[j].mode == f.mode && |queue[j].payload| <= f.policy.maxMessageBytes
  }

  ghost predicate FlowOk(k: FlowKey, f: Flow) {
    && f.policy.ValidateFor(f.mode).None?
    && Held(f).messages <= f.policy.maxPendingMessages
    && Held(f).bytes <= f.policy.maxPendingBytes
    && QueueOk(f) && ReceiverOk(f)
    && (k.direction.Outbound? ==> f.receiver == NewReceiver(f.mode))
    && (k.direction.Inbound? ==> f.outbound == [] && f.nextIndex == Some(0))
  }

  // ---------------------------------------------------------------- all scopes

  /** A scope other than the aggregate exists exactly when a live flow is in it, and what its flows
      hold is within its limits. */
  ghost predicate ScopeOk(ep: Endpoint, sc: Scope) {
    && (LimitsOf(ep, sc).Some? <==> sc.Aggregate? || Populated(sc, ep.flows))
    && (LimitsOf(ep, sc).Some? ==> Load(sc, ep.flows).Within(LimitsOf(ep, sc).value))
  }

  ghost predicate WellFormed(ep: Endpoint) {
    && (forall sc :: ScopeOk(ep, sc))
    && (forall k :: k in ep.flows ==> FlowOk(k, ep.flows[k]))
  }

  // ---------------------------------------------------------------- replacing one flow

  /** The two ways an operation may change what one flow holds. */
  ghost predicate Bounded(ep: Endpoint, key: FlowKey, f: Flow)
    requires key in ep.flows
  {
    var was, now := Held(ep.flows[key]), Held(f);
    || (now.messages <= was.messages && now.bytes <= was.bytes)
    || (exists bytes :: now == Plus(was, Usage(0, 1, bytes)) && HasRoom(ep, key, bytes))
  }

  lemma SetFlowPopulates(ep: Endpoint, key: FlowKey, f: Flow, sc: Scope)
    requires key in ep.flows && f.session == ep.flows[key].session
    ensures Populated(sc, SetFlow(ep, key, f).flows) <==> Populated(sc, ep.flows)
  {
    var flows := SetFlow(ep, key, f).flows;
    if Populated(sc, ep.flows) {
      var k :| k in ep.flows && InScope(sc, k, ep.flows[k]);
      assert k in flows && InScope(sc, k, flows[k]);
    }
    if Populated(sc, flows) {
      var k :| k in flows && InScope(sc, k, flows[k]);
      assert k in ep.flows && InScope(sc, k, ep.flows[k]);
    }
  }

  lemma SetFlowScope(ep: Endpoint, key: FlowKey, f: Flow, sc: Scope)
    requires WellFormed(ep) && key in ep.flows && f.session == ep.flows[key].session
    requires Bounded(ep, key, f)
    ensures ScopeOk(SetFlow(ep, key, f), sc)
  {
    hide Load, Populated, Held;
    assert ScopeOk(ep, sc);
    SetFlowPopulates(ep, key, f, sc);
    LoadReplace(sc, ep.flows, key, f);
    assert InScope(sc, key, f) <==> InScope(sc, key, ep.flows[key]);
    assert Held(f).flows == Held(ep.flows[key]).flows by {
      assert Held(f).flows == 1 == Held(ep.flows[key]).flows by { HeldIsOneFlow(f); HeldIsOneFlow(ep.flows[key]); }
    }
  }

  lemma HeldIsOneFlow(f: Flow)
    ensures Held(f).flows == 1
  {
  }

  /** Replacing one flow by a well-formed one that holds no more, or one admitted message more,
      keeps the whole endpoint well-formed. */
  lemma SetFlowKeeps(ep: Endpoint, key: FlowKey, f: Flow)
    requires WellFormed(ep) && key in ep.flows && f.session == ep.flows[key].session
    requires Bounded(ep, key, f) && FlowOk(key, f)
    ensures WellFormed(SetFlow(ep, key, f))
  {
    hide FlowOk, ScopeOk, Bounded;
    forall sc ensures ScopeOk(SetFlow(ep, key, f), sc) {
      SetFlowScope(ep, key, f, sc);
    }
  }

  lemma DiagnosticsAreInert(ep: Endpoint, d: Diagnostics)
    ensures WellFormed(ep.(diagnostics := d)) <==> WellFormed(ep)
  {
    hide FlowOk, Load, Populated;
    if WellFormed(ep.(diagnostics := d)) {
      forall sc ensures ScopeOk(ep, sc) { assert ScopeOk(ep.(diagnostics := d), sc); }
    }
    if WellFormed(ep) {
      forall sc ensures ScopeOk(ep.(diagnostics := d), sc) { assert ScopeOk(ep, sc); }
    }
  }

  // ---------------------------------------------------------------- establishing

  lemma InsertPopulates(ep: Endpoint, key: FlowKey, f: Flow, sc: Scope)
    requires key !in ep.flows
    ensures Populated(sc, ep.flows[key := f]) <==> Populated(sc, ep.flows) || InScope(sc, key, f)
  {
    PopulatedWithout(sc, ep.flows[key := f], key);
    assert ep.flows[key := f] - {key} == ep.flows;
  }

  /** An empty flow adds one flow, and nothing else, to each scope it is in. */
  lemma EmptyFlowLoad(sc: Scope, flows: map<FlowKey, Flow>, key: FlowKey, f: Flow)
    requires key !in flows && Held(f) == Usage(1, 0, 0)
    ensures var before := Load(sc, flows);
            Load(sc, flows[key := f]) == if InScope(sc, key, f) then Usage(before.flows + 1, before.messages, before.bytes) else before
  {
    hide Load, Held;
    LoadInsert(sc, flows, key, f);
  }

  lemma EstablishedShape(ep: Endpoint, key: FlowKey, mode: Mode, policy: Policy, limits: Limits)
    requires Establish(ep, key, mode, policy, limits).1.Ok?
    ensures Establish(ep, key, mode, policy, limits).0
            == ep.(flows := ep.flows[key := NewFlow(mode, policy)], connections := ep.connections[key.connection := limits])
    ensures key !in ep.flows && Load(Aggregate, ep.flows).flows + 1 <= ep.aggregate.maxFlows
    ensures key.connection in ep.connections ==> ep.connections[key.connection] == limits
    ensures Load(OfConnection(key.connection), ep.flows).flows + 1 <= limits.maxFlows
  {
    hide Load, NewFlow;
  }

  /** A scope with room for one more flow takes an empty one. */
  lemma EmptyFlowScope(ep: Endpoint, key: FlowKey, f: Flow, limits: Limits, sc: Scope)
    requires ScopeOk(ep, sc) && key !in ep.flows && Held(f) == Usage(1, 0, 0) && f.session.None?
    requires Load(Aggregate, ep.flows).flows + 1 <= ep.aggregate.maxFlows && Load(OfConnection(key.connection), ep.flows).flows + 1 <= limits.maxFlows
    requires key.connection in ep.connections ==> ep.connections[key.connection] == limits
    ensures ScopeOk(ep.(flows := ep.flows[key := f], connections := ep.connections[key.connection := limits]), sc)
  {
    hide Load, Populated, Held;
    EmptyFlowLoad(sc, ep.flows, key, f);
    InsertPopulates(ep, key, f, sc);
    if sc == OfConnection(key.connection) && key.connection !in ep.connections {
      EmptyScope(sc, ep.flows);
    }
  }

  lemma EstablishScope(ep: Endpoint, key: FlowKey, mode: Mode, policy: Policy, limits: Limits, sc: Scope)
    requires ScopeOk(ep, sc) && Establish(ep, key, mode, policy, limits).1.Ok?
    ensures ScopeOk(Establish(ep, key, mode, policy, limits).0, sc)
  {
    hide *;
    EstablishedShape(ep, key, mode, policy, limits);
    NewFlowHolds(mode, policy);
    EmptyFlowScope(ep, key, NewFlow(mode, policy), limits, sc);
  }

  lemma NewFlowHolds(mode: Mode, policy: Policy)
    ensures Held(NewFlow(mode, policy)) == Usage(1, 0, 0) && NewFlow(mode, policy).session == None
  {
  }

  lemma {:induction false} EmptyScope(sc: Scope, flows: map<FlowKey, Flow>)
    requires !Populated(sc, flows)
    ensures Load(sc, flows) == NoUsage
    decreases |flows|
  {
    hide *;
    if flows == map[] {
      LoadOfNothing(sc);
    } else {
      var k :| k in flows;
      var rest := flows - {k};
      assert rest.Keys == flows.Keys - {k};
      PopulatedWithout(sc, flows, k);
      EmptyScope(sc, rest);
      LoadRemove(sc, flows, k);
      OutsideShare(sc, k, flows[k]);
    }
  }

  lemma OutsideShare(sc: Scope, k: FlowKey, f: Flow)
    requires !InScope(sc, k, f)
    ensures forall u :: Plus(Share(sc, k, f), u) == u
  {
  }

  lemma EstablishKeeps(ep: Endpoint, key: FlowKey, mode: Mode, policy: Policy, limits: Limits)
    requires WellFormed(ep)
    ensures WellFormed(Establish(ep, key, mode, policy, limits).0)
  {
    hide ScopeOk, Load;
    if Establish(ep, key, mode, policy, limits).1.Ok? {
      forall sc ensures ScopeOk(Establish(ep, key, mode, policy, limits).0, sc) {
        EstablishScope(ep, key, mode, policy, limits, sc);
      }
    }
  }

  // ---------------------------------------------------------------- associating

  lemma AssociateScope(ep: Endpoint, key: FlowKey, session: nat, limits: Limits, sc: Scope)
    requires WellFormed(ep) && Associate(ep, key, session, true, limits).1 == Ok(Associated)
    ensures ScopeOk(Associate(ep, key, session, true, limits).0, sc)
  {
    hide Load, Populated, FlowOk, Held;
    var f := ep.flows[key];
    var g := f.(session := Some(session));
    assert Held(g) == Held(f) by { SessionIsWeightless(f, Some(session)); }
    assert ScopeOk(ep, sc);
    assert ep.flows[key := g] - {key} == ep.flows - {key};
    PopulatedWithout(sc, ep.flows, key);
    PopulatedWithout(sc, ep.flows[key := g], key);
    LoadReplace(sc, ep.flows, key, g);
  }

  lemma SessionIsWeightless(f: Flow, session: Option<nat>)
    ensures Held(f.(session := session)) == Held(f)
  {
  }

  lemma SessionKeepsFlow(key: FlowKey, f: Flow, session: Option<nat>)
    requires FlowOk(key, f)
    ensures FlowOk(key, f.(session := session))
  {
    SessionIsWeightless(f, session);
  }

  lemma AssociateKeeps(ep: Endpoint, key: FlowKey, session: nat, open: bool, limits: Limits)
    requires WellFormed(ep)
    ensures WellFormed(Associate(ep, key, session, open, limits).0)
  {
    hide FlowOk, ScopeOk, Held, Load;
    if Associate(ep, key, session, open, limits).1 == Ok(Associated) {
      forall sc ensures ScopeOk(Associate(ep, key, session, open, limits).0, sc) {
        AssociateScope(ep, key, session, limits, sc);
      }
      SessionKeepsFlow(key, ep.flows[key], Some(session));
    }
  }

  // ---------------------------------------------------------------- terminating

  lemma TerminateScope(ep: Endpoint, key: FlowKey, reason: Reason, sc: Scope)
    requires WellFormed(ep) && key in ep.flows
    ensures ScopeOk(Terminate(ep, key, reason).0, sc)
  {
    hide Load, Populated, FlowOk, Held;
    assert ScopeOk(ep, sc);
    LoadRemove(sc, ep.flows, key);
    PopulatedWithout(sc, ep.flows, key);
  }

  lemma TerminateKeeps(ep: Endpoint, key: FlowKey, reason: Reason)
    requires WellFormed(ep)
    ensures WellFormed(Terminate(ep, key, reason).0)
  {
    hide FlowOk;
    if key in ep.flows {
      forall sc ensures ScopeOk(Terminate(ep, key, reason).0, sc) {
        TerminateScope(ep, key, reason, sc);
      }
    }
  }

  // ---------------------------------------------------------------- evicting and submitting

  lemma WithoutOldestOk(key: FlowKey, f: Flow, n: nat)
    requires FlowOk(key, f) && n <= |Backlog(key, f)|
    ensures FlowOk(key, WithoutOldest(key, f, n))
    ensures Held(WithoutOldest(key, f, n)).messages == Held(f).messages - n
    ensures Held(WithoutOldest(key, f, n)).bytes == Held(f).bytes - QueueBytes(Backlog(key, f)[..n])
  {
    hide QueueBytes, BufferBytes;
    QueueDrop(Backlog(key, f), n);
  }

  lemma EvictKeeps(ep: Endpoint, key: FlowKey, n: nat)
    requires WellFormed(ep) && key in ep.flows && n <= |Backlog(key, ep.flows[key])|
    ensures WellFormed(Evict(ep, key, n))
  {
    hide FlowOk, Held, ScopeOk;
    WithoutOldestOk(key, ep.flows[key], n);
    SetFlowKeeps(ep, key, WithoutOldest(key, ep.flows[key], n));
  }

  lemma EnqueueOk(key: FlowKey, f: Flow, i: u64, payload: seq<u8>)
    requires FlowOk(key, f) && key.direction.Outbound? && f.nextIndex == Some(i)
    requires |payload| <= f.policy.maxMessageBytes
    requires Held(f).messages + 1 <= f.policy.maxPendingMessages && Held(f).bytes + |payload| <= f.policy.maxPendingBytes
    ensures var g := f.(nextIndex := Next(i), outbound := f.outbound + [Transfer(f.mode, i, payload)]);
            FlowOk(key, g) && Held(g) == Plus(Held(f), Usage(0, 1, |payload|))
  {
    hide QueueBytes, BufferBytes;
    QueuePush(f.outbound, Transfer(f.mode, i, payload));
  }

  lemma EnqueueKeeps(ep: Endpoint, key: FlowKey, i: u64, payload: seq<u8>)
    requires WellFormed(ep) && key in ep.flows && key.direction.Outbound?
    requires ep.flows[key].nextIndex == Some(i) && |payload| <= ep.flows[key].policy.maxMessageBytes
    requires HasRoom(ep, key, |payload|)
    ensures WellFormed(Enqueue(ep, key, i, payload))
  {
    hide FlowOk, Held, ScopeOk, ScopeHasRoom;
    var f := ep.flows[key];
    EnqueueOk(key, f, i, payload);
    SetFlowKeeps(ep, key, f.(nextIndex := Next(i), outbound := f.outbound + [Transfer(f.mode, i, payload)]));
  }

  lemma SubmitKeeps(ep: Endpoint, key: FlowKey, payload: seq<u8>)
    requires WellFormed(ep)
    ensures WellFormed(Submit(ep, key, payload).0)
  {
    hide WellFormed, HasRoom, EvictionCount;
    var (after, outcome) := Submit(ep, key, payload);
    if outcome.Ok? && outcome.value.Accepted? {
      var i := ep.flows[key].nextIndex.value;
      if HasRoom(ep, key, |payload|) {
        EnqueueKeeps(ep, key, i, payload);
      } else {
        var n := EvictionCount(ep, key, |payload|, 0);
        EvictKeeps(ep, key, n);
        EnqueueKeeps(Evict(ep, key, n), key, i, payload);
        DiagnosticsAreInert(Enqueue(Evict(ep, key, n), key, i, payload), after.diagnostics);
      }
    } else if outcome == Ok(RejectedPressure) && after != ep {
      EvictKeeps(ep, key, EvictionCount(ep, key, |payload|, 0));
    }
  }

  lemma CommitKeeps(ep: Endpoint, key: FlowKey, index: u64)
    requires WellFormed(ep)
    ensures WellFormed(Commit(ep, key, index).0)
  {
    hide WellFormed;
    if Commit(ep, key, index).1.Ok? {
      EvictKeeps(ep, key, 1);
    }
  }

  // ---------------------------------------------------------------- receiving

  lemma BufferOk(key: FlowKey, f: Flow, t: Transfer)
    requires FlowOk(key, f) && key.direction.Inbound? && f.receiver.Reliable?
    requires t.index !in f.receiver.byIndex && Count(f.receiver.nextExposure) <= t.index
    requires t.mode == f.mode && |t.payload| <= f.policy.maxMessageBytes
    requires Held(f).messages + 1 <= f.policy.maxPendingMessages && Held(f).bytes + |t.payload| <= f.policy.maxPendingBytes
    ensures var g := f.(receiver := f.receiver.(byIndex := f.receiver.byIndex[t.index := t]));
            FlowOk(key, g) && Held(g) == Plus(Held(f), Usage(0, 1, |t.payload|))
  {
    hide QueueBytes, BufferBytes;
    BufferInsert(f.receiver.byIndex, t.index, t);
  }

  lemma ReceiveReliableKeeps(ep: Endpoint, key: FlowKey, t: Transfer)
    requires WellFormed(ep) && key in ep.flows && key.direction.Inbound? && ep.flows[key].receiver.Reliable?
    requires t.mode == ep.flows[key].mode && |t.payload| <= ep.flows[key].policy.maxMessageBytes
    ensures WellFormed(ReceiveReliable(ep, key, t).0)
  {
    hide FlowOk, Held, ScopeOk, ScopeHasRoom, Terminate;
    var f := ep.flows[key];
    var (after, outcome) := ReceiveReliable(ep, key, t);
    match outcome {
      case Buffered(_) =>
        BufferOk(key, f, t);
        SetFlowKeeps(ep, key, f.(receiver := f.receiver.(byIndex := f.receiver.byIndex[t.index := t])));
      case DuplicateReliable => DiagnosticsAreInert(ep, after.diagnostics);
      case _ =>
        TerminateKeeps(ep, key, ReliableTransferConflict);
        TerminateKeeps(ep, key, ReliableReceiverPressure);
    }
  }

  lemma PushOk(key: FlowKey, f: Flow, t: Transfer)
    requires FlowOk(key, f) && key.direction.Inbound? && f.receiver.Unreliable?
    requires t.mode == f.mode && |t.payload| <= f.policy.maxMessageBytes
    requires Held(f).messages + 1 <= f.policy.maxPendingMessages && Held(f).bytes + |t.payload| <= f.policy.maxPendingBytes
    ensures var g := f.(receiver := f.receiver.(queue := f.receiver.queue + [t]));
            FlowOk(key, g) && Held(g) == Plus(Held(f), Usage(0, 1, |t.payload|))
  {
    hide QueueBytes, BufferBytes;
    QueuePush(f.receiver.queue, t);
  }

  lemma PushKeeps(ep: Endpoint, key: FlowKey, t: Transfer)
    requires WellFormed(ep) && key in ep.flows && key.direction.Inbound? && ep.flows[key].receiver.Unreliable?
    requires t.mode == ep.flows[key].mode && |t.payload| <= ep.flows[key].policy.maxMessageBytes
    requires HasRoom(ep, key, |t.payload|)
    ensures WellFormed(PushQueue(ep, key, t))
  {
    hide FlowOk, Held, ScopeOk, ScopeHasRoom;
    var f := ep.flows[key];
    PushOk(key, f, t);
    SetFlowKeeps(ep, key, f.(receiver := f.receiver.(queue := f.receiver.queue + [t])));
  }

  lemma ReceiveUnreliableKeeps(ep: Endpoint, key: FlowKey, t: Transfer)
    requires WellFormed(ep) && key in ep.flows && key.direction.Inbound? && ep.flows[key].receiver.Unreliable?
    requires t.mode == ep.flows[key].mode && |t.payload| <= ep.flows[key].policy.maxMessageBytes
    ensures WellFormed(ReceiveUnreliable(ep, key, t).0)
  {
    hide WellFormed, HasRoom, EvictionCount;
    var (after, outcome) := ReceiveUnreliable(ep, key, t);
    var f := ep.flows[key];
    var d := after.diagnostics;
    DiagnosticsAreInert(ep, d);
    if !outcome.StaleSequenced? {
      if HasRoom(ep, key, |t.payload|) {
        PushKeeps(ep, key, t);
      } else if !f.policy.receiverPressure.DropIncoming? {
        var trimmed := Evict(ep, key, EvictionCount(ep, key, |t.payload|, 0));
        EvictKeeps(ep, key, EvictionCount(ep, key, |t.payload|, 0));
        DiagnosticsAreInert(trimmed, d);
        if HasRoom(trimmed, key, |t.payload|) {
          PushKeeps(trimmed, key, t);
          DiagnosticsAreInert(PushQueue(trimmed, key, t), d);
        }
      }
    }
  }

  lemma ReceiveKeeps(ep: Endpoint, key: FlowKey, t: Transfer)
    requires WellFormed(ep)
    ensures WellFormed(Receive(ep, key, t).0)
  {
    hide ReceiveReliable, ReceiveUnreliable, Terminate;
    if key.direction.Inbound? && key in ep.flows {
      TerminateKeeps(ep, key, ReliableModeMismatch);
      TerminateKeeps(ep, key, ReliableInboundTooLarge);
      if t.mode == ep.flows[key].mode && |t.payload| <= ep.flows[key].policy.maxMessageBytes {
        if ep.flows[key].receiver.Reliable? {
          ReceiveReliableKeeps(ep, key, t);
        } else {
          ReceiveUnreliableKeeps(ep, key, t);
        }
      }
    }
  }

  // ---------------------------------------------------------------- exposing

  lemma ExposeOk(key: FlowKey, f: Flow)
    requires FlowOk(key, f) && key.direction.Inbound?
    ensures var g := ExposeFlow(f).0;
            && FlowOk(key, g) && g.session == f.session
            && Held(g).messages <= Held(f).messages && Held(g).bytes <= Held(f).bytes
  {
    hide QueueBytes, BufferBytes;
    if f.receiver.Reliable? {
      ExposeReliableOk(key, f);
    } else if f.mode.UnreliableSequenced? {
      ExposeSequencedOk(key, f);
    } else if f.receiver.queue != [] {
      QueueDrop(f.receiver.queue, 1);
    }
  }

  lemma ExposeReliableOk(key: FlowKey, f: Flow)
    requires FlowOk(key, f) && key.direction.Inbound? && f.receiver.Reliable?
    ensures var g := ExposeReliable(f).0;
            FlowOk(key, g) && Held(g).messages <= Held(f).messages && Held(g).bytes <= Held(f).bytes
  {
    hide QueueBytes, BufferBytes;
    var Reliable(byIndex, next) := f.receiver;
    if next.Some? && next.value in byIndex {
      BufferDrop(byIndex, next.value);
    }
  }

  lemma ExposeSequencedOk(key: FlowKey, f: Flow)
    requires FlowOk(key, f) && key.direction.Inbound? && f.receiver.Unreliable?
    ensures var g := ExposeSequenced(f).0;
            FlowOk(key, g) && Held(g).messages <= Held(f).messages && Held(g).bytes <= Held(f).bytes
  {
    hide QueueBytes;
    var Unreliable(queue, last) := f.receiver;
    EmptyQueue();
    QueueDrop(queue, Min(StalePrefix(queue, last) + 1, |queue|));
  }

  lemma EmptyQueue()
    ensures QueueBytes([]) == 0
  {
  }

  lemma ExposeKeeps(ep: Endpoint, key: FlowKey)
    requires WellFormed(ep)
    ensures WellFormed(Expose(ep, key).0)
  {
    hide FlowOk, Held, ScopeOk, ExposeFlow, SkippedBy;
    if key.direction.Inbound? && key in ep.flows {
      var f := ep.flows[key];
      ExposeOk(key, f);
      SetFlowKeeps(ep, key, ExposeFlow(f).0);
      DiagnosticsAreInert(SetFlow(ep, key, ExposeFlow(f).0), Expose(ep, key).0.diagnostics);
    }
  }

  // ---------------------------------------------------------------- every run

  datatype Op =
    | DoEstablish(key: FlowKey, mode: Mode, policy: Policy, limits: Limits)
    | DoAssociate(key: FlowKey, session: nat, open: bool, limits: Limits)
    | DoSubmit(key: FlowKey, payload: seq<u8>)
    | DoCommit(key: FlowKey, index: u64)
    | DoReceive(key: FlowKey, transfer: Transfer)
    | DoReceivePayload(key: FlowKey, index: u64, payload: seq<u8>)
    | DoExpose(key: FlowKey)
    | DoTerminate(key: FlowKey, reason: Reason)
    | DoFailCustody(key: FlowKey)

  ghost function Apply(ep: Endpoint, op: Op): Endpoint {
    match op
    case DoEstablish(key, mode, policy, limits) => Establish(ep, key, mode, policy, limits).0
    case DoAssociate(key, session, open, limits) => Associate(ep, key, session, open, limits).0
    case DoSubmit(key, payload) => Submit(ep, key, payload).0
    case DoCommit(key, index) => Commit(ep, key, index).0
    case DoReceive(key, t) => Receive(ep, key, t).0
    case DoReceivePayload(key, index, payload) => ReceivePayload(ep, key, index, payload).0
    case DoExpose(key) => Expose(ep, key).0
    case DoTerminate(key, reason) => Terminate(ep, key, reason).0
    case DoFailCustody(key) => FailCustody(ep, key).0
  }

  ghost function Run(ep: Endpoint, ops: seq<Op>): Endpoint {
    if ops == [] then ep else Apply(Run(ep, ops[..|ops| - 1]), ops[|ops| - 1])
  }

  lemma ApplyKeeps(ep: Endpoint, op: Op)
    requires WellFormed(ep)
    ensures WellFormed(Apply(ep, op))
  {
    hide WellFormed, Establish, Associate, Submit, Commit, Receive, Expose, Terminate;
    match op
    case DoEstablish(key, mode, policy, limits) => EstablishKeeps(ep, key, mode, policy, limits);
    case DoAssociate(key, session, open, limits) => AssociateKeeps(ep, key, session, open, limits);
    case DoSubmit(key, payload) => SubmitKeeps(ep, key, payload);
    case DoCommit(key, index) => CommitKeeps(ep, key, index);
    case DoReceive(key, t) => ReceiveKeeps(ep, key, t);
    case DoReceivePayload(key, index, payload) =>
      if key in ep.flows {
        ReceiveKeeps(ep, key, Transfer(ep.flows[key].mode, index, payload));
      }
    case DoExpose(key) => ExposeKeeps(ep, key);
    case DoTerminate(key, reason) => TerminateKeeps(ep, key, reason);
    case DoFailCustody(key) => TerminateKeeps(ep, key, ReliableCustodyLost);
  }

  /** Every endpoint reached from a fresh one by any operations is well-formed. */
  lemma {:induction false} EveryRunIsWellFormed(aggregate: Limits, ops: seq<Op>)
    ensures WellFormed(Run(NewEndpoint(aggregate), ops))
  {
    if ops == [] {
      forall sc ensures ScopeOk(NewEndpoint(aggregate), sc) {
        LoadOfNothing(sc);
      }
    } else {
      EveryRunIsWellFormed(aggregate, ops[..|ops| - 1]);
      ApplyKeeps(Run(NewEndpoint(aggregate), ops[..|ops| - 1]), ops[|ops| - 1]);
    }
  }
}
