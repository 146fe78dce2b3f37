/** The counters the endpoint keeps: one usage record per scope and two per flow. `Balanced` says
    they equal the sums that module Core recomputes from the live flows. */
module Books {
  import opened Basics
  import opened Delivery
  import opened Core
  import opened CoreInvariant

  datatype ScopeState = ScopeState(limits: Limits, usage: Usage)

  datatype FlowState = FlowState(flow: Flow, pendingMessages: nat, pendingBytes: nat)

  datatype Ledger = Ledger(aggregate: ScopeState, connections: map<u64, ScopeState>, sessions: map<nat, ScopeState>,
                           flows: map<FlowKey, FlowState>)

  /** `checked_add` followed by the comparison with a limit. */
  predicate Fits(current: nat, more: nat, limit: nonzero) {
    current + more <= U64_MAX && current + more <= limit
  }

  predicate CanAdd(u: Usage, l: Limits, flows: nat, messages: nat, bytes: nat) {
    Fits(u.flows, flows, l.maxFlows) && Fits(u.messages, messages, l.maxMessages) && Fits(u.bytes, bytes, l.maxBytes)
  }

  /** Neither a checked addition nor an unchecked subtraction may leave the machine range. */
  predicate CanShift(u: Usage, flows: int, messages: int, bytes: int) {
    && 0 <= u.flows + flows <= U64_MAX && 0 <= u.messages + messages <= U64_MAX && 0 <= u.bytes + bytes <= U64_MAX
  }

  function Shift(u: Usage, flows: int, messages: int, bytes: int): Usage
    requires CanShift(u, flows, messages, bytes)
  {
    Usage(u.flows + flows, u.messages + messages, u.bytes + bytes)
  }

  function Account(b: Ledger, sc: Scope): Option<ScopeState> {
    match sc
    case Aggregate => Some(b.aggregate)
    case OfConnection(c) => if c in b.connections then Some(b.connections[c]) else None
    case OfSession(s) => if s in b.sessions then Some(b.sessions[s]) else None
  }

  ghost predicate AccountOk(b: Ledger, ep: Endpoint, sc: Scope) {
    Account(b, sc) == match LimitsOf(ep, sc)
                      case None => None
                      case Some(l) => Some(ScopeState(l, Load(sc, ep.flows)))
  }

  ghost function StateOf(f: Flow): FlowState {
    FlowState(f, Held(f).messages, Held(f).bytes)
  }

  ghost predicate Balanced(b: Ledger, ep: Endpoint) {
    && (forall sc :: AccountOk(b, ep, sc))
    && b.flows.Keys == ep.flows.Keys
    && (forall k :: k in ep.flows ==> b.flows[k] == StateOf(ep.flows[k]))
  }

  // ---------------------------------------------------------------- charging a pending message

  /** Every account that a pending message of this flow is charged to. */
  predicate Chargeable(b: Ledger, key: FlowKey, messages: int, bytes: int) {
    && key in b.flows
    && 0 <= b.flows[key].pendingMessages + messages <= U64_MAX && 0 <= b.flows[key].pendingBytes + bytes <= U64_MAX
    && CanShift(b.aggregate.usage, 0, messages, bytes)
    && key.connection in b.connections && CanShift(b.connections[key.connection].usage, 0, messages, bytes)
    && var session := b.flows[key].flow.session;
    session.Some? ==> session.value in b.sessions && CanShift(b.sessions[session.value].usage, 0, messages, bytes)
  }

  function Shifted(s: ScopeState, flows: int, messages: int, bytes: int): ScopeState
    requires CanShift(s.usage, flows, messages, bytes)
  {
    s.(usage := Shift(s.usage, flows, messages, bytes))
  }

  function Charge(b: Ledger, key: FlowKey, messages: int, bytes: int): Ledger
    requires Chargeable(b, key, messages, bytes)
  {
    var s := b.flows[key];
    Ledger(
      Shifted(b.aggregate, 0, messages, bytes),
      b.connections[key.connection := Shifted(b.connections[key.connection], 0, messages, bytes)],
      match s.flow.session
      case None => b.sessions
      case Some(id) => b.sessions[id := Shifted(b.sessions[id], 0, messages, bytes)],
      b.flows[key := FlowState(s.flow, s.pendingMessages + messages, s.pendingBytes + bytes)])
  }

  function PutFlow(b: Ledger, key: FlowKey, f: Flow): Ledger
    requires key in b.flows
  {
    b.(flows := b.flows[key := b.flows[key].(flow := f)])
  }

  /** A flow's change that the ledger has yet to record. */
  ghost predicate Pending(ep: Endpoint, key: FlowKey, f: Flow, messages: int, bytes: int) {
    && key in ep.flows && f.session == ep.flows[key].session
    && Held(f).messages == Held(ep.flows[key]).messages + messages
    && Held(f).bytes == Held(ep.flows[key]).bytes + bytes
  }

  lemma ChargeScope(ep: Endpoint, key: FlowKey, f: Flow, messages: int, bytes: int, sc: Scope)
    requires WellFormed(ep) && Pending(ep, key, f, messages, bytes) && ScopeOk(SetFlow(ep, key, f), sc)
    ensures InScope(sc, key, f) ==> LimitsOf(ep, sc).Some? && CanShift(Load(sc, ep.flows), 0, messages, bytes)
    ensures InScope(sc, key, f) ==> Load(sc, ep.flows[key := f]) == Shift(Load(sc, ep.flows), 0, messages, bytes)
    ensures !InScope(sc, key, f) ==> Load(sc, ep.flows[key := f]) == Load(sc, ep.flows)
  {
    hide Load, Held;
    assert ScopeOk(ep, sc);
    LoadReplace(sc, ep.flows, key, f);
    HeldIsOneFlow(f);
    HeldIsOneFlow(ep.flows[key]);
  }

  /** Recording the change on exactly the flow's own accounts restores the balance, and none of the
      additions or subtractions on the way leaves the machine range. */
  lemma ChargeBalances(b: Ledger, ep: Endpoint, key: FlowKey, f: Flow, messages: int, bytes: int)
    requires WellFormed(ep) && Balanced(b, ep) && Pending(ep, key, f, messages, bytes)
    requires WellFormed(SetFlow(ep, key, f))
    ensures Chargeable(PutFlow(b, key, f), key, messages, bytes)
    ensures Balanced(Charge(PutFlow(b, key, f), key, messages, bytes), SetFlow(ep, key, f))
  {
    hide Load, Held, ScopeOk, FlowOk;
    var c := PutFlow(b, key, f);
    assert AccountOk(b, ep, Aggregate) && AccountOk(b, ep, OfConnection(key.connection));
    assert f.session.Some? ==> AccountOk(b, ep, OfSession(f.session.value));
    assert forall sc :: ScopeOk(SetFlow(ep, key, f), sc);
    ChargeScope(ep, key, f, messages, bytes, Aggregate);
    ChargeScope(ep, key, f, messages, bytes, OfConnection(key.connection));
    if f.session.Some? {
      ChargeScope(ep, key, f, messages, bytes, OfSession(f.session.value));
    }
    FlowWithinMachineRange(SetFlow(ep, key, f), key);
    forall sc ensures AccountOk(Charge(c, key, messages, bytes), SetFlow(ep, key, f), sc) {
      assert AccountOk(b, ep, sc);
      ChargeScope(ep, key, f, messages, bytes, sc);
    }
  }

  lemma FlowWithinMachineRange(ep: Endpoint, key: FlowKey)
    requires WellFormed(ep) && key in ep.flows
    ensures Held(ep.flows[key]).messages <= U64_MAX && Held(ep.flows[key]).bytes <= U64_MAX
  {
    hide Held, ScopeOk;
    assert FlowOk(key, ep.flows[key]);
  }

  /** With balanced books the incremental admission test is the recomputed one. */
  lemma RoomFromBooks(b: Ledger, ep: Endpoint, key: FlowKey, bytes: nat)
    requires WellFormed(ep) && Balanced(b, ep) && key in ep.flows && bytes <= U64_MAX
    ensures HasRoom(ep, key, bytes) <==>
            var s := b.flows[key];
            && Fits(s.pendingMessages, 1, s.flow.policy.maxPendingMessages)
            && Fits(s.pendingBytes, bytes, s.flow.policy.maxPendingBytes)
            && key.connection in b.connections
            && CanAdd(b.connections[key.connection].usage, b.connections[key.connection].limits, 0, 1, bytes)
            && CanAdd(b.aggregate.usage, b.aggregate.limits, 0, 1, bytes)
            && (s.flow.session.Some? ==>
                  && s.flow.session.value in b.sessions
                  && CanAdd(b.sessions[s.flow.session.value].usage, b.sessions[s.flow.session.value].limits, 0, 1, bytes))
  {
    hide Load, Held, Populated, FlowOk;
    var session := ep.flows[key].session;
    assert AccountOk(b, ep, Aggregate) && AccountOk(b, ep, OfConnection(key.connection));
    assert ScopeOk(ep, Aggregate) && ScopeOk(ep, OfConnection(key.connection));
    if session.Some? {
      assert AccountOk(b, ep, OfSession(session.value)) && ScopeOk(ep, OfSession(session.value));
    }
  }

  lemma AccountsExist(b: Ledger, ep: Endpoint, key: FlowKey)
    requires WellFormed(ep) && Balanced(b, ep) && key in ep.flows
    ensures key.connection in b.connections
    ensures ep.flows[key].session.Some? ==> ep.flows[key].session.value in b.sessions
  {
    hide Load, Held, FlowOk;
    var session := ep.flows[key].session;
    assert AccountOk(b, ep, OfConnection(key.connection)) && ScopeOk(ep, OfConnection(key.connection));
    assert InScope(OfConnection(key.connection), key, ep.flows[key]);
    if session.Some? {
      assert AccountOk(b, ep, OfSession(session.value)) && ScopeOk(ep, OfSession(session.value));
      assert InScope(OfSession(session.value), key, ep.flows[key]);
    }
  }

  // ---------------------------------------------------------------- whole flows coming and going

  function Release<K>(accounts: map<K, ScopeState>, k: K, messages: nat, bytes: nat): map<K, ScopeState>
    requires k in accounts && CanShift(accounts[k].usage, -1, -(messages as int), -(bytes as int))
  {
    var s := Shifted(accounts[k], -1, -(messages as int), -(bytes as int));
    if s.usage.flows == 0 then accounts - {k} else accounts[k := s]
  }

  /** A flow's own accounts can give up the flow and everything pending on it. */
  predicate Releasable(b: Ledger, key: FlowKey) {
    && key in b.flows
    && var s := b.flows[key];
    var m, n := -(s.pendingMessages as int), -(s.pendingBytes as int);
    && CanShift(b.aggregate.usage, -1, m, n)
    && key.connection in b.connections && CanShift(b.connections[key.connection].usage, -1, m, n)
    && (s.flow.session.Some? ==>
          s.flow.session.value in b.sessions && CanShift(b.sessions[s.flow.session.value].usage, -1, m, n))
  }

  function Released(b: Ledger, key: FlowKey): Ledger
    requires Releasable(b, key)
  {
    var s := b.flows[key];
    Ledger(Shifted(b.aggregate, -1, -(s.pendingMessages as int), -(s.pendingBytes as int)),
           Release(b.connections, key.connection, s.pendingMessages, s.pendingBytes),
           match s.flow.session
           case None => b.sessions
           case Some(id) => Release(b.sessions, id, s.pendingMessages, s.pendingBytes),
           b.flows - {key})
  }

  /** `entry(..).or_insert_with(..)`. */
  function EntryOr<K>(accounts: map<K, ScopeState>, k: K, limits: Limits): ScopeState {
    if k in accounts then accounts[k] else ScopeState(limits, NoUsage)
  }

  predicate CanJoin(b: Ledger, key: FlowKey, session: nat, limits: Limits) {
    && key in b.flows
    && CanShift(EntryOr(b.sessions, session, limits).usage, 1, b.flows[key].pendingMessages, b.flows[key].pendingBytes)
  }

  function Joined(b: Ledger, key: FlowKey, session: nat, limits: Limits): Ledger
    requires CanJoin(b, key, session, limits)
  {
    var s := b.flows[key];
    b.(sessions := b.sessions[session := Shifted(EntryOr(b.sessions, session, limits), 1, s.pendingMessages, s.pendingBytes)],
       flows := b.flows[key := s.(flow := s.flow.(session := Some(session)))])
  }

  predicate CanOpen(b: Ledger, key: FlowKey, limits: Limits) {
    CanShift(b.aggregate.usage, 1, 0, 0) && CanShift(EntryOr(b.connections, key.connection, limits).usage, 1, 0, 0)
  }

  function Opened(b: Ledger, key: FlowKey, mode: Mode, policy: Policy, limits: Limits): Ledger
    requires CanOpen(b, key, limits)
  {
    b.(aggregate := Shifted(b.aggregate, 1, 0, 0),
       connections := b.connections[key.connection := Shifted(EntryOr(b.connections, key.connection, limits), 1, 0, 0)],
       flows := b.flows[key := FlowState(NewFlow(mode, policy), 0, 0)])
  }

  lemma AbsentConnection(ep: Endpoint, c: u64)
    requires WellFormed(ep)
    ensures c !in ep.connections ==> Load(OfConnection(c), ep.flows) == NoUsage
  {
    hide Load, FlowOk;
    if c !in ep.connections {
      assert ScopeOk(ep, OfConnection(c));
      EmptyScope(OfConnection(c), ep.flows);
    }
  }

  lemma AbsentSession(ep: Endpoint, s: nat)
    requires WellFormed(ep)
    ensures s !in ep.sessions ==> Load(OfSession(s), ep.flows) == NoUsage
  {
    hide Load, FlowOk;
    if s !in ep.sessions {
      assert ScopeOk(ep, OfSession(s));
      EmptyScope(OfSession(s), ep.flows);
    }
  }

  lemma AggregateWithin(ep: Endpoint)
    requires WellFormed(ep)
    ensures Load(Aggregate, ep.flows).Within(ep.aggregate)
  {
    hide Load, FlowOk;
    assert ScopeOk(ep, Aggregate);
  }

  lemma ConnectionWithin(ep: Endpoint, c: u64)
    requires WellFormed(ep) && c in ep.connections
    ensures Load(OfConnection(c), ep.flows).Within(ep.connections[c])
  {
    hide Load, FlowOk;
    assert ScopeOk(ep, OfConnection(c));
  }

  lemma EstablishBalances(b: Ledger, ep: Endpoint, key: FlowKey, mode: Mode, policy: Policy, limits: Limits)
    requires WellFormed(ep) && Balanced(b, ep) && Establish(ep, key, mode, policy, limits).1.Ok?
    ensures CanOpen(b, key, limits)
    ensures Balanced(Opened(b, key, mode, policy, limits), Establish(ep, key, mode, policy, limits).0)
  {
    hide *;
    EstablishedShape(ep, key, mode, policy, limits);
    NewFlowHolds(mode, policy);
    AbsentConnection(ep, key.connection);
    RoomToOpen(b, ep, key, limits);
    FlowOpened(b, ep, key, mode, policy, limits);
  }

  lemma RoomToOpen(b: Ledger, ep: Endpoint, key: FlowKey, limits: Limits)
    requires WellFormed(ep) && Balanced(b, ep)
    requires Load(Aggregate, ep.flows).flows + 1 <= ep.aggregate.maxFlows && Load(OfConnection(key.connection), ep.flows).flows + 1 <= limits.maxFlows
    requires key.connection in ep.connections ==> ep.connections[key.connection] == limits
    requires key.connection !in ep.connections ==> Load(OfConnection(key.connection), ep.flows) == NoUsage
    ensures CanOpen(b, key, limits)
  {
    hide Load, FlowOk, Populated, ScopeOk;
    AggregateWithin(ep);
    assert AccountOk(b, ep, Aggregate) && AccountOk(b, ep, OfConnection(key.connection));
    if key.connection in ep.connections {
      ConnectionWithin(ep, key.connection);
    }
  }

  lemma FlowOpened(b: Ledger, ep: Endpoint, key: FlowKey, mode: Mode, policy: Policy, limits: Limits)
    requires Balanced(b, ep) && CanOpen(b, key, limits) && key !in ep.flows && Held(NewFlow(mode, policy)) == Usage(1, 0, 0)
    requires NewFlow(mode, policy).session.None? && (key.connection in ep.connections ==> ep.connections[key.connection] == limits)
    requires key.connection !in ep.connections ==> Load(OfConnection(key.connection), ep.flows) == NoUsage
    ensures Balanced(Opened(b, key, mode, policy, limits),
                     ep.(flows := ep.flows[key := NewFlow(mode, policy)], connections := ep.connections[key.connection := limits]))
  {
    hide Load, Held, NewFlow, AccountOk;
    var f := NewFlow(mode, policy);
    var after := ep.(flows := ep.flows[key := f], connections := ep.connections[key.connection := limits]);
    var c := Opened(b, key, mode, policy, limits);
    forall sc ensures AccountOk(c, after, sc) {
      assert AccountOk(b, ep, sc);
      AccountOpened(b, c, ep, key, f, limits, sc);
    }
  }

  lemma AccountOpened(b: Ledger, c: Ledger, ep: Endpoint, key: FlowKey, f: Flow, limits: Limits, sc: Scope)
    requires AccountOk(b, ep, sc) && CanOpen(b, key, limits) && key !in ep.flows && Held(f) == Usage(1, 0, 0) && f.session.None?
    requires c.aggregate == Shifted(b.aggregate, 1, 0, 0) && c.sessions == b.sessions
    requires c.connections == b.connections[key.connection := Shifted(EntryOr(b.connections, key.connection, limits), 1, 0, 0)]
    requires key.connection in ep.connections ==> ep.connections[key.connection] == limits
    requires key.connection !in ep.connections ==> Load(OfConnection(key.connection), ep.flows) == NoUsage
    ensures AccountOk(c, ep.(flows := ep.flows[key := f], connections := ep.connections[key.connection := limits]), sc)
  {
    hide Load, Held;
    EmptyFlowLoad(sc, ep.flows, key, f);
  }

  lemma AssociateBalances(b: Ledger, ep: Endpoint, key: FlowKey, session: nat, limits: Limits)
    requires WellFormed(ep) && Balanced(b, ep) && Associate(ep, key, session, true, limits).1 == Ok(Associated)
    ensures CanJoin(b, key, session, limits)
    ensures Balanced(Joined(b, key, session, limits), Associate(ep, key, session, true, limits).0)
  {
    hide Load, Held, FlowOk, Populated, ScopeOk;
    var f := ep.flows[key];
    var g := f.(session := Some(session));
    var after := Associate(ep, key, session, true, limits).0;
    SessionIsWeightless(f, Some(session));
    HeldIsOneFlow(f);
    AbsentSession(ep, session);
    assert AccountOk(b, ep, OfSession(session));
    var c := Joined(b, key, session, limits);
    forall sc ensures AccountOk(c, after, sc) {
      assert AccountOk(b, ep, sc);
      JoinScope(ep, key, session, sc);
    }
  }

  lemma JoinScope(ep: Endpoint, key: FlowKey, session: nat, sc: Scope)
    requires key in ep.flows && ep.flows[key].session.None?
    ensures var g := ep.flows[key].(session := Some(session));
            Load(sc, ep.flows[key := g]) ==
            if sc == OfSession(session) then Plus(Load(sc, ep.flows), Held(ep.flows[key])) else Load(sc, ep.flows)
  {
    hide Load, Held;
    SessionIsWeightless(ep.flows[key], Some(session));
    LoadReplace(sc, ep.flows, key, ep.flows[key].(session := Some(session)));
  }

  lemma ShareWithin(b: Ledger, ep: Endpoint, key: FlowKey, sc: Scope)
    requires WellFormed(ep) && Balanced(b, ep) && key in ep.flows && InScope(sc, key, ep.flows[key])
    ensures Account(b, sc).Some?
    ensures CanShift(Account(b, sc).value.usage, -1, -(b.flows[key].pendingMessages as int), -(b.flows[key].pendingBytes as int))
  {
    hide Load, Held, FlowOk;
    assert AccountOk(b, ep, sc) && ScopeOk(ep, sc);
    LoadRemove(sc, ep.flows, key);
    HeldIsOneFlow(ep.flows[key]);
  }

  lemma TerminateReleasable(b: Ledger, ep: Endpoint, key: FlowKey)
    requires WellFormed(ep) && Balanced(b, ep) && key in ep.flows
    ensures Releasable(b, key)
  {
    hide Load, Held, FlowOk, Populated, ScopeOk;
    AccountsExist(b, ep, key);
    ShareWithin(b, ep, key, Aggregate);
    ShareWithin(b, ep, key, OfConnection(key.connection));
    if ep.flows[key].session.Some? {
      ShareWithin(b, ep, key, OfSession(ep.flows[key].session.value));
    }
  }

  /** Terminating subtracts the flow's share from each of its scopes without underflow, and a scope
      record disappears exactly with its last flow. */
  lemma TerminateBalances(b: Ledger, ep: Endpoint, key: FlowKey, reason: Reason)
    requires WellFormed(ep) && Balanced(b, ep) && key in ep.flows
    ensures Releasable(b, key) && Balanced(Released(b, key), Terminate(ep, key, reason).0)
  {
    hide Load, Held, FlowOk, Populated, ScopeOk, AccountOk;
    TerminateReleasable(b, ep, key);
    var after := Terminate(ep, key, reason).0;
    forall sc ensures AccountOk(Released(b, key), after, sc) {
      ReleaseScope(b, ep, key, reason, sc);
    }
  }

  lemma ReleaseScope(b: Ledger, ep: Endpoint, key: FlowKey, reason: Reason, sc: Scope)
    requires Balanced(b, ep) && key in ep.flows && Releasable(b, key)
    ensures AccountOk(Released(b, key), Terminate(ep, key, reason).0, sc)
  {
    hide Load, Held, Populated;
    assert AccountOk(b, ep, sc);
    HeldIsOneFlow(ep.flows[key]);
    LoadRemove(sc, ep.flows, key);
    LoadCountsFlows(sc, ep.flows - {key});
  }
}
