/** The endpoint operations over the model of module Delivery. Pressure is decided by
    the sums over the live flows; nothing here keeps a counter. */
module Core {
  import opened Basics
  import opened Delivery

  datatype ResourceScope = FlowScope | ConnectionScope | SessionScope | AggregateScope

  datatype EstablishError =
    | InvalidPolicy(policyError: PolicyError)
    | FlowAlreadyExists
    | ConnectionLimitsMismatch
    | ActiveFlowLimitExceeded(scope: ResourceScope)

  datatype AssociateOutcome = Associated | AlreadyAssociated

  datatype AssociateError = NoSuchFlow | SessionClosed | DifferentSession | SessionLimitsMismatch | SessionResourceLimit

  datatype OpError = UnknownFlow | WrongDirection | NotReliable

  datatype SubmissionOutcome =
    | Accepted(index: u64, drops: nat)
    | RejectedTooLarge
    | RejectedPressure
    | RejectedCounterExhausted

  datatype CustodyError = CustodyUnknownFlow | CustodyWrongDirection | NoPendingMessage | NotFront

  datatype ReceiveOutcome =
    | Buffered(drops: nat)
    | DroppedByPressure(drops: nat)
    | DroppedTooLarge
    | StaleSequenced
    | DuplicateReliable
    | RejectedModeMismatch
    | TerminalReliableFailure

  datatype Exposed = Exposed(index: u64, payload: seq<u8>)

  datatype Reason =
    | Requested
    | ConnectionEnded
    | ReliableCustodyLost
    | ReliableReceiverPressure
    | ReliableTransferConflict
    | ReliableInboundTooLarge
    | ReliableModeMismatch
  {
    predicate ForcesFailure() {
      !Requested? && !ConnectionEnded?
    }
  }

  datatype Termination = Termination(key: FlowKey, reason: Reason, pendingMessages: nat, obligationFailed: bool)

  // ---------------------------------------------------------------- limits and room

  function LimitsOf(ep: Endpoint, sc: Scope): Option<Limits> {
    match sc
    case Aggregate => Some(ep.aggregate)
    case OfConnection(c) => if c in ep.connections then Some(ep.connections[c]) else None
    case OfSession(s) => if s in ep.sessions then Some(ep.sessions[s]) else None
  }

  /** One more message of `bytes` octets keeps this scope within its limits. */
  ghost predicate ScopeHasRoom(ep: Endpoint, sc: Scope, bytes: nat) {
    && LimitsOf(ep, sc).Some?
    && var l := LimitsOf(ep, sc).value;
    var u := Load(sc, ep.flows);
    u.messages + 1 <= l.maxMessages && u.bytes + bytes <= l.maxBytes
  }

  /** One more message fits the flow's own policy and all the scopes around it. */
  ghost predicate HasRoom(ep: Endpoint, key: FlowKey, bytes: nat)
    requires key in ep.flows
  {
    var f := ep.flows[key];
    && Held(f).messages + 1 <= f.policy.maxPendingMessages
    && Held(f).bytes + bytes <= f.policy.maxPendingBytes
    && ScopeHasRoom(ep, OfConnection(key.connection), bytes)
    && ScopeHasRoom(ep, Aggregate, bytes)
    && (f.session.Some? ==> ScopeHasRoom(ep, OfSession(f.session.value), bytes))
  }

  function SetFlow(ep: Endpoint, key: FlowKey, f: Flow): Endpoint {
    ep.(flows := ep.flows[key := f])
  }

  // ---------------------------------------------------------------- establishing and associating

  ghost function Establish(ep: Endpoint, key: FlowKey, mode: Mode, policy: Policy, limits: Limits)
    : (Endpoint, Result<(), EstablishError>)
  {
    var scope := OfConnection(key.connection);
    if policy.ValidateFor(mode).Some? then (ep, Err(InvalidPolicy(policy.ValidateFor(mode).value)))
    else if key in ep.flows then (ep, Err(FlowAlreadyExists))
    else if Load(Aggregate, ep.flows).flows + 1 > ep.aggregate.maxFlows then (ep, Err(ActiveFlowLimitExceeded(AggregateScope)))
    else if key.connection in ep.connections && ep.connections[key.connection] != limits then (ep, Err(ConnectionLimitsMismatch))
    else if Load(scope, ep.flows).flows + 1 > limits.maxFlows then (ep, Err(ActiveFlowLimitExceeded(ConnectionScope)))
    else
      (ep.(flows := ep.flows[key := NewFlow(mode, policy)], connections := ep.connections[key.connection := limits]), Ok(()))
  }

  ghost function Associate(ep: Endpoint, key: FlowKey, session: nat, open: bool, limits: Limits)
    : (Endpoint, Result<AssociateOutcome, AssociateError>)
  {
    if !open then (ep, Err(SessionClosed))
    else if key !in ep.flows then (ep, Err(NoSuchFlow))
    else
      var f := ep.flows[key];
      if f.session.Some? then
        if f.session.value != session then (ep, Err(DifferentSession))
        else if LimitsOf(ep, OfSession(session)) == Some(limits) then (ep, Ok(AlreadyAssociated))
        else (ep, Err(SessionLimitsMismatch))
      else if session in ep.sessions && ep.sessions[session] != limits then (ep, Err(SessionLimitsMismatch))
      else if !Plus(Held(f), Load(OfSession(session), ep.flows)).Within(limits) then (ep, Err(SessionResourceLimit))
      else
        (SetFlow(ep, key, f.(session := Some(session))).(sessions := ep.sessions[session := limits]), Ok(Associated))
  }

  // ---------------------------------------------------------------- submission and eviction

  /** The unreliable backlog that pressure may evict from, oldest first. */
  function Backlog(key: FlowKey, f: Flow): seq<Transfer> {
    if key.direction.Outbound? then f.outbound
    else if f.receiver.Unreliable? then f.receiver.queue
    else []
  }

  /** The flow after its `n` oldest backlog entries are gone. */
  function WithoutOldest(key: FlowKey, f: Flow, n: nat): Flow
    requires n <= |Backlog(key, f)|
  {
    if key.direction.Outbound? then f.(outbound := f.outbound[n..])
    else if f.receiver.Unreliable? then f.(receiver := f.receiver.(queue := f.receiver.queue[n..]))
    else f
  }

  function Evict(ep: Endpoint, key: FlowKey, n: nat): Endpoint
    requires key in ep.flows && n <= |Backlog(key, ep.flows[key])|
  {
    SetFlow(ep, key, WithoutOldest(key, ep.flows[key], n))
  }

  /** How many oldest entries go, counting on from `n`: until the message fits or nothing is left. */
  ghost function EvictionCount(ep: Endpoint, key: FlowKey, bytes: nat, n: nat): (m: nat)
    requires key in ep.flows && n <= |Backlog(key, ep.flows[key])|
    ensures n <= m <= |Backlog(key, ep.flows[key])|
    decreases |Backlog(key, ep.flows[key])| - n
  {
    if n == |Backlog(key, ep.flows[key])| || HasRoom(Evict(ep, key, n), key, bytes) then n
    else EvictionCount(ep, key, bytes, n + 1)
  }

  /** Queue an accepted message under index `i`. */
  function Enqueue(ep: Endpoint, key: FlowKey, i: u64, payload: seq<u8>): Endpoint
    requires key in ep.flows
  {
    var f := ep.flows[key];
    SetFlow(ep, key, f.(nextIndex := Next(i), outbound := f.outbound + [Transfer(f.mode, i, payload)]))
  }

  function CountOutboundDrops(ep: Endpoint, n: nat): Endpoint {
    ep.(diagnostics := ep.diagnostics.(outboundDrops := Saturate(ep.diagnostics.outboundDrops + n)))
  }

  function CountInboundDrops(ep: Endpoint, n: nat): Endpoint {
    ep.(diagnostics := ep.diagnostics.(inboundDrops := Saturate(ep.diagnostics.inboundDrops + n)))
  }

  function CountStale(ep: Endpoint, n: nat): Endpoint {
    ep.(diagnostics := ep.diagnostics.(staleDrops := Saturate(ep.diagnostics.staleDrops + n)))
  }

  function Saturate(n: nat): u64 {
    if n <= U64_MAX then n else U64_MAX
  }

  ghost function Submit(ep: Endpoint, key: FlowKey, payload: seq<u8>): (Endpoint, Result<SubmissionOutcome, OpError>) {
    if key !in ep.flows then (ep, Err(UnknownFlow))
    else if !key.direction.Outbound? then (ep, Err(WrongDirection))
    else
      var f := ep.flows[key];
      if |payload| > f.policy.maxMessageBytes then (ep, Ok(RejectedTooLarge))
      else if f.nextIndex.None? then (ep, Ok(RejectedCounterExhausted))
      else
        var i := f.nextIndex.value;
        if HasRoom(ep, key, |payload|) then (Enqueue(ep, key, i, payload), Ok(Accepted(i, 0)))
        else if f.policy.outboundPressure.RejectNew? then (ep, Ok(RejectedPressure))
        else
          var n := EvictionCount(ep, key, |payload|, 0);
          var trimmed := Evict(ep, key, n);
          if HasRoom(trimmed, key, |payload|) then
            (CountOutboundDrops(Enqueue(trimmed, key, i, payload), n), Ok(Accepted(i, n)))
          else (trimmed, Ok(RejectedPressure))
  }

  function PeekOutbound(ep: Endpoint, key: FlowKey): Result<Option<Transfer>, OpError> {
    if key !in ep.flows then Err(UnknownFlow)
    else if !key.direction.Outbound? then Err(WrongDirection)
    else if ep.flows[key].outbound == [] then Ok(None)
    else Ok(Some(ep.flows[key].outbound[0]))
  }

  function Commit(ep: Endpoint, key: FlowKey, index: u64): (Endpoint, Result<Transfer, CustodyError>) {
    if !key.direction.Outbound? then (ep, Err(CustodyWrongDirection))
    else if key !in ep.flows then (ep, Err(CustodyUnknownFlow))
    else if ep.flows[key].outbound == [] then (ep, Err(NoPendingMessage))
    else if ep.flows[key].outbound[0].index != index then (ep, Err(NotFront))
    else (Evict(ep, key, 1), Ok(ep.flows[key].outbound[0]))
  }

  // ---------------------------------------------------------------- termination

  ghost function Terminate(ep: Endpoint, key: FlowKey, reason: Reason): (Endpoint, Result<Termination, OpError>) {
    if key !in ep.flows then (ep, Err(UnknownFlow))
    else
      var f := ep.flows[key];
      var left := ep.flows - {key};
      var connections := if Populated(OfConnection(key.connection), left) then ep.connections else ep.connections - {key.connection};
      var sessions :=
        if f.session.None? || Populated(OfSession(f.session.value), left) then ep.sessions else ep.sessions - {f.session.value};
      var held := Held(f).messages;
      (ep.(flows := left, connections := connections, sessions := sessions),
       Ok(Termination(key, reason, held, f.mode.ReliableOrdered? && (held > 0 || reason.ForcesFailure()))))
  }

  ghost function FailCustody(ep: Endpoint, key: FlowKey): (Endpoint, Result<Termination, OpError>) {
    if key !in ep.flows then (ep, Err(UnknownFlow))
    else if !ep.flows[key].mode.ReliableOrdered? then (ep, Err(NotReliable))
    else Terminate(ep, key, ReliableCustodyLost)
  }

  // ---------------------------------------------------------------- receiving

  ghost function ReceiveReliable(ep: Endpoint, key: FlowKey, t: Transfer): (Endpoint, ReceiveOutcome)
    requires key in ep.flows && ep.flows[key].receiver.Reliable?
  {
    var f := ep.flows[key];
    var r := f.receiver;
    if r.nextExposure.None? || t.index < r.nextExposure.value || (t.index in r.byIndex && r.byIndex[t.index] == t) then
      (ep.(diagnostics := ep.diagnostics.(duplicates := Saturate(ep.diagnostics.duplicates + 1))), DuplicateReliable)
    else if t.index in r.byIndex then (Terminate(ep, key, ReliableTransferConflict).0, TerminalReliableFailure)
    else if !HasRoom(ep, key, |t.payload|) then (Terminate(ep, key, ReliableReceiverPressure).0, TerminalReliableFailure)
    else (SetFlow(ep, key, f.(receiver := r.(byIndex := r.byIndex[t.index := t]))), Buffered(0))
  }

  predicate Stale(f: Flow, index: u64) {
    f.receiver.Unreliable? && f.receiver.lastExposed.Some? && index <= f.receiver.lastExposed.value
  }

  function PushQueue(ep: Endpoint, key: FlowKey, t: Transfer): Endpoint
    requires key in ep.flows && ep.flows[key].receiver.Unreliable?
  {
    var f := ep.flows[key];
    SetFlow(ep, key, f.(receiver := f.receiver.(queue := f.receiver.queue + [t])))
  }

  ghost function ReceiveUnreliable(ep: Endpoint, key: FlowKey, t: Transfer): (Endpoint, ReceiveOutcome)
    requires key in ep.flows && ep.flows[key].receiver.Unreliable?
  {
    var f := ep.flows[key];
    if f.mode.UnreliableSequenced? && Stale(f, t.index) then (CountStale(ep, 1), StaleSequenced)
    else if HasRoom(ep, key, |t.payload|) then (PushQueue(ep, key, t), Buffered(0))
    else if f.policy.receiverPressure.DropIncoming? then (CountInboundDrops(ep, 1), DroppedByPressure(1))
    else
      var n := EvictionCount(ep, key, |t.payload|, 0);
      var trimmed := Evict(ep, key, n);
      if HasRoom(trimmed, key, |t.payload|) then (CountInboundDrops(PushQueue(trimmed, key, t), n), Buffered(n))
      else (CountInboundDrops(trimmed, n + 1), DroppedByPressure(n + 1))
  }

  ghost function Receive(ep: Endpoint, key: FlowKey, t: Transfer): (Endpoint, Result<ReceiveOutcome, OpError>) {
    if !key.direction.Inbound? then (ep, Err(WrongDirection))
    else if key !in ep.flows then (ep, Err(UnknownFlow))
    else
      var f := ep.flows[key];
      var reliable := f.mode.ReliableOrdered?;
      if t.mode != f.mode then
        if reliable then (Terminate(ep, key, ReliableModeMismatch).0, Ok(TerminalReliableFailure)) else (ep, Ok(RejectedModeMismatch))
      else if |t.payload| > f.policy.maxMessageBytes then
        if reliable then (Terminate(ep, key, ReliableInboundTooLarge).0, Ok(TerminalReliableFailure)) else (ep, Ok(DroppedTooLarge))
      else if f.receiver.Reliable? then
        var r := ReceiveReliable(ep, key, t);
        (r.0, Ok(r.1))
      else
        var r := ReceiveUnreliable(ep, key, t);
        (r.0, Ok(r.1))
  }

  ghost function ReceivePayload(ep: Endpoint, key: FlowKey, index: u64, payload: seq<u8>): (Endpoint, Result<ReceiveOutcome, OpError>) {
    if !key.direction.Inbound? then (ep, Err(WrongDirection))
    else if key !in ep.flows then (ep, Err(UnknownFlow))
    else Receive(ep, key, Transfer(ep.flows[key].mode, index, payload))
  }

  // ---------------------------------------------------------------- exposure

  function ExposeReliable(f: Flow): (Flow, Option<Exposed>)
    requires f.receiver.Reliable?
  {
    var r := f.receiver;
    if r.nextExposure.None? || r.nextExposure.value !in r.byIndex then (f, None)
    else
      var i := r.nextExposure.value;
      (f.(receiver := Reliable(r.byIndex - {i}, Next(i))), Some(Exposed(r.byIndex[i].index, r.byIndex[i].payload)))
  }

  function ExposeUnordered(f: Flow): (Flow, Option<Exposed>)
    requires f.receiver.Unreliable?
  {
    var q := f.receiver.queue;
    if q == [] then (f, None)
    else (f.(receiver := f.receiver.(queue := q[1..])), Some(Exposed(q[0].index, q[0].payload)))
  }

  /** How many leading entries a sequenced poll skips because something at least as new was exposed. */
  function StalePrefix(q: seq<Transfer>, last: Option<u64>): (n: nat)
    ensures n <= |q|
    ensures forall j :: 0 <= j < n ==> last.Some? && q[j].index <= last.value
    ensures n < |q| ==> last.None? || q[n].index > last.value
  {
    if q != [] && last.Some? && q[0].index <= last.value then 1 + StalePrefix(q[1..], last) else 0
  }

  function ExposeSequenced(f: Flow): (Flow, Option<Exposed>)
    requires f.receiver.Unreliable?
  {
    var q := f.receiver.queue;
    var n := StalePrefix(q, f.receiver.lastExposed);
    if n == |q| then (f.(receiver := f.receiver.(queue := [])), None)
    else (f.(receiver := Unreliable(q[n + 1..], Some(q[n].index))), Some(Exposed(q[n].index, q[n].payload)))
  }

  function ExposeFlow(f: Flow): (Flow, Option<Exposed>) {
    if f.receiver.Reliable? then ExposeReliable(f)
    else if f.mode.UnreliableSequenced? then ExposeSequenced(f)
    else ExposeUnordered(f)
  }

  function SkippedBy(f: Flow): nat {
    if f.receiver.Unreliable? && f.mode.UnreliableSequenced? then StalePrefix(f.receiver.queue, f.receiver.lastExposed) else 0
  }

  function Expose(ep: Endpoint, key: FlowKey): (Endpoint, Result<Option<Exposed>, OpError>) {
    if !key.direction.Inbound? then (ep, Err(WrongDirection))
    else if key !in ep.flows then (ep, Err(UnknownFlow))
    else
      var r := ExposeFlow(ep.flows[key]);
      (CountStale(SetFlow(ep, key, r.0), SkippedBy(ep.flows[key])), Ok(r.1))
  }
}
