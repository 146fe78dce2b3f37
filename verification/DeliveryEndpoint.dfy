/** The delivery endpoint as it runs: maps of flows and of per-scope counters, updated in place.
    Every method is proved against its counter-free counterpart in module Core. */
module DeliveryEndpoints {
  import opened Basics
  import opened Delivery
  import opened Core
  import opened CoreInvariant
  import opened Books

  class DeliveryEndpoint {
    var aggregate: ScopeState
    var connections: map<u64, ScopeState>
    var sessions: map<nat, ScopeState>
    var flows: map<FlowKey, FlowState>
    var diagnostics: Diagnostics
    ghost var model: Endpoint

    ghost function Records(): Ledger
      reads this
    {
      Ledger(aggregate, connections, sessions, flows)
    }

    ghost predicate Valid()
      reads this
    {
      WellFormed(model) && Balanced(Records(), model) && diagnostics == model.diagnostics
    }

    constructor (aggregateLimits: Limits)
      ensures Valid() && model == NewEndpoint(aggregateLimits)
    {
      aggregate := ScopeState(aggregateLimits, NoUsage);
      connections, sessions, flows := map[], map[], map[];
      diagnostics := Diagnostics(0, 0, 0, 0);
      model := NewEndpoint(aggregateLimits);
      new;
      EveryRunIsWellFormed(aggregateLimits, []);
      forall sc ensures AccountOk(Records(), model, sc) {
        LoadOfNothing(sc);
      }
    }

    method FlowContract(key: FlowKey) returns (r: Option<(Mode, Policy)>)
      requires Valid()
      ensures r == if key in model.flows then Some((model.flows[key].mode, model.flows[key].policy)) else None
    {
      r := if key in flows then Some((flows[key].flow.mode, flows[key].flow.policy)) else None;
    }

    method LiveKeys() returns (keys: set<FlowKey>)
      requires Valid()
      ensures keys == model.flows.Keys
    {
      hide WellFormed;
      keys := flows.Keys;
    }

    method FlowPendingUsage(key: FlowKey) returns (r: Option<(nat, nat)>)
      requires Valid()
      ensures r == if key in model.flows then Some((Held(model.flows[key]).messages, Held(model.flows[key]).bytes)) else None
    {
      r := if key in flows then Some((flows[key].pendingMessages, flows[key].pendingBytes)) else None;
    }

    // -------------------------------------------------------------- the counters

    method CanAddPending(key: FlowKey, bytes: nat) returns (ok: bool)
      requires Valid() && key in model.flows && bytes <= U64_MAX
      ensures ok == HasRoom(model, key, bytes)
    {
      hide WellFormed, Held, Load;
      RoomFromBooks(Records(), model, key, bytes);
      AccountsExist(Records(), model, key);
      var s := flows[key];
      if !(Fits(s.pendingMessages, 1, s.flow.policy.maxPendingMessages) && Fits(s.pendingBytes, bytes, s.flow.policy.maxPendingBytes)) {
        return false;
      }
      var connection := connections[key.connection];
      if !CanAdd(connection.usage, connection.limits, 0, 1, bytes) {
        return false;
      }
      if !CanAdd(aggregate.usage, aggregate.limits, 0, 1, bytes) {
        return false;
      }
      if s.flow.session.Some? {
        var session := sessions[s.flow.session.value];
        if !CanAdd(session.usage, session.limits, 0, 1, bytes) {
          return false;
        }
      }
      return true;
    }

    /** The `add_pending` and `remove_pending` of the implementation, for deltas of either sign. */
    method ChargePending(key: FlowKey, messages: int, bytes: int)
      requires Chargeable(Records(), key, messages, bytes)
      modifies this`aggregate, this`connections, this`sessions, this`flows
      ensures Records() == Charge(old(Records()), key, messages, bytes)
    {
      var s := flows[key];
      flows := flows[key := s.(pendingMessages := s.pendingMessages + messages, pendingBytes := s.pendingBytes + bytes)];
      connections := connections[key.connection := Shifted(connections[key.connection], 0, messages, bytes)];
      aggregate := Shifted(aggregate, 0, messages, bytes);
      if s.flow.session.Some? {
        var id := s.flow.session.value;
        sessions := sessions[id := Shifted(sessions[id], 0, messages, bytes)];
      }
    }

    /** Store a changed flow and record what it now holds. */
    method UpdateFlow(key: FlowKey, f: Flow, messages: int, bytes: int)
      requires Valid() && key in model.flows && Pending(model, key, f, messages, bytes)
      requires WellFormed(SetFlow(model, key, f))
      modifies this
      ensures Valid() && model == SetFlow(old(model), key, f)
    {
      hide WellFormed, Held, Load;
      ChargeBalances(Records(), model, key, f, messages, bytes);
      ghost var put := PutFlow(Records(), key, f);
      flows := flows[key := flows[key].(flow := f)];
      assert Records() == put;
      ChargePending(key, messages, bytes);
      model := SetFlow(model, key, f);
    }

    // -------------------------------------------------------------- establishing and associating

    method EstablishFlow(key: FlowKey, mode: Mode, policy: Policy, limits: Limits) returns (r: Result<(), EstablishError>)
      requires Valid()
      modifies this
      ensures Valid() && (model, r) == Establish(old(model), key, mode, policy, limits)
    {
      hide Load, Held, ScopeOk, FlowOk, Populated;
      EstablishKeeps(model, key, mode, policy, limits);
      ghost var after := Establish(model, key, mode, policy, limits).0;
      assert AccountOk(Records(), model, Aggregate) && AccountOk(Records(), model, OfConnection(key.connection));
      AbsentConnection(model, key.connection);
      var invalid := policy.ValidateFor(mode);
      if invalid.Some? {
        return Err(InvalidPolicy(invalid.value));
      }
      if key in flows {
        return Err(FlowAlreadyExists);
      }
      AggregateWithin(model);
      if !CanAdd(aggregate.usage, aggregate.limits, 1, 0, 0) {
        return Err(ActiveFlowLimitExceeded(AggregateScope));
      }
      if key.connection in connections {
        var connection := connections[key.connection];
        if connection.limits != limits {
          return Err(ConnectionLimitsMismatch);
        }
        ConnectionWithin(model, key.connection);
        if !CanAdd(connection.usage, connection.limits, 1, 0, 0) {
          return Err(ActiveFlowLimitExceeded(ConnectionScope));
        }
      } else if !CanAdd(NoUsage, limits, 1, 0, 0) {
        return Err(ActiveFlowLimitExceeded(ConnectionScope));
      }
      EstablishBalances(Records(), model, key, mode, policy, limits);
      aggregate := Shifted(aggregate, 1, 0, 0);
      connections := connections[key.connection := Shifted(EntryOr(connections, key.connection, limits), 1, 0, 0)];
      flows := flows[key := FlowState(NewFlow(mode, policy), 0, 0)];
      model := after;
      return Ok(());
    }

    method AssociateFlow(key: FlowKey, session: nat, open: bool, limits: Limits) returns (r: Result<AssociateOutcome, AssociateError>)
      requires Valid()
      modifies this
      ensures Valid() && (model, r) == Associate(old(model), key, session, open, limits)
    {
      hide Load, Held, ScopeOk, FlowOk, Populated;
      AssociateKeeps(model, key, session, open, limits);
      assert AccountOk(Records(), model, OfSession(session));
      if !open {
        return Err(SessionClosed);
      }
      if key !in flows {
        return Err(NoSuchFlow);
      }
      var s := flows[key];
      AccountsExist(Records(), model, key);
      if s.flow.session.Some? {
        if s.flow.session.value != session {
          return Err(DifferentSession);
        }
        return if sessions[session].limits == limits then Ok(AlreadyAssociated) else Err(SessionLimitsMismatch);
      }
      AbsentSession(model, session);
      assert Held(model.flows[key]).flows == 1 by { HeldIsOneFlow(model.flows[key]); }
      if session in sessions {
        if sessions[session].limits != limits {
          return Err(SessionLimitsMismatch);
        }
        if !CanAdd(sessions[session].usage, limits, 1, s.pendingMessages, s.pendingBytes) {
          return Err(SessionResourceLimit);
        }
      } else if !CanAdd(NoUsage, limits, 1, s.pendingMessages, s.pendingBytes) {
        return Err(SessionResourceLimit);
      }
      AssociateBalances(Records(), model, key, session, limits);
      sessions := sessions[session := Shifted(EntryOr(sessions, session, limits), 1, s.pendingMessages, s.pendingBytes)];
      flows := flows[key := s.(flow := s.flow.(session := Some(session)))];
      model := Associate(model, key, session, open, limits).0;
      return Ok(Associated);
    }

    // -------------------------------------------------------------- submitting and committing

    /** Drop the oldest backlog entry, if there is one. */
    method EvictOldest(key: FlowKey) returns (evicted: bool)
      requires Valid() && key in model.flows && !model.flows[key].mode.ReliableOrdered?
      modifies this
      ensures Valid()
      ensures evicted == (Backlog(key, old(model).flows[key]) != [])
      ensures model == if evicted then Evict(old(model), key, 1) else old(model)
    {
      hide Load, ScopeOk, QueueBytes, BufferBytes;
      var f := flows[key].flow;
      assert FlowOk(key, f);
      var backlog := Backlog(key, f);
      if backlog == [] {
        return false;
      }
      WithoutOldestOk(key, f, 1);
      EvictKeeps(model, key, 1);
      QueuePop(backlog);
      OneEntry(backlog);
      UpdateFlow(key, WithoutOldest(key, f, 1), -1, -|backlog[0].payload|);
      return true;
    }

    /** Evict oldest first until the message fits or the backlog is empty. */
    method EvictUntilRoom(key: FlowKey, bytes: nat) returns (drops: nat, fits: bool)
      requires Valid() && key in model.flows && !model.flows[key].mode.ReliableOrdered? && bytes <= U64_MAX
      modifies this
      ensures Valid()
      ensures drops == EvictionCount(old(model), key, bytes, 0)
      ensures model == Evict(old(model), key, drops) && fits == HasRoom(model, key, bytes)
    {
      hide HasRoom, WellFormed, Balanced;
      ghost var before := model;
      EvictNothing(before, key);
      drops := 0;
      fits := CanAddPending(key, bytes);
      while !fits
        invariant Valid() && key in before.flows && drops <= |Backlog(key, before.flows[key])|
        invariant model == Evict(before, key, drops) && fits == HasRoom(model, key, bytes)
        invariant EvictionCount(before, key, bytes, 0) == EvictionCount(before, key, bytes, drops)
        decreases |Backlog(key, before.flows[key])| - drops, !fits
      {
        EvictTwice(before, key, drops);
        var evicted := EvictOldest(key);
        if !evicted {
          return drops, false;
        }
        drops := drops + 1;
        fits := CanAddPending(key, bytes);
      }
    }

    method AppendOutbound(key: FlowKey, i: u64, payload: seq<u8>)
      requires Valid() && key in model.flows && key.direction.Outbound? && model.flows[key].nextIndex == Some(i)
      requires |payload| <= model.flows[key].policy.maxMessageBytes && HasRoom(model, key, |payload|)
      modifies this
      ensures Valid() && model == Enqueue(old(model), key, i, payload)
    {
      hide Load, ScopeOk, ScopeHasRoom, Held;
      var f := flows[key].flow;
      EnqueueKeeps(model, key, i, payload);
      EnqueueOk(key, f, i, payload);
      UpdateFlow(key, f.(nextIndex := Next(i), outbound := f.outbound + [Transfer(f.mode, i, payload)]), 1, |payload|);
    }

    method SubmitMessage(key: FlowKey, payload: seq<u8>) returns (r: Result<SubmissionOutcome, OpError>)
      requires Valid()
      modifies this
      ensures Valid() && (model, r) == Submit(old(model), key, payload)
    {
      hide HasRoom, Balanced, ScopeOk, EvictionCount;
      var contract := FlowContract(key);
      if contract.None? {
        return Err(UnknownFlow);
      }
      if !key.direction.Outbound? {
        return Err(WrongDirection);
      }
      assert FlowOk(key, model.flows[key]);
      var f := CurrentFlow(key);
      if |payload| > f.policy.maxMessageBytes {
        return Ok(RejectedTooLarge);
      }
      if f.nextIndex.None? {
        return Ok(RejectedCounterExhausted);
      }
      var i := f.nextIndex.value;
      var fits := CanAddPending(key, |payload|);
      var drops := 0;
      if !fits {
        if f.policy.outboundPressure.RejectNew? {
          return Ok(RejectedPressure);
        }
        drops, fits := EvictUntilRoom(key, |payload|);
        if !fits {
          return Ok(RejectedPressure);
        }
      }
      AppendOutbound(key, i, payload);
      if drops > 0 {
        AddOutboundDrops(drops);
      }
      return Ok(Accepted(i, drops));
    }

    method CurrentFlow(key: FlowKey) returns (f: Flow)
      requires Valid() && key in model.flows
      ensures f == model.flows[key]
    {
      f := flows[key].flow;
    }

    method AddOutboundDrops(n: nat)
      requires Valid()
      modifies this
      ensures Valid() && model == CountOutboundDrops(old(model), n)
    {
      hide FlowOk, Load, Held;
      diagnostics := diagnostics.(outboundDrops := Saturate(diagnostics.outboundDrops + n));
      SetDiagnostics(model, diagnostics, Records());
      model := model.(diagnostics := diagnostics);
    }

    method AddInboundDrops(n: nat)
      requires Valid()
      modifies this
      ensures Valid() && model == CountInboundDrops(old(model), n)
    {
      hide FlowOk, Load, Held;
      diagnostics := diagnostics.(inboundDrops := Saturate(diagnostics.inboundDrops + n));
      SetDiagnostics(model, diagnostics, Records());
      model := model.(diagnostics := diagnostics);
    }

    method AddStale(n: nat)
      requires Valid()
      modifies this
      ensures Valid() && model == CountStale(old(model), n)
    {
      hide FlowOk, Load, Held;
      diagnostics := diagnostics.(staleDrops := Saturate(diagnostics.staleDrops + n));
      SetDiagnostics(model, diagnostics, Records());
      model := model.(diagnostics := diagnostics);
    }

    method AddDuplicate()
      requires Valid()
      modifies this
      ensures Valid() && model == old(model).(diagnostics := old(model).diagnostics.(duplicates := Saturate(old(model).diagnostics.duplicates + 1)))
    {
      hide FlowOk, Load, Held;
      diagnostics := diagnostics.(duplicates := Saturate(diagnostics.duplicates + 1));
      SetDiagnostics(model, diagnostics, Records());
      model := model.(diagnostics := diagnostics);
    }

    method Peek(key: FlowKey) returns (r: Result<Option<Transfer>, OpError>)
      requires Valid()
      ensures r == PeekOutbound(model, key)
    {
      hide WellFormed;
      if key !in flows {
        return Err(UnknownFlow);
      }
      if !key.direction.Outbound? {
        return Err(WrongDirection);
      }
      var queue := flows[key].flow.outbound;
      return if queue == [] then Ok(None) else Ok(Some(queue[0]));
    }

    /** The index the next accepted message would carry. */
    method NextAcceptedIndex(key: FlowKey) returns (r: Result<Option<u64>, OpError>)
      requires Valid()
      ensures r == if key !in model.flows then Err(UnknownFlow)
                   else if !key.direction.Outbound? then Err(WrongDirection)
                   else Ok(model.flows[key].nextIndex)
    {
      hide WellFormed;
      if key !in flows {
        return Err(UnknownFlow);
      }
      if !key.direction.Outbound? {
        return Err(WrongDirection);
      }
      return Ok(flows[key].flow.nextIndex);
    }

    method CommitCustody(key: FlowKey, index: u64) returns (r: Result<Transfer, CustodyError>)
      requires Valid()
      modifies this
      ensures Valid() && (model, r) == Commit(old(model), key, index)
    {
      hide Load, ScopeOk, QueueBytes, BufferBytes;
      if !key.direction.Outbound? {
        return Err(CustodyWrongDirection);
      }
      if key !in flows {
        return Err(CustodyUnknownFlow);
      }
      var f := flows[key].flow;
      assert FlowOk(key, f);
      if f.outbound == [] {
        return Err(NoPendingMessage);
      }
      var front := f.outbound[0];
      if front.index != index {
        return Err(NotFront);
      }
      WithoutOldestOk(key, f, 1);
      EvictKeeps(model, key, 1);
      QueuePop(f.outbound);
      OneEntry(f.outbound);
      UpdateFlow(key, WithoutOldest(key, f, 1), -1, -|front.payload|);
      return Ok(front);
    }

    // -------------------------------------------------------------- termination

    method TerminateFlow(key: FlowKey, reason: Reason) returns (r: Result<Termination, OpError>)
      requires Valid()
      modifies this
      ensures Valid() && (model, r) == Terminate(old(model), key, reason)
    {
      hide Load, Held, ScopeOk, FlowOk, Populated;
      if key !in flows {
        return Err(UnknownFlow);
      }
      TerminateKeeps(model, key, reason);
      TerminateBalances(Records(), model, key, reason);
      var s := flows[key];
      var failed := s.flow.mode.ReliableOrdered? && (s.pendingMessages > 0 || reason.ForcesFailure());
      flows := flows - {key};
      aggregate := Shifted(aggregate, -1, -(s.pendingMessages as int), -(s.pendingBytes as int));
      connections := Release(connections, key.connection, s.pendingMessages, s.pendingBytes);
      if s.flow.session.Some? {
        sessions := Release(sessions, s.flow.session.value, s.pendingMessages, s.pendingBytes);
      }
      model := Terminate(model, key, reason).0;
      return Ok(Termination(key, reason, s.pendingMessages, failed));
    }

    method FailReliableCustody(key: FlowKey) returns (r: Result<Termination, OpError>)
      requires Valid()
      modifies this
      ensures Valid() && (model, r) == FailCustody(old(model), key)
    {
      hide WellFormed, Terminate;
      if key !in flows {
        return Err(UnknownFlow);
      }
      if !flows[key].flow.mode.ReliableOrdered? {
        return Err(NotReliable);
      }
      r := TerminateFlow(key, ReliableCustodyLost);
    }

    // -------------------------------------------------------------- receiving

    method ReceiveTransportPayload(key: FlowKey, index: u64, payload: seq<u8>) returns (r: Result<ReceiveOutcome, OpError>)
      requires Valid()
      modifies this
      ensures Valid() && (model, r) == ReceivePayload(old(model), key, index, payload)
    {
      hide WellFormed, Receive;
      if !key.direction.Inbound? {
        return Err(WrongDirection);
      }
      if key !in flows {
        return Err(UnknownFlow);
      }
      r := ReceiveTransfer(key, Transfer(flows[key].flow.mode, index, payload));
    }

    method ReceiveTransfer(key: FlowKey, t: Transfer) returns (r: Result<ReceiveOutcome, OpError>)
      requires Valid()
      modifies this
      ensures Valid() && (model, r) == Receive(old(model), key, t)
    {
      hide ScopeOk, Terminate, ReceiveReliable, ReceiveUnreliable;
      if !key.direction.Inbound? {
        return Err(WrongDirection);
      }
      if key !in flows {
        return Err(UnknownFlow);
      }
      var f := flows[key].flow;
      assert FlowOk(key, f);
      if t.mode != f.mode {
        if f.mode.ReliableOrdered? {
          var _ := TerminateFlow(key, ReliableModeMismatch);
          return Ok(TerminalReliableFailure);
        }
        return Ok(RejectedModeMismatch);
      }
      if |t.payload| > f.policy.maxMessageBytes {
        if f.mode.ReliableOrdered? {
          var _ := TerminateFlow(key, ReliableInboundTooLarge);
          return Ok(TerminalReliableFailure);
        }
        return Ok(DroppedTooLarge);
      }
      var outcome;
      match f.mode {
        case ReliableOrdered => outcome := ReceiveInOrder(key, t);
        case UnreliableUnordered => outcome := ReceiveQueued(key, t, false);
        case UnreliableSequenced => outcome := ReceiveQueued(key, t, true);
      }
      return Ok(outcome);
    }

    method ReceiveInOrder(key: FlowKey, t: Transfer) returns (outcome: ReceiveOutcome)
      requires Valid() && key in model.flows && key.direction.Inbound? && model.flows[key].receiver.Reliable?
      requires t.mode == model.flows[key].mode && |t.payload| <= model.flows[key].policy.maxMessageBytes
      modifies this
      ensures Valid() && (model, outcome) == ReceiveReliable(old(model), key, t)
    {
      hide ScopeOk, ScopeHasRoom, Terminate, Held;
      var f := flows[key].flow;
      assert FlowOk(key, f);
      var Reliable(byIndex, next) := f.receiver;
      if next.None? || t.index < next.value {
        AddDuplicate();
        return DuplicateReliable;
      }
      if t.index in byIndex {
        if byIndex[t.index] != t {
          var _ := TerminateFlow(key, ReliableTransferConflict);
          return TerminalReliableFailure;
        }
        AddDuplicate();
        return DuplicateReliable;
      }
      var fits := CanAddPending(key, |t.payload|);
      if !fits {
        var _ := TerminateFlow(key, ReliableReceiverPressure);
        return TerminalReliableFailure;
      }
      ReceiveReliableKeeps(model, key, t);
      BufferOk(key, f, t);
      UpdateFlow(key, f.(receiver := f.receiver.(byIndex := byIndex[t.index := t])), 1, |t.payload|);
      return Buffered(0);
    }

    method AppendInbound(key: FlowKey, t: Transfer)
      requires Valid() && key in model.flows && key.direction.Inbound? && model.flows[key].receiver.Unreliable?
      requires t.mode == model.flows[key].mode && |t.payload| <= model.flows[key].policy.maxMessageBytes
      requires HasRoom(model, key, |t.payload|)
      modifies this
      ensures Valid() && model == PushQueue(old(model), key, t)
    {
      hide Load, ScopeOk, ScopeHasRoom, Held;
      var f := flows[key].flow;
      PushKeeps(model, key, t);
      PushOk(key, f, t);
      UpdateFlow(key, f.(receiver := f.receiver.(queue := f.receiver.queue + [t])), 1, |t.payload|);
    }

    method ReceiveQueued(key: FlowKey, t: Transfer, sequenced: bool) returns (outcome: ReceiveOutcome)
      requires Valid() && key in model.flows && key.direction.Inbound? && model.flows[key].receiver.Unreliable?
      requires sequenced == model.flows[key].mode.UnreliableSequenced?
      requires t.mode == model.flows[key].mode && |t.payload| <= model.flows[key].policy.maxMessageBytes
      modifies this
      ensures Valid() && (model, outcome) == ReceiveUnreliable(old(model), key, t)
    {
      hide HasRoom, Balanced, ScopeOk, EvictionCount;
      assert FlowOk(key, model.flows[key]);
      var f := CurrentFlow(key);
      if sequenced && f.receiver.lastExposed.Some? && t.index <= f.receiver.lastExposed.value {
        AddStale(1);
        return StaleSequenced;
      }
      var drops := 0;
      var fits := CanAddPending(key, |t.payload|);
      if !fits {
        if f.policy.receiverPressure.DropIncoming? {
          AddInboundDrops(1);
          return DroppedByPressure(1);
        }
        drops, fits := EvictUntilRoom(key, |t.payload|);
        if !fits {
          AddInboundDrops(drops + 1);
          return DroppedByPressure(drops + 1);
        }
      }
      AppendInbound(key, t);
      if drops > 0 {
        AddInboundDrops(drops);
      }
      return Buffered(drops);
    }

    // -------------------------------------------------------------- exposure

    method PollExposure(key: FlowKey) returns (r: Result<Option<Exposed>, OpError>)
      requires Valid()
      modifies this
      ensures Valid() && (model, r) == Expose(old(model), key)
    {
      hide ScopeOk, Balanced, ExposeReliable, ExposeUnordered, ExposeSequenced;
      if !key.direction.Inbound? {
        return Err(WrongDirection);
      }
      var contract := FlowContract(key);
      if contract.None? {
        return Err(UnknownFlow);
      }
      assert FlowOk(key, model.flows[key]);
      var f := CurrentFlow(key);
      var exposed;
      match f.mode {
        case ReliableOrdered => exposed := PollReliable(key);
        case UnreliableUnordered => exposed := PollUnordered(key);
        case UnreliableSequenced => exposed := PollSequenced(key);
      }
      return Ok(exposed);
    }

    method PollReliable(key: FlowKey) returns (r: Option<Exposed>)
      requires Valid() && key in model.flows && key.direction.Inbound? && model.flows[key].receiver.Reliable?
      modifies this
      ensures Valid() && r == ExposeReliable(old(model).flows[key]).1
      ensures model == CountStale(SetFlow(old(model), key, ExposeReliable(old(model).flows[key]).0), 0)
    {
      hide ScopeOk, QueueBytes, BufferBytes;
      ghost var before := model;
      var f := flows[key].flow;
      assert FlowOk(key, f);
      var Reliable(byIndex, next) := f.receiver;
      assert before.flows[key := f] == before.flows;
      if next.None? || next.value !in byIndex {
        return None;
      }
      var t := byIndex[next.value];
      ExposeReliableOk(key, f);
      BufferDrop(byIndex, next.value);
      ghost var g := f.(receiver := Reliable(byIndex - {next.value}, Next(next.value)));
      SetFlowKeeps(model, key, g);
      UpdateFlow(key, f.(receiver := Reliable(byIndex - {next.value}, Next(next.value))), -1, -|t.payload|);
      return Some(Exposed(t.index, t.payload));
    }

    method PollUnordered(key: FlowKey) returns (r: Option<Exposed>)
      requires Valid() && key in model.flows && key.direction.Inbound? && model.flows[key].receiver.Unreliable?
      modifies this
      ensures Valid() && r == ExposeUnordered(old(model).flows[key]).1
      ensures model == CountStale(SetFlow(old(model), key, ExposeUnordered(old(model).flows[key]).0), 0)
    {
      hide ScopeOk, QueueBytes, BufferBytes, Balanced;
      ghost var before := model;
      assert FlowOk(key, model.flows[key]);
      var f := CurrentFlow(key);
      assert before.flows[key := f] == before.flows;
      var evicted := EvictOldest(key);
      return if evicted then Some(Exposed(f.receiver.queue[0].index, f.receiver.queue[0].payload)) else None;
    }

    /** The loop that pops until an entry newer than everything already exposed appears. */
    method PollSequenced(key: FlowKey) returns (r: Option<Exposed>)
      requires Valid() && key in model.flows && key.direction.Inbound? && model.flows[key].receiver.Unreliable?
      requires model.flows[key].mode.UnreliableSequenced?
      modifies this
      ensures Valid() && r == ExposeSequenced(old(model).flows[key]).1
      ensures model == CountStale(SetFlow(old(model), key, ExposeSequenced(old(model).flows[key]).0), SkippedBy(old(model).flows[key]))
    {
      hide WellFormed, Balanced, Held, CountStale;
      ghost var before := model;
      ghost var q := before.flows[key].receiver.queue;
      ghost var n := StalePrefix(q, before.flows[key].receiver.lastExposed);
      var last := LastExposed(key);
      ghost var popped := 0;
      PoppedNone(before, key);
      while true
        invariant Valid() && popped <= n
        invariant model == Popped(before, key, popped)
        decreases n - popped
      {
        PoppedFlow(before, key, popped);
        var front := Front(key);
        var evicted := EvictOldest(key);
        if !evicted {
          PoppedAll(before, key);
          return None;
        }
        if last.Some? && front.index <= last.value {
          AddStale(1);
          PoppedOne(before, key, popped);
          popped := popped + 1;
        } else {
          MarkExposed(key, front.index);
          PoppedLast(before, key, popped);
          return Some(Exposed(front.index, front.payload));
        }
      }
    }

    method LastExposed(key: FlowKey) returns (last: Option<u64>)
      requires Valid() && key in model.flows && model.flows[key].receiver.Unreliable?
      ensures last == model.flows[key].receiver.lastExposed
    {
      last := flows[key].flow.receiver.lastExposed;
    }

    method Front(key: FlowKey) returns (front: Transfer)
      requires Valid() && key in model.flows && model.flows[key].receiver.Unreliable?
      ensures model.flows[key].receiver.queue != [] ==> front == model.flows[key].receiver.queue[0]
    {
      var queue := flows[key].flow.receiver.queue;
      front := if queue == [] then Transfer(UnreliableSequenced, 0, []) else queue[0];
    }

    method MarkExposed(key: FlowKey, index: u64)
      requires Valid() && key in model.flows && key.direction.Inbound? && model.flows[key].receiver.Unreliable?
      modifies this
      ensures Valid()
      ensures var f := old(model).flows[key]; model == SetFlow(old(model), key, f.(receiver := f.receiver.(lastExposed := Some(index))))
    {
      hide ScopeOk, QueueBytes;
      var f := flows[key].flow;
      assert FlowOk(key, f);
      var g := f.(receiver := f.receiver.(lastExposed := Some(index)));
      SetFlowKeeps(model, key, g);
      UpdateFlow(key, g, 0, 0);
    }
  }

  // ---------------------------------------------------------------- support

  /** The endpoint after `j` stale entries of a sequenced flow have been popped and counted. */
  ghost function Popped(ep: Endpoint, key: FlowKey, j: nat): Endpoint
    requires key in ep.flows && ep.flows[key].receiver.Unreliable? && j <= |ep.flows[key].receiver.queue|
  {
    var f := ep.flows[key];
    CountStale(SetFlow(ep, key, f.(receiver := f.receiver.(queue := f.receiver.queue[j..]))), j)
  }

  lemma PoppedNone(ep: Endpoint, key: FlowKey)
    requires key in ep.flows && ep.flows[key].receiver.Unreliable?
    ensures Popped(ep, key, 0) == ep
  {
    var f := ep.flows[key];
    assert f.receiver.queue[0..] == f.receiver.queue && ep.flows[key := f] == ep.flows;
  }

  lemma PoppedFlow(ep: Endpoint, key: FlowKey, j: nat)
    requires key in ep.flows && ep.flows[key].receiver.Unreliable? && j <= |ep.flows[key].receiver.queue|
    ensures var f := ep.flows[key];
            && key in Popped(ep, key, j).flows
            && Popped(ep, key, j).flows[key] == f.(receiver := f.receiver.(queue := f.receiver.queue[j..]))
  {
  }

  lemma PoppedOne(ep: Endpoint, key: FlowKey, j: nat)
    requires key in ep.flows && key.direction.Inbound? && ep.flows[key].receiver.Unreliable? && j < |ep.flows[key].receiver.queue|
    ensures CountStale(Evict(Popped(ep, key, j), key, 1), 1) == Popped(ep, key, j + 1)
  {
    var q := ep.flows[key].receiver.queue;
    assert q[j..][1..] == q[j + 1..];
  }

  lemma PoppedAll(ep: Endpoint, key: FlowKey)
    requires key in ep.flows && ep.flows[key].receiver.Unreliable? && ep.flows[key].mode.UnreliableSequenced?
    requires StalePrefix(ep.flows[key].receiver.queue, ep.flows[key].receiver.lastExposed) == |ep.flows[key].receiver.queue|
    ensures var f := ep.flows[key];
            Popped(ep, key, |f.receiver.queue|) == CountStale(SetFlow(ep, key, ExposeSequenced(f).0), SkippedBy(f))
  {
    var q := ep.flows[key].receiver.queue;
    assert q[|q|..] == [];
  }

  lemma PoppedLast(ep: Endpoint, key: FlowKey, j: nat)
    requires key in ep.flows && key.direction.Inbound? && ep.flows[key].receiver.Unreliable? && ep.flows[key].mode.UnreliableSequenced?
    requires j == StalePrefix(ep.flows[key].receiver.queue, ep.flows[key].receiver.lastExposed) < |ep.flows[key].receiver.queue|
    ensures var f := ep.flows[key];
            var trimmed := Evict(Popped(ep, key, j), key, 1);
            var g := trimmed.flows[key];
            && ExposeSequenced(f).1 == Some(Exposed(f.receiver.queue[j].index, f.receiver.queue[j].payload))
            && SetFlow(trimmed, key, g.(receiver := g.receiver.(lastExposed := Some(f.receiver.queue[j].index))))
               == CountStale(SetFlow(ep, key, ExposeSequenced(f).0), SkippedBy(f))
  {
    var q := ep.flows[key].receiver.queue;
    assert q[j..][1..] == q[j + 1..];
  }

  lemma OneEntry(q: seq<Transfer>)
    requires q != []
    ensures QueueBytes(q[..1]) == |q[0].payload|
  {
    assert q[..1][..0] == [];
  }

  lemma EvictNothing(ep: Endpoint, key: FlowKey)
    requires key in ep.flows
    ensures Evict(ep, key, 0) == ep
  {
    var f := ep.flows[key];
    assert WithoutOldest(key, f, 0) == f;
    assert ep.flows[key := f] == ep.flows;
  }

  lemma EvictTwice(ep: Endpoint, key: FlowKey, n: nat)
    requires key in ep.flows && n <= |Backlog(key, ep.flows[key])|
    ensures var trimmed := Evict(ep, key, n);
            && Backlog(key, trimmed.flows[key]) == Backlog(key, ep.flows[key])[n..]
            && (n < |Backlog(key, ep.flows[key])| ==> Evict(trimmed, key, 1) == Evict(ep, key, n + 1))
  {
    var q := Backlog(key, ep.flows[key]);
    if n < |q| {
      assert q[n..][1..] == q[n + 1..];
    }
  }

  lemma SetDiagnostics(ep: Endpoint, d: Diagnostics, b: Ledger)
    requires WellFormed(ep) && Balanced(b, ep)
    ensures WellFormed(ep.(diagnostics := d)) && Balanced(b, ep.(diagnostics := d))
  {
    hide FlowOk, Load, Held;
    DiagnosticsAreInert(ep, d);
    forall sc ensures AccountOk(b, ep.(diagnostics := d), sc) {
      assert AccountOk(b, ep, sc);
    }
  }

}
