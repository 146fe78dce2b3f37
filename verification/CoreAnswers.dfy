/** What each Core operation answers, and to whom: every outcome with the condition under which it is given
    and the state it leaves, told by what the caller can see. */
module CoreAnswers {
  import opened Basics
  import opened Delivery
  import opened Core
  import opened CoreInvariant
  import opened CoreHistory
  import opened CoreDiagnostics

  /** The endpoint with another queue of received messages in one flow. */
  function WithReceived(ep: Endpoint, key: FlowKey, q: seq<Transfer>): Endpoint
    requires key in ep.flows
  {
    var f := ep.flows[key];
    ep.(flows := ep.flows[key := f.(receiver := Unreliable(q, if f.receiver.Unreliable? then f.receiver.lastExposed else None))])
  }

  function WithQueued(ep: Endpoint, key: FlowKey, q: seq<Transfer>): Endpoint
    requires key in ep.flows
  {
    ep.(flows := ep.flows[key := ep.flows[key].(outbound := q)])
  }

  function MoreInboundDrops(ep: Endpoint, n: nat): Endpoint {
    var d := ep.diagnostics;
    ep.(diagnostics := Diagnostics(d.outboundDrops, Min(d.inboundDrops + n, U64_MAX), d.staleDrops, d.duplicates))
  }

  function MoreStaleDrops(ep: Endpoint, n: nat): Endpoint {
    var d := ep.diagnostics;
    ep.(diagnostics := Diagnostics(d.outboundDrops, d.inboundDrops, Min(d.staleDrops + n, U64_MAX), d.duplicates))
  }

  function OneMoreDuplicate(ep: Endpoint): Endpoint {
    var d := ep.diagnostics;
    ep.(diagnostics := Diagnostics(d.outboundDrops, d.inboundDrops, d.staleDrops, Min(d.duplicates + 1, U64_MAX)))
  }

  // ---------------------------------------------------------------- unreliable arrivals

  /** A live inbound flow of an unreliable mode. */
  ghost predicate Lossy(ep: Endpoint, key: FlowKey) {
    WellFormed(ep) && key in ep.flows && key.direction.Inbound? && !ep.flows[key].mode.ReliableOrdered?
  }

  /** The queue of received messages. */
  function Received(f: Flow): seq<Transfer> {
    if f.receiver.Unreliable? then f.receiver.queue else []
  }

  /** On a sequenced flow nothing at or below the last index exposed is of use. */
  predicate Outdated(f: Flow, index: u64) {
    && f.mode == UnreliableSequenced && f.receiver.Unreliable?
    && f.receiver.lastExposed.Some? && index <= f.receiver.lastExposed.value
  }

  /** A transfer that only pressure can keep out. */
  predicate Welcome(f: Flow, t: Transfer) {
    t.mode == f.mode && |t.payload| <= f.policy.maxMessageBytes && !Outdated(f, t.index)
  }

  /** The three refusals that pressure has no part in: wrong mode, too large, outdated, in this order; only
      the last is counted. */
  lemma UnwelcomeArrival(ep: Endpoint, key: FlowKey, t: Transfer)
    requires Lossy(ep, key) && !Welcome(ep.flows[key], t)
    ensures var f := ep.flows[key];
            Receive(ep, key, t) ==
              if t.mode != f.mode then (ep, Ok(RejectedModeMismatch))
              else if |t.payload| > f.policy.maxMessageBytes then (ep, Ok(DroppedTooLarge))
              else (MoreStaleDrops(ep, 1), Ok(StaleSequenced))
  {
    hide HasRoom, Held, ScopeOk;
    assert FlowOk(key, ep.flows[key]);
  }

  /** With room the message joins the end of the queue, and nothing is counted. */
  lemma RoomyArrival(ep: Endpoint, key: FlowKey, t: Transfer)
    requires Lossy(ep, key) && Welcome(ep.flows[key], t) && HasRoom(ep, key, |t.payload|)
    ensures Receive(ep, key, t) == (WithReceived(ep, key, Received(ep.flows[key]) + [t]), Ok(Buffered(0)))
  {
    hide HasRoom, Held, ScopeOk;
    assert FlowOk(key, ep.flows[key]);
  }

  /** Without room a flow that drops what comes in keeps its queue, and the newcomer is counted. */
  lemma DroppedArrival(ep: Endpoint, key: FlowKey, t: Transfer)
    requires Lossy(ep, key) && Welcome(ep.flows[key], t) && !HasRoom(ep, key, |t.payload|)
    requires ep.flows[key].policy.receiverPressure == DropIncoming
    ensures Receive(ep, key, t) == (MoreInboundDrops(ep, 1), Ok(DroppedByPressure(1)))
  {
    hide HasRoom, Held, ScopeOk, EvictionCount;
    assert FlowOk(key, ep.flows[key]);
  }

  /** `n` is the least number of oldest entries without which the message fits. */
  ghost predicate LeastEviction(ep: Endpoint, key: FlowKey, bytes: nat, n: nat)
    requires key in ep.flows
  {
    && n <= |Backlog(key, ep.flows[key])| && HasRoom(Evict(ep, key, n), key, bytes)
    && forall m: nat :: m < n ==> !HasRoom(Evict(ep, key, m), key, bytes)
  }

  lemma LeastIsCounted(ep: Endpoint, key: FlowKey, bytes: nat, n: nat)
    requires WellFormed(ep) && key in ep.flows && LeastEviction(ep, key, bytes, n)
    ensures EvictionCount(ep, key, bytes, 0) == n
  {
    hide HasRoom, WellFormed;
    EvictionIsLeast(ep, key, bytes);
    assert HasRoom(Evict(ep, key, n), key, bytes);
  }

  /** Without room a flow that evicts loses its `n` oldest entries, the least number that makes the message
      fit, and takes the message; all of them are counted. */
  lemma EvictingArrival(ep: Endpoint, key: FlowKey, t: Transfer, n: nat)
    requires Lossy(ep, key) && Welcome(ep.flows[key], t) && !HasRoom(ep, key, |t.payload|)
    requires ep.flows[key].policy.receiverPressure == EvictBuffered && LeastEviction(ep, key, |t.payload|, n)
    ensures n <= |Received(ep.flows[key])|
    ensures Receive(ep, key, t) == (MoreInboundDrops(WithReceived(ep, key, Received(ep.flows[key])[n..] + [t]), n), Ok(Buffered(n)))
  {
    hide HasRoom, Held, ScopeOk, EvictionCount;
    assert FlowOk(key, ep.flows[key]);
    LeastIsCounted(ep, key, |t.payload|, n);
    hide WellFormed;
    var trimmed := Evict(ep, key, n);
    assert PushQueue(trimmed, key, t).flows == WithReceived(ep, key, Received(ep.flows[key])[n..] + [t]).flows;
  }

  /** When not even an empty queue makes the message fit, such a flow loses everything, the newcomer
      included, and all of it is counted. */
  lemma HopelessArrival(ep: Endpoint, key: FlowKey, t: Transfer)
    requires Lossy(ep, key) && Welcome(ep.flows[key], t) && (forall n: nat :: !LeastEviction(ep, key, |t.payload|, n))
    requires ep.flows[key].policy.receiverPressure == EvictBuffered
    ensures var all := |Received(ep.flows[key])|;
            Receive(ep, key, t) == (MoreInboundDrops(WithReceived(ep, key, []), all + 1), Ok(DroppedByPressure(all + 1)))
  {
    hide HasRoom, Held, ScopeOk, EvictionCount;
    assert FlowOk(key, ep.flows[key]);
    NoLeast(ep, key, |t.payload|);
    hide WellFormed;
    var q := Received(ep.flows[key]);
    assert q[|q|..] == [];
  }

  /** If no number of evictions is the least one, none helps. */
  lemma NoLeast(ep: Endpoint, key: FlowKey, bytes: nat)
    requires WellFormed(ep) && key in ep.flows && forall n: nat :: !LeastEviction(ep, key, bytes, n)
    ensures !HasRoom(ep, key, bytes) && EvictionCount(ep, key, bytes, 0) == |Backlog(key, ep.flows[key])|
    ensures !HasRoom(Evict(ep, key, |Backlog(key, ep.flows[key])|), key, bytes)
  {
    hide HasRoom, WellFormed, LeastEviction;
    EvictionIsLeast(ep, key, bytes);
    EvictionStops(ep, key, bytes, 0);
    var n := EvictionCount(ep, key, bytes, 0);
    EvictNothing(ep, key);
    LeastFrom(ep, key, bytes, n);
    LeastFrom(ep, key, bytes, 0);
    assert !LeastEviction(ep, key, bytes, n) && !LeastEviction(ep, key, bytes, 0);
  }

  lemma LeastFrom(ep: Endpoint, key: FlowKey, bytes: nat, n: nat)
    requires key in ep.flows && n <= |Backlog(key, ep.flows[key])|
    requires forall m: nat :: m < n ==> !HasRoom(Evict(ep, key, m), key, bytes)
    ensures HasRoom(Evict(ep, key, n), key, bytes) ==> LeastEviction(ep, key, bytes, n)
  {
    hide HasRoom;
  }

  lemma EvictNothing(ep: Endpoint, key: FlowKey)
    requires key in ep.flows
    ensures Evict(ep, key, 0) == ep
  {
    assert WithoutOldest(key, ep.flows[key], 0) == ep.flows[key];
  }

  // ---------------------------------------------------------------- what room is

  /** A submission fits exactly if the endpoint with the message queued is still within every limit. */
  lemma SubmissionRoom(ep: Endpoint, key: FlowKey, payload: seq<u8>)
    requires WellFormed(ep) && key in ep.flows && key.direction.Outbound? && ep.flows[key].nextIndex.Some?
    requires |payload| <= ep.flows[key].policy.maxMessageBytes
    ensures var f := ep.flows[key];
            var i := f.nextIndex.value;
            HasRoom(ep, key, |payload|) <==> WellFormed(ep.(flows := ep.flows[key := f.(nextIndex := Next(i), outbound := f.outbound + [Transfer(f.mode, i, payload)])]))
  {
    var f := ep.flows[key];
    var i := f.nextIndex.value;
    var g := f.(nextIndex := Next(i), outbound := f.outbound + [Transfer(f.mode, i, payload)]);
    if HasRoom(ep, key, |payload|) {
      EnqueueKeeps(ep, key, i, payload);
    } else if WellFormed(ep.(flows := ep.flows[key := g])) {
      QueuePush(f.outbound, Transfer(f.mode, i, payload));
      FitsHadRoom(ep, key, g, |payload|);
    }
  }

  /** A transfer fits an unreliable flow exactly if the endpoint with it queued is still within every limit. */
  lemma ArrivalRoom(ep: Endpoint, key: FlowKey, t: Transfer)
    requires Lossy(ep, key) && t.mode == ep.flows[key].mode && |t.payload| <= ep.flows[key].policy.maxMessageBytes
    ensures HasRoom(ep, key, |t.payload|) <==> WellFormed(WithReceived(ep, key, Received(ep.flows[key]) + [t]))
  {
    var f := ep.flows[key];
    assert FlowOk(key, f) by { hide HasRoom, ScopeOk; }
    var g := f.(receiver := f.receiver.(queue := f.receiver.queue + [t]));
    if HasRoom(ep, key, |t.payload|) {
      PushKeeps(ep, key, t);
    } else if WellFormed(ep.(flows := ep.flows[key := g])) {
      QueuePush(f.receiver.queue, t);
      FitsHadRoom(ep, key, g, |t.payload|);
    }
  }

  /** A flow that holds one message more within all limits had room for it. */
  lemma FitsHadRoom(ep: Endpoint, key: FlowKey, g: Flow, bytes: nat)
    requires WellFormed(ep) && key in ep.flows && WellFormed(ep.(flows := ep.flows[key := g]))
    requires g.session == ep.flows[key].session && g.policy == ep.flows[key].policy
    requires Held(g) == Usage(1, Held(ep.flows[key]).messages + 1, Held(ep.flows[key]).bytes + bytes)
    ensures HasRoom(ep, key, bytes)
  {
    var f := ep.flows[key];
    var after := ep.(flows := ep.flows[key := g]);
    assert FlowOk(key, g) by { assert after.flows[key] == g; }
    FitsScope(ep, key, g, bytes, OfConnection(key.connection));
    FitsScope(ep, key, g, bytes, Aggregate);
    if f.session.Some? {
      FitsScope(ep, key, g, bytes, OfSession(f.session.value));
    }
  }

  lemma FitsScope(ep: Endpoint, key: FlowKey, g: Flow, bytes: nat, sc: Scope)
    requires key in ep.flows && ScopeOk(ep, sc) && ScopeOk(ep.(flows := ep.flows[key := g]), sc)
    requires InScope(sc, key, ep.flows[key]) && g.session == ep.flows[key].session
    requires Held(g) == Usage(1, Held(ep.flows[key]).messages + 1, Held(ep.flows[key]).bytes + bytes)
    ensures ScopeHasRoom(ep, sc, bytes)
  {
    hide Load, Held;
    HeldIsOneFlow(ep.flows[key]);
    LoadReplace(sc, ep.flows, key, g);
    assert Populated(sc, ep.flows);
    assert LimitsOf(ep, sc) == LimitsOf(ep.(flows := ep.flows[key := g]), sc);
  }

  // ---------------------------------------------------------------- reliable arrivals

  /** A duplicate, of something exposed or of something still buffered, changes nothing and is counted; any
      other transfer that stays is put under its own index and counted nowhere. */
  lemma DuplicateArrival(ep: Endpoint, key: FlowKey, t: Transfer)
    requires WellFormed(ep) && key in ep.flows && key.direction.Inbound? && ep.flows[key].mode.ReliableOrdered?
    ensures var f := ep.flows[key];
            var (after, r) := Receive(ep, key, t);
            var duplicate := t.index < Count(f.receiver.nextExposure) || (t.index in f.receiver.byIndex && f.receiver.byIndex[t.index].payload == t.payload);
            && (r == Ok(DuplicateReliable) <==> t.mode == f.mode && |t.payload| <= f.policy.maxMessageBytes && duplicate)
            && (r == Ok(DuplicateReliable) ==> after == OneMoreDuplicate(ep))
            && (r.Ok? && r.value.Buffered? ==>
                  r.value.drops == 0 && after == ep.(flows := ep.flows[key := f.(receiver := f.receiver.(byIndex := f.receiver.byIndex[t.index := t]))]))
            && (r.Ok? && r.value.TerminalReliableFailure? ==> after.flows == ep.flows - {key} && after.diagnostics == ep.diagnostics)
            && (r == Ok(DuplicateReliable) || (r.Ok? && r.value.Buffered?) || r == Ok(TerminalReliableFailure))
  {
    hide HasRoom, Held, Populated, ScopeOk;
    assert FlowOk(key, ep.flows[key]);
  }

  /** Nothing is received into an outbound or unknown flow. */
  lemma MisdirectedArrival(ep: Endpoint, key: FlowKey, t: Transfer)
    requires !key.direction.Inbound? || key !in ep.flows
    ensures Receive(ep, key, t) == (ep, Err(if key.direction.Outbound? then OpError.WrongDirection else UnknownFlow))
  {
    hide HasRoom, Held, Populated;
  }

  // ---------------------------------------------------------------- submissions

  /** A live outbound flow that may take a message of this size under its next index. */
  ghost predicate Submittable(ep: Endpoint, key: FlowKey, payload: seq<u8>) {
    && WellFormed(ep) && key in ep.flows && key.direction.Outbound?
    && |payload| <= ep.flows[key].policy.maxMessageBytes && ep.flows[key].nextIndex.Some?
  }

  /** The endpoint after a message is taken behind `q`. */
  function Taken(ep: Endpoint, key: FlowKey, q: seq<Transfer>, payload: seq<u8>): Endpoint
    requires key in ep.flows && ep.flows[key].nextIndex.Some?
  {
    var f := ep.flows[key];
    var i := f.nextIndex.value;
    ep.(flows := ep.flows[key := f.(nextIndex := if i == U64_MAX then None else Some(i + 1), outbound := q + [Transfer(f.mode, i, payload)])])
  }

  /** What is refused before any resource is looked at: an unknown or inbound flow, a message that is too
      large, and any message once all 2^64 indices are used; nothing changes. */
  lemma UnfitSubmission(ep: Endpoint, key: FlowKey, payload: seq<u8>)
    requires WellFormed(ep) && !Submittable(ep, key, payload)
    ensures Submit(ep, key, payload) ==
              (ep, if key !in ep.flows then Err(UnknownFlow)
                   else if key.direction.Inbound? then Err(OpError.WrongDirection)
                   else if |payload| > ep.flows[key].policy.maxMessageBytes then Ok(RejectedTooLarge)
                   else Ok(RejectedCounterExhausted))
  {
    hide HasRoom, EvictionCount;
  }

  lemma RoomySubmission(ep: Endpoint, key: FlowKey, payload: seq<u8>)
    requires Submittable(ep, key, payload) && HasRoom(ep, key, |payload|)
    ensures Submit(ep, key, payload) ==
              (Taken(ep, key, ep.flows[key].outbound, payload), Ok(Accepted(ep.flows[key].nextIndex.value, 0)))
  {
    hide HasRoom, EvictionCount;
  }

  /** Without room a flow that rejects what is new keeps its queue. */
  lemma RejectedSubmission(ep: Endpoint, key: FlowKey, payload: seq<u8>)
    requires Submittable(ep, key, payload) && !HasRoom(ep, key, |payload|)
    requires ep.flows[key].policy.outboundPressure == RejectNew
    ensures Submit(ep, key, payload) == (ep, Ok(RejectedPressure))
  {
    hide HasRoom, EvictionCount;
  }

  /** Without room a flow that evicts loses the least number of oldest messages that makes the new one fit;
      they are reported to the host and counted. */
  lemma EvictingSubmission(ep: Endpoint, key: FlowKey, payload: seq<u8>, n: nat)
    requires Submittable(ep, key, payload) && !HasRoom(ep, key, |payload|)
    requires ep.flows[key].policy.outboundPressure == EvictOldest && LeastEviction(ep, key, |payload|, n)
    ensures n <= |ep.flows[key].outbound|
    ensures var d := ep.diagnostics;
            Submit(ep, key, payload) ==
              (Taken(ep, key, ep.flows[key].outbound[n..], payload).(diagnostics := d.(outboundDrops := Min(d.outboundDrops + n, U64_MAX))),
               Ok(Accepted(ep.flows[key].nextIndex.value, n)))
  {
    hide HasRoom, EvictionCount;
    LeastIsCounted(ep, key, |payload|, n);
    hide WellFormed;
    var trimmed := Evict(ep, key, n);
    assert Enqueue(trimmed, key, ep.flows[key].nextIndex.value, payload).flows == Taken(ep, key, ep.flows[key].outbound[n..], payload).flows;
  }

  /** When not even an empty queue makes it fit, such a flow loses its queue all the same. */
  lemma HopelessSubmission(ep: Endpoint, key: FlowKey, payload: seq<u8>)
    requires Submittable(ep, key, payload) && (forall n: nat :: !LeastEviction(ep, key, |payload|, n))
    requires ep.flows[key].policy.outboundPressure == EvictOldest
    ensures Submit(ep, key, payload) == (WithQueued(ep, key, []), Ok(RejectedPressure))
  {
    hide HasRoom, EvictionCount;
    NoLeast(ep, key, |payload|);
    hide WellFormed;
    var q := ep.flows[key].outbound;
    assert q[|q|..] == [];
  }

  /** Custody ends only for the message at the front, named by its index. */
  lemma CommitAnswers(ep: Endpoint, key: FlowKey, index: u64)
    ensures var (after, r) := Commit(ep, key, index);
            && (r.Ok? <==> key.direction.Outbound? && key in ep.flows && ep.flows[key].outbound != [] && ep.flows[key].outbound[0].index == index)
            && (r.Ok? ==> r.value == ep.flows[key].outbound[0] && after == WithQueued(ep, key, ep.flows[key].outbound[1..]))
            && (r.Err? ==> after == ep)
            && (r == Err(CustodyWrongDirection) <==> key.direction.Inbound?)
            && (r == Err(CustodyUnknownFlow) <==> key.direction.Outbound? && key !in ep.flows)
            && (r == Err(NoPendingMessage) <==> key.direction.Outbound? && key in ep.flows && ep.flows[key].outbound == [])
  {
  }

  // ---------------------------------------------------------------- exposure

  /** Reliable: the message under the next index, or nothing. */
  lemma ReliableExposure(ep: Endpoint, key: FlowKey)
    requires WellFormed(ep) && key in ep.flows && key.direction.Inbound? && ep.flows[key].mode.ReliableOrdered?
    ensures var f := ep.flows[key];
            var i := Count(f.receiver.nextExposure);
            if i <= U64_MAX && i in f.receiver.byIndex then
              Expose(ep, key) == (ep.(flows := ep.flows[key := f.(receiver := Reliable(f.receiver.byIndex - {i}, if i == U64_MAX then None else Some(i + 1)))]),
                                  Ok(Some(Exposed(i, f.receiver.byIndex[i].payload))))
            else Expose(ep, key) == (ep, Ok(None))
  {
    hide Held, ScopeOk;
    var f := ep.flows[key];
    assert FlowOk(key, f);
    assert ep.flows[key := f] == ep.flows;
  }

  /** Unordered: the message that arrived first. */
  lemma UnorderedExposure(ep: Endpoint, key: FlowKey)
    requires Lossy(ep, key) && ep.flows[key].mode.UnreliableUnordered?
    ensures var q := Received(ep.flows[key]);
            Expose(ep, key) == if q == [] then (ep, Ok(None)) else (WithReceived(ep, key, q[1..]), Ok(Some(Exposed(q[0].index, q[0].payload))))
  {
    hide Held, ScopeOk;
    var f := ep.flows[key];
    assert FlowOk(key, f);
    assert ep.flows[key := f] == ep.flows;
  }

  /** Sequenced: the first message that is not outdated; the outdated ones before it go, and are counted. */
  lemma SequencedExposure(ep: Endpoint, key: FlowKey, n: nat)
    requires Lossy(ep, key) && ep.flows[key].mode.UnreliableSequenced?
    requires var q := Received(ep.flows[key]);
             && n <= |q| && (forall j :: 0 <= j < n ==> Outdated(ep.flows[key], q[j].index))
             && (n < |q| ==> !Outdated(ep.flows[key], q[n].index))
    ensures var f := ep.flows[key];
            var q := Received(f);
            Expose(ep, key) ==
              if n == |q| then (MoreStaleDrops(WithReceived(ep, key, []), n), Ok(None))
              else (MoreStaleDrops(ep.(flows := ep.flows[key := f.(receiver := Unreliable(q[n + 1..], Some(q[n].index)))]), n),
                    Ok(Some(Exposed(q[n].index, q[n].payload))))
  {
    hide Held, ScopeOk;
    var f := ep.flows[key];
    assert FlowOk(key, f);
    var k := StalePrefix(Received(f), f.receiver.lastExposed);
    assert k < n ==> Outdated(f, Received(f)[k].index);
  }

  lemma MisdirectedExposure(ep: Endpoint, key: FlowKey)
    requires !key.direction.Inbound? || key !in ep.flows
    ensures Expose(ep, key) == (ep, Err(if key.direction.Outbound? then OpError.WrongDirection else UnknownFlow))
  {
  }

  // ---------------------------------------------------------------- the end of a flow

  /** How many received messages wait to be exposed. */
  function Unexposed(f: Flow): nat {
    match f.receiver case Reliable(byIndex, _) => |byIndex| case Unreliable(q, _) => |q|
  }

  /** A termination reports everything still held, in either direction, and a failed obligation exactly when a
      reliable flow ends with something held or for one of the five reasons that are failures by themselves. */
  lemma TerminationReport(ep: Endpoint, key: FlowKey, reason: Reason)
    ensures var (after, r) := Core.Terminate(ep, key, reason);
            if key !in ep.flows then after == ep && r == Err(UnknownFlow)
            else
              var f := ep.flows[key];
              && r.Ok? && r.value.key == key && r.value.reason == reason
              && r.value.pendingMessages == |f.outbound| + Unexposed(f)
              && (r.value.obligationFailed <==>
                    && f.mode == ReliableOrdered
                    && (f.outbound != [] || Unexposed(f) > 0
                        || reason in {ReliableCustodyLost, ReliableReceiverPressure, ReliableTransferConflict, ReliableInboundTooLarge, ReliableModeMismatch}))
              && after.flows == ep.flows - {key} && after.diagnostics == ep.diagnostics && after.aggregate == ep.aggregate
  {
    hide Populated;
  }

  /** The limits of a connection or session go with its last flow, and not before. */
  lemma TerminationScopes(ep: Endpoint, key: FlowKey, reason: Reason)
    requires WellFormed(ep) && key in ep.flows
    ensures var after := Core.Terminate(ep, key, reason).0;
            && after.connections.Keys == (set k | k in after.flows :: k.connection)
            && after.sessions.Keys == (set k | k in after.flows && after.flows[k].session.Some? :: after.flows[k].session.value)
            && (forall c :: c in after.connections ==> c in ep.connections && after.connections[c] == ep.connections[c])
            && (forall z :: z in after.sessions ==> z in ep.sessions && after.sessions[z] == ep.sessions[z])
  {
    hide Load, Held, FlowOk;
    TerminateKeeps(ep, key, reason);
    ScopesAreUsed(Core.Terminate(ep, key, reason).0);
  }

  lemma ScopesAreUsed(ep: Endpoint)
    requires WellFormed(ep)
    ensures ep.connections.Keys == set k | k in ep.flows :: k.connection
    ensures ep.sessions.Keys == set k | k in ep.flows && ep.flows[k].session.Some? :: ep.flows[k].session.value
  {
    hide Load, FlowOk;
    forall c: u64 ensures c in ep.connections <==> exists k :: k in ep.flows && k.connection == c {
      assert ScopeOk(ep, OfConnection(c));
    }
    forall z: nat ensures z in ep.sessions <==> exists k :: k in ep.flows && ep.flows[k].session == Some(z) {
      assert ScopeOk(ep, OfSession(z));
    }
  }

  /** Custody is lost only by a reliable flow, and then its obligation has always failed. */
  lemma CustodyLossReport(ep: Endpoint, key: FlowKey)
    ensures var (after, r) := FailCustody(ep, key);
            && (key !in ep.flows ==> after == ep && r == Err(UnknownFlow))
            && (key in ep.flows && ep.flows[key].mode != ReliableOrdered ==> after == ep && r == Err(NotReliable))
            && (key in ep.flows && ep.flows[key].mode == ReliableOrdered ==>
                  && after.flows == ep.flows - {key}
                  && r == Ok(Termination(key, ReliableCustodyLost, |ep.flows[key].outbound| + Unexposed(ep.flows[key]), true)))
  {
    hide Core.Terminate, Held;
    TerminationReport(ep, key, ReliableCustodyLost);
  }

  // ---------------------------------------------------------------- the beginning of a flow

  function Members(sc: Scope, flows: map<FlowKey, Flow>): set<FlowKey> {
    set k | k in flows && InScope(sc, k, flows[k])
  }

  /** The flow count of a scope is the number of its live flows. */
  lemma {:induction false} FlowsAreCounted(sc: Scope, flows: map<FlowKey, Flow>)
    ensures Load(sc, flows).flows == |Members(sc, flows)|
    decreases |flows|
  {
    hide Load, Held;
    if flows == map[] {
      LoadOfNothing(sc);
    } else {
      var k :| k in flows;
      var rest := flows - {k};
      LoadRemove(sc, flows, k);
      assert rest.Keys == flows.Keys - {k};
      FlowsAreCounted(sc, rest);
      HeldIsOneFlow(flows[k]);
      assert Members(sc, rest) == Members(sc, flows) - {k};
      assert k in Members(sc, flows) <==> InScope(sc, k, flows[k]);
    }
  }

  /** Reliable flows keep what they accepted and end under pressure; unreliable ones do not end. */
  predicate PolicySuits(policy: Policy, mode: Mode) {
    if mode == ReliableOrdered then policy.outboundPressure == RejectNew && policy.receiverPressure == TerminateReliable
    else policy.receiverPressure != TerminateReliable
  }

  function PolicyFault(policy: Policy, mode: Mode): PolicyError {
    if mode != ReliableOrdered then UnreliableReceiverPolicyRequired
    else if policy.outboundPressure != RejectNew then ReliableOutboundMustRejectNew
    else ReliableReceiverMustTerminate
  }

  /** A flow is established exactly if its policy suits its mode, its key is new, the endpoint and the
      connection have room for one flow more, and the connection's limits are the ones it already has. Each
      refusal names the first of these that fails, in the order below. */
  lemma EstablishAnswers(ep: Endpoint, key: FlowKey, mode: Mode, policy: Policy, limits: Limits)
    ensures var (after, r) := Establish(ep, key, mode, policy, limits);
            var mine := Members(OfConnection(key.connection), ep.flows);
            var known := key.connection in ep.connections && ep.connections[key.connection] != limits;
            && (r.Err? ==> after == ep)
            && (r == Err(InvalidPolicy(PolicyFault(policy, mode))) <==> !PolicySuits(policy, mode))
            && (r == Err(FlowAlreadyExists) <==> PolicySuits(policy, mode) && key in ep.flows)
            && (r == Err(ActiveFlowLimitExceeded(AggregateScope)) <==> PolicySuits(policy, mode) && key !in ep.flows && |ep.flows| >= ep.aggregate.maxFlows)
            && (r == Err(ConnectionLimitsMismatch) <==> PolicySuits(policy, mode) && key !in ep.flows && |ep.flows| < ep.aggregate.maxFlows && known)
            && (r == Err(ActiveFlowLimitExceeded(ConnectionScope)) <==>
                  PolicySuits(policy, mode) && key !in ep.flows && |ep.flows| < ep.aggregate.maxFlows && !known && |mine| >= limits.maxFlows)
            && (r.Ok? <==> PolicySuits(policy, mode) && key !in ep.flows && |ep.flows| < ep.aggregate.maxFlows && !known && |mine| < limits.maxFlows)
            && (r.Ok? ==>
                  after == ep.(flows := ep.flows[key := Flow(mode, policy, Some(0), [], if mode == ReliableOrdered then Reliable(map[], Some(0)) else Unreliable([], None), None)],
                               connections := ep.connections[key.connection := limits]))
  {
    hide Load;
    FlowsAreCounted(Aggregate, ep.flows);
    FlowsAreCounted(OfConnection(key.connection), ep.flows);
    assert Members(Aggregate, ep.flows) == ep.flows.Keys;
  }

  /** The usage a session would have with the flow in it. */
  ghost function Joined(ep: Endpoint, key: FlowKey, session: nat): Usage
    requires key in ep.flows
  {
    var with := ep.flows[key := ep.flows[key].(session := Some(session))];
    Load(OfSession(session), with)
  }

  /** A flow joins an open session exactly if it is in none, the session's limits are the ones it already
      has, and the session with the flow in it is within them. */
  lemma AssociateAnswers(ep: Endpoint, key: FlowKey, session: nat, open: bool, limits: Limits)
    requires WellFormed(ep)
    ensures var (after, r) := Associate(ep, key, session, open, limits);
            && (r != Ok(Associated) ==> after == ep)
            && (r == Err(SessionClosed) <==> !open)
            && (r == Err(NoSuchFlow) <==> open && key !in ep.flows)
            && (open && key in ep.flows ==>
                  var current := ep.flows[key].session;
                  var same := session !in ep.sessions || ep.sessions[session] == limits;
                  && (r == Err(DifferentSession) <==> current.Some? && current.value != session)
                  && (r == Ok(AlreadyAssociated) <==> current == Some(session) && same)
                  && (r == Err(SessionLimitsMismatch) <==> (current.None? || current == Some(session)) && !same)
                  && (r == Err(SessionResourceLimit) <==> current.None? && same && !Joined(ep, key, session).Within(limits))
                  && (r == Ok(Associated) <==> current.None? && same && Joined(ep, key, session).Within(limits))
                  && (r == Ok(Associated) ==>
                        after == ep.(flows := ep.flows[key := ep.flows[key].(session := Some(session))], sessions := ep.sessions[session := limits])))
  {
    hide Load, Held, FlowOk;
    if key in ep.flows {
      var f := ep.flows[key];
      if f.session.None? {
        LoadReplace(OfSession(session), ep.flows, key, f.(session := Some(session)));
        SessionIsWeightless(f, Some(session));
      } else {
        assert ScopeOk(ep, OfSession(f.session.value));
      }
    }
  }
}
