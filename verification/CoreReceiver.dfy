/** What a receiving flow may expose over its whole life, for any arrivals in any order. */
module CoreReceiver {
  import opened Basics
  import opened Delivery
  import opened Core
  import opened CoreInvariant
  import opened CoreHistory

  /** One inbound flow's life so far: every arrival while it was live, the first payload seen at each
      index, and what was exposed. */
  datatype InboundLife = InboundLife(mode: Mode, received: multiset<Transfer>, first: map<u64, seq<u8>>, exposed: seq<Transfer>)

  const NoLife: InboundLife := InboundLife(ReliableOrdered, multiset{}, map[], [])

  function Arrive(life: InboundLife, t: Transfer): InboundLife {
    life.(received := life.received + multiset{t},
          first := if t.index in life.first then life.first else life.first[t.index := t.payload])
  }

  ghost function TrackInbound(life: InboundLife, ep: Endpoint, op: Op, key: FlowKey): InboundLife {
    if op.key != key then life
    else if key !in ep.flows then
      if op.DoEstablish? && key in Apply(ep, op).flows then NoLife.(mode := op.mode) else life
    else match op
      case DoReceive(_, t) => Arrive(life, t)
      case DoReceivePayload(_, index, payload) => Arrive(life, Transfer(ep.flows[key].mode, index, payload))
      case DoExpose(_) =>
        var r := Expose(ep, key).1;
        if r.Ok? && r.value.Some? then
          life.(exposed := life.exposed + [Transfer(ep.flows[key].mode, r.value.value.index, r.value.value.payload)])
        else life
      case _ => life
  }

  ghost function InboundLifeOf(ep: Endpoint, ops: seq<Op>, key: FlowKey): InboundLife {
    if ops == [] then NoLife
    else
      var front := ops[..|ops| - 1];
      TrackInbound(InboundLifeOf(ep, front, key), Run(ep, front), ops[|ops| - 1], key)
  }

  // ---------------------------------------------------------------- the three promises

  /** Reliable: indices 0, 1, 2, ... in order, each with the first payload that arrived for it. */
  ghost predicate ExposedInOrder(life: InboundLife) {
    forall j :: 0 <= j < |life.exposed| ==>
      life.exposed[j].index == j && j in life.first && life.exposed[j].payload == life.first[j]
  }

  ghost predicate ReliableState(life: InboundLife, r: Receiver) {
    && r.Reliable? && Count(r.nextExposure) == |life.exposed|
    && (forall i :: i in r.byIndex ==> i in life.first && r.byIndex[i].payload == life.first[i])
    && (forall i :: i in life.first ==> i < |life.exposed| || i in r.byIndex)
  }

  /** Sequenced: strictly increasing indices. */
  ghost predicate ExposedIncreasing(life: InboundLife) {
    forall i, j :: 0 <= i < j < |life.exposed| ==> life.exposed[i].index < life.exposed[j].index
  }

  ghost predicate SequencedState(life: InboundLife, r: Receiver) {
    r.Unreliable? && r.lastExposed == if life.exposed == [] then None else Some(life.exposed[|life.exposed| - 1].index)
  }

  /** Unreliable: nothing is exposed more often than it arrived. */
  ghost predicate NothingInvented(life: InboundLife, queue: seq<Transfer>) {
    multiset(life.exposed) + multiset(queue) <= life.received
  }

  ghost predicate Faithful(life: InboundLife, ep: Endpoint, key: FlowKey) {
    && (key in ep.flows ==> ep.flows[key].mode == life.mode)
    && (life.mode.ReliableOrdered? ==>
          ExposedInOrder(life) && (key in ep.flows ==> ReliableState(life, ep.flows[key].receiver)))
    && (!life.mode.ReliableOrdered? ==>
          NothingInvented(life, []) && (key in ep.flows ==> ep.flows[key].receiver.Unreliable? && NothingInvented(life, ep.flows[key].receiver.queue)))
    && (life.mode.UnreliableSequenced? ==>
          ExposedIncreasing(life) && (key in ep.flows ==> SequencedState(life, ep.flows[key].receiver)))
  }

  // ---------------------------------------------------------------- what one arrival does

  /** A transfer reaching a live reliable flow is buffered, suppressed as a duplicate, or ends the flow:
      a conflicting duplicate of an unexposed index always does the latter. */
  lemma ReliableArrival(ep: Endpoint, key: FlowKey, t: Transfer)
    requires WellFormed(ep) && key in ep.flows && key.direction.Inbound? && ep.flows[key].mode.ReliableOrdered?
    ensures var f := ep.flows[key];
            var (after, r) := Receive(ep, key, t);
            var unexposed := Count(f.receiver.nextExposure) <= t.index;
            var acceptable := t.mode == f.mode && |t.payload| <= f.policy.maxMessageBytes;
            && r.Ok?
            && (r.value.TerminalReliableFailure? <==> key !in after.flows)
            && (key !in after.flows <==>
                  || !acceptable
                  || (unexposed && t.index in f.receiver.byIndex && f.receiver.byIndex[t.index].payload != t.payload)
                  || (unexposed && t.index !in f.receiver.byIndex && !HasRoom(ep, key, |t.payload|)))
            && (r.value.Buffered? <==> acceptable && unexposed && t.index !in f.receiver.byIndex && HasRoom(ep, key, |t.payload|))
            && (key in after.flows ==>
                  after.flows[key] == if r.value.Buffered?
                                      then f.(receiver := f.receiver.(byIndex := f.receiver.byIndex[t.index := t])) else f)
  {
    hide HasRoom, Held, Populated, ScopeOk;
    assert FlowOk(key, ep.flows[key]);
  }

  /** A transfer reaching a live unreliable flow leaves a suffix of the old queue, possibly followed by
      the transfer itself. */
  lemma UnreliableArrival(ep: Endpoint, key: FlowKey, t: Transfer)
    requires WellFormed(ep) && key in ep.flows && key.direction.Inbound? && !ep.flows[key].mode.ReliableOrdered?
    ensures var f := ep.flows[key];
            var after := Receive(ep, key, t).0;
            && f.receiver.Unreliable? && key in after.flows
            && exists n: nat | n <= |f.receiver.queue| ::
                 || after.flows[key] == f.(receiver := f.receiver.(queue := f.receiver.queue[n..]))
                 || after.flows[key] == f.(receiver := f.receiver.(queue := f.receiver.queue[n..] + [t]))
  {
    hide HasRoom, Held, ScopeOk, EvictionCount;
    assert FlowOk(key, ep.flows[key]);
    var f := ep.flows[key];
    var q := f.receiver.queue;
    assert q[0..] == q;
    var n := if t.mode == f.mode && |t.payload| <= f.policy.maxMessageBytes && !HasRoom(ep, key, |t.payload|)
                && !(f.mode.UnreliableSequenced? && Stale(f, t.index)) && !f.policy.receiverPressure.DropIncoming?
             then EvictionCount(ep, key, |t.payload|, 0) else 0;
    assert n <= |q|;
    var after := Receive(ep, key, t).0;
    assert || after.flows[key] == f.(receiver := f.receiver.(queue := q[n..]))
           || after.flows[key] == f.(receiver := f.receiver.(queue := q[n..] + [t]));
  }

  lemma OtherOpsKeepReceiver(ep: Endpoint, op: Op)
    requires op.key in ep.flows && op.key in Apply(ep, op).flows
    requires !op.DoReceive? && !op.DoReceivePayload? && !op.DoExpose? && (op.key.direction.Inbound? || !(op.DoSubmit? || op.DoCommit?))
    ensures Apply(ep, op).flows[op.key].receiver == ep.flows[op.key].receiver
    ensures Apply(ep, op).flows[op.key].mode == ep.flows[op.key].mode
  {
    hide Load, Held, Populated;
  }

  // ---------------------------------------------------------------- preservation

  lemma InventedLess(life: InboundLife, q: seq<Transfer>, n: nat)
    requires NothingInvented(life, q) && n <= |q|
    ensures NothingInvented(life, q[n..])
  {
    assert q == q[..n] + q[n..];
  }

  lemma ArrivalInventsNothing(life: InboundLife, t: Transfer, q: seq<Transfer>, n: nat)
    requires NothingInvented(life, q) && n <= |q|
    ensures NothingInvented(Arrive(life, t), q[n..]) && NothingInvented(Arrive(life, t), q[n..] + [t])
  {
    InventedLess(life, q, n);
  }

  lemma ExposureInventsNothing(life: InboundLife, q: seq<Transfer>, n: nat)
    requires NothingInvented(life, q) && n < |q|
    ensures NothingInvented(life.(exposed := life.exposed + [q[n]]), q[n + 1..])
    ensures NothingInvented(life.(exposed := life.exposed + [q[n]]), [])
  {
    InventedLess(life, q, n);
    assert q[n..] == [q[n]] + q[n + 1..];
  }

  lemma ArrivalExposesNothing(life: InboundLife, t: Transfer)
    ensures Arrive(life, t).exposed == life.exposed && Arrive(life, t).mode == life.mode
    ensures ExposedIncreasing(Arrive(life, t)) <==> ExposedIncreasing(life)
  {
  }

  lemma UnreliableArrivalIsFaithful(life: InboundLife, ep: Endpoint, key: FlowKey, t: Transfer)
    requires WellFormed(ep) && key in ep.flows && key.direction.Inbound? && Faithful(life, ep, key)
    requires !life.mode.ReliableOrdered?
    ensures Faithful(Arrive(life, t), Receive(ep, key, t).0, key)
  {
    hide WellFormed, Receive, NothingInvented, ExposedInOrder, ExposedIncreasing, ReliableState, HasRoom;
    UnreliableArrival(ep, key, t);
    ArrivalExposesNothing(life, t);
    var f := ep.flows[key];
    var after := Receive(ep, key, t).0;
    var q := f.receiver.queue;
    var n: nat :| n <= |q| &&
      (|| after.flows[key] == f.(receiver := f.receiver.(queue := q[n..]))
       || after.flows[key] == f.(receiver := f.receiver.(queue := q[n..] + [t])));
    ArrivalInventsNothing(life, t, q, n);
    ArrivalInventsNothing(life, t, [], 0);
  }

  lemma ReliableIsReliable(life: InboundLife, ep: Endpoint, key: FlowKey)
    requires key in ep.flows && Faithful(life, ep, key) && life.mode.ReliableOrdered?
    ensures ep.flows[key].receiver.Reliable?
  {
  }

  lemma ReliableArrivalInOrder(life: InboundLife, t: Transfer)
    requires ExposedInOrder(life)
    ensures ExposedInOrder(Arrive(life, t))
  {
  }

  lemma ReliableArrivalState(life: InboundLife, r: Receiver, t: Transfer)
    requires ExposedInOrder(life) && ReliableState(life, r)
    ensures ExposedInOrder(Arrive(life, t))
    ensures if Count(r.nextExposure) <= t.index && t.index !in r.byIndex
            then ReliableState(Arrive(life, t), r.(byIndex := r.byIndex[t.index := t]))
            else ReliableState(Arrive(life, t), r)
  {
  }

  lemma ArrivalIsFaithful(life: InboundLife, ep: Endpoint, key: FlowKey, t: Transfer)
    requires WellFormed(ep) && key in ep.flows && key.direction.Inbound? && Faithful(life, ep, key)
    ensures Faithful(Arrive(life, t), Receive(ep, key, t).0, key)
  {
    if life.mode.ReliableOrdered? {
      hide WellFormed, Receive, NothingInvented, ReliableState, ExposedInOrder, HasRoom;
      var f := ep.flows[key];
      ReliableArrival(ep, key, t);
      assert f.receiver.Reliable? by { ReliableIsReliable(life, ep, key); }
      ReliableArrivalInOrder(life, t);
      if key in Receive(ep, key, t).0.flows {
        ReliableArrivalState(life, f.receiver, t);
      }
    } else {
      UnreliableArrivalIsFaithful(life, ep, key, t);
    }
  }

  lemma ExposureIsFaithful(life: InboundLife, ep: Endpoint, key: FlowKey)
    requires WellFormed(ep) && key in ep.flows && key.direction.Inbound? && Faithful(life, ep, key)
    ensures Faithful(TrackInbound(life, ep, DoExpose(key), key), Expose(ep, key).0, key)
  {
    hide ScopeOk, Held, TrackInbound, Expose, Faithful;
    assert FlowOk(key, ep.flows[key]);
    match ep.flows[key].mode
    case ReliableOrdered => ReliableExposureIsFaithful(life, ep, key);
    case UnreliableUnordered => UnorderedExposureIsFaithful(life, ep, key);
    case UnreliableSequenced => SequencedExposureIsFaithful(life, ep, key);
  }

  /** An exposure changes its own flow as `ExposeFlow` says. */
  lemma ExposeSets(ep: Endpoint, key: FlowKey)
    requires key in ep.flows && key.direction.Inbound?
    ensures var (after, r) := Expose(ep, key);
            && key in after.flows && after.flows[key] == ExposeFlow(ep.flows[key]).0 && r == Ok(ExposeFlow(ep.flows[key]).1)
  {
    hide ExposeFlow, Held;
  }

  lemma UnorderedExposureIsFaithful(life: InboundLife, ep: Endpoint, key: FlowKey)
    requires key in ep.flows && key.direction.Inbound? && Faithful(life, ep, key) && FlowOk(key, ep.flows[key])
    requires ep.flows[key].mode.UnreliableUnordered?
    ensures Faithful(TrackInbound(life, ep, DoExpose(key), key), Expose(ep, key).0, key)
  {
    ExposeSets(ep, key);
    hide Held, NothingInvented, ExposedIncreasing, Expose, QueueOk, TrackInbound;
    var t := ExposureTrack(life, ep, key);
    UnorderedFlowFaithful(life, ep.flows[key]);
  }

  lemma UnorderedFlowFaithful(life: InboundLife, f: Flow)
    requires f.mode.UnreliableUnordered? && f.receiver.Unreliable? && NothingInvented(life, f.receiver.queue) && QueueModes(f)
    ensures var after := ExposeFlow(f).0;
            && after.mode == f.mode && after.receiver.Unreliable? && NothingInvented(AfterExposure(life, f), after.receiver.queue)
            && (NothingInvented(life, []) ==> NothingInvented(AfterExposure(life, f), [])) && AfterExposure(life, f).mode == life.mode
  {
    hide NothingInvented;
    var q := f.receiver.queue;
    if q != [] {
      ExposureInventsNothing(life, q, 0);
      assert q[0] == Transfer(f.mode, q[0].index, q[0].payload);
    }
  }

  lemma ReliableExposureIsFaithful(life: InboundLife, ep: Endpoint, key: FlowKey)
    requires key in ep.flows && key.direction.Inbound? && Faithful(life, ep, key) && FlowOk(key, ep.flows[key])
    requires ep.flows[key].mode.ReliableOrdered?
    ensures Faithful(TrackInbound(life, ep, DoExpose(key), key), Expose(ep, key).0, key)
  {
    hide Held;
  }

  lemma SequencedExposureIsFaithful(life: InboundLife, ep: Endpoint, key: FlowKey)
    requires key in ep.flows && key.direction.Inbound? && Faithful(life, ep, key) && FlowOk(key, ep.flows[key])
    requires ep.flows[key].mode.UnreliableSequenced?
    ensures Faithful(TrackInbound(life, ep, DoExpose(key), key), Expose(ep, key).0, key)
  {
    assert ep.flows[key].receiver.Unreliable? && life.mode.UnreliableSequenced? by { hide Held, NothingInvented, ExposedIncreasing, FlowOk, Expose; }
    ExposeSets(ep, key);
    hide Held, FlowOk, Expose;
    var f := ep.flows[key];
    var t := ExposureTrack(life, ep, key);
    SequencedFlowFaithful(life, f);
  }

  /** What an exposure adds to the flow's life. */
  lemma ExposureTrack(life: InboundLife, ep: Endpoint, key: FlowKey) returns (t: InboundLife)
    requires key in ep.flows && key.direction.Inbound?
    ensures t == TrackInbound(life, ep, DoExpose(key), key)
    ensures t == AfterExposure(life, ep.flows[key])
  {
    ExposeSets(ep, key);
    hide Expose, ExposeFlow;
    t := TrackInbound(life, ep, DoExpose(key), key);
  }

  function AfterExposure(life: InboundLife, f: Flow): InboundLife {
    var r := ExposeFlow(f).1;
    if r.Some? then life.(exposed := life.exposed + [Transfer(f.mode, r.value.index, r.value.payload)]) else life
  }

  lemma SequencedFlowFaithful(life: InboundLife, f: Flow)
    requires f.mode.UnreliableSequenced? && f.receiver.Unreliable? && SequencedState(life, f.receiver) && ExposedIncreasing(life)
    requires NothingInvented(life, f.receiver.queue) && QueueModes(f)
    ensures var after := ExposeFlow(f).0;
            && after.mode == f.mode && after.receiver.Unreliable? && SequencedState(AfterExposure(life, f), after.receiver)
            && ExposedIncreasing(AfterExposure(life, f)) && NothingInvented(AfterExposure(life, f), after.receiver.queue)
            && NothingInvented(AfterExposure(life, f), []) && AfterExposure(life, f).mode == life.mode
  {
    hide NothingInvented, ExposedIncreasing;
    var q := f.receiver.queue;
    var n := StalePrefix(q, f.receiver.lastExposed);
    InventedLess(life, q, n);
    if n < |q| {
      ExposureInventsNothing(life, q, n);
      IncreasingAppend(life, q[n]);
      assert q[n] == Transfer(f.mode, q[n].index, q[n].payload);
    } else {
      assert q[n..] == [];
    }
  }

  predicate QueueModes(f: Flow) {
    f.receiver.Unreliable? ==> forall j :: 0 <= j < |f.receiver.queue| ==> f.receiver.queue[j].mode == f.mode
  }

  lemma IncreasingAppend(life: InboundLife, t: Transfer)
    requires ExposedIncreasing(life) && (life.exposed != [] ==> life.exposed[|life.exposed| - 1].index < t.index)
    ensures ExposedIncreasing(life.(exposed := life.exposed + [t]))
  {
    forall i | 0 <= i < |life.exposed| ensures life.exposed[i].index < t.index {
      assert i < |life.exposed| - 1 ==> life.exposed[i].index < life.exposed[|life.exposed| - 1].index;
    }
  }

  lemma TrackFaithful(life: InboundLife, ep: Endpoint, op: Op, key: FlowKey)
    requires key.direction.Inbound? && WellFormed(ep) && Faithful(life, ep, key)
    ensures Faithful(TrackInbound(life, ep, op, key), Apply(ep, op), key)
  {
    hide Submit, Commit, Establish, Associate, Receive, Expose, Terminate, WellFormed;
    if op.key != key {
      OtherKeysUntouched(ep, op, key);
    } else if key !in ep.flows {
      EstablishedFlowIsNew(ep, op);
    } else {
      match op
      case DoReceive(_, t) => ArrivalIsFaithful(life, ep, key, t);
      case DoReceivePayload(_, index, payload) => ArrivalIsFaithful(life, ep, key, Transfer(ep.flows[key].mode, index, payload));
      case DoExpose(_) => ExposureIsFaithful(life, ep, key);
      case _ =>
        if key in Apply(ep, op).flows {
          OtherOpsKeepReceiver(ep, op);
        }
        assert NothingInvented(life, []) || life.mode.ReliableOrdered?;
    }
  }

  /** Over every run, an inbound flow exposes only what its mode promises. */
  lemma {:induction false} EveryRunIsFaithful(aggregate: Limits, ops: seq<Op>, key: FlowKey)
    requires key.direction.Inbound?
    ensures Faithful(InboundLifeOf(NewEndpoint(aggregate), ops, key), Run(NewEndpoint(aggregate), ops), key)
  {
    if ops != [] {
      var front := ops[..|ops| - 1];
      EveryRunIsFaithful(aggregate, front, key);
      EveryRunIsWellFormed(aggregate, front);
      TrackFaithful(InboundLifeOf(NewEndpoint(aggregate), front, key), Run(NewEndpoint(aggregate), front), ops[|ops| - 1], key);
    }
  }
}
