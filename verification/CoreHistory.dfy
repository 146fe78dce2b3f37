/** Whole lives of flows: what every accepted message came to, and what a receiver may ever expose. */
module CoreHistory {
  import opened Basics
  import opened Delivery
  import opened Core
  import opened CoreInvariant

  // ---------------------------------------------------------------- eviction

  /** Eviction only ever makes more room. */
  lemma RoomIsMonotone(ep: Endpoint, key: FlowKey, bytes: nat, m: nat, n: nat)
    requires WellFormed(ep) && key in ep.flows && m <= n <= |Backlog(key, ep.flows[key])|
    requires HasRoom(Evict(ep, key, m), key, bytes)
    ensures HasRoom(Evict(ep, key, n), key, bytes)
  {
    hide Load, Held, ScopeOk, QueueBytes, FlowOk;
    var f := ep.flows[key];
    var q := Backlog(key, f);
    assert FlowOk(key, f);
    WithoutOldestOk(key, f, m);
    WithoutOldestOk(key, f, n);
    QueueDrop(q[..n], m);
    assert q[..n][..m] == q[..m];
    EvictedRoom(ep, key, m, n, bytes, OfConnection(key.connection));
    EvictedRoom(ep, key, m, n, bytes, Aggregate);
    if f.session.Some? {
      EvictedRoom(ep, key, m, n, bytes, OfSession(f.session.value));
    }
  }

  lemma EvictedRoom(ep: Endpoint, key: FlowKey, m: nat, n: nat, bytes: nat, sc: Scope)
    requires key in ep.flows && m <= n <= |Backlog(key, ep.flows[key])| && InScope(sc, key, ep.flows[key])
    requires Held(WithoutOldest(key, ep.flows[key], n)).messages <= Held(WithoutOldest(key, ep.flows[key], m)).messages
    requires Held(WithoutOldest(key, ep.flows[key], n)).bytes <= Held(WithoutOldest(key, ep.flows[key], m)).bytes
    ensures ScopeHasRoom(Evict(ep, key, m), sc, bytes) ==> ScopeHasRoom(Evict(ep, key, n), sc, bytes)
  {
    hide Load, Held;
    LoadReplace(sc, ep.flows, key, WithoutOldest(key, ep.flows[key], m));
    LoadReplace(sc, ep.flows, key, WithoutOldest(key, ep.flows[key], n));
  }

  lemma {:induction false} EvictionStops(ep: Endpoint, key: FlowKey, bytes: nat, from: nat)
    requires key in ep.flows && from <= |Backlog(key, ep.flows[key])|
    ensures var n := EvictionCount(ep, key, bytes, from);
            && (forall m :: from <= m < n ==> !HasRoom(Evict(ep, key, m), key, bytes))
            && (n < |Backlog(key, ep.flows[key])| ==> HasRoom(Evict(ep, key, n), key, bytes))
    decreases |Backlog(key, ep.flows[key])| - from
  {
    hide HasRoom;
    if !(from == |Backlog(key, ep.flows[key])| || HasRoom(Evict(ep, key, from), key, bytes)) {
      EvictionStops(ep, key, bytes, from + 1);
    }
  }

  /** The eviction loop drops the least number of oldest entries that makes the message fit the flow
      and all its scopes, and gives up exactly when no number does. */
  lemma EvictionIsLeast(ep: Endpoint, key: FlowKey, bytes: nat)
    requires WellFormed(ep) && key in ep.flows
    ensures var n := EvictionCount(ep, key, bytes, 0);
            && (forall m :: 0 <= m < n ==> !HasRoom(Evict(ep, key, m), key, bytes))
            && (HasRoom(Evict(ep, key, n), key, bytes) <==>
                  exists m :: 0 <= m <= |Backlog(key, ep.flows[key])| && HasRoom(Evict(ep, key, m), key, bytes))
  {
    hide HasRoom, WellFormed;
    EvictionStops(ep, key, bytes, 0);
    var n := EvictionCount(ep, key, bytes, 0);
    forall m | n <= m <= |Backlog(key, ep.flows[key])| && HasRoom(Evict(ep, key, m), key, bytes)
      ensures HasRoom(Evict(ep, key, n), key, bytes)
    {
      if n < |Backlog(key, ep.flows[key])| {
      } else {
        assert m == n;
      }
    }
  }

  /** A submission consumes the next index exactly when it is accepted, and accepted or not it keeps
      of the old queue a suffix. */
  lemma SubmitConsumes(ep: Endpoint, key: FlowKey, payload: seq<u8>)
    requires key in ep.flows && key.direction.Outbound?
    ensures var (after, r) := Submit(ep, key, payload);
            var f := ep.flows[key];
            && key in after.flows && r.Ok?
            && var g := after.flows[key];
            if r.value.Accepted? then
              && f.nextIndex == Some(r.value.index) && g.nextIndex == Next(r.value.index)
              && r.value.drops <= |f.outbound|
              && g.outbound == f.outbound[r.value.drops..] + [Transfer(f.mode, r.value.index, payload)]
              && g == f.(nextIndex := g.nextIndex, outbound := g.outbound)
            else
              && g.nextIndex == f.nextIndex && g == f.(outbound := g.outbound)
              && (g.outbound == f.outbound || (r.value.RejectedPressure? && g.outbound == []))
  {
    hide HasRoom, EvictionCount;
    var f := ep.flows[key];
    assert f.outbound[0..] == f.outbound;
    if |payload| <= f.policy.maxMessageBytes && f.nextIndex.Some? && !HasRoom(ep, key, |payload|) {
      EvictionStops(ep, key, |payload|, 0);
      assert f.outbound[|f.outbound|..] == [];
    }
  }

  // ---------------------------------------------------------------- operations are local

  ghost predicate SameFlow(a: Endpoint, b: Endpoint, key: FlowKey) {
    && (key in a.flows <==> key in b.flows)
    && (key in a.flows ==> a.flows[key] == b.flows[key])
  }

  lemma ReceiveIsLocal(ep: Endpoint, at: FlowKey, t: Transfer, key: FlowKey)
    requires at != key
    ensures SameFlow(Receive(ep, at, t).0, ep, key)
  {
    hide HasRoom, Populated, Held, EvictionCount;
  }

  lemma SubmitIsLocal(ep: Endpoint, at: FlowKey, payload: seq<u8>, key: FlowKey)
    requires at != key
    ensures SameFlow(Submit(ep, at, payload).0, ep, key)
  {
    hide HasRoom, EvictionCount;
  }

  /** An operation on another key leaves this flow alone. */
  lemma OtherKeysUntouched(ep: Endpoint, op: Op, key: FlowKey)
    requires op.key != key
    ensures SameFlow(Apply(ep, op), ep, key)
  {
    hide Receive, Submit, Load, Held, Populated, ExposeFlow, SkippedBy;
    match op
    case DoSubmit(at, payload) => SubmitIsLocal(ep, at, payload, key);
    case DoReceive(at, t) => ReceiveIsLocal(ep, at, t, key);
    case DoReceivePayload(at, index, payload) =>
      if at in ep.flows {
        ReceiveIsLocal(ep, at, Transfer(ep.flows[at].mode, index, payload), key);
      }
    case _ =>
  }

  /** An endpoint operation on an absent flow changes nothing unless it establishes that flow. */
  lemma AbsentStaysAbsent(ep: Endpoint, op: Op)
    requires op.key !in ep.flows && !op.DoEstablish?
    ensures Apply(ep, op) == ep
  {
  }

  // ---------------------------------------------------------------- conservation of accepted messages

  datatype Fate = Committed | Evicted | Lost

  datatype Departure = Departure(transfer: Transfer, fate: Fate)

  /** One outbound flow's life so far: what was accepted, and what has left its queue and how. */
  datatype OutboundLife = OutboundLife(accepted: seq<Transfer>, departed: seq<Departure>)

  function Depart(q: seq<Transfer>, fate: Fate): seq<Departure> {
    seq(|q|, i requires 0 <= i < |q| => Departure(q[i], fate))
  }

  function Departed(ds: seq<Departure>): seq<Transfer> {
    seq(|ds|, i requires 0 <= i < |ds| => ds[i].transfer)
  }

  function QueueOf(ep: Endpoint, key: FlowKey): seq<Transfer> {
    if key in ep.flows then ep.flows[key].outbound else []
  }

  /** The ledger entry an operation adds to the life of `key`. A pressure rejection that evicted on
      the way is recorded here although the implementation's diagnostics omit it. */
  ghost function TrackOutbound(life: OutboundLife, ep: Endpoint, op: Op, key: FlowKey): OutboundLife {
    var after := Apply(ep, op);
    if op.key != key then life
    else if key !in ep.flows then (if key in after.flows then OutboundLife([], []) else life)
    else if key !in after.flows then life.(departed := life.departed + Depart(ep.flows[key].outbound, Lost))
    else match op
      case DoSubmit(_, payload) =>
        var r := Submit(ep, key, payload).1;
        if r.Ok? && r.value.Accepted? then
          var drops := Min(r.value.drops, |ep.flows[key].outbound|);
          OutboundLife(life.accepted + [Transfer(ep.flows[key].mode, r.value.index, payload)],
                       life.departed + Depart(ep.flows[key].outbound[..drops], Evicted))
        else if after.flows[key].outbound == [] then
          life.(departed := life.departed + Depart(ep.flows[key].outbound, Evicted))
        else life
      case DoCommit(_, index) =>
        var r := Commit(ep, key, index).1;
        if r.Ok? then life.(departed := life.departed + [Departure(r.value, Committed)]) else life
      case _ => life
  }

  ghost function OutboundLifeOf(ep: Endpoint, ops: seq<Op>, key: FlowKey): OutboundLife {
    if ops == [] then OutboundLife([], [])
    else
      var front := ops[..|ops| - 1];
      TrackOutbound(OutboundLifeOf(ep, front, key), Run(ep, front), ops[|ops| - 1], key)
  }

  /** Accepted messages carry the indices 0, 1, 2, ... and each one either still waits in the queue or
      has left it exactly once, oldest first. */
  ghost predicate Conserved(life: OutboundLife, ep: Endpoint, key: FlowKey) {
    && (forall i :: 0 <= i < |life.accepted| ==> life.accepted[i].index == i)
    && (key in ep.flows ==> Count(ep.flows[key].nextIndex) == |life.accepted|)
    && life.accepted == Departed(life.departed) + QueueOf(ep, key)
  }

  lemma DepartedAppend(ds: seq<Departure>, q: seq<Transfer>, fate: Fate)
    ensures Departed(ds + Depart(q, fate)) == Departed(ds) + q
  {
  }

  lemma ReceiveKeepsQueue(ep: Endpoint, key: FlowKey, t: Transfer)
    requires key in ep.flows && key in Receive(ep, key, t).0.flows
    ensures Receive(ep, key, t).0.flows[key].outbound == ep.flows[key].outbound
    ensures Receive(ep, key, t).0.flows[key].nextIndex == ep.flows[key].nextIndex
  {
    hide HasRoom, Populated, Held, EvictionCount;
  }

  lemma NonSubmitKeepsQueue(ep: Endpoint, op: Op)
    requires op.key in ep.flows && op.key in Apply(ep, op).flows
    requires op.key.direction.Inbound? || !(op.DoSubmit? || op.DoCommit?)
    ensures Apply(ep, op).flows[op.key].outbound == ep.flows[op.key].outbound
    ensures Apply(ep, op).flows[op.key].nextIndex == ep.flows[op.key].nextIndex
  {
    hide Receive, Load, Held, Populated;
    match op
    case DoReceive(key, t) => ReceiveKeepsQueue(ep, key, t);
    case DoReceivePayload(key, index, payload) =>
      if key.direction.Inbound? {
        ReceiveKeepsQueue(ep, key, Transfer(ep.flows[key].mode, index, payload));
      }
    case _ =>
  }

  lemma SubmitConserves(life: OutboundLife, ep: Endpoint, key: FlowKey, payload: seq<u8>)
    requires key in ep.flows && key.direction.Outbound? && Conserved(life, ep, key)
    ensures Conserved(TrackOutbound(life, ep, DoSubmit(key, payload), key), Submit(ep, key, payload).0, key)
  {
    hide Submit;
    SubmitConsumes(ep, key, payload);
    var (after, r) := Submit(ep, key, payload);
    var q := ep.flows[key].outbound;
    if r.value.Accepted? {
      var d := r.value.drops;
      var t := Transfer(ep.flows[key].mode, r.value.index, payload);
      DepartedAppend(life.departed, q[..d], Evicted);
      assert Departed(life.departed) + q + [t] == (Departed(life.departed) + q[..d]) + (q[d..] + [t]);
    } else if after.flows[key].outbound == [] {
      DepartedAppend(life.departed, q, Evicted);
    }
  }

  lemma CommitConserves(life: OutboundLife, ep: Endpoint, key: FlowKey, index: u64)
    requires key in ep.flows && key.direction.Outbound? && Conserved(life, ep, key)
    ensures Conserved(TrackOutbound(life, ep, DoCommit(key, index), key), Commit(ep, key, index).0, key)
  {
    var q := ep.flows[key].outbound;
    var r := Commit(ep, key, index).1;
    if r.Ok? {
      DepartedAppend(life.departed, [q[0]], Committed);
      assert Depart([q[0]], Committed) == [Departure(q[0], Committed)];
      assert Departed(life.departed) + q == (Departed(life.departed) + [q[0]]) + q[1..];
    }
  }

  lemma TrackConserves(life: OutboundLife, ep: Endpoint, op: Op, key: FlowKey)
    requires WellFormed(ep) && Conserved(life, ep, key)
    ensures Conserved(TrackOutbound(life, ep, op, key), Apply(ep, op), key)
  {
    hide Submit, Commit, Establish, Associate, Receive, ReceivePayload, Expose, Terminate, FailCustody, WellFormed;
    if op.key != key {
      OtherKeysUntouched(ep, op, key);
    } else if key !in ep.flows {
      EstablishedFlowIsNew(ep, op);
    } else if key !in Apply(ep, op).flows {
      DepartedAppend(life.departed, ep.flows[key].outbound, Lost);
    } else if key.direction.Outbound? && op.DoSubmit? {
      SubmitConserves(life, ep, key, op.payload);
    } else if key.direction.Outbound? && op.DoCommit? {
      CommitConserves(life, ep, key, op.index);
    } else {
      NonSubmitKeepsQueue(ep, op);
      InboundNeverSubmits(ep, op);
    }
  }

  lemma EstablishedFlowIsNew(ep: Endpoint, op: Op)
    requires op.key !in ep.flows
    ensures op.key in Apply(ep, op).flows ==>
              && op.DoEstablish? && Apply(ep, op).flows[op.key] == NewFlow(op.mode, op.policy)
  {
    if !op.DoEstablish? {
      AbsentStaysAbsent(ep, op);
    }
  }

  lemma InboundNeverSubmits(ep: Endpoint, op: Op)
    requires (op.DoSubmit? || op.DoCommit?) ==> op.key.direction.Inbound? && op.key in ep.flows
    ensures op.DoSubmit? ==> Submit(ep, op.key, op.payload).1.Err? && Apply(ep, op) == ep
    ensures op.DoCommit? ==> Commit(ep, op.key, op.index).1.Err? && Apply(ep, op) == ep
  {
  }

  /** Conservation over every run: accepted = queued + committed + evicted + lost at termination. */
  lemma {:induction false} EveryRunConserves(aggregate: Limits, ops: seq<Op>, key: FlowKey)
    ensures Conserved(OutboundLifeOf(NewEndpoint(aggregate), ops, key), Run(NewEndpoint(aggregate), ops), key)
  {
    if ops != [] {
      var front := ops[..|ops| - 1];
      EveryRunConserves(aggregate, front, key);
      EveryRunIsWellFormed(aggregate, front);
      TrackConserves(OutboundLifeOf(NewEndpoint(aggregate), front, key), Run(NewEndpoint(aggregate), front), ops[|ops| - 1], key);
    }
  }
}
