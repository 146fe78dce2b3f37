/** The outbound drop counter against the messages that pressure really evicted: which evictions it
    misses, exactly when, and what it therefore reads after any run. */
module CoreDiagnostics {
  import opened Basics
  import opened Delivery
  import opened Core
  import opened CoreInvariant
  import opened CoreHistory

  // ---------------------------------------------------------------- evictions an operation makes

  function Evictions(ds: seq<Departure>): nat {
    if ds == [] then 0
    else Evictions(ds[..|ds| - 1]) + if ds[|ds| - 1].fate.Evicted? then 1 else 0
  }

  /** What an operation takes out of its own flow's outbound queue, and how. */
  ghost function Departures(ep: Endpoint, op: Op): seq<Departure> {
    TrackOutbound(OutboundLife([], []), ep, op, op.key).departed
  }

  ghost function EvictedBy(ep: Endpoint, op: Op): nat {
    Evictions(Departures(ep, op))
  }

  /** A submission whose evictions go uncounted: the flow lets its oldest messages be evicted and has
      some, and the message would not fit even after all of them are gone. */
  ghost predicate EvictsInVain(ep: Endpoint, op: Op) {
    && op.DoSubmit? && op.key.direction.Outbound? && op.key in ep.flows
    && var f := ep.flows[op.key];
    && |op.payload| <= f.policy.maxMessageBytes && f.nextIndex.Some?
    && f.policy.outboundPressure.EvictOldest? && f.outbound != []
    && !HasRoom(Evict(ep, op.key, |f.outbound|), op.key, |op.payload|)
  }

  lemma {:induction false} EvictionsConcat(a: seq<Departure>, b: seq<Departure>)
    ensures Evictions(a + b) == Evictions(a) + Evictions(b)
  {
    if b == [] {
      assert a + b == a;
    } else {
      EvictionsConcat(a, b[..|b| - 1]);
      assert (a + b)[..|a + b| - 1] == a + b[..|b| - 1];
    }
  }

  lemma {:induction false} EvictionsOfQueue(q: seq<Transfer>, fate: Fate)
    ensures Evictions(Depart(q, fate)) == if fate.Evicted? then |q| else 0
  {
    if q != [] {
      EvictionsOfQueue(q[..|q| - 1], fate);
      assert Depart(q, fate)[..|q| - 1] == Depart(q[..|q| - 1], fate);
    }
  }

  /** The departures are what the operation adds to its flow's life, whatever came before. */
  lemma LifeGrowsByDepartures(life: OutboundLife, ep: Endpoint, op: Op)
    requires op.key in ep.flows
    ensures TrackOutbound(life, ep, op, op.key).departed == life.departed + Departures(ep, op)
    ensures Evictions(TrackOutbound(life, ep, op, op.key).departed) == Evictions(life.departed) + EvictedBy(ep, op)
  {
    hide Apply, Submit, Commit, Depart;
    EvictionsConcat(life.departed, Departures(ep, op));
  }

  // ---------------------------------------------------------------- submissions

  /** When even an empty queue leaves no room, eviction goes through the whole queue. */
  lemma VainEvictionTakesAll(ep: Endpoint, key: FlowKey, bytes: nat)
    requires WellFormed(ep) && key in ep.flows && key.direction.Outbound?
    requires !HasRoom(Evict(ep, key, |ep.flows[key].outbound|), key, bytes)
    ensures EvictionCount(ep, key, bytes, 0) == |ep.flows[key].outbound|
    ensures !HasRoom(ep, key, bytes)
  {
    hide HasRoom, WellFormed;
    EvictionStops(ep, key, bytes, 0);
    var n := EvictionCount(ep, key, bytes, 0);
    assert Evict(ep, key, 0) == ep by { assert ep.flows[key].outbound[0..] == ep.flows[key].outbound; }
    if HasRoom(Evict(ep, key, n), key, bytes) {
      RoomIsMonotone(ep, key, bytes, n, |ep.flows[key].outbound|);
    }
  }

  /** A submission that evicts in vain loses the whole queue and counts none of it. */
  lemma VainEvictionIsSilent(ep: Endpoint, key: FlowKey, payload: seq<u8>)
    requires WellFormed(ep) && EvictsInVain(ep, DoSubmit(key, payload))
    ensures Submit(ep, key, payload) == (Evict(ep, key, |ep.flows[key].outbound|), Ok(RejectedPressure))
    ensures EvictedBy(ep, DoSubmit(key, payload)) == |ep.flows[key].outbound| > 0
  {
    hide HasRoom, EvictionCount, WellFormed, Depart;
    var q := ep.flows[key].outbound;
    EvictionsOfQueue(q, Evicted);
    VainEvictionTakesAll(ep, key, |payload|);
    assert Submit(ep, key, payload).0.flows[key].outbound == [] by { assert q[|q|..] == []; }
    EvictionsConcat([], Depart(q, Evicted));
    assert Departures(ep, DoSubmit(key, payload)) == [] + Depart(q, Evicted);
  }

  /** Every other submission counts exactly what it evicts. */
  lemma OtherSubmissionsCount(ep: Endpoint, key: FlowKey, payload: seq<u8>)
    requires WellFormed(ep) && key in ep.flows && key.direction.Outbound? && !EvictsInVain(ep, DoSubmit(key, payload))
    ensures Submit(ep, key, payload).0.diagnostics
         == ep.diagnostics.(outboundDrops := Saturate(ep.diagnostics.outboundDrops + EvictedBy(ep, DoSubmit(key, payload))))
  {
    hide HasRoom, EvictionCount, WellFormed, Depart;
    var op := DoSubmit(key, payload);
    var q := ep.flows[key].outbound;
    var (after, r) := Submit(ep, key, payload);
    SubmitConsumes(ep, key, payload);
    if r.value.Accepted? {
      var n := r.value.drops;
      EvictionsOfQueue(q[..n], Evicted);
      assert Departures(ep, op) == [] + Depart(q[..n], Evicted);
      EvictionsConcat([], Depart(q[..n], Evicted));
    } else {
      RejectionWithoutLoss(ep, key, payload);
      EvictionsOfQueue(q, Evicted);
      EvictionsConcat([], Depart(q, Evicted));
      assert Departures(ep, op) == if q == [] then [] + Depart(q, Evicted) else [];
    }
  }

  lemma RejectionWithoutLoss(ep: Endpoint, key: FlowKey, payload: seq<u8>)
    requires key in ep.flows && key.direction.Outbound?
    requires !EvictsInVain(ep, DoSubmit(key, payload)) && !Submit(ep, key, payload).1.value.Accepted?
    ensures Submit(ep, key, payload).0 == ep
  {
    hide HasRoom, EvictionCount;
    var q := ep.flows[key].outbound;
    EvictionStops(ep, key, |payload|, 0);
    assert q[0..] == q;
    assert Evict(ep, key, 0) == ep;
  }

  // ---------------------------------------------------------------- every operation

  lemma ReceiveKeepsDrops(ep: Endpoint, key: FlowKey, t: Transfer)
    ensures Receive(ep, key, t).0.diagnostics.outboundDrops == ep.diagnostics.outboundDrops
  {
    hide HasRoom, Populated, Held, EvictionCount;
  }

  lemma OtherOperationsKeepDrops(ep: Endpoint, op: Op)
    requires !op.DoSubmit?
    ensures Apply(ep, op).diagnostics.outboundDrops == ep.diagnostics.outboundDrops
  {
    hide Receive, Load, Held, Populated, ExposeFlow, SkippedBy;
    match op
    case DoReceive(at, t) => ReceiveKeepsDrops(ep, at, t);
    case DoReceivePayload(at, index, payload) =>
      if at in ep.flows {
        ReceiveKeepsDrops(ep, at, Transfer(ep.flows[at].mode, index, payload));
      }
    case _ =>
  }

  lemma OnlySubmissionsEvict(ep: Endpoint, op: Op)
    requires WellFormed(ep) && !(op.DoSubmit? && op.key in ep.flows && op.key.direction.Outbound?)
    ensures EvictedBy(ep, op) == 0 && !EvictsInVain(ep, op)
    ensures Apply(ep, op).diagnostics.outboundDrops == ep.diagnostics.outboundDrops
  {
    hide Apply, Submit, Commit, Depart, HasRoom;
    if !op.DoSubmit? {
      OtherOperationsKeepDrops(ep, op);
    } else {
      RefusedSubmission(ep, op);
    }
    if op.key in ep.flows {
      EvictionsOfQueue(ep.flows[op.key].outbound, Lost);
      EvictionsConcat([], Depart(ep.flows[op.key].outbound, Lost));
    }
  }

  lemma RefusedSubmission(ep: Endpoint, op: Op)
    requires WellFormed(ep) && op.DoSubmit? && !(op.key in ep.flows && op.key.direction.Outbound?)
    ensures Apply(ep, op) == ep && EvictedBy(ep, op) == 0
  {
    hide HasRoom, EvictionCount;
    if op.key in ep.flows {
      assert FlowOk(op.key, ep.flows[op.key]);
    }
  }

  /** The counter after any operation: it grows, saturating, by what the operation evicts, except when
      the operation evicts in vain. */
  lemma DropsAfter(ep: Endpoint, op: Op)
    requires WellFormed(ep)
    ensures Apply(ep, op).diagnostics.outboundDrops
         == Saturate(ep.diagnostics.outboundDrops + if EvictsInVain(ep, op) then 0 else EvictedBy(ep, op))
  {
    hide Submit, EvictedBy, HasRoom, WellFormed;
    if op.DoSubmit? && op.key in ep.flows && op.key.direction.Outbound? {
      if EvictsInVain(ep, op) {
        VainEvictionIsSilent(ep, op.key, op.payload);
      } else {
        OtherSubmissionsCount(ep, op.key, op.payload);
      }
    } else {
      OnlySubmissionsEvict(ep, op);
    }
  }

  /** The counter takes in what an operation evicts exactly when the operation does not evict in vain
      or the counter is already full. */
  lemma CountedExactly(ep: Endpoint, op: Op)
    requires WellFormed(ep)
    ensures Apply(ep, op).diagnostics.outboundDrops == Saturate(ep.diagnostics.outboundDrops + EvictedBy(ep, op))
       <==> !EvictsInVain(ep, op) || ep.diagnostics.outboundDrops == U64_MAX
  {
    hide Apply, EvictedBy, HasRoom, WellFormed;
    DropsAfter(ep, op);
    if EvictsInVain(ep, op) {
      VainEvictionIsSilent(ep, op.key, op.payload);
    }
  }

  // ---------------------------------------------------------------- every run

  ghost function EvictedIn(ep: Endpoint, ops: seq<Op>): nat {
    if ops == [] then 0
    else
      var front := ops[..|ops| - 1];
      EvictedIn(ep, front) + EvictedBy(Run(ep, front), ops[|ops| - 1])
  }

  /** Of the messages evicted in a run, those evicted in vain. */
  ghost function EvictedInVain(ep: Endpoint, ops: seq<Op>): (n: nat)
    ensures n <= EvictedIn(ep, ops)
  {
    if ops == [] then 0
    else
      var front := ops[..|ops| - 1];
      var at, last := Run(ep, front), ops[|ops| - 1];
      EvictedInVain(ep, front) + if EvictsInVain(at, last) then EvictedBy(at, last) else 0
  }

  /** After any run the counter reads all evictions but the vain ones, up to saturation. */
  lemma {:induction false} EveryRunCounts(aggregate: Limits, ops: seq<Op>)
    ensures var ep := NewEndpoint(aggregate);
            Run(ep, ops).diagnostics.outboundDrops == Saturate(EvictedIn(ep, ops) - EvictedInVain(ep, ops))
  {
    hide Apply, EvictedBy, EvictsInVain, WellFormed;
    if ops != [] {
      var front := ops[..|ops| - 1];
      EveryRunCounts(aggregate, front);
      EveryRunIsWellFormed(aggregate, front);
      DropsAfter(Run(NewEndpoint(aggregate), front), ops[|ops| - 1]);
    }
  }

  // ---------------------------------------------------------------- it happens

  const TIGHT: Limits := Limits(10, 10, 3)
  const LOSSY: Policy := Policy(10, 10, 10, EvictOldest, DropIncoming)
  const KEY: FlowKey := FlowKey(0, Outbound, 0)

  /** An endpoint that may hold three octets in all, with one of them queued. */
  const STEPS: seq<Op> := [DoEstablish(KEY, UnreliableUnordered, LOSSY, TIGHT), DoSubmit(KEY, [7])]

  lemma RunAppend(ep: Endpoint, ops: seq<Op>, op: Op)
    ensures Run(ep, ops + [op]) == Apply(Run(ep, ops), op)
  {
    hide Apply;
    assert (ops + [op])[..|ops|] == ops;
  }

  lemma LoadOfOne(sc: Scope, flows: map<FlowKey, Flow>, key: FlowKey)
    requires flows.Keys == {key}
    ensures Load(sc, flows) == Share(sc, key, flows[key])
  {
    hide Load, Held, Share;
    LoadRemove(sc, flows, key);
    EmptyScope(sc, flows - {key});
  }

  lemma OneFlowRoom(ep: Endpoint, f: Flow, bytes: nat)
    requires ep.flows == map[KEY := f] && f.session.None? && f.policy == LOSSY && f.receiver == Unreliable([], None)
    requires ep.aggregate == TIGHT && ep.connections == map[0 := TIGHT]
    ensures HasRoom(ep, KEY, bytes) <==> |f.outbound| + 1 <= 10 && QueueBytes(f.outbound) + bytes <= 3
  {
    LoadOfOne(Aggregate, ep.flows, KEY);
    LoadOfOne(OfConnection(0), ep.flows, KEY);
  }

  /** The endpoint after STEPS. */
  function Stuck(q: seq<Transfer>, next: u64): Endpoint {
    Endpoint(TIGHT, map[0 := TIGHT], map[],
             map[KEY := Flow(UnreliableUnordered, LOSSY, Some(next), q, Unreliable([], None), None)], Diagnostics(0, 0, 0, 0))
  }

  lemma StuckIsReached()
    ensures Run(NewEndpoint(TIGHT), STEPS) == Stuck([Transfer(UnreliableUnordered, 0, [7])], 1)
  {
    hide HasRoom, Held, Load;
    var ep := NewEndpoint(TIGHT);
    LoadOfNothing(Aggregate);
    LoadOfNothing(OfConnection(0));
    var first := Establish(ep, KEY, UnreliableUnordered, LOSSY, TIGHT);
    assert first.1.Ok?;
    assert first.0.flows == Stuck([], 0).flows && first.0.connections == Stuck([], 0).connections;
    OneFlowRoom(Stuck([], 0), Stuck([], 0).flows[KEY], 1);
    assert [] + [Transfer(UnreliableUnordered, 0, [7])] == [Transfer(UnreliableUnordered, 0, [7])];
    assert Enqueue(Stuck([], 0), KEY, 0, [7]).flows == Stuck([Transfer(UnreliableUnordered, 0, [7])], 1).flows;
    RunAppend(ep, [], STEPS[0]);
    RunAppend(ep, [STEPS[0]], STEPS[1]);
    assert [] + [STEPS[0]] == [STEPS[0]] && [STEPS[0]] + [STEPS[1]] == STEPS;
  }

  /** A reachable endpoint evicts in vain: the submission is rejected for pressure, the flow's one
      accepted message is gone, and the diagnostics do not show it. */
  lemma VainEvictionHappens()
    ensures var ep := Run(NewEndpoint(TIGHT), STEPS);
            && WellFormed(ep) && KEY in ep.flows && |ep.flows[KEY].outbound| == 1
            && EvictsInVain(ep, DoSubmit(KEY, [1, 2, 3, 4]))
            && var (after, r) := Submit(ep, KEY, [1, 2, 3, 4]);
            && r == Ok(RejectedPressure) && KEY in after.flows && after.flows[KEY].outbound == []
            && after.diagnostics == ep.diagnostics && EvictedBy(ep, DoSubmit(KEY, [1, 2, 3, 4])) == 1
  {
    hide HasRoom, WellFormed, Run;
    StuckIsReached();
    EveryRunIsWellFormed(TIGHT, STEPS);
    var ep := Stuck([Transfer(UnreliableUnordered, 0, [7])], 1);
    var trimmed := Evict(ep, KEY, 1);
    OneFlowRoom(trimmed, trimmed.flows[KEY], 4);
    VainEvictionIsSilent(ep, KEY, [1, 2, 3, 4]);
  }
}
