/** Delivery flows without any bookkeeping: the endpoint is its limits and its live flows, and every
    resource question is answered by adding up what the live flows hold. The counters that the
    implementation keeps instead live in module DeliveryEndpoints and are proved to agree with this model. */
module Delivery {
  import opened Basics

  datatype Mode = ReliableOrdered | UnreliableUnordered | UnreliableSequenced

  datatype Direction = Outbound | Inbound

  datatype FlowKey = FlowKey(connection: u64, direction: Direction, handle: u64)

  datatype OutboundPressure = RejectNew | EvictOldest

  datatype ReceiverPressure = TerminateReliable | DropIncoming | EvictBuffered

  type nonzero = x: int | 1 <= x <= 0xFFFF_FFFF_FFFF_FFFF witness 1

  datatype PolicyError = ReliableOutboundMustRejectNew | ReliableReceiverMustTerminate | UnreliableReceiverPolicyRequired

  datatype Policy = Policy(maxMessageBytes: nonzero, maxPendingMessages: nonzero, maxPendingBytes: nonzero,
                           outboundPressure: OutboundPressure, receiverPressure: ReceiverPressure) {
    function ValidateFor(mode: Mode): Option<PolicyError> {
      if mode.ReliableOrdered? then
        if outboundPressure != RejectNew then Some(ReliableOutboundMustRejectNew)
        else if receiverPressure != TerminateReliable then Some(ReliableReceiverMustTerminate)
        else None
      else if receiverPressure == TerminateReliable then Some(UnreliableReceiverPolicyRequired)
      else None
    }
  }

  datatype Limits = Limits(maxFlows: nonzero, maxMessages: nonzero, maxBytes: nonzero)

  datatype Usage = Usage(flows: nat, messages: nat, bytes: nat) {
    predicate Within(l: Limits) {
      flows <= l.maxFlows && messages <= l.maxMessages && bytes <= l.maxBytes
    }
  }

  const NoUsage: Usage := Usage(0, 0, 0)

  function Plus(a: Usage, b: Usage): Usage {
    Usage(a.flows + b.flows, a.messages + b.messages, a.bytes + b.bytes)
  }

  datatype Transfer = Transfer(mode: Mode, index: u64, payload: seq<u8>)

  datatype Receiver =
    | Reliable(byIndex: map<u64, Transfer>, nextExposure: Option<u64>)
    | Unreliable(queue: seq<Transfer>, lastExposed: Option<u64>)

  function NewReceiver(mode: Mode): Receiver {
    if mode.ReliableOrdered? then Reliable(map[], Some(0)) else Unreliable([], None)
  }

  datatype Flow = Flow(mode: Mode, policy: Policy, nextIndex: Option<u64>, outbound: seq<Transfer>,
                       receiver: Receiver, session: Option<nat>)

  function NewFlow(mode: Mode, policy: Policy): Flow {
    Flow(mode, policy, Some(0), [], NewReceiver(mode), None)
  }

  /** The `checked_add(1)` successor of an index. */
  function Next(i: u64): Option<u64> {
    CheckedAdd(i, 1)
  }

  /** How many indices an `Option` counter has given out. */
  function Count(next: Option<u64>): nat {
    match next case None => U64_MAX + 1 case Some(i) => i
  }

  datatype Diagnostics = Diagnostics(outboundDrops: usize, inboundDrops: usize, staleDrops: usize, duplicates: usize)

  datatype Endpoint = Endpoint(aggregate: Limits, connections: map<u64, Limits>, sessions: map<nat, Limits>,
                               flows: map<FlowKey, Flow>, diagnostics: Diagnostics)

  function NewEndpoint(aggregate: Limits): Endpoint {
    Endpoint(aggregate, map[], map[], map[], Diagnostics(0, 0, 0, 0))
  }

  // ---------------------------------------------------------------- what the live flows hold

  function QueueBytes(q: seq<Transfer>): nat {
    if q == [] then 0 else QueueBytes(q[..|q| - 1]) + |q[|q| - 1].payload|
  }

  ghost function BufferBytes(m: map<u64, Transfer>): nat
    decreases |m|
  {
    if m == map[] then 0
    else
      var i :| i in m;
      assert |(m - {i}).Keys| < |m.Keys| by { assert (m - {i}).Keys == m.Keys - {i}; }
      |m[i].payload| + BufferBytes(m - {i})
  }

  ghost function Held(f: Flow): Usage {
    match f.receiver
    case Reliable(byIndex, _) => Usage(1, |f.outbound| + |byIndex|, QueueBytes(f.outbound) + BufferBytes(byIndex))
    case Unreliable(queue, _) => Usage(1, |f.outbound| + |queue|, QueueBytes(f.outbound) + QueueBytes(queue))
  }

  datatype Scope = Aggregate | OfConnection(connection: u64) | OfSession(session: nat)

  predicate InScope(sc: Scope, k: FlowKey, f: Flow) {
    match sc
    case Aggregate => true
    case OfConnection(c) => k.connection == c
    case OfSession(s) => f.session == Some(s)
  }

  ghost function Share(sc: Scope, k: FlowKey, f: Flow): Usage {
    if InScope(sc, k, f) then Held(f) else NoUsage
  }

  /** The sum over the live flows of one scope. */
  ghost function Load(sc: Scope, flows: map<FlowKey, Flow>): Usage
    decreases |flows|
  {
    if flows == map[] then NoUsage
    else
      var k :| k in flows;
      assert |(flows - {k}).Keys| < |flows.Keys| by { assert (flows - {k}).Keys == flows.Keys - {k}; }
      Plus(Share(sc, k, flows[k]), Load(sc, flows - {k}))
  }

  ghost predicate Populated(sc: Scope, flows: map<FlowKey, Flow>) {
    exists k :: k in flows && InScope(sc, k, flows[k])
  }

  // ---------------------------------------------------------------- sums under updates

  lemma {:induction false} BufferRemove(m: map<u64, Transfer>, i: u64)
    requires i in m
    ensures BufferBytes(m) == |m[i].payload| + BufferBytes(m - {i})
    decreases |m|
  {
    var j :| j in m && BufferBytes(m) == |m[j].payload| + BufferBytes(m - {j});
    if i != j {
      assert (m - {i}).Keys == m.Keys - {i} && (m - {j}).Keys == m.Keys - {j};
      BufferRemove(m - {j}, i);
      BufferRemove(m - {i}, j);
      assert m - {i} - {j} == m - {j} - {i};
    }
  }

  lemma BufferInsert(m: map<u64, Transfer>, i: u64, t: Transfer)
    requires i !in m
    ensures BufferBytes(m[i := t]) == |t.payload| + BufferBytes(m)
    ensures |m[i := t]| == |m| + 1
  {
    BufferRemove(m[i := t], i);
    assert m[i := t] - {i} == m;
  }

  lemma BufferDrop(m: map<u64, Transfer>, i: u64)
    requires i in m
    ensures |m - {i}| == |m| - 1 && BufferBytes(m - {i}) == BufferBytes(m) - |m[i].payload|
  {
    BufferRemove(m, i);
    assert (m - {i}).Keys == m.Keys - {i};
  }

  lemma QueuePush(q: seq<Transfer>, t: Transfer)
    ensures QueueBytes(q + [t]) == QueueBytes(q) + |t.payload|
  {
    assert (q + [t])[..|q|] == q;
  }

  lemma {:induction false} QueueDrop(q: seq<Transfer>, n: nat)
    requires n <= |q|
    ensures QueueBytes(q) == QueueBytes(q[..n]) + QueueBytes(q[n..])
  {
    if n < |q| {
      var last := |q| - 1;
      QueueDrop(q[..last], n);
      assert q[..last][..n] == q[..n] && q[..last][n..] == q[n..last];
      assert q[n..][..|q[n..]| - 1] == q[n..last];
    } else {
      assert q[..n] == q && q[n..] == [];
    }
  }

  lemma QueuePop(q: seq<Transfer>)
    requires q != []
    ensures QueueBytes(q) == |q[0].payload| + QueueBytes(q[1..])
  {
    QueueDrop(q, 1);
    assert q[..1] == [q[0]] && q[..1][..0] == [];
  }

  lemma {:induction false} LoadRemove(sc: Scope, flows: map<FlowKey, Flow>, k: FlowKey)
    requires k in flows
    ensures Load(sc, flows) == Plus(Share(sc, k, flows[k]), Load(sc, flows - {k}))
    decreases |flows|
  {
    var j :| j in flows && Load(sc, flows) == Plus(Share(sc, j, flows[j]), Load(sc, flows - {j}));
    if k != j {
      assert (flows - {k}).Keys == flows.Keys - {k} && (flows - {j}).Keys == flows.Keys - {j};
      LoadRemove(sc, flows - {j}, k);
      LoadRemove(sc, flows - {k}, j);
      assert flows - {k} - {j} == flows - {j} - {k};
      PlusCommutes(Share(sc, j, flows[j]), Share(sc, k, flows[k]), Load(sc, flows - {k} - {j}));
    }
  }

  lemma PlusCommutes(a: Usage, b: Usage, c: Usage)
    ensures Plus(a, Plus(b, c)) == Plus(b, Plus(a, c))
  {
  }

  lemma LoadInsert(sc: Scope, flows: map<FlowKey, Flow>, k: FlowKey, f: Flow)
    requires k !in flows
    ensures Load(sc, flows[k := f]) == Plus(Share(sc, k, f), Load(sc, flows))
  {
    LoadRemove(sc, flows[k := f], k);
    assert flows[k := f] - {k} == flows;
  }

  lemma LoadReplace(sc: Scope, flows: map<FlowKey, Flow>, k: FlowKey, f: Flow)
    requires k in flows
    ensures Plus(Load(sc, flows[k := f]), Share(sc, k, flows[k])) == Plus(Load(sc, flows), Share(sc, k, f))
  {
    hide Held, Load;
    LoadRemove(sc, flows, k);
    LoadRemove(sc, flows[k := f], k);
    assert flows[k := f] - {k} == flows - {k};
  }

  lemma LoadOfNothing(sc: Scope)
    ensures Load(sc, map[]) == NoUsage
  {
  }

  /** A scope has a flow count of zero exactly when no live flow belongs to it. */
  lemma {:induction false} LoadCountsFlows(sc: Scope, flows: map<FlowKey, Flow>)
    ensures Load(sc, flows).flows == 0 <==> !Populated(sc, flows)
    decreases |flows|
  {
    hide Load;
    if flows == map[] {
      LoadOfNothing(sc);
    } else {
      var k :| k in flows;
      var rest := flows - {k};
      LoadRemove(sc, flows, k);
      assert rest.Keys == flows.Keys - {k};
      LoadCountsFlows(sc, rest);
      PopulatedWithout(sc, flows, k);
      assert Held(flows[k]).flows == 1;
    }
  }

  lemma PopulatedWithout(sc: Scope, flows: map<FlowKey, Flow>, k: FlowKey)
    requires k in flows
    ensures Populated(sc, flows) <==> InScope(sc, k, flows[k]) || Populated(sc, flows - {k})
  {
    var rest := flows - {k};
    if Populated(sc, rest) {
      var j :| j in rest && InScope(sc, j, rest[j]);
      assert j in flows && InScope(sc, j, flows[j]);
    }
    if Populated(sc, flows) && !InScope(sc, k, flows[k]) {
      var j :| j in flows && InScope(sc, j, flows[j]);
      assert j in rest && InScope(sc, j, rest[j]);
    }
  }
}
