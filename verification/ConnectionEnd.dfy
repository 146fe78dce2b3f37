/** Ending every flow of one connection, in a fixed order. */
module ConnectionEnd {
  import opened Basics
  import opened Delivery
  import opened Core
  import opened CoreInvariant
  import opened DeliveryEndpoints
  import opened CoreAnswers

  /** Outbound flows first, then by handle. */
  predicate Before(a: FlowKey, b: FlowKey) {
    if a.direction != b.direction then a.direction.Outbound? else a.handle < b.handle
  }

  function KeysOf(ep: Endpoint, connection: u64): set<FlowKey> {
    set k | k in ep.flows && k.connection == connection
  }

  /** The flows of the connection, each once, in order. */
  ghost predicate InOrder(keys: seq<FlowKey>, flows: set<FlowKey>) {
    && (forall k :: k in keys <==> k in flows)
    && forall i, j :: 0 <= i < j < |keys| ==> Before(keys[i], keys[j])
  }

  ghost function TerminateAll(ep: Endpoint, keys: seq<FlowKey>): (Endpoint, seq<Termination>)
    decreases |keys|
  {
    if keys == [] then (ep, [])
    else
      var first := Core.Terminate(ep, keys[0], ConnectionEnded);
      var rest := TerminateAll(first.0, keys[1..]);
      (rest.0, (match first.1 case Ok(t) => [t] case Err(_) => []) + rest.1)
  }

  lemma TerminateOne(ep: Endpoint, key: FlowKey)
    requires WellFormed(ep) && key in ep.flows
    ensures var (after, r) := Core.Terminate(ep, key, ConnectionEnded);
            && WellFormed(after) && after.flows == ep.flows - {key} && r.Ok?
            && r.value.key == key && r.value.reason == ConnectionEnded && Reports(r.value, ep.flows[key])
  {
    hide WellFormed, Held, Populated, Core.Terminate;
    TerminationReport(ep, key, ConnectionEnded);
    TerminateKeeps(ep, key, ConnectionEnded);
  }

  /** All that the flow held is reported; a reliable obligation failed exactly if it held anything. */
  predicate Reports(t: Termination, f: Flow) {
    && t.pendingMessages == |f.outbound| + Unexposed(f)
    && (t.obligationFailed <==> f.mode == ReliableOrdered && (f.outbound != [] || Unexposed(f) > 0))
  }

  ghost predicate EndedIn(ep: Endpoint, keys: seq<FlowKey>, after: Endpoint, ended: seq<Termination>) {
    && |ended| == |keys|
    && (forall k :: k in after.flows <==> k in ep.flows && k !in keys)
    && (forall k :: k in after.flows ==> after.flows[k] == ep.flows[k])
    && (forall i :: 0 <= i < |keys| ==>
          && keys[i] in ep.flows && ended[i].key == keys[i] && ended[i].reason == ConnectionEnded
          && Reports(ended[i], ep.flows[keys[i]]))
  }

  /** Ending one flow and then the others. */
  lemma EndedNext(ep: Endpoint, key: FlowKey, next: Endpoint, t: Termination, rest: seq<FlowKey>, after: Endpoint, ended: seq<Termination>)
    requires key in ep.flows && key !in rest && next.flows == ep.flows - {key}
    requires t.key == key && t.reason == ConnectionEnded && Reports(t, ep.flows[key])
    requires EndedIn(next, rest, after, ended)
    ensures EndedIn(ep, [key] + rest, after, [t] + ended)
  {
    hide Reports;
    var keys := [key] + rest;
    forall i | 0 < i < |keys| ensures keys[i] in next.flows && keys[i] == rest[i - 1] {
    }
  }

  /** Each flow named is ended exactly once, in order, reporting what it still held; all others stay. */
  lemma {:induction false} AllEnd(ep: Endpoint, keys: seq<FlowKey>)
    requires WellFormed(ep) && (forall i :: 0 <= i < |keys| ==> keys[i] in ep.flows)
    requires forall i, j :: 0 <= i < j < |keys| ==> keys[i] != keys[j]
    ensures WellFormed(TerminateAll(ep, keys).0) && EndedIn(ep, keys, TerminateAll(ep, keys).0, TerminateAll(ep, keys).1)
    decreases |keys|
  {
    hide WellFormed, Reports, Core.Terminate;
    if keys != [] {
      TerminateOne(ep, keys[0]);
      var (next, t) := Core.Terminate(ep, keys[0], ConnectionEnded);
      var rest := keys[1..];
      forall i | 0 <= i < |rest| ensures rest[i] in next.flows {
        assert rest[i] == keys[i + 1];
      }
      AllEnd(next, rest);
      assert keys == [keys[0]] + rest && keys[0] !in rest;
      hide EndedIn;
      EndedNext(ep, keys[0], next, t.value, rest, TerminateAll(next, rest).0, TerminateAll(next, rest).1);
    }
  }

  /** Afterwards the connection has no flow and no scope of its own, and every other flow is unchanged. */
  lemma ConnectionIsGone(ep: Endpoint, connection: u64, keys: seq<FlowKey>)
    requires WellFormed(ep) && InOrder(keys, KeysOf(ep, connection))
    ensures var (after, ended) := TerminateAll(ep, keys);
            && WellFormed(after) && KeysOf(after, connection) == {} && connection !in after.connections
            && (forall k :: k in ep.flows && k.connection != connection ==> k in after.flows && after.flows[k] == ep.flows[k])
            && |ended| == |keys| == |KeysOf(ep, connection)|
            && (forall i :: 0 <= i < |keys| ==>
                  && ended[i].key == keys[i] && ended[i].reason == ConnectionEnded
                  && keys[i] in ep.flows && Reports(ended[i], ep.flows[keys[i]]))
  {
    hide Held, Load, FlowOk, TerminateAll, Reports;
    forall i | 0 <= i < |keys| ensures keys[i] in ep.flows {
      assert keys[i] in keys;
    }
    AllEnd(ep, keys);
    DistinctCount(keys, KeysOf(ep, connection));
    var after := TerminateAll(ep, keys).0;
    assert ScopeOk(after, OfConnection(connection));
  }

  lemma {:induction false} DistinctCount(keys: seq<FlowKey>, flows: set<FlowKey>)
    requires InOrder(keys, flows)
    ensures |keys| == |flows|
  {
    if keys == [] {
      assert flows == {};
    } else {
      assert keys == [keys[0]] + keys[1..];
      forall k | k in keys[1..] ensures k != keys[0] {
        var i :| 0 <= i < |keys[1..]| && keys[1..][i] == k;
        assert Before(keys[0], keys[i + 1]);
      }
      assert keys[0] in flows;
      DistinctCount(keys[1..], flows - {keys[0]});
    }
  }

  lemma {:induction false} FirstExists(flows: set<FlowKey>, connection: u64)
    requires flows != {} && forall k :: k in flows ==> k.connection == connection
    ensures exists k :: k in flows && forall other :: other in flows ==> other == k || Before(k, other)
  {
    var x :| x in flows;
    if flows != {x} {
      FirstExists(flows - {x}, connection);
      var k :| k in flows - {x} && forall other :: other in flows - {x} ==> other == k || Before(k, other);
      var first := if Before(k, x) then k else x;
      assert Before(k, x) || Before(x, k);
      forall other | other in flows ensures other == first || Before(first, other) {
        assert other in flows - {x} || other == x;
      }
      assert forall other :: other in flows ==> other == first || Before(first, other);
    } else {
      assert forall other :: other in flows ==> other == x;
    }
  }

  method OrderedKeys(flows: set<FlowKey>, connection: u64) returns (keys: seq<FlowKey>)
    requires forall k :: k in flows ==> k.connection == connection
    ensures InOrder(keys, flows)
  {
    keys := [];
    var left := flows;
    while left != {}
      invariant left <= flows && (forall k :: k in keys <==> k in flows && k !in left)
      invariant forall i, j :: 0 <= i < j < |keys| ==> Before(keys[i], keys[j])
      invariant forall k, l :: k in keys && l in left ==> Before(k, l)
      decreases |left|
    {
      FirstExists(left, connection);
      var first :| first in left && forall other :: other in left ==> other == first || Before(first, other);
      keys := keys + [first];
      left := left - {first};
    }
  }

  method EndConnection(endpoint: DeliveryEndpoint, connection: u64) returns (ended: seq<Termination>, ghost keys: seq<FlowKey>)
    requires endpoint.Valid()
    modifies endpoint
    ensures endpoint.Valid() && InOrder(keys, KeysOf(old(endpoint.model), connection))
    ensures (endpoint.model, ended) == TerminateAll(old(endpoint.model), keys)
  {
    hide WellFormed, Core.Terminate;
    var known := endpoint.LiveKeys();
    var mine := set k | k in known && k.connection == connection;
    var order := OrderedKeys(mine, connection);
    keys := order;
    ended := EndInOrder(endpoint, order);
  }

  method EndInOrder(endpoint: DeliveryEndpoint, keys: seq<FlowKey>) returns (ended: seq<Termination>)
    requires endpoint.Valid()
    modifies endpoint
    ensures endpoint.Valid() && (endpoint.model, ended) == TerminateAll(old(endpoint.model), keys)
  {
    hide WellFormed, Core.Terminate;
    ended := [];
    assert keys[0..] == keys;
    ContinuedMore([], [], TerminateAll(endpoint.model, keys));
    for i := 0 to |keys|
      invariant endpoint.Valid()
      invariant TerminateAll(old(endpoint.model), keys) == Continued(ended, TerminateAll(endpoint.model, keys[i..]))
    {
      assert keys[i..][0] == keys[i] && keys[i..][1..] == keys[i + 1..];
      ghost var before := endpoint.model;
      var t := endpoint.TerminateFlow(keys[i], ConnectionEnded);
      ghost var later := TerminateAll(endpoint.model, keys[i + 1..]);
      ContinuedMore(ended, if t.Ok? then [t.value] else [], later);
      if t.Ok? {
        ended := ended + [t.value];
      }
    }
    assert keys[|keys|..] == [] && ended + [] == ended;
  }

  function Continued(done: seq<Termination>, rest: (Endpoint, seq<Termination>)): (Endpoint, seq<Termination>) {
    (rest.0, done + rest.1)
  }

  lemma ContinuedMore(done: seq<Termination>, more: seq<Termination>, rest: (Endpoint, seq<Termination>))
    ensures Continued(done, Continued(more, rest)) == Continued(done + more, rest)
    ensures Continued([], rest) == rest
  {
    assert done + (more + rest.1) == (done + more) + rest.1;
    assert [] + rest.1 == rest.1;
  }
}
