/** The round-robin over tracked flows that both data drivers use: serve one, remove one by swapping the
    last entry into its place, or find nothing to do. */
module Scheduler {
  import opened Basics

  /** What polling one tracked flow leads to. */
  datatype Choice = Skip | Serve | Remove

  datatype Event<F> = Quiet | Served(flow: F) | Removed(flow: F)

  datatype Table<F> = Table(flows: seq<F>, cursor: nat)

  ghost predicate Distinct<F>(s: seq<F>) {
    forall i, j :: 0 <= i < j < |s| ==> s[i] != s[j]
  }

  function SwapRemove<F>(s: seq<F>, index: nat): (r: seq<F>)
    requires index < |s|
    ensures |r| == |s| - 1
  {
    s[index := s[|s| - 1]][..|s| - 1]
  }

  function Wrapped(x: nat, n: nat): (r: nat)
    requires n > 0
    ensures r < n
  {
    x % n
  }

  lemma WrapIs(x: nat, n: nat)
    requires n > 0 && x < 2 * n
    ensures Wrapped(x, n) == if x < n then x else x - n
  {
    if x >= n {
      assert x == 1 * n + (x - n);
    }
  }

  function CursorAfterRemove(index: nat, newLength: nat): nat {
    if newLength == 0 then 0 else Wrapped(index, newLength)
  }

  /** The flow polled at an offset from where the round starts. */
  function TurnOf<F>(flows: seq<F>, start: nat, offset: nat): F
    requires flows != []
  {
    flows[Wrapped(start + offset, |flows|)]
  }

  /** The first offset from `start` whose flow does not skip, or the length. */
  function FirstActive<F>(flows: seq<F>, start: nat, choose: F -> Choice, offset: nat): (first: nat)
    requires flows != [] && offset <= |flows|
    ensures offset <= first <= |flows|
    ensures forall k :: offset <= k < first ==> choose(TurnOf(flows, start, k)).Skip?
    ensures first < |flows| ==> !choose(TurnOf(flows, start, first)).Skip?
    decreases |flows| - offset
  {
    if offset == |flows| || !choose(TurnOf(flows, start, offset)).Skip? then offset
    else FirstActive(flows, start, choose, offset + 1)
  }

  function Drive<F>(t: Table<F>, choose: F -> Choice): (Table<F>, Event<F>) {
    var n := |t.flows|;
    if n == 0 then (t, Quiet)
    else
      var start := Wrapped(t.cursor, n);
      var offset := FirstActive(t.flows, start, choose, 0);
      if offset == n then (t.(cursor := Wrapped(start + 1, n)), Quiet)
      else
        var index := Wrapped(start + offset, n);
        if choose(t.flows[index]).Serve? then (t.(cursor := Wrapped(index + 1, n)), Served(t.flows[index]))
        else (Table(SwapRemove(t.flows, index), CursorAfterRemove(index, n - 1)), Removed(t.flows[index]))
  }

  class RoundRobin<F(==)> {
    var flows: seq<F>
    var cursor: nat

    function Value(): Table<F>
      reads this
    {
      Table(flows, cursor)
    }

    constructor ()
      ensures Value() == Table([], 0)
    {
      flows, cursor := [], 0;
    }

    /** Poll the tracked flows in turn until one is served or removed. */
    method DriveOnce(choose: F -> Choice) returns (e: Event<F>)
      modifies this
      ensures (Value(), e) == Drive(old(Value()), choose)
    {
      hide SwapRemove, Wrapped;
      var n := |flows|;
      if n == 0 {
        return Quiet;
      }
      var start := Wrapped(cursor, n);
      for offset := 0 to n
        invariant flows == old(flows) && cursor == old(cursor)
        invariant FirstActive(flows, start, choose, 0) == FirstActive(flows, start, choose, offset)
      {
        var index := Wrapped(start + offset, n);
        match choose(flows[index]) {
          case Skip =>
          case Serve =>
            cursor := Wrapped(index + 1, n);
            return Served(flows[index]);
          case Remove =>
            e := Removed(flows[index]);
            flows := SwapRemove(flows, index);
            cursor := CursorAfterRemove(index, |flows|);
            return;
        }
      }
      cursor := Wrapped(start + 1, n);
      return Quiet;
    }

    /** Track one more flow, after dropping the flows that are no longer live. */
    method Register(flow: F, live: F -> bool) returns (added: bool)
      modifies this
      ensures var kept := Retain(old(flows), live);
              && added == (flow !in kept) && flows == (if added then kept + [flow] else kept)
              && cursor == CursorAfterRemove(old(cursor), |kept|)
      ensures Distinct(old(flows)) ==> Distinct(flows)
    {
      RetainKeepsDistinct(flows, live);
      flows := Retain(flows, live);
      cursor := CursorAfterRemove(cursor, |flows|);
      added := flow !in flows;
      if added {
        flows := flows + [flow];
      }
    }
  }

  function Retain<F>(s: seq<F>, live: F -> bool): seq<F> {
    if s == [] then [] else (if live(s[0]) then [s[0]] else []) + Retain(s[1..], live)
  }

  lemma {:induction false} RetainKeepsDistinct<F>(s: seq<F>, live: F -> bool)
    ensures forall f :: f in Retain(s, live) <==> f in s && live(f)
    ensures Distinct(s) ==> Distinct(Retain(s, live))
  {
    if s != [] {
      RetainKeepsDistinct(s[1..], live);
      assert s == [s[0]] + s[1..];
    }
  }

  // ---------------------------------------------------------------- the tracked set

  lemma SwapRemoveContents<F>(s: seq<F>, index: nat)
    requires index < |s| && Distinct(s)
    ensures Distinct(SwapRemove(s, index))
    ensures forall f :: f in SwapRemove(s, index) <==> f in s && f != s[index]
  {
    var r := SwapRemove(s, index);
    forall f | f in s && f != s[index] ensures f in r {
      var i :| 0 <= i < |s| && s[i] == f;
      assert r[if i == |s| - 1 then index else i] == f;
    }
  }

  /** A call keeps every tracked flow except one that it reports removed. */
  lemma DriveKeeps<F>(t: Table<F>, choose: F -> Choice)
    requires Distinct(t.flows)
    ensures var (after, e) := Drive(t, choose);
            && Distinct(after.flows)
            && (forall f :: f in after.flows <==> f in t.flows && e != Removed(f))
            && (e.Served? ==> e.flow in t.flows && choose(e.flow).Serve?)
            && (e.Removed? ==> e.flow in t.flows && choose(e.flow).Remove?)
            && (e.Quiet? ==> forall f :: f in t.flows ==> choose(f).Skip?)
  {
    hide Wrapped;
    var n := |t.flows|;
    if n > 0 {
      var start := Wrapped(t.cursor, n);
      var offset := FirstActive(t.flows, start, choose, 0);
      if offset < n {
        SwapRemoveContents(t.flows, Wrapped(start + offset, n));
      } else {
        AllSkip(t.flows, start, choose);
      }
    }
  }

  lemma AllSkip<F>(flows: seq<F>, start: nat, choose: F -> Choice)
    requires flows != [] && start < |flows| && FirstActive(flows, start, choose, 0) == |flows|
    ensures forall f :: f in flows ==> choose(f).Skip?
  {
    hide Wrapped, FirstActive, Distance;
    forall f | f in flows ensures choose(f).Skip? {
      var i :| 0 <= i < |flows| && flows[i] == f;
      Offset(start, i, |flows|);
      assert TurnOf(flows, start, Distance(start, i, |flows|)) == f;
    }
  }

  // ---------------------------------------------------------------- how long a ready flow can wait

  /** How many entries the cursor passes before it reaches position `i`. */
  function Distance(cursor: nat, i: nat, n: nat): nat
    requires i < n
  {
    var c := Wrapped(cursor, n);
    if c <= i then i - c else i - c + n
  }

  lemma Offset(start: nat, i: nat, n: nat)
    requires start < n && i < n
    ensures 0 <= Distance(start, i, n) < n && Wrapped(start + Distance(start, i, n), n) == i
  {
    hide Wrapped;
    WrapIs(start, n);
    WrapIs(start + Distance(start, i, n), n);
  }

  /** The most servings and removals of other flows that a ready flow at position `i` can see first. */
  function Wait(cursor: nat, i: nat, n: nat): nat
    requires i < n
  {
    var d := Distance(cursor, i, n);
    if d == 0 || i == 0 then d else d + (n - 1 - i)
  }

  function IndexOf<F(==)>(s: seq<F>, f: F): (i: nat)
    requires f in s
    ensures i < |s| && s[i] == f
  {
    if s[0] == f then 0 else 1 + IndexOf(s[1..], f)
  }

  /** Only the cursor's remainder matters. */
  lemma WaitFrom(cursor: nat, i: nat, n: nat)
    requires i < n
    ensures Distance(Wrapped(cursor, n), i, n) == Distance(cursor, i, n) && Wait(Wrapped(cursor, n), i, n) == Wait(cursor, i, n)
  {
    hide Wrapped;
    WrapIs(Wrapped(cursor, n), n);
  }

  lemma IndexIs<F>(s: seq<F>, f: F, i: nat)
    requires Distinct(s) && i < |s| && s[i] == f
    ensures IndexOf(s, f) == i
  {
  }

  function DistanceOf<F(==)>(t: Table<F>, f: F): nat
    requires f in t.flows
  {
    Distance(t.cursor, IndexOf(t.flows, f), |t.flows|)
  }

  function WaitOf<F(==)>(t: Table<F>, f: F): nat
    requires f in t.flows
  {
    Wait(t.cursor, IndexOf(t.flows, f), |t.flows|)
  }

  lemma ServeShortens(start: nat, i: nat, n: nat, offset: nat)
    requires start < n && i < n && offset < Distance(start, i, n)
    ensures var index := Wrapped(start + offset, n);
            index != i && Distance(Wrapped(index + 1, n), i, n) == Distance(start, i, n) - offset - 1
            && Wait(Wrapped(index + 1, n), i, n) < Wait(start, i, n)
            && (offset == 0 && (i == 0 || start > i || i == n - 1) ==> Wait(Wrapped(index + 1, n), i, n) == Wait(start, i, n) - 1)
  {
    hide Wrapped;
    WrapIs(start, n);
    WrapIs(start + offset, n);
    WrapIs(Wrapped(start + offset, n) + 1, n);
    WrapIs(Wrapped(Wrapped(start + offset, n) + 1, n), n);
  }

  lemma RemoveShortens(start: nat, i: nat, n: nat, offset: nat)
    requires start < n && i < n && offset < Distance(start, i, n)
    ensures var index := Wrapped(start + offset, n);
            var j := if i == n - 1 then index else i;
            && index != i && n > 1 && j < n - 1
            && Wait(CursorAfterRemove(index, n - 1), j, n - 1) < Wait(start, i, n)
            && Distance(CursorAfterRemove(index, n - 1), j, n - 1) <= Distance(start, i, n)
            && (offset == 0 && start < i < n - 1 ==> Wait(CursorAfterRemove(index, n - 1), j, n - 1) == Wait(start, i, n) - 1)
  {
    hide Wrapped;
    WrapIs(start, n);
    WrapIs(start + offset, n);
    WrapIs(Wrapped(start + offset, n), n - 1);
    WrapIs(CursorAfterRemove(Wrapped(start + offset, n), n - 1), n - 1);
  }

  lemma ReachedBy<F>(flows: seq<F>, start: nat, choose: F -> Choice, i: nat)
    requires start < |flows| && i < |flows| && !choose(flows[i]).Skip?
    ensures FirstActive(flows, start, choose, 0) <= Distance(start, i, |flows|) < |flows|
    ensures FirstActive(flows, start, choose, 0) == Distance(start, i, |flows|) ==>
              Wrapped(start + FirstActive(flows, start, choose, 0), |flows|) == i
  {
    hide Wrapped, Distance, FirstActive;
    Offset(start, i, |flows|);
    assert TurnOf(flows, start, Distance(start, i, |flows|)) == flows[i];
  }

  lemma StillTracked<F>(t: Table<F>, choose: F -> Choice, f: F)
    requires Distinct(t.flows) && f in t.flows && choose(f).Serve?
    ensures f in Drive(t, choose).0.flows && Distinct(Drive(t, choose).0.flows) && !Drive(t, choose).1.Quiet?
  {
    hide Drive;
    DriveKeeps(t, choose);
  }

  lemma DistanceZero(cursor: nat, i: nat, n: nat)
    requires i < n
    ensures Distance(cursor, i, n) == 0 <==> Wrapped(cursor, n) == i
  {
  }

  /** While a flow is ready, every call serves it or strictly shortens its longest wait. */
  lemma DriveShortens<F>(t: Table<F>, choose: F -> Choice, f: F)
    requires Distinct(t.flows) && f in t.flows && choose(f).Serve?
    ensures var (after, e) := Drive(t, choose);
            && f in after.flows && !e.Quiet?
            && (e != Served(f) ==> WaitOf(after, f) < WaitOf(t, f))
            && (e != Served(f) ==> DistanceOf(after, f) <= DistanceOf(t, f) - (if e.Served? then 1 else 0))
            && (WaitOf(t, f) == 0 ==> e == Served(f))
  {
    hide Wrapped, WaitOf, DistanceOf, FirstActive, Distinct, SwapRemove, CursorAfterRemove, IndexOf, TurnOf;
    var n := |t.flows|;
    var start := Wrapped(t.cursor, n);
    var offset := FirstActive(t.flows, start, choose, 0);
    FirstForFlow(t, choose, f);
    StillTracked(t, choose, f);
    if offset < DistanceOf(t, f) {
      if choose(t.flows[Wrapped(start + offset, n)]).Serve? {
        ServeFrom(t, f, offset);
      } else {
        RemoveFrom(t, f, offset);
      }
    }
  }

  lemma FirstForFlow<F>(t: Table<F>, choose: F -> Choice, f: F)
    requires Distinct(t.flows) && f in t.flows && choose(f).Serve?
    ensures var n := |t.flows|;
            var start := Wrapped(t.cursor, n);
            var offset := FirstActive(t.flows, start, choose, 0);
            && offset <= DistanceOf(t, f) && offset < n && choose(t.flows[Wrapped(start + offset, n)]) != Skip
            && (offset == DistanceOf(t, f) ==> t.flows[Wrapped(start + offset, n)] == f)
            && (offset < DistanceOf(t, f) ==> t.flows[Wrapped(start + offset, n)] != f && WaitOf(t, f) > 0)
  {
    hide Wrapped, Distance, FirstActive;
    var i := IndexOf(t.flows, f);
    var start := Wrapped(t.cursor, |t.flows|);
    WaitFrom(t.cursor, i, |t.flows|);
    ReachedBy(t.flows, start, choose, i);
    var offset := FirstActive(t.flows, start, choose, 0);
    assert choose(TurnOf(t.flows, start, offset)) != Skip;
    if offset < Distance(start, i, |t.flows|) {
      ServeShortens(start, i, |t.flows|, offset);
    }
  }

  lemma ServeFrom<F>(t: Table<F>, f: F, offset: nat)
    requires f in t.flows && offset < DistanceOf(t, f)
    ensures var n := |t.flows|;
            var index := Wrapped(Wrapped(t.cursor, n) + offset, n);
            var after := t.(cursor := Wrapped(index + 1, n));
            WaitOf(after, f) < WaitOf(t, f) && DistanceOf(after, f) < DistanceOf(t, f)
  {
    hide Wrapped, Distance, Wait;
    var i := IndexOf(t.flows, f);
    WaitFrom(t.cursor, i, |t.flows|);
    ServeShortens(Wrapped(t.cursor, |t.flows|), i, |t.flows|, offset);
  }

  lemma RemoveFrom<F>(t: Table<F>, f: F, offset: nat)
    requires Distinct(t.flows) && f in t.flows && offset < DistanceOf(t, f)
    ensures var n := |t.flows|;
            var start := Wrapped(t.cursor, n);
            var index := Wrapped(start + offset, n);
            var after := Table(SwapRemove(t.flows, index), CursorAfterRemove(index, n - 1));
            && f in after.flows && WaitOf(after, f) < WaitOf(t, f) && DistanceOf(after, f) <= DistanceOf(t, f)
            && (offset == 0 && start < IndexOf(t.flows, f) < n - 1 ==> WaitOf(after, f) == WaitOf(t, f) - 1)
  {
    hide Wrapped, Distance, Wait, Distinct;
    var n := |t.flows|;
    var i := IndexOf(t.flows, f);
    var start := Wrapped(t.cursor, n);
    var index := Wrapped(start + offset, n);
    WaitFrom(t.cursor, i, n);
    RemoveShortens(start, i, n, offset);
    SwapRemoveContents(t.flows, index);
    IndexIs(SwapRemove(t.flows, index), f, if i == n - 1 then index else i);
  }

  /** A run of calls in which `f` is always ready and never served. */
  predicate Bypassed<F(==)>(t: Table<F>, run: seq<F -> Choice>, f: F)
    decreases |run|
  {
    run == [] ||
    var (after, e) := Drive(t, run[0]);
    run[0](f).Serve? && e != Served(f) && Bypassed(after, run[1..], f)
  }

  /** A ready flow is passed over by at most `WaitOf` servings and removals of other flows. */
  lemma {:induction false} BypassIsBounded<F>(t: Table<F>, run: seq<F -> Choice>, f: F)
    requires Distinct(t.flows) && f in t.flows && Bypassed(t, run, f)
    ensures |run| <= WaitOf(t, f)
    decreases |run|
  {
    if run != [] {
      DriveShortens(t, run[0], f);
      DriveKeeps(t, run[0]);
      BypassIsBounded(Drive(t, run[0]).0, run[1..], f);
    }
  }

  function Servings<F(==)>(t: Table<F>, run: seq<F -> Choice>): nat
    decreases |run|
  {
    if run == [] then 0
    else (if Drive(t, run[0]).1.Served? then 1 else 0) + Servings(Drive(t, run[0]).0, run[1..])
  }

  /** Servings alone are bounded by the distance to the cursor, hence by the other flows tracked. */
  lemma {:induction false} ServingsAreBounded<F>(t: Table<F>, run: seq<F -> Choice>, f: F)
    requires Distinct(t.flows) && f in t.flows && Bypassed(t, run, f)
    ensures Servings(t, run) <= DistanceOf(t, f) <= |t.flows| - 1
    decreases |run|
  {
    if run != [] {
      DriveShortens(t, run[0], f);
      DriveKeeps(t, run[0]);
      ServingsAreBounded(Drive(t, run[0]).0, run[1..], f);
    }
  }

  // ---------------------------------------------------------------- the bound is exact

  /** With the right statuses a call shortens the wait by no more than one. */
  lemma WorstCall<F>(t: Table<F>, f: F) returns (choose: F -> Choice)
    requires Distinct(t.flows) && f in t.flows && WaitOf(t, f) > 0
    ensures choose(f).Serve? && Drive(t, choose).1 != Served(f)
    ensures Distinct(Drive(t, choose).0.flows) && f in Drive(t, choose).0.flows
    ensures WaitOf(Drive(t, choose).0, f) == WaitOf(t, f) - 1
  {
    hide Wrapped, Distance, Distinct, SwapRemove, CursorAfterRemove, IndexOf;
    var n := |t.flows|;
    var i := IndexOf(t.flows, f);
    var start := Wrapped(t.cursor, n);
    var first := t.flows[start];
    WaitFrom(t.cursor, i, n);
    DistanceZero(t.cursor, i, n);
    WrapIs(start, n);
    if first == f {
      IndexIs(t.flows, f, start);
    }
    if start < i < n - 1 {
      choose := g => if g == first then Remove else Serve;
      assert FirstActive(t.flows, start, choose, 0) == 0;
      RemoveFrom(t, f, 0);
    } else {
      choose := g => Serve;
      assert FirstActive(t.flows, start, choose, 0) == 0;
      ServeShortens(start, i, n, 0);
    }
    StillTracked(t, choose, f);
    FirstForFlow(t, choose, f);
  }

  lemma {:induction false} WorstRun<F>(t: Table<F>, f: F) returns (run: seq<F -> Choice>)
    requires Distinct(t.flows) && f in t.flows
    ensures Bypassed(t, run, f) && |run| == WaitOf(t, f)
    decreases WaitOf(t, f)
  {
    if WaitOf(t, f) == 0 {
      run := [];
    } else {
      var choose := WorstCall(t, f);
      var rest := WorstRun(Drive(t, choose).0, f);
      run := [choose] + rest;
    }
  }

  /** A ready flow waits for at most the number of other tracked flows, however the calls go, exactly when
      the cursor has not passed it or it is the first entry. */
  lemma BypassWithinTableSize<F>(t: Table<F>, f: F)
    requires Distinct(t.flows) && f in t.flows
    ensures (forall run :: Bypassed(t, run, f) ==> |run| <= |t.flows| - 1)
            <==> IndexOf(t.flows, f) == 0 || Wrapped(t.cursor, |t.flows|) <= IndexOf(t.flows, f)
  {
    var fits := WaitOf(t, f) <= |t.flows| - 1;
    assert fits <==> IndexOf(t.flows, f) == 0 || Wrapped(t.cursor, |t.flows|) <= IndexOf(t.flows, f);
    forall run | Bypassed(t, run, f) ensures |run| <= WaitOf(t, f) {
      BypassIsBounded(t, run, f);
    }
    if !fits {
      var run := WorstRun(t, f);
      assert Bypassed(t, run, f) && |run| > |t.flows| - 1;
    }
  }

  /** Four flows with the cursor on the last one: the third waits for four servings and removals. */
  lemma BypassCanExceedTableSize()
    ensures exists run :: Bypassed(Table([10, 11, 12, 13], 3), run, 12) && |run| == 4
  {
    var run := WorstRun(Table([10, 11, 12, 13], 3), 12);
  }
}
