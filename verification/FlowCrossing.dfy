/** A concrete run of two honest peers in which TERMINATEs cross: a reliable flow is opened and
    established, both ends end it before either frame arrives, and the frame that arrives is refused. */
module FlowCrossing {
  import opened Basics
  import opened Wire
  import opened Delivery
  import opened Core
  import opened CoreInvariant
  import opened ControlBody
  import opened Registry
  import opened FlowControls
  import opened FailureReports
  import opened FlowNode
  import opened FlowPhases
  import opened FlowMoves
  import opened FlowProtocol

  const LIMITS: Limits := Limits(4, 16, 1024)
  const SETTINGS: Settings := Settings(2, 64)
  const POLICY: Policy := Policy(64, 4, 256, RejectNew, TerminateReliable)
  const OUT: FlowKey := FlowKey(1, Outbound, 1)
  const IN: FlowKey := FlowKey(1, Inbound, 1)
  const REQUEST: OpenRequest := OpenRequest(OUT, ReliableOrdered, POLICY, 64, LIMITS)
  const OPENING: ControlMsg := ControlMsg.Open(0, ReliableOrdered, 64)
  const ASKED: PendingOut := PendingOut(OUT, ReliableOrdered, POLICY, LIMITS, 64)
  const PENDING: PendingIn := PendingIn(0, ReliableOrdered, 64)
  const ADMISSION: Admission := Admission(IN, POLICY, LIMITS)

  function Peer(side: Side): Node {
    NewNode(1, side, SETTINGS, SETTINGS, NewEndpoint(LIMITS))
  }

  function RegisteredAs(key: FlowKey): RegisteredFlow {
    RegisteredFlow(key, ReliableOrdered, 64, NewAssociation(ReliableOrdered))
  }

  function Asking(): Control {
    Peer(Client).c.(localNext := Some(1), pendingOut := map[0 := ASKED])
  }

  function Deciding(): Control {
    Peer(Server).c.(peerNext := Some(1), pendingIn := Some(PENDING))
  }

  ghost function Granting(): Node {
    Node(Peer(Server).c.(peerNext := Some(1), reg := map[0 := RegisteredAs(IN)]), Establish(NewEndpoint(LIMITS), IN, ReliableOrdered, POLICY, LIMITS).0, {}, multiset{})
  }

  ghost function Granted(): Node {
    Node(Asking().(pendingOut := map[], reg := map[0 := RegisteredAs(OUT)]), Establish(NewEndpoint(LIMITS), OUT, ReliableOrdered, POLICY, LIMITS).0, {}, multiset{})
  }

  lemma FirstFlow(key: FlowKey)
    ensures var (after, r) := Establish(NewEndpoint(LIMITS), key, ReliableOrdered, POLICY, LIMITS);
            r.Ok? && after.flows == map[key := NewFlow(ReliableOrdered, POLICY)]
  {
    hide Load;
    LoadOfNothing(Aggregate);
    LoadOfNothing(OfConnection(key.connection));
    EmptyScope(OfConnection(key.connection), map[]);
  }

  lemma NothingToRefuse()
    ensures OpenRefusal(Peer(Client).c, Peer(Client).ep, REQUEST, None).None?
  {
    assert ActiveIds(map[], Outbound) == {};
  }

  lemma ClientOpens()
    ensures NodeNext(Peer(Client), OpenOne(REQUEST, None)) == NodeStep(Peer(Client).(c := Asking()), Some(OPENING), false)
  {
    hide OpenRefusal;
    NothingToRefuse();
    assert FlowIdOf(Client, 0) == 0;
  }

  lemma ServerReceives()
    ensures NodeNext(Peer(Server), TakeFrame(OPENING)) == NodeStep(Peer(Server).(c := Deciding()), None, false)
  {
    hide ReceiveControl;
    TakeDecodes(Peer(Server), OPENING);
    assert ActiveIds(map[], Inbound) == {};
    assert Peer(Server).retired + {} == Peer(Server).retired && Peer(Server).ended + multiset{} == Peer(Server).ended;
  }

  lemma ServerAdmits()
    ensures NodeNext(Peer(Server).(c := Deciding()), Admit(PENDING, ADMISSION)) == NodeStep(Granting(), Some(Accept(0)), false)
  {
    hide Establish;
    FirstFlow(IN);
    assert ActiveIds(map[], Inbound) == {};
    assert map[][0 := RegisteredAs(IN)] == map[0 := RegisteredAs(IN)];
  }

  lemma ClientReceives()
    ensures NodeNext(Peer(Client).(c := Asking()), TakeFrame(Accept(0))) == NodeStep(Granted(), None, false)
  {
    hide Establish, ReceiveControl;
    FirstFlow(OUT);
    TakeDecodes(Peer(Client).(c := Asking()), Accept(0));
    assert Asking().pendingOut - {0} == map[];
    assert map[][0 := RegisteredAs(OUT)] == map[0 := RegisteredAs(OUT)];
  }

  lemma ClientSteps(s: Sys, act: Act, step: NodeStep)
    requires Enabled(s, act) && NodeNext(s.a, act) == step && !step.failed
    ensures CanStep(s, Turn(true, act)) && Step(s, Turn(true, act)) == Sys(step.node, s.b, s.ab + Sent(step), s.ba[|Taken(act)|..])
  {
    hide NodeNext;
  }

  lemma ServerSteps(s: Sys, act: Act, step: NodeStep)
    requires Enabled(Swap(s), act) && NodeNext(s.b, act) == step && !step.failed
    ensures CanStep(s, Turn(false, act)) && Step(s, Turn(false, act)) == Sys(s.a, step.node, s.ab[|Taken(act)|..], s.ba + Sent(step))
  {
    hide NodeNext;
  }

  lemma Opened(s: Sys)
    requires s == Sys(Peer(Client), Peer(Server), [], [])
    ensures CanStep(s, Turn(true, OpenOne(REQUEST, None)))
    ensures Step(s, Turn(true, OpenOne(REQUEST, None))) == Sys(Peer(Client).(c := Asking()), Peer(Server), [OPENING], [])
  {
    hide NodeNext, CanStep, Step;
    ClientOpens();
    ClientSteps(s, OpenOne(REQUEST, None), NodeStep(Peer(Client).(c := Asking()), Some(OPENING), false));
  }

  lemma Arrived(s: Sys)
    requires s == Sys(Peer(Client).(c := Asking()), Peer(Server), [OPENING], [])
    ensures CanStep(s, Turn(false, TakeFrame(OPENING)))
    ensures Step(s, Turn(false, TakeFrame(OPENING))) == Sys(s.a, Peer(Server).(c := Deciding()), [], [])
  {
    hide NodeNext, CanStep, Step;
    ServerReceives();
    ServerSteps(s, TakeFrame(OPENING), NodeStep(Peer(Server).(c := Deciding()), None, false));
  }

  lemma Admitted(s: Sys)
    requires s == Sys(Peer(Client).(c := Asking()), Peer(Server).(c := Deciding()), [], [])
    ensures CanStep(s, Turn(false, Admit(PENDING, ADMISSION)))
    ensures Step(s, Turn(false, Admit(PENDING, ADMISSION))) == Sys(s.a, Granting(), [], [Accept(0)])
  {
    hide NodeNext, CanStep, Step, Establish;
    ServerAdmits();
    ServerSteps(s, Admit(PENDING, ADMISSION), NodeStep(Granting(), Some(Accept(0)), false));
  }

  lemma Answered(s: Sys)
    requires s == Sys(Peer(Client).(c := Asking()), Granting(), [], [Accept(0)])
    ensures CanStep(s, Turn(true, TakeFrame(Accept(0))))
    ensures Step(s, Turn(true, TakeFrame(Accept(0)))) == Sys(Granted(), Granting(), [], [])
  {
    hide NodeNext, CanStep, Step, Establish;
    ClientReceives();
    ClientSteps(s, TakeFrame(Accept(0)), NodeStep(Granted(), None, false));
  }

  /** Up to the ACCEPT on its way back to the opener. */
  lemma ThreeSteps() returns (s: Sys, turns: seq<Turn>)
    ensures Initial(s) && FlowProtocol.Run(s, turns, Sys(Peer(Client).(c := Asking()), Granting(), [], [Accept(0)]))
  {
    s := Sys(Peer(Client), Peer(Server), [], []);
    FreshPeers();
    hide CanStep, Step, FlowProtocol.Run, Initial, Granting, Asking, Deciding, Peer;
    var one := Turn(true, OpenOne(REQUEST, None));
    var two := Turn(false, TakeFrame(OPENING));
    var three := Turn(false, Admit(PENDING, ADMISSION));
    Opened(s);
    var s1 := Step(s, one);
    Arrived(s1);
    var s2 := Step(s1, two);
    Admitted(s2);
    var last := Step(s2, three);
    RunNone(last);
    RunCons(s2, three, [], last);
    RunCons(s1, two, [three] + [], last);
    RunCons(s, one, [two] + ([three] + []), last);
    turns := [one] + ([two] + ([three] + []));
  }

  /** Up to the flow established at both ends. */
  lemma FourSteps() returns (s: Sys, turns: seq<Turn>)
    ensures Initial(s) && FlowProtocol.Run(s, turns, Sys(Granted(), Granting(), [], []))
  {
    hide CanStep, Step, FlowProtocol.Run, Initial, Granted, Granting, Asking, Peer;
    s, turns := ThreeSteps();
    var mid := Sys(Peer(Client).(c := Asking()), Granting(), [], [Accept(0)]);
    var four := Turn(true, TakeFrame(Accept(0)));
    Answered(mid);
    RunOn(s, turns, mid, four);
    turns := turns + [four];
  }

  lemma RunNone(s: Sys)
    ensures FlowProtocol.Run(s, [], s)
  {
  }

  lemma FreshPeers()
    ensures Initial(Sys(Peer(Client), Peer(Server), [], []))
  {
    hide WellFormed;
    EveryRunIsWellFormed(LIMITS, []);
  }

  lemma RunCons(s: Sys, t: Turn, rest: seq<Turn>, last: Sys)
    requires CanStep(s, t) && FlowProtocol.Run(Step(s, t), rest, last)
    ensures FlowProtocol.Run(s, [t] + rest, last)
  {
    hide CanStep, Step;
    assert ([t] + rest)[1..] == rest;
  }

  lemma {:induction false} RunOn(s: Sys, turns: seq<Turn>, mid: Sys, t: Turn)
    requires FlowProtocol.Run(s, turns, mid) && CanStep(mid, t)
    ensures FlowProtocol.Run(s, turns + [t], Step(mid, t))
    decreases |turns|
  {
    hide CanStep, Step;
    if turns == [] {
      RunCons(mid, t, [], Step(mid, t));
    } else {
      RunOn(Step(s, turns[0]), turns[1..], mid, t);
      assert turns + [t] == [turns[0]] + (turns[1..] + [t]);
      RunCons(s, turns[0], turns[1..] + [t], Step(mid, t));
    }
  }

  /** Honest peers can meet an error: this run ends with a TERMINATE that its receiver refuses. */
  lemma CrossingHappens()
    ensures exists s, turns, last ::
              && Initial(s) && FlowProtocol.Run(s, turns, last) && last.ba == [ControlMsg.Terminate(0, ProtocolFailure)]
              && ReceiveControl(last.a.c, last.a.ep, FrameOf(last.ba[0])).result == Err(UnknownActiveFlow(0))
  {
    hide CanStep, Step, FlowProtocol.Run, Initial, SysInv, ReceiveControl, Establish;
    var s, turns := FourSteps();
    var mid := Sys(Granted(), Granting(), [], []);
    InitialHolds(s);
    RunKeeps(s, turns, mid);
    var one := Turn(true, EndLocally(0, ProtocolFailure));
    var two := Turn(false, EndLocally(0, ProtocolFailure));
    CrossedTerminatesFail(mid, 0, ProtocolFailure, ProtocolFailure);
    RunOn(s, turns, mid, one);
    RunOn(s, turns + [one], Step(mid, one), two);
    HeadFrameFate(Step(Step(mid, one), two));
  }

  // ---------------------------------------------------------------- an ACCEPT that the host prevents

  /** The opener's host puts a flow of its own under the Core key it asked for. */
  ghost function Occupied(): Node {
    Peer(Client).(c := Asking(), ep := Establish(NewEndpoint(LIMITS), OUT, ReliableOrdered, POLICY, LIMITS).0)
  }

  const OCCUPY: Act := HostActs(DoEstablish(OUT, ReliableOrdered, POLICY, LIMITS))

  lemma HostOccupies(s: Sys)
    requires s == Sys(Peer(Client).(c := Asking()), Granting(), [], [Accept(0)])
    ensures CanStep(s, Turn(true, OCCUPY)) && Step(s, Turn(true, OCCUPY)) == Sys(Occupied(), Granting(), [], [Accept(0)])
  {
    hide Establish;
  }

  lemma OccupiedRefuses()
    ensures ReceiveControl(Occupied().c, Occupied().ep, FrameOf(Accept(0))).result == Err(LocalEstablishment(FlowAlreadyExists))
  {
    FirstFlow(OUT);
    TakeDecodes(Occupied(), Accept(0));
    hide ReceiveControl, FrameOf;
    assert POLICY.ValidateFor(ReliableOrdered).None?;
  }

  /** An ACCEPT from an honest peer can fail at the opener. */
  lemma AcceptFailureHappens()
    ensures exists s, turns, last ::
              && Initial(s) && FlowProtocol.Run(s, turns, last) && last.ba == [Accept(0)]
              && ReceiveControl(last.a.c, last.a.ep, FrameOf(last.ba[0])).result == Err(LocalEstablishment(FlowAlreadyExists))
  {
    hide CanStep, Step, FlowProtocol.Run, Initial, ReceiveControl, Establish, Occupied, Granting, Asking, Peer;
    var s, turns := ThreeSteps();
    var mid := Sys(Peer(Client).(c := Asking()), Granting(), [], [Accept(0)]);
    HostOccupies(mid);
    RunOn(s, turns, mid, Turn(true, OCCUPY));
    OccupiedRefuses();
  }

  // ---------------------------------------------------------------- a Core key used again

  const ENDING: ControlMsg := ControlMsg.Terminate(0, ProtocolFailure)

  /** The opener after the peer ended the flow, and after its host reused the Core key. */
  ghost function Freed(): Node {
    Node(Granted().c.(reg := map[]), Core.Terminate(Granted().ep, OUT, Requested).0, {}, multiset{0})
  }

  ghost function Reused(): Node {
    Freed().(ep := Establish(Freed().ep, OUT, ReliableOrdered, POLICY, LIMITS).0)
  }

  lemma PeerEnds()
    ensures NodeNext(Granted(), TakeFrame(ENDING)) == NodeStep(Freed(), None, false)
  {
    hide ReceiveControl, Establish, Core.Terminate, Apply, Report, Arrival, Decide, EndOne, PrepareOpen, Bound, CloseBinding, WellFormed;
    FirstFlow(OUT);
    TakeDecodes(Granted(), ENDING);
    TerminateIsLocal(Granted().ep, OUT, Requested);
    assert Granted().c.reg - {0} == map[];
    assert multiset{} + multiset{0 as FlowId} == multiset{0};
  }

  lemma ReusedHasFlow()
    ensures OUT in Reused().ep.flows && Reused().ep.flows[OUT].mode.ReliableOrdered?
  {
    FirstFlow(OUT);
    var left := Freed().ep;
    assert left.flows == map[] && 1 !in left.connections && left.aggregate == LIMITS by {
      hide Held;
      assert Granted().ep.flows - {OUT} == map[];
    }
    hide Load, Freed;
    LoadOfNothing(Aggregate);
    LoadOfNothing(OfConnection(1));
  }

  /** The peer ends the flow and its frame is on the way to the opener. */
  lemma PeerEnded() returns (s: Sys, turns: seq<Turn>, b: Node)
    ensures Initial(s) && FlowProtocol.Run(s, turns, Sys(Granted(), b, [], [ENDING]))
  {
    hide CanStep, Step, FlowProtocol.Run, Initial, SysInv, Establish;
    s, turns := FourSteps();
    var mid := Sys(Granted(), Granting(), [], []);
    InitialHolds(s);
    RunKeeps(s, turns, mid);
    SwapKeeps(mid);
    EndSends(Swap(mid), 0, ProtocolFailure);
    var two := Turn(false, EndLocally(0, ProtocolFailure));
    MirrorStep(mid, two.act);
    RunOn(s, turns, mid, two);
    turns, b := turns + [two], Step(mid, two).b;
    assert Step(mid, two).ba == [ENDING];
  }

  lemma MirrorStep(s: Sys, act: Act)
    requires CanStep(Swap(s), Turn(true, act))
    ensures CanStep(s, Turn(false, act)) && Step(s, Turn(false, act)) == Swap(Step(Swap(s), Turn(true, act)))
  {
    hide NodeNext;
  }

  lemma PeerEndTaken(s: Sys)
    requires s == Sys(Granted(), s.b, [], [ENDING])
    ensures CanStep(s, Turn(true, TakeFrame(ENDING))) && Step(s, Turn(true, TakeFrame(ENDING))) == Sys(Freed(), s.b, [], [])
  {
    hide NodeNext, CanStep, Step, Establish;
    PeerEnds();
    ClientSteps(s, TakeFrame(ENDING), NodeStep(Freed(), None, false));
  }

  lemma HostReuses(s: Sys)
    requires s == Sys(Freed(), s.b, [], [])
    ensures CanStep(s, Turn(true, OCCUPY)) && Step(s, Turn(true, OCCUPY)) == Sys(Reused(), s.b, [], [])
  {
    hide Establish, Core.Terminate, Granted;
  }

  ghost predicate ReportsAgain(d: Done<Result<Outcome, ControlError>>, id: FlowId, key: FlowKey) {
    d.result.Ok? && d.result.value.SendReport? && d.result.value.id == id && key !in d.ep.flows
  }

  /** A binding that outlives its flow while the host reuses the Core key does harm in a reachable
      state: flow 0 has ended and been reported, and the late failure ends the host's new flow and
      reports flow 0 a second time. */
  lemma KeyReuseHappens(reason: TerminateReason)
    ensures exists s, turns, last ::
              && Initial(s) && FlowProtocol.Run(s, turns, last)
              && 0 !in last.a.c.reg && last.a.ended[0] == 1 && OUT in last.a.ep.flows
              && ReportsAgain(BindingFailure(last.a.c, last.a.ep, 0, OUT, true, reason), 0, OUT)
  {
    hide CanStep, Step, FlowProtocol.Run, Initial, BindingFailure, Establish, Core.Terminate, Granted, Granting;
    var s, turns, b := PeerEnded();
    var ended := Sys(Granted(), b, [], [ENDING]);
    PeerEndTaken(ended);
    RunOn(s, turns, ended, Turn(true, TakeFrame(ENDING)));
    var freed := Sys(Freed(), b, [], []);
    HostReuses(freed);
    RunOn(s, turns + [Turn(true, TakeFrame(ENDING))], freed, Turn(true, OCCUPY));
    var last := Sys(Reused(), b, [], []);
    assert last.a.c.reg == map[] && last.a.ended == multiset{0};
    ReusedHasFlow();
    StaleBindingExactly(last.a.c, last.a.ep, 0, OUT, true, reason);
    hide Freed, Reused, ReportsAgain;
    assert FlowProtocol.Run(s, turns + [Turn(true, TakeFrame(ENDING))] + [Turn(true, OCCUPY)], last);
  }
}
