/** A concrete run of the reliable pipeline to the end: one message is submitted, written, committed,
    read and exposed, and then both ends report a normal close. */
module PipelineExample {
  import opened Basics
  import opened Wire
  import opened Framing
  import opened Delivery
  import opened Core
  import opened CoreInvariant
  import opened Registry
  import opened OutboundBinding
  import opened InboundBinding
  import opened SenderSide
  import opened ReceiverSide
  import opened Pipeline
  import CoreDiagnostics

  const LIMITS: Limits := Limits(4, 16, 1024)
  const POLICY: Policy := Policy(64, 4, 256, RejectNew, TerminateReliable)
  const OUT: FlowKey := FlowKey(1, Outbound, 1)
  const IN: FlowKey := FlowKey(1, Inbound, 1)
  const LINK: Link := Link(0, IN, 64)
  const FIRST: Transfer := Transfer(ReliableOrdered, 0, [7])

  /** The FlowId, the length and the payload, an octet each. */
  const OCTETS: seq<u8> := Varint(0) + Varint(1) + [7]

  // ---------------------------------------------------------------- two endpoints with one flow

  function Hosting(key: FlowKey, f: Flow): Endpoint {
    Endpoint(LIMITS, map[1 := LIMITS], map[], map[key := f], Diagnostics(0, 0, 0, 0))
  }

  lemma FreshHost(key: FlowKey)
    requires key.connection == 1
    ensures WellFormed(Hosting(key, NewFlow(ReliableOrdered, POLICY)))
  {
    hide Load, WellFormed;
    var start := NewEndpoint(LIMITS);
    EveryRunIsWellFormed(LIMITS, []);
    EmptyScope(Aggregate, map[]);
    EmptyScope(OfConnection(1), map[]);
    var (after, r) := Establish(start, key, ReliableOrdered, POLICY, LIMITS);
    assert after.flows == Hosting(key, NewFlow(ReliableOrdered, POLICY)).flows && after.connections == map[1 := LIMITS];
    EstablishKeeps(start, key, ReliableOrdered, POLICY, LIMITS);
  }

  lemma RoomForOne(key: FlowKey)
    requires key.connection == 1
    ensures HasRoom(Hosting(key, NewFlow(ReliableOrdered, POLICY)), key, 1)
  {
    hide Load;
    var ep := Hosting(key, NewFlow(ReliableOrdered, POLICY));
    CoreDiagnostics.LoadOfOne(Aggregate, ep.flows, key);
    CoreDiagnostics.LoadOfOne(OfConnection(1), ep.flows, key);
  }

  // ---------------------------------------------------------------- the sending end

  function Queueing(next: u64, q: seq<Transfer>): Flow {
    NewFlow(ReliableOrdered, POLICY).(nextIndex := Some(next), outbound := q)
  }

  function Sent(ep: Endpoint, sender: Sender, written: seq<u8>): SendSide {
    SendSide(ep, map[], Outgoing(0, OUT, sender, false, None, false), [[7]], written, false, None)
  }

  function Submitted(): Endpoint {
    Hosting(OUT, Queueing(1, [FIRST]))
  }

  function Committed(): Endpoint {
    Hosting(OUT, Queueing(1, []))
  }

  function Opening(): SendSide {
    SendSide(Hosting(OUT, NewFlow(ReliableOrdered, POLICY)), map[], Outgoing(0, OUT, NewSender(0, 64), false, None, false), [], [], false, None)
  }

  function AfterHeader(): Sender {
    NewSender(0, 64).(headerOffset := 1)
  }

  function AfterLength(): Sender {
    AfterHeader().(current := Some(Message(FIRST, Varint(1), 1, 0)))
  }

  function AfterMessage(): Sender {
    AfterHeader().(next := Some(1))
  }

  const WRITES: SendMove := PollSender(Wrote(1), FinishPending)

  lemma HostSubmits()
    ensures SendNext(Opening(), HostSends(DoSubmit(OUT, [7]))) == Sent(Submitted(), NewSender(0, 64), [])
  {
    hide HasRoom;
    RoomForOne(OUT);
    var ep := Hosting(OUT, NewFlow(ReliableOrdered, POLICY));
    assert [] + [FIRST] == [FIRST];
    assert Enqueue(ep, OUT, 0, [7]).flows == Submitted().flows;
  }

  lemma WritesHeader()
    ensures SendNext(Sent(Submitted(), NewSender(0, 64), []), WRITES) == Sent(Submitted(), AfterHeader(), Varint(0))
  {
  }

  lemma WritesLength()
    ensures SenderOk(AfterHeader())
    ensures SendNext(Sent(Submitted(), AfterHeader(), Varint(0)), WRITES) == Sent(Submitted(), AfterLength(), Varint(0) + Varint(1))
  {
    hide FailCustody;
    var s := Prepared(AfterHeader(), Submitted(), OUT).value;
    assert Segment(s).value[..1] == Varint(1);
  }

  lemma WritesPayload()
    ensures SenderOk(AfterLength())
    ensures SendNext(Sent(Submitted(), AfterLength(), Varint(0) + Varint(1)), WRITES) == Sent(Committed(), AfterMessage(), OCTETS)
  {
    hide FailCustody;
    assert [FIRST][1..] == [] && [7][0..] == [7];
    assert Evict(Submitted(), OUT, 1).flows == Committed().flows;
    assert Segment(AfterLength()).value[..1] == [7];
  }

  function Finishing(): SendSide {
    var s := Sent(Committed(), AfterMessage(), OCTETS);
    s.(out := s.out.(finishing := true), finished := true)
  }

  lemma HostEnds()
    ensures SendNext(Sent(Committed(), AfterMessage(), OCTETS), HostFinishes(true)) == Finishing()
  {
  }

  lemma SenderCloses()
    ensures var s := SendNext(Finishing(), PollSender(WritePending, FinishAcked));
            s.closed.Some? && s.accepted == [[7]] && s.written == OCTETS && s.finished && SenderOk(s.out.sender)
  {
    hide Populated, Held;
    assert OCTETS + [] == OCTETS;
  }

  // ---------------------------------------------------------------- the receiving end

  function Buffering(next: u64, buffered: map<u64, Transfer>): Flow {
    NewFlow(ReliableOrdered, POLICY).(receiver := Reliable(buffered, Some(next)))
  }

  function Registered(association: Association): RegisteredFlow {
    RegisteredFlow(IN, ReliableOrdered, 64, Some(association))
  }

  function Waiting(): RecvSide {
    RecvSide(Hosting(IN, NewFlow(ReliableOrdered, POLICY)), map[0 := Registered(Unbound)], NewIncoming(64), [], 0, [], None)
  }

  /** The binding once it knows its flow, having handed `next` messages to Core. */
  function Bound(next: u64): Incoming {
    NewIncoming(64).(flowId := Some(0), flow := Some(Registered(BoundInbound)),
                     frames := Some(FrameFeed([], FrameLimits(64, 64), Some(next))))
  }

  function Read(ep: Endpoint, exposed: seq<seq<u8>>): RecvSide {
    RecvSide(ep, map[0 := Registered(BoundInbound)], Bound(1), OCTETS, 1, exposed, None)
  }

  lemma CoreReceives()
    ensures ReceivePayload(Hosting(IN, NewFlow(ReliableOrdered, POLICY)), IN, 0, [7]) == (Hosting(IN, Buffering(0, map[0 := FIRST])), Ok(Buffered(0)))
  {
    hide HasRoom;
    RoomForOne(IN);
    var ep := Hosting(IN, NewFlow(ReliableOrdered, POLICY));
    assert ReceivePayload(ep, IN, 0, [7]).0.flows == Hosting(IN, Buffering(0, map[0 := FIRST])).flows;
  }

  lemma OneFrame()
    ensures Parse([] + (Varint(1) + [7]), FrameLimits(64, 64)) == Parsed([[7]], [], None)
  {
    hide Parse;
    ParseFrames([[7]], FrameLimits(64, 64));
    assert Frames([[7]]) == Frame([7]) + [];
    assert [] + (Varint(1) + [7]) == Frame([7]) + [];
  }

  lemma FeedsOne()
    ensures var ep := Hosting(IN, NewFlow(ReliableOrdered, POLICY));
            var reg := map[0 := Registered(BoundInbound)];
            FeedChunk(Bound(0), ep, reg, Varint(1) + [7], 3)
              == ReceiveStep(Bound(1), Hosting(IN, Buffering(0, map[0 := FIRST])), reg, Ready(Ok(MessagesBuffered(IN, 1))))
  {
    hide Parse, ReceivePayload, Varint, FirstFrame;
    OneFrame();
    CoreReceives();
    DeliverOne(Hosting(IN, NewFlow(ReliableOrdered, POLICY)), IN, Some(0), [7], []);
  }

  lemma ReadsAll()
    ensures RecvNext(Waiting(), LINK, PollReceiver(ReadChunk(OCTETS))) == Read(Hosting(IN, Buffering(0, map[0 := FIRST])), [])
  {
    hide Parse, FirstFrame, DecodeVarint, FeedChunk, BigEndian;
    DecodeVarintAppend(0, Varint(1) + [7]);
    assert [] + OCTETS == OCTETS == Varint(0) + (Varint(1) + [7]);
    assert OCTETS[1..] == Varint(1) + [7];
    EmptyIsPartial(FrameLimits(64, 64));
    assert Waiting().reg[0 := Registered(BoundInbound)] == map[0 := Registered(BoundInbound)];
    FeedsOne();
  }

  lemma HostExposes()
    ensures IncomingOk(Bound(1))
    ensures RecvNext(Read(Hosting(IN, Buffering(0, map[0 := FIRST])), []), LINK, HostReceives(DoExpose(IN))) == Read(Hosting(IN, Buffering(1, map[])), [[7]])
  {
    hide FirstFrame;
    EmptyIsPartial(FrameLimits(64, 64));
    var ep := Hosting(IN, Buffering(0, map[0 := FIRST]));
    assert map[0 := FIRST] - {0} == map[];
    assert Expose(ep, IN).0.flows == Hosting(IN, Buffering(1, map[])).flows;
    assert [] + [[7]] == [[7]];
  }

  lemma ReceiverCloses()
    ensures IncomingOk(Bound(1))
    ensures var r := RecvNext(Read(Hosting(IN, Buffering(1, map[])), [[7]]), LINK, PollReceiver(ReadChunk([])));
            r.closed.Some? && r.closed.value.Some? && r.exposed == [[7]]
  {
    hide FirstFrame, Populated;
    EmptyIsPartial(FrameLimits(64, 64));
  }

  // ---------------------------------------------------------------- the whole run

  lemma Cons(p: Pipe, move: Move, rest: seq<Move>, q: Pipe)
    requires SenderOk(p.send.out.sender) && IncomingOk(p.recv.inb) && Allowed(p, LINK, move)
    requires IsRun(Pipeline.Step(p, LINK, move), LINK, rest, q)
    ensures IsRun(p, LINK, [move] + rest, q)
  {
    hide Allowed, Pipeline.Step, IncomingOk, SenderOk;
    assert ([move] + rest)[0] == move && ([move] + rest)[1..] == rest;
  }

  lemma ReceiverRun(send: SendSide) returns (moves: seq<Move>, recv: RecvSide)
    requires SenderOk(send.out.sender) && send.finished && send.written == OCTETS
    ensures IsRun(Pipe(send, Waiting()), LINK, moves, Pipe(send, recv))
    ensures recv.closed.Some? && recv.closed.value.Some? && recv.exposed == [[7]]
  {
    hide RecvNext, SenderOk, FirstFrame;
    var p0 := Pipe(send, Waiting());
    var p1 := Pipe(send, Read(Hosting(IN, Buffering(0, map[0 := FIRST])), []));
    var p2 := Pipe(send, Read(Hosting(IN, Buffering(1, map[])), [[7]]));
    var m0, m1, m2 := Right(PollReceiver(ReadChunk(OCTETS))), Right(HostReceives(DoExpose(IN))), Right(PollReceiver(ReadChunk([])));
    ReadsAll();
    HostExposes();
    ReceiverCloses();
    recv := RecvNext(p2.recv, LINK, m2.recv);
    var q := Pipe(send, recv);
    assert Pipeline.Step(p2, LINK, m2) == q;
    assert IsRun(q, LINK, [], q);
    assert OCTETS + [] == OCTETS && [] + OCTETS == OCTETS;
    Cons(p2, m2, [], q);
    Cons(p1, m1, [m2] + [], q);
    Cons(p0, m0, [m1] + ([m2] + []), q);
    moves := [m0] + ([m1] + ([m2] + []));
  }

  lemma SenderRun(rest: seq<Move>, q: Pipe) returns (moves: seq<Move>)
    requires IsRun(Pipe(SendNext(Finishing(), PollSender(WritePending, FinishAcked)), Waiting()), LINK, rest, q)
    ensures IsRun(Pipe(Opening(), Waiting()), LINK, moves, q)
  {
    hide SendNext, FirstFrame, IsRun;
    HostSubmits();
    WritesHeader();
    WritesLength();
    WritesPayload();
    HostEnds();
    var r := Waiting();
    var write := Left(WRITES);
    moves := [Left(PollSender(WritePending, FinishAcked))] + rest;
    Cons(Pipe(Finishing(), r), Left(PollSender(WritePending, FinishAcked)), rest, q);
    Cons(Pipe(Sent(Committed(), AfterMessage(), OCTETS), r), Left(HostFinishes(true)), moves, q);
    moves := [Left(HostFinishes(true))] + moves;
    Cons(Pipe(Sent(Submitted(), AfterLength(), Varint(0) + Varint(1)), r), write, moves, q);
    Cons(Pipe(Sent(Submitted(), AfterHeader(), Varint(0)), r), write, [write] + moves, q);
    Cons(Pipe(Sent(Submitted(), NewSender(0, 64), []), r), write, [write] + ([write] + moves), q);
    moves := [write] + ([write] + ([write] + moves));
    Cons(Pipe(Opening(), r), Left(HostSends(DoSubmit(OUT, [7]))), moves, q);
    moves := [Left(HostSends(DoSubmit(OUT, [7])))] + moves;
  }

  /** The promise of `NormalCloseIsLossless` is not empty: both ends can close normally after a message. */
  lemma NormalCloseHappens()
    ensures exists p, moves, q ::
              && Start(p, LINK, OUT) && IsRun(p, LINK, moves, q)
              && q.send.accepted == [[7]] && q.recv.exposed == [[7]]
              && q.send.closed.Some? && q.recv.closed.Some? && q.recv.closed.value.Some?
  {
    hide SendNext, Start, FirstFrame, IsRun;
    StartsFresh();
    SenderCloses();
    var end := SendNext(Finishing(), PollSender(WritePending, FinishAcked));
    var rest, recv := ReceiverRun(end);
    var moves := SenderRun(rest, Pipe(end, recv));
  }

  lemma StartsFresh()
    ensures Start(Pipe(Opening(), Waiting()), LINK, OUT)
  {
    hide WellFormed;
    FreshHost(OUT);
    FreshHost(IN);
  }
}
