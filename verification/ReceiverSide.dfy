/** The receiving end of one reliable flow over whole runs, fed any prefix of the sender's stream in
    any chunks. */
module ReceiverSide {
  import opened Basics
  import opened Wire
  import opened Framing
  import opened Delivery
  import opened Core
  import opened CoreInvariant
  import opened CoreHistory
  import opened CoreReceiver
  import opened Registry
  import opened OutboundBinding
  import opened InboundBinding
  import opened SenderSide

  /** What both ends agreed on: the FlowId, the receiver's Core key and the message limit. */
  datatype Link = Link(id: FlowId, key: FlowKey, max: nonzero)

  /** The receiving end: Core endpoint, registry and binding, with the octets read, how many messages
      reached Core, the payloads exposed, and the outcome of a normal close. */
  datatype RecvSide = RecvSide(ep: Endpoint, reg: Flows, inb: Incoming, read: seq<u8>, delivered: nat,
                               exposed: seq<seq<u8>>, closed: Option<Option<Termination>>)

  datatype RecvMove =
    | HostReceives(op: Op)
    | PollReceiver(io: ReadIo)
    | ReceiverRegistry(reg: Flows)

  /** Only the binding delivers into the flow, its key is not established again, and nobody else
      changes its registry entry otherwise than by removing it. */
  predicate RecvAllowed(r: RecvSide, link: Link, move: RecvMove) {
    match move
    case HostReceives(op) => op.key == link.key ==> !op.DoReceive? && !op.DoReceivePayload? && !op.DoEstablish?
    case PollReceiver(_) => true
    case ReceiverRegistry(reg) => link.id in reg ==> link.id in r.reg && reg[link.id] == r.reg[link.id]
  }

  ghost function ExposedBy(ep: Endpoint, op: Op, key: FlowKey): seq<seq<u8>> {
    if op.DoExpose? && op.key == key then
      var e := Expose(ep, key).1;
      if e.Ok? && e.value.Some? then [e.value.value.payload] else []
    else []
  }

  /** The octets a poll takes from the stream: none once the binding is draining or over. */
  function TakenBy(b: Incoming, io: ReadIo): seq<u8> {
    if b.terminal || b.draining || !io.ReadChunk? then [] else io.bytes
  }

  ghost function RecvNext(r: RecvSide, link: Link, move: RecvMove): RecvSide
    requires IncomingOk(r.inb)
  {
    match move
    case HostReceives(op) => r.(ep := Apply(r.ep, op), exposed := r.exposed + ExposedBy(r.ep, op, link.key))
    case PollReceiver(io) => AfterReceive(r, PollReceive(r.inb, r.ep, r.reg, io), TakenBy(r.inb, io))
    case ReceiverRegistry(reg) => r.(reg := reg)
  }

  ghost function AfterReceive(r: RecvSide, st: ReceiveStep, chunk: seq<u8>): RecvSide {
    r.(ep := st.ep, reg := st.reg, inb := st.binding, read := r.read + chunk,
       delivered := if st.binding.terminal || st.binding.frames.None? then r.delivered else Count(st.binding.frames.value.next),
       closed := if st.result.Ready? && st.result.value.Ok? && st.result.value.value.ReceiverClosed?
                 then Some(st.result.value.value.termination) else r.closed)
  }

  ghost predicate RecvStart(r: RecvSide, link: Link) {
    && WellFormed(r.ep) && link.key.direction.Inbound? && link.key in r.ep.flows && link.max <= MAX_VARINT
    && var f := r.ep.flows[link.key];
    && f == NewFlow(ReliableOrdered, f.policy).(session := f.session) && link.max <= f.policy.maxMessageBytes
    && (link.id in r.reg ==> r.reg[link.id] == RegisteredFlow(link.key, ReliableOrdered, link.max, Some(Unbound)))
    && r.inb == NewIncoming(r.inb.maxStaging) && r.read == [] && r.delivered == 0 && r.exposed == [] && r.closed.None?
  }

  // ---------------------------------------------------------------- the invariant

  /** Core holds exactly the delivered messages that are not yet exposed. */
  ghost predicate BufferAgrees(f: Flow, exposed: nat, delivered: nat, accepted: seq<seq<u8>>, max: nat) {
    && f.mode.ReliableOrdered? && max <= f.policy.maxMessageBytes && f.receiver.Reliable?
    && Count(f.receiver.nextExposure) == exposed <= delivered <= |accepted|
    && (forall i: u64 :: i in f.receiver.byIndex <==> exposed <= i < delivered)
    && (forall i: u64 :: i in f.receiver.byIndex ==> f.receiver.byIndex[i].payload == accepted[i])
  }

  /** The octets read so far are the header and frames of exactly the delivered messages, followed by
      the decoder's pending octets. */
  ghost predicate ReadingAt(b: Incoming, link: Link, read: seq<u8>, delivered: nat, accepted: seq<seq<u8>>) {
    match b.flow
    case None => delivered == 0 && read == b.prefix && !b.draining && |read| < |Varint(link.id)|
    case Some(f) =>
      && f.key == link.key && f.maxMessageBytes == link.max && b.flowId == Some(link.id) && b.frames.Some?
      && var fr := b.frames.value;
      && fr.limits == FrameLimits(link.max, b.maxStaging) && fr.limits.Valid() && link.max <= b.maxStaging
      && |Varint(link.id)| <= |read| && delivered <= |accepted| && Count(fr.next) == delivered
      && Parse(read[|Varint(link.id)|..], fr.limits) == Parsed(accepted[..delivered], fr.pending, None)
      && (b.draining ==> fr.pending == [])
  }

  ghost predicate CleanlyClosed(r: RecvSide, link: Link, accepted: seq<seq<u8>>) {
    && r.inb.terminal && r.closed.Some? && r.closed.value.Some?
    && r.delivered == |r.exposed| && r.delivered <= |accepted| && AllShort(accepted[..r.delivered])
    && r.read == Stream(link.id, accepted[..r.delivered])
    && r.closed.value.value.pendingMessages == 0 && !r.closed.value.value.obligationFailed
  }

  ghost predicate RecvInv(r: RecvSide, link: Link, accepted: seq<seq<u8>>) {
    && WellFormed(r.ep) && link.key.direction.Inbound? && link.max <= MAX_VARINT && IncomingOk(r.inb)
    && AllWithin(accepted, link.max) && r.read <= Stream(link.id, accepted) && r.exposed <= accepted
    && (link.key in r.ep.flows ==> BufferAgrees(r.ep.flows[link.key], |r.exposed|, r.delivered, accepted, link.max))
    && (link.id in r.reg ==>
          r.reg[link.id].key == link.key && r.reg[link.id].mode.ReliableOrdered? && r.reg[link.id].maxMessageBytes == link.max)
    && (!r.inb.terminal ==> ReadingAt(r.inb, link, r.read, r.delivered, accepted))
    && (r.closed.Some? && r.closed.value.Some? ==> CleanlyClosed(r, link, accepted))
    && (r.closed.Some? ==> r.inb.terminal && link.key !in r.ep.flows)
  }

  /** What the stream may answer: the next octets of the sender's stream, or its end on a boundary. */
  ghost predicate AnswerFits(r: RecvSide, link: Link, accepted: seq<seq<u8>>, io: ReadIo)
    requires AllShort(accepted)
  {
    !r.inb.terminal && !r.inb.draining && io.ReadChunk? ==>
      && r.read + io.bytes <= Stream(link.id, accepted)
      && (io.bytes == [] ==> exists c :: EndsAt(r.read, link, accepted, c))
  }

  ghost predicate EndsAt(read: seq<u8>, link: Link, accepted: seq<seq<u8>>, c: nat) {
    c <= |accepted| && AllShort(accepted[..c]) && read == Stream(link.id, accepted[..c])
  }

  // ---------------------------------------------------------------- delivering into Core

  lemma OneDelivery(ep: Endpoint, key: FlowKey, exposed: nat, delivered: u64, accepted: seq<seq<u8>>, max: nat)
    requires WellFormed(ep) && key.direction.Inbound? && delivered < |accepted| && |accepted[delivered]| <= max
    requires key in ep.flows ==> BufferAgrees(ep.flows[key], exposed, delivered, accepted, max)
    ensures var (after, r) := ReceivePayload(ep, key, delivered, accepted[delivered]);
            && WellFormed(after)
            && (r == Ok(Buffered(0)) ==> key in after.flows && BufferAgrees(after.flows[key], exposed, delivered + 1, accepted, max))
            && (r != Ok(Buffered(0)) ==> key !in after.flows)
  {
    hide WellFormed, Receive, HasRoom;
    if key in ep.flows {
      var f := ep.flows[key];
      var t := Transfer(f.mode, delivered, accepted[delivered]);
      ReceiveKeeps(ep, key, t);
      ReliableArrival(ep, key, t);
      BufferedAnswer(ep, key, t);
    }
  }

  /** A reliable flow never reports pressure drops. */
  lemma BufferedAnswer(ep: Endpoint, key: FlowKey, t: Transfer)
    requires key in ep.flows && ep.flows[key].receiver.Reliable?
    ensures Receive(ep, key, t).1.Ok? && Receive(ep, key, t).1.value.Buffered? ==> Receive(ep, key, t).1.value == Buffered(0)
  {
    hide HasRoom, Terminate;
  }

  /** Consecutive accepted messages handed to Core extend the buffer by exactly themselves, or the flow
      is gone. */
  lemma {:induction false} DeliverKeeps(ep: Endpoint, key: FlowKey, exposed: nat, next: Option<u64>, accepted: seq<seq<u8>>, max: nat, n: nat)
    requires WellFormed(ep) && key.direction.Inbound? && AllWithin(accepted, max) && Count(next) + n <= |accepted|
    requires key in ep.flows ==> BufferAgrees(ep.flows[key], exposed, Count(next), accepted, max)
    ensures var d := DeliverAll(ep, key, next, accepted[Count(next)..Count(next) + n]);
            && WellFormed(d.ep)
            && (d.result.Ok? ==>
                  && d.result.value == n && Count(d.next) == Count(next) + n
                  && (key in d.ep.flows ==> BufferAgrees(d.ep.flows[key], exposed, Count(next) + n, accepted, max)))
            && (d.result.Err? && key in d.ep.flows ==> d.ep.flows[key].mode.ReliableOrdered?)
    decreases n
  {
    hide WellFormed, ReceivePayload;
    var messages := accepted[Count(next)..Count(next) + n];
    if n > 0 && next.Some? {
      var m := next.value;
      OneDelivery(ep, key, exposed, m, accepted, max);
      var (after, r) := ReceivePayload(ep, key, m, accepted[m]);
      assert messages[0] == accepted[m];
      if r == Ok(Buffered(0)) {
        assert messages[1..] == accepted[m + 1..m + 1 + (n - 1)];
        DeliverKeeps(after, key, exposed, Next(m), accepted, max, n - 1);
      }
    }
  }

  lemma FailEnds(b: Incoming, link: Link, ep: Endpoint, reg: Flows, error: ReceiveError)
    requires WellFormed(ep) && b.flow.Some? && b.flow.value.key == link.key
    requires link.key in ep.flows ==> ep.flows[link.key].mode.ReliableOrdered?
    ensures var st := FailReceive(b, ep, reg, error);
            && WellFormed(st.ep) && link.key !in st.ep.flows && st.binding.terminal && IncomingOk(st.binding)
            && st.result == Ready(Err(error)) && forall id :: id in st.reg ==> id in reg && st.reg[id] == reg[id]
  {
    hide WellFormed, Held, Populated;
    ApplyKeeps(ep, DoFailCustody(link.key));
  }

  // ---------------------------------------------------------------- reading a chunk of frames

  /** A chunk that continues the sender's stream parses to exactly the next accepted messages. */
  lemma ChunkParses(body: seq<u8>, chunk: seq<u8>, delivered: nat, pending: seq<u8>, accepted: seq<seq<u8>>, lim: FrameLimits)
    requires lim.Valid() && AllAdmitted(accepted, lim) && AllShort(accepted) && delivered <= |accepted|
    requires Parse(body, lim) == Parsed(accepted[..delivered], pending, None)
    requires body + chunk <= Frames(accepted)
    ensures var q := Parse(pending + chunk, lim);
            && q.error == None && FirstFrame(q.rest, lim).Partial? && delivered + |q.messages| <= |accepted|
            && q.messages == accepted[delivered..delivered + |q.messages|]
            && Parse(body + chunk, lim) == Parsed(accepted[..delivered + |q.messages|], q.rest, None)
  {
    hide Parse, FirstFrame, Frames;
    ParseAppend(body, chunk, lim);
    ParsePrefix(accepted, body + chunk, lim);
    var q := Parse(pending + chunk, lim);
    RestIsPartial(pending + chunk, lim);
    var n := delivered + |q.messages|;
    assert accepted[..delivered] + q.messages == accepted[..n];
    assert q.messages == accepted[..n][delivered..];
  }

  lemma AdmittedAll(accepted: seq<seq<u8>>, max: nat, lim: FrameLimits)
    requires AllWithin(accepted, max) && lim.maxMessage == max <= lim.maxStaging && max <= MAX_VARINT
    ensures AllAdmitted(accepted, lim) && AllShort(accepted)
  {
  }

  lemma BodyOfStream(id: FlowId, read: seq<u8>, chunk: seq<u8>, accepted: seq<seq<u8>>)
    requires AllShort(accepted) && read + chunk <= Stream(id, accepted) && |Varint(id)| <= |read|
    ensures var h := |Varint(id)|;
            read[h..] + chunk == (read + chunk)[h..] && read[h..] + chunk <= Frames(accepted) && read[..h] == Varint(id)
  {
    var h := |Varint(id)|;
    assert Stream(id, accepted)[h..] == Frames(accepted);
    assert read[..h] == Stream(id, accepted)[..h];
  }

  lemma FeedKeeps(r: RecvSide, link: Link, accepted: seq<seq<u8>>, b: Incoming, reg: Flows, read: seq<u8>, delivered: nat, chunk: seq<u8>, total: nat)
    requires WellFormed(r.ep) && link.key.direction.Inbound? && link.max <= MAX_VARINT && IncomingOk(b) && AllWithin(accepted, link.max)
    requires link.key in r.ep.flows ==> BufferAgrees(r.ep.flows[link.key], |r.exposed|, delivered, accepted, link.max)
    requires !b.terminal && b.flow.Some? && !b.draining && ReadingAt(b, link, read, delivered, accepted)
    requires AllShort(accepted) && read + chunk <= Stream(link.id, accepted)
    ensures var st := FeedChunk(b, r.ep, reg, chunk, total);
            && WellFormed(st.ep) && IncomingOk(st.binding)
            && (forall id :: id in st.reg ==> id in reg && st.reg[id] == reg[id])
            && !(st.result.Ready? && st.result.value.Ok? && st.result.value.value.ReceiverClosed?)
            && (st.binding.terminal ==> link.key !in st.ep.flows)
            && (!st.binding.terminal ==>
                  && st.binding.frames.Some?
                  && ReadingAt(st.binding, link, read + chunk, Count(st.binding.frames.value.next), accepted)
                  && (link.key in st.ep.flows ==>
                        BufferAgrees(st.ep.flows[link.key], |r.exposed|, Count(st.binding.frames.value.next), accepted, link.max)))
  {
    hide WellFormed, DeliverAll, FailReceive, Parse, FirstFrame, BufferAgrees, Stream, AllWithin, AllAdmitted;
    var fr := b.frames.value;
    AdmittedAll(accepted, link.max, fr.limits);
    BodyOfStream(link.id, read, chunk, accepted);
    ChunkParses(read[|Varint(link.id)|..], chunk, delivered, fr.pending, accepted, fr.limits);
    var q := Parse(fr.pending + chunk, fr.limits);
    DeliverKeeps(r.ep, link.key, |r.exposed|, fr.next, accepted, link.max, |q.messages|);
    var d := ConsumeChunk(fr, r.ep, link.key, chunk);
    if d.result.Err? {
      FailEnds(b, link, d.ep, reg, d.result.error);
    }
  }

  // ---------------------------------------------------------------- the prefix

  lemma PrefixDecodes(id: FlowId, whole: seq<u8>, accepted: seq<seq<u8>>)
    requires AllShort(accepted) && whole <= Stream(id, accepted)
    ensures |whole| < |Varint(id)| ==> DecodeVarint(whole).Err? && DecodeVarint(whole).error.Incomplete?
    ensures |whole| >= |Varint(id)| ==> DecodeVarint(whole) == Ok((id, |Varint(id)|))
  {
    var n := |Varint(id)|;
    if |whole| < n {
      assert whole == Varint(id)[..|whole|];
      VarintPrefixIncomplete(id, |whole|);
    } else {
      assert whole == Varint(id) + whole[n..];
      DecodeVarintAppend(id, whole[n..]);
    }
  }

  lemma NothingParsed(lim: FrameLimits, accepted: seq<seq<u8>>)
    ensures Parse([], lim) == Parsed(accepted[..0], [], None) && FirstFrame([], lim).Partial?
  {
    assert accepted[..0] == [];
  }

  lemma ClaimKeeps(r: RecvSide, link: Link, accepted: seq<seq<u8>>, whole: seq<u8>, total: nat)
    requires RecvInv(r, link, accepted) && !r.inb.terminal && r.inb.flow.None? && AllShort(accepted)
    requires whole <= Stream(link.id, accepted) && |Varint(link.id)| <= |whole|
    ensures var st := AssociateChunk(r.inb, r.ep, r.reg, link.id, whole[|Varint(link.id)|..], total);
            && WellFormed(st.ep) && IncomingOk(st.binding)
            && (link.id in st.reg ==> st.reg[link.id].key == link.key && st.reg[link.id].mode.ReliableOrdered? && st.reg[link.id].maxMessageBytes == link.max)
            && !(st.result.Ready? && st.result.value.Ok? && st.result.value.value.ReceiverClosed?)
            && (st.binding.terminal ==> (link.key !in st.ep.flows || st.ep == r.ep))
            && (!st.binding.terminal ==>
                  && st.binding.frames.Some?
                  && ReadingAt(st.binding, link, whole, Count(st.binding.frames.value.next), accepted)
                  && (link.key in st.ep.flows ==>
                        BufferAgrees(st.ep.flows[link.key], |r.exposed|, Count(st.binding.frames.value.next), accepted, link.max)))
  {
    hide WellFormed, FeedChunk, FailReceive, Parse, FirstFrame, BufferAgrees, Stream;
    var h := |Varint(link.id)|;
    var bound := Bind(r.reg, link.id, Inbound);
    if bound.Ok? {
      var flow := bound.value[link.id];
      var known := r.inb.(flowId := Some(link.id), flow := Some(flow), prefix := []);
      var lim := FrameLimits(flow.maxMessageBytes, r.inb.maxStaging);
      BufferMode(r, link, accepted);
      if r.inb.maxStaging < flow.maxMessageBytes {
        FailEnds(known, link, r.ep, bound.value, StagingBelowFlowMaximum(flow.maxMessageBytes, r.inb.maxStaging));
      } else if !lim.Valid() {
        FailEnds(known, link, r.ep, bound.value, ReceiveFraming(LengthOutOfProfileRange));
      } else {
        var open := known.(frames := Some(FrameFeed([], lim, Some(0))));
        NothingParsed(lim, accepted);
        var header := whole[..h];
        assert header[h..] == [] && header + whole[h..] == whole;
        if whole[h..] == [] {
          assert whole == header;
        } else {
          FeedKeeps(r, link, accepted, open, bound.value, header, 0, whole[h..], total);
        }
      }
    }
  }

  lemma BufferMode(r: RecvSide, link: Link, accepted: seq<seq<u8>>)
    requires RecvInv(r, link, accepted)
    ensures link.key in r.ep.flows ==> r.ep.flows[link.key].mode.ReliableOrdered?
  {
  }

  lemma PrefixPollKeeps(r: RecvSide, link: Link, accepted: seq<seq<u8>>, chunk: seq<u8>)
    requires RecvInv(r, link, accepted) && !r.inb.terminal && r.inb.flow.None? && AllShort(accepted)
    requires r.read + chunk <= Stream(link.id, accepted)
    ensures RecvInv(AfterReceive(r, PollPrefix(r.inb, r.ep, r.reg, chunk), chunk), link, accepted)
  {
    hide WellFormed, AssociateChunk, DecodeVarint, Stream, BufferAgrees;
    var whole := r.inb.prefix + chunk;
    PrefixDecodes(link.id, whole, accepted);
    if |whole| >= |Varint(link.id)| {
      ClaimKeeps(r, link, accepted, whole, |chunk|);
    }
  }

  lemma FeedPollKeeps(r: RecvSide, link: Link, accepted: seq<seq<u8>>, chunk: seq<u8>)
    requires RecvInv(r, link, accepted) && !r.inb.terminal && !r.inb.draining && r.inb.flow.Some? && AllShort(accepted)
    requires r.read + chunk <= Stream(link.id, accepted)
    ensures RecvInv(AfterReceive(r, FeedChunk(r.inb, r.ep, r.reg, chunk, |chunk|), chunk), link, accepted)
  {
    hide WellFormed, FeedChunk, Stream, BufferAgrees;
    FeedKeeps(r, link, accepted, r.inb, r.reg, r.read, r.delivered, chunk, |chunk|);
  }

  // ---------------------------------------------------------------- draining and closing

  /** A message delivered but not exposed is buffered. */
  lemma SomethingPending(f: Flow, exposed: nat, delivered: nat, accepted: seq<seq<u8>>, max: nat)
    requires BufferAgrees(f, exposed, delivered, accepted, max) && exposed < delivered <= U64_MAX + 1
    ensures Held(f).messages > 0
  {
    var next: u64 := exposed;
    assert next in f.receiver.byIndex;
  }

  /** With nothing pending in Core, everything delivered was exposed. */
  lemma NothingPending(f: Flow, exposed: nat, delivered: nat, accepted: seq<seq<u8>>, max: nat)
    requires BufferAgrees(f, exposed, delivered, accepted, max) && Held(f).messages == 0 && delivered <= U64_MAX + 1
    ensures exposed == delivered
  {
    hide Held;
    if exposed < delivered {
      SomethingPending(f, exposed, delivered, accepted, max);
    }
  }

  lemma DrainedStream(r: RecvSide, link: Link, accepted: seq<seq<u8>>)
    requires RecvInv(r, link, accepted) && !r.inb.terminal && r.inb.flow.Some? && r.inb.frames.value.pending == [] && AllShort(accepted)
    ensures r.delivered <= |accepted| && EndsAt(r.read, link, accepted, r.delivered)
  {
    hide WellFormed, BufferAgrees, Parse, FirstFrame, Frames;
    var h := |Varint(link.id)|;
    assert r.read + [] == r.read;
    BodyOfStream(link.id, r.read, [], accepted);
    ParseIsLossless(r.read[h..], r.inb.frames.value.limits);
    assert r.read == r.read[..h] + r.read[h..];
    assert Frames(accepted[..r.delivered]) + [] == Frames(accepted[..r.delivered]);
  }

  lemma DrainKeeps(r: RecvSide, link: Link, accepted: seq<seq<u8>>)
    requires RecvInv(r, link, accepted) && !r.inb.terminal && r.inb.flow.Some? && r.inb.frames.value.pending == [] && AllShort(accepted)
    ensures RecvInv(AfterReceive(r, Drain(r.inb.(draining := true), r.ep, r.reg), []), link, accepted)
  {
    hide WellFormed, Stream, Terminate, Held;
    var key := link.key;
    assert r.read + [] == r.read;
    DrainedStream(r, link, accepted);
    if key in r.ep.flows && Held(r.ep.flows[key]).messages == 0 {
      NothingPending(r.ep.flows[key], |r.exposed|, r.delivered, accepted, link.max);
      CleanTermination(r.ep, key);
    }
  }

  lemma CleanTermination(ep: Endpoint, key: FlowKey)
    requires WellFormed(ep) && key in ep.flows && Held(ep.flows[key]).messages == 0
    ensures var (after, r) := Terminate(ep, key, Requested);
            && WellFormed(after) && key !in after.flows
            && r.Ok? && r.value.pendingMessages == 0 && !r.value.obligationFailed
  {
    hide WellFormed, Held, Populated;
    TerminateKeeps(ep, key, Requested);
  }

  lemma EndPollKeeps(r: RecvSide, link: Link, accepted: seq<seq<u8>>)
    requires RecvInv(r, link, accepted) && !r.inb.terminal && AllShort(accepted)
    ensures RecvInv(AfterReceive(r, PollEnd(r.inb, r.ep, r.reg), []), link, accepted)
  {
    hide WellFormed, Stream, Drain, BufferAgrees, FailReceive;
    assert r.read + [] == r.read;
    if r.inb.flow.Some? {
      if r.inb.frames.value.pending == [] {
        DrainKeeps(r, link, accepted);
      } else {
        BufferMode(r, link, accepted);
        FailEnds(r.inb, link, r.ep, r.reg, ReceiveFraming(TruncatedFrame));
      }
    }
  }

  lemma PollReceiveKeeps(r: RecvSide, link: Link, accepted: seq<seq<u8>>, io: ReadIo)
    requires RecvInv(r, link, accepted) && AllShort(accepted) && AnswerFits(r, link, accepted, io)
    ensures RecvInv(RecvNext(r, link, PollReceiver(io)), link, accepted)
  {
    hide WellFormed, Stream, BufferAgrees, FailReceive, Drain, FeedChunk, PollPrefix, PollEnd;
    assert r.read + [] == r.read;
    if r.inb.terminal {
    } else if r.inb.draining {
      assert r.inb.(draining := true) == r.inb;
      DrainKeeps(r, link, accepted);
    } else {
      match io
      case ReadPending =>
      case ReadFailed(ConnectionLost) =>
      case ReadFailed(failure) =>
        if r.inb.flow.Some? {
          BufferMode(r, link, accepted);
          FailEnds(r.inb, link, r.ep, r.reg, ReceiveIo(failure));
        } else {
          UnclaimedFailure(r.inb, r.ep, r.reg, ReceiveIo(failure));
        }
      case ReadChunk(bytes) =>
        if bytes == [] {
          EndPollKeeps(r, link, accepted);
        } else if r.inb.flow.None? {
          PrefixPollKeeps(r, link, accepted, bytes);
        } else {
          FeedPollKeeps(r, link, accepted, bytes);
        }
    }
  }

  lemma UnclaimedFailure(b: Incoming, ep: Endpoint, reg: Flows, error: ReceiveError)
    requires b.flow.None?
    ensures var st := FailReceive(b, ep, reg, error);
            && st.ep == ep && st.binding == Ended(b) && st.result == Ready(Err(error))
            && forall id :: id in st.reg ==> id in reg && st.reg[id] == reg[id]
  {
  }

  // ---------------------------------------------------------------- host operations

  lemma HostExposeKeeps(ep: Endpoint, key: FlowKey, exposed: seq<seq<u8>>, delivered: nat, accepted: seq<seq<u8>>, max: nat)
    requires key in ep.flows && key.direction.Inbound? && exposed <= accepted
    requires BufferAgrees(ep.flows[key], |exposed|, delivered, accepted, max)
    ensures var now := exposed + ExposedBy(ep, DoExpose(key), key);
            && now <= accepted && key in Expose(ep, key).0.flows
            && BufferAgrees(Expose(ep, key).0.flows[key], |now|, delivered, accepted, max)
  {
    var f := ep.flows[key];
    var next := f.receiver.nextExposure;
    if next.Some? && next.value in f.receiver.byIndex {
      assert exposed + [accepted[|exposed|]] <= accepted;
    } else {
      assert exposed + [] == exposed;
    }
  }

  lemma OtherOpsOnInbound(ep: Endpoint, op: Op)
    requires op.key in ep.flows && op.key.direction.Inbound?
    requires !op.DoReceive? && !op.DoReceivePayload? && !op.DoExpose?
    ensures op.key in Apply(ep, op).flows ==>
              Apply(ep, op).flows[op.key] == ep.flows[op.key].(session := Apply(ep, op).flows[op.key].session)
  {
    hide Held, Populated;
  }

  lemma HostReceiveKeeps(r: RecvSide, link: Link, accepted: seq<seq<u8>>, op: Op)
    requires RecvInv(r, link, accepted) && RecvAllowed(r, link, HostReceives(op))
    ensures RecvInv(RecvNext(r, link, HostReceives(op)), link, accepted)
  {
    hide WellFormed, Stream, Expose, ReadingAt;
    var key := link.key;
    ApplyKeeps(r.ep, op);
    if op.key == key && key in r.ep.flows && op.DoExpose? {
      HostExposeKeeps(r.ep, key, r.exposed, r.delivered, accepted, link.max);
    } else {
      assert r.exposed + [] == r.exposed;
      if op.key != key {
        OtherKeysUntouched(r.ep, op, key);
      } else if key !in r.ep.flows {
        AbsentStaysAbsent(r.ep, op);
        AbsentExposes(r.ep, op);
      } else {
        OtherOpsOnInbound(r.ep, op);
      }
    }
  }

  lemma AbsentExposes(ep: Endpoint, op: Op)
    requires op.key !in ep.flows
    ensures ExposedBy(ep, op, op.key) == []
  {
  }

  lemma RecvStepKeeps(r: RecvSide, link: Link, accepted: seq<seq<u8>>, move: RecvMove)
    requires RecvInv(r, link, accepted) && RecvAllowed(r, link, move) && AllShort(accepted)
    requires move.PollReceiver? ==> AnswerFits(r, link, accepted, move.io)
    ensures RecvInv(RecvNext(r, link, move), link, accepted)
  {
    hide WellFormed, Stream, BufferAgrees, ReadingAt, PollReceive, Apply, AnswerFits;
    match move
    case HostReceives(op) => HostReceiveKeeps(r, link, accepted, op);
    case PollReceiver(io) => PollReceiveKeeps(r, link, accepted, io);
    case ReceiverRegistry(reg) =>
  }

  /** The sender accepting more messages disturbs nothing on this side. */
  lemma MoreAccepted(r: RecvSide, link: Link, accepted: seq<seq<u8>>, more: seq<seq<u8>>)
    requires RecvInv(r, link, accepted) && AllWithin(accepted + more, link.max)
    ensures RecvInv(r, link, accepted + more)
  {
    hide WellFormed, Frames, Parse, FirstFrame;
    assert forall i :: 0 <= i < |more| ==> more[i] == (accepted + more)[|accepted| + i];
    StreamGrows(link.id, accepted, more);
    assert forall c :: 0 <= c <= |accepted| ==> (accepted + more)[..c] == accepted[..c];
  }

  lemma RecvStarts(r: RecvSide, link: Link)
    requires RecvStart(r, link)
    ensures RecvInv(r, link, [])
  {
  }

  /** The end of the stream always falls on a frame boundary, after every delivered message: a live
      binding never reports a truncated prefix or frame on a finished stream. */
  lemma EndIsNeverTruncated(r: RecvSide, link: Link, accepted: seq<seq<u8>>, c: nat)
    requires RecvInv(r, link, accepted) && !r.inb.terminal && AllShort(accepted) && EndsAt(r.read, link, accepted, c)
    ensures r.inb.flow.Some? && r.inb.frames.value.pending == [] && c == r.delivered
  {
    hide WellFormed, BufferAgrees, Parse, FirstFrame, Frames;
    var h := |Varint(link.id)|;
    assert r.read[h..] == Frames(accepted[..c]);
    if r.inb.flow.Some? {
      var lim := r.inb.frames.value.limits;
      AdmittedAll(accepted[..c], link.max, lim);
      ParseFrames(accepted[..c], lim);
    }
  }
}
