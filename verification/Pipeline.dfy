/** The reliable pipeline end to end: two Core endpoints, two bindings and the octet stream between
    them, under every interleaving of host operations, partial writes, read chunks and failures. */
module Pipeline {
  import opened Basics
  import opened Wire
  import opened Framing
  import opened Delivery
  import opened Core
  import opened CoreInvariant
  import opened Registry
  import opened OutboundBinding
  import opened InboundBinding
  import opened SenderSide
  import opened ReceiverSide

  datatype Pipe = Pipe(send: SendSide, recv: RecvSide)

  datatype Move = Left(send: SendMove) | Right(recv: RecvMove)

  /** The stream is a FIFO of octets: a read returns the next ones written, the end only after FIN and
      the last octet, or a failure at any time. */
  predicate StreamAnswers(p: Pipe, io: ReadIo) {
    !p.recv.inb.terminal && !p.recv.inb.draining && io.ReadChunk? ==>
      && p.recv.read + io.bytes <= p.send.written
      && (io.bytes == [] ==> p.send.finished && p.recv.read == p.send.written)
  }

  ghost predicate Allowed(p: Pipe, link: Link, move: Move) {
    match move
    case Left(m) => SendAllowed(p.send, m)
    case Right(m) => RecvAllowed(p.recv, link, m) && (m.PollReceiver? ==> StreamAnswers(p, m.io))
  }

  ghost function Step(p: Pipe, link: Link, move: Move): Pipe
    requires SenderOk(p.send.out.sender) && IncomingOk(p.recv.inb)
  {
    match move
    case Left(m) => p.(send := SendNext(p.send, m))
    case Right(m) => p.(recv := RecvNext(p.recv, link, m))
  }

  /** Whether `moves` is a run from `p` to `q`. */
  ghost predicate IsRun(p: Pipe, link: Link, moves: seq<Move>, q: Pipe)
    decreases |moves|
  {
    if moves == [] then p == q
    else
      && SenderOk(p.send.out.sender) && IncomingOk(p.recv.inb) && Allowed(p, link, moves[0])
      && IsRun(Step(p, link, moves[0]), link, moves[1..], q)
  }

  /** A flow just established at both ends under one FlowId and message limit, with fresh bindings. */
  ghost predicate Start(p: Pipe, link: Link, sendKey: FlowKey) {
    SendStart(p.send, link.id, sendKey, link.max) && RecvStart(p.recv, link)
  }

  /** Once the receiver has seen the end of the stream, it has read everything that was ever written. */
  ghost predicate EndSeen(p: Pipe) {
    (!p.recv.inb.terminal && p.recv.inb.draining) || (p.recv.closed.Some? && p.recv.closed.value.Some?) ==>
      p.send.finished && p.recv.read == p.send.written
  }

  ghost predicate PipeInv(p: Pipe, link: Link) {
    && SendInv(p.send) && RecvInv(p.recv, link, p.send.accepted)
    && p.send.out.id == link.id && p.send.out.sender.maxMessageBytes == link.max
    && p.recv.read <= p.send.written && EndSeen(p)
  }

  // ---------------------------------------------------------------- preservation

  lemma StartHolds(p: Pipe, link: Link, sendKey: FlowKey)
    requires Start(p, link, sendKey)
    ensures PipeInv(p, link)
  {
    SendStarts(p.send, link.id, sendKey, link.max);
    RecvStarts(p.recv, link);
  }

  ghost predicate SameBindingIdentity(a: Outgoing, b: Outgoing) {
    a.id == b.id && a.key == b.key && a.sender.maxMessageBytes == b.sender.maxMessageBytes
  }

  lemma PreparedIdentity(sd: Sender, ep: Endpoint, key: FlowKey, n: nat)
    requires SenderOk(sd)
    ensures Prepared(sd, ep, key).Ok? ==> Prepared(sd, ep, key).value.maxMessageBytes == sd.maxMessageBytes
    ensures Segment(sd).Some? ==> Advance(sd, ep, key, n).sender.maxMessageBytes == sd.maxMessageBytes
  {
  }

  lemma PollIdentity(b: Outgoing, ep: Endpoint, reg: Flows, write: WriteIo, finish: FinishIo)
    requires SenderOk(b.sender)
    ensures SameBindingIdentity(PollSend(b, ep, reg, write, finish).binding, b)
  {
    hide FailCustody, Terminate, Prepared, Advance, Segment;
    PreparedOk(b.sender, ep, b.key);
    PreparedIdentity(b.sender, ep, b.key, 0);
    var p := Prepared(b.sender, ep, b.key);
    if p.Ok? && write.Wrote? {
      PreparedIdentity(p.value, ep, b.key, write.count);
    }
  }

  lemma SenderIdentity(s: SendSide, move: SendMove)
    requires SenderOk(s.out.sender)
    ensures var t := SendNext(s, move);
            && SameBindingIdentity(t.out, s.out)
            && s.accepted <= t.accepted && s.written <= t.written && (s.finished ==> t.finished)
  {
    hide PollSend, Apply, AcceptedBy, Prepared, Segment;
    match move
    case HostSends(op) =>
    case PollSender(write, finish) => PollIdentity(s.out, s.ep, s.reg, write, finish);
    case HostFinishes(ok) => PreparedIdentity(s.out.sender, s.ep, s.out.key, 0);
    case SenderRegistry(reg) =>
  }

  /** After FIN nothing more is written. */
  lemma FinishedWritesNothing(s: SendSide, move: SendMove)
    requires SendInv(s) && s.finished
    ensures SendNext(s, move).written == s.written
  {
    hide WellFormed, FailCustody, Terminate, Apply, Submit;
    assert s.written + [] == s.written;
  }

  lemma LeftKeeps(p: Pipe, link: Link, m: SendMove)
    requires PipeInv(p, link) && SendAllowed(p.send, m)
    ensures PipeInv(Step(p, link, Left(m)), link)
  {
    hide SendInv, RecvInv, SendNext;
    SenderFacts(p.send);
    SenderIdentity(p.send, m);
    SendStepKeeps(p.send, m);
    var t := SendNext(p.send, m);
    SenderFacts(t);
    var more := t.accepted[|p.send.accepted|..];
    assert p.send.accepted + more == t.accepted;
    MoreAccepted(p.recv, link, p.send.accepted, more);
    if p.send.finished {
      FinishedWritesNothing(p.send, m);
    }
  }

  lemma SenderFacts(s: SendSide)
    requires SendInv(s)
    ensures SenderOk(s.out.sender) && AllWithin(s.accepted, s.out.sender.maxMessageBytes) && AllShort(s.accepted)
    ensures s.written <= Stream(s.out.id, s.accepted)
    ensures s.finished ==> exists c :: OnBoundary(s, c)
  {
  }

  lemma AnswersFit(p: Pipe, link: Link, io: ReadIo)
    requires PipeInv(p, link) && StreamAnswers(p, io)
    ensures AllShort(p.send.accepted) && AnswerFits(p.recv, link, p.send.accepted, io)
  {
    hide SendInv, RecvInv, Stream;
    SenderFacts(p.send);
    if p.send.finished {
      var c :| OnBoundary(p.send, c);
      assert p.recv.read == p.send.written ==> EndsAt(p.recv.read, link, p.send.accepted, c);
    }
  }

  /** A binding only starts draining, or reports a close, on the end of its stream. */
  lemma OnlyTheEndEnds(b: Incoming, ep: Endpoint, reg: Flows, io: ReadIo)
    requires IncomingOk(b) && !b.terminal && !b.draining && io != ReadChunk([])
    ensures var st := PollReceive(b, ep, reg, io);
            && !(st.result.Ready? && st.result.value.Ok? && st.result.value.value.ReceiverClosed?)
            && (st.binding.terminal || !st.binding.draining)
  {
    hide ConsumeChunk, DecodeVarint, FailCustody, Parse, FirstFrame;
  }

  lemma PollSeesEnd(p: Pipe, link: Link, io: ReadIo)
    requires PipeInv(p, link) && StreamAnswers(p, io)
    ensures var q := Step(p, link, Right(PollReceiver(io)));
            EndSeen(q) && q.recv.read <= p.send.written
  {
    hide PollReceive, SendInv, RecvInv, Stream;
    RecvFacts(p.recv, link, p.send.accepted);
    var r := p.recv;
    assert r.read + [] == r.read;
    if !r.inb.terminal && !r.inb.draining {
      if io == ReadChunk([]) {
        assert p.send.finished && r.read == p.send.written;
      } else {
        OnlyTheEndEnds(r.inb, r.ep, r.reg, io);
      }
    } else if r.inb.terminal {
      assert PollReceive(r.inb, r.ep, r.reg, io) == ReceiveStep(r.inb, r.ep, r.reg, Ready(Err(ReceiveTerminal))) by {
        TerminalPoll(r.inb, r.ep, r.reg, io);
      }
    }
  }

  lemma TerminalPoll(b: Incoming, ep: Endpoint, reg: Flows, io: ReadIo)
    requires IncomingOk(b) && b.terminal
    ensures PollReceive(b, ep, reg, io) == ReceiveStep(b, ep, reg, Ready(Err(ReceiveTerminal)))
  {
  }

  lemma RecvFacts(r: RecvSide, link: Link, accepted: seq<seq<u8>>)
    requires RecvInv(r, link, accepted)
    ensures IncomingOk(r.inb) && r.exposed <= accepted
    ensures r.closed.Some? && r.closed.value.Some? ==> CleanlyClosed(r, link, accepted)
    ensures r.closed.Some? ==> r.inb.terminal
  {
  }

  lemma RightKeeps(p: Pipe, link: Link, m: RecvMove)
    requires PipeInv(p, link) && Allowed(p, link, Right(m))
    ensures PipeInv(Step(p, link, Right(m)), link)
  {
    hide SendInv, RecvInv, PollReceive, Stream, AnswerFits, Apply, StreamAnswers;
    SenderFacts(p.send);
    RecvFacts(p.recv, link, p.send.accepted);
    if m.PollReceiver? {
      AnswersFit(p, link, m.io);
      PollSeesEnd(p, link, m.io);
    }
    RecvStepKeeps(p.recv, link, p.send.accepted, m);
  }

  lemma StepKeeps(p: Pipe, link: Link, move: Move)
    requires PipeInv(p, link) && Allowed(p, link, move)
    ensures PipeInv(Step(p, link, move), link)
  {
    hide PipeInv, Step;
    match move
    case Left(m) => LeftKeeps(p, link, m);
    case Right(m) => RightKeeps(p, link, m);
  }

  lemma {:induction false} RunKeeps(p: Pipe, link: Link, moves: seq<Move>, q: Pipe)
    requires PipeInv(p, link) && IsRun(p, link, moves, q)
    ensures PipeInv(q, link)
    decreases |moves|
  {
    hide PipeInv, Step, Allowed;
    if moves != [] {
      StepKeeps(p, link, moves[0]);
      RunKeeps(Step(p, link, moves[0]), link, moves[1..], q);
    }
  }

  // ---------------------------------------------------------------- the end-to-end promise

  /** In every run the payloads exposed at the receiver are a prefix of the payloads the sender
      accepted: exactly once, in order, nothing invented. */
  lemma ExposedIsPrefixOfAccepted(p: Pipe, link: Link, sendKey: FlowKey, moves: seq<Move>, q: Pipe)
    requires Start(p, link, sendKey) && IsRun(p, link, moves, q)
    ensures q.recv.exposed <= q.send.accepted
  {
    hide Start, SendInv, RecvInv, IsRun;
    StartHolds(p, link, sendKey);
    RunKeeps(p, link, moves, q);
    RecvFacts(q.recv, link, q.send.accepted);
  }

  /** A normal close loses nothing: when both ends reported one, every accepted payload was exposed and
      neither end had anything pending or any failed obligation. */
  lemma NormalCloseIsLossless(p: Pipe, link: Link, sendKey: FlowKey, moves: seq<Move>, q: Pipe)
    requires Start(p, link, sendKey) && IsRun(p, link, moves, q)
    requires q.send.closed.Some? && q.recv.closed.Some? && q.recv.closed.value.Some?
    ensures q.recv.exposed == q.send.accepted
    ensures q.send.closed.value.pendingMessages == 0 && !q.send.closed.value.obligationFailed
    ensures q.recv.closed.value.value.pendingMessages == 0 && !q.recv.closed.value.value.obligationFailed
  {
    hide Start, RecvInv, IsRun, Stream, WellFormed;
    StartHolds(p, link, sendKey);
    RunKeeps(p, link, moves, q);
    RecvFacts(q.recv, link, q.send.accepted);
    SenderFacts(q.send);
    SameStreamSamePayloads(link.id, q.send.accepted, q.recv.delivered);
  }

  lemma SameStreamSamePayloads(id: FlowId, accepted: seq<seq<u8>>, n: nat)
    requires AllShort(accepted) && n <= |accepted| && Stream(id, accepted) == Stream(id, accepted[..n])
    ensures n == |accepted|
  {
    hide Frames;
    var lim := FrameLimits(MAX_VARINT, MAX_VARINT);
    assert Frames(accepted) == Stream(id, accepted)[|Varint(id)|..];
    assert Frames(accepted[..n]) == Stream(id, accepted[..n])[|Varint(id)|..];
    ParseFrames(accepted, lim);
    ParseFrames(accepted[..n], lim);
  }
}
