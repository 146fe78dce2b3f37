/** The sending end of one reliable flow over whole runs: custody, the octets written, normal close. */
module SenderSide {
  import opened Basics
  import opened Wire
  import opened Framing
  import opened Delivery
  import opened Core
  import opened CoreInvariant
  import opened CoreHistory
  import opened Registry
  import opened OutboundBinding

  /** The whole octet stream a flow stands for once `accepted` has been written. */
  function Stream(id: FlowId, accepted: seq<seq<u8>>): seq<u8>
    requires AllShort(accepted)
  {
    Varint(id) + Frames(accepted)
  }

  predicate AllShort(payloads: seq<seq<u8>>) {
    forall i :: 0 <= i < |payloads| ==> |payloads[i]| <= MAX_VARINT
  }

  predicate AllWithin(payloads: seq<seq<u8>>, max: nat) {
    forall i :: 0 <= i < |payloads| ==> |payloads[i]| <= max
  }

  /** The sending end: Core endpoint, registry and binding, with the payloads accepted, the octets
      written, whether FIN was sent, and the termination reported by a normal close. */
  datatype SendSide = SendSide(ep: Endpoint, reg: Flows, out: Outgoing, accepted: seq<seq<u8>>, written: seq<u8>,
                               finished: bool, closed: Option<Termination>)

  datatype SendMove =
    | HostSends(op: Op)
    | PollSender(write: WriteIo, finish: FinishIo)
    | HostFinishes(ok: bool)
    | SenderRegistry(reg: Flows)

  /** The binding is the flow's only committer, and its key is not established again. */
  predicate SendAllowed(s: SendSide, move: SendMove) {
    move.HostSends? && move.op.key == s.out.key ==> !move.op.DoCommit? && !move.op.DoEstablish?
  }

  ghost function AcceptedBy(ep: Endpoint, op: Op, key: FlowKey): seq<seq<u8>> {
    if op.DoSubmit? && op.key == key then
      var r := Submit(ep, key, op.payload).1;
      if r.Ok? && r.value.Accepted? then [op.payload] else []
    else []
  }

  ghost function SendNext(s: SendSide, move: SendMove): SendSide
    requires SenderOk(s.out.sender)
  {
    match move
    case HostSends(op) => s.(ep := Apply(s.ep, op), accepted := s.accepted + AcceptedBy(s.ep, op, s.out.key))
    case PollSender(write, finish) =>
      var st := PollSend(s.out, s.ep, s.reg, write, finish);
      s.(ep := st.ep, reg := st.reg, out := st.binding, written := s.written + st.written,
         closed := if st.result.Ready? && st.result.value.Ok? && st.result.value.value.SenderClosed?
                   then Some(st.result.value.value.termination) else s.closed)
    case HostFinishes(ok) =>
      var (out, r) := RequestFinish(s.out, s.ep, ok);
      s.(out := out, finished := s.finished || r.Ok?)
    case SenderRegistry(reg) => s.(reg := reg)
  }

  ghost predicate SendStart(s: SendSide, id: FlowId, key: FlowKey, max: nonzero) {
    && WellFormed(s.ep) && key.direction.Outbound? && key in s.ep.flows && max <= MAX_VARINT
    && s.ep.flows[key] == NewFlow(ReliableOrdered, s.ep.flows[key].policy).(session := s.ep.flows[key].session)
    && s.ep.flows[key].policy.maxMessageBytes <= max
    && s.out == Outgoing(id, key, NewSender(id, max), false, None, false)
    && s.accepted == [] && s.written == [] && !s.finished && s.closed.None?
  }

  // ---------------------------------------------------------------- where the writing stands

  function WrittenOf(m: Message): seq<u8>
    requires m.lengthOffset <= |m.length| && m.payloadOffset <= |m.snapshot.payload|
  {
    m.length[..m.lengthOffset] + m.snapshot.payload[..m.payloadOffset]
  }

  function Partial(current: Option<Message>): seq<u8>
    requires current.Some? ==> Loaded(current.value)
  {
    match current case None => [] case Some(m) => WrittenOf(m)
  }

  ghost predicate LoadedFrom(m: Message, q: seq<Transfer>) {
    && q != [] && m.snapshot == q[0] && |q[0].payload| <= MAX_VARINT && m.length == Varint(|q[0].payload|)
    && (m.payloadOffset > 0 ==> m.lengthOffset == |m.length|)
  }

  /** With `q` still queued, everything before it is committed and fully written, and of its first
      message exactly the recorded offsets are written. */
  ghost predicate AtPosition(sd: Sender, q: seq<Transfer>, accepted: seq<seq<u8>>, written: seq<u8>) {
    && SenderOk(sd) && AllShort(accepted) && |q| <= |accepted|
    && var c := |accepted| - |q|;
    && Count(sd.next) == c
    && if sd.headerOffset < |sd.header| then c == 0 && sd.current.None? && written == sd.header[..sd.headerOffset]
       else
         && (sd.current.Some? ==> LoadedFrom(sd.current.value, q))
         && written == sd.header + Frames(accepted[..c]) + Partial(sd.current)
  }

  ghost predicate QueueIsSuffix(q: seq<Transfer>, accepted: seq<seq<u8>>) {
    && |q| <= |accepted|
    && forall j :: 0 <= j < |q| ==>
         && q[j].mode.ReliableOrdered? && q[j].index == |accepted| - |q| + j
         && q[j].payload == accepted[|accepted| - |q| + j]
  }

  ghost predicate FlowAgrees(f: Flow, accepted: seq<seq<u8>>, max: nat) {
    && f.mode.ReliableOrdered? && f.policy.maxMessageBytes <= max && f.policy.outboundPressure.RejectNew?
    && Count(f.nextIndex) == |accepted| && QueueIsSuffix(f.outbound, accepted)
  }

  ghost predicate OnBoundary(s: SendSide, c: nat) {
    c <= |s.accepted| && AllShort(s.accepted[..c]) && s.written == Stream(s.out.id, s.accepted[..c])
  }

  ghost predicate SendInv(s: SendSide) {
    var key, max := s.out.key, s.out.sender.maxMessageBytes;
    && WellFormed(s.ep) && key.direction.Outbound? && 1 <= max <= MAX_VARINT
    && SenderOk(s.out.sender) && s.out.sender.header == Varint(s.out.id)
    && AllWithin(s.accepted, max)
    && (key in s.ep.flows ==> FlowAgrees(s.ep.flows[key], s.accepted, max))
    && (key in s.ep.flows && !s.out.terminal ==>
          && AtPosition(s.out.sender, s.ep.flows[key].outbound, s.accepted, s.written)
          && (s.out.finishing ==> s.out.sender.headerOffset == |s.out.sender.header| && s.out.sender.current.None?))
    && s.written <= Stream(s.out.id, s.accepted)
    && (s.finished ==> (s.out.finishing || s.out.terminal) && exists c :: OnBoundary(s, c))
    && (s.out.finishing && !s.out.terminal ==> s.finished)
    && (s.closed.Some? ==>
          && s.finished && s.out.terminal && key !in s.ep.flows && s.written == Stream(s.out.id, s.accepted)
          && s.closed.value.pendingMessages == 0 && !s.closed.value.obligationFailed)
  }

  // ---------------------------------------------------------------- arithmetic of the stream

  lemma StreamGrows(id: FlowId, accepted: seq<seq<u8>>, more: seq<seq<u8>>)
    requires AllShort(accepted) && AllShort(more)
    ensures AllShort(accepted + more) && Stream(id, accepted) <= Stream(id, accepted + more)
  {
    FramesAppend(accepted, more);
  }

  lemma StreamPrefix(id: FlowId, accepted: seq<seq<u8>>, c: nat)
    requires AllShort(accepted) && c <= |accepted|
    ensures AllShort(accepted[..c]) && Stream(id, accepted[..c]) <= Stream(id, accepted)
  {
    assert accepted[..c] + accepted[c..] == accepted;
    StreamGrows(id, accepted[..c], accepted[c..]);
  }

  lemma FramesNext(accepted: seq<seq<u8>>, c: nat)
    requires AllShort(accepted) && c < |accepted|
    ensures Frames(accepted[..c + 1]) == Frames(accepted[..c]) + Frame(accepted[c])
  {
    assert accepted[..c + 1] == accepted[..c] + [accepted[c]];
    FramesAppend(accepted[..c], [accepted[c]]);
    assert Frames([accepted[c]]) == Frame(accepted[c]) + [];
  }

  /** Any position is inside the accepted messages' stream. */
  lemma PositionInStream(sd: Sender, q: seq<Transfer>, accepted: seq<seq<u8>>, written: seq<u8>, id: FlowId)
    requires AtPosition(sd, q, accepted, written) && sd.header == Varint(id) && QueueIsSuffix(q, accepted)
    ensures written <= Stream(id, accepted)
  {
    hide Frames, Frame;
    var c := |accepted| - |q|;
    if sd.headerOffset == |sd.header| {
      StreamPrefix(id, accepted, c);
      if sd.current.Some? {
        FramesNext(accepted, c);
        PartialOfFrame(sd.current.value);
        assert sd.current.value.snapshot.payload == accepted[c];
        StreamPrefix(id, accepted, c + 1);
        PrefixInside(Varint(id), Frames(accepted[..c]), WrittenOf(sd.current.value), Frame(accepted[c]));
      } else {
        assert written == Stream(id, accepted[..c]);
      }
    }
  }

  lemma PrefixInside(a: seq<u8>, b: seq<u8>, part: seq<u8>, whole: seq<u8>)
    requires part <= whole
    ensures a + b + part <= a + (b + whole)
  {
    assert a + (b + whole) == (a + b + part) + whole[|part|..];
  }

  lemma PartialOfFrame(m: Message)
    requires Loaded(m) && |m.snapshot.payload| <= MAX_VARINT && m.length == Varint(|m.snapshot.payload|)
    requires m.payloadOffset > 0 ==> m.lengthOffset == |m.length|
    ensures WrittenOf(m) <= Frame(m.snapshot.payload)
  {
  }

  // ---------------------------------------------------------------- one write

  /** Loading the next message moves nothing and cannot fail. */
  lemma LoadKeepsPosition(sd: Sender, ep: Endpoint, key: FlowKey, accepted: seq<seq<u8>>, written: seq<u8>, max: nat)
    requires WellFormed(ep) && key in ep.flows && key.direction.Outbound? && FlowAgrees(ep.flows[key], accepted, max)
    requires AtPosition(sd, ep.flows[key].outbound, accepted, written)
    requires sd.maxMessageBytes == max && 1 <= max <= MAX_VARINT
    ensures Prepared(sd, ep, key).Ok?
    ensures var p := Prepared(sd, ep, key).value;
            && AtPosition(p, ep.flows[key].outbound, accepted, written)
            && p.header == sd.header && p.headerOffset == sd.headerOffset && p.maxMessageBytes == max
            && (Segment(p).None? <==> p.headerOffset == |p.header| && ep.flows[key].outbound == [])
            && (Segment(p).None? ==> p == sd)
            && (Segment(p).Some? ==> Segment(p).value != [])
  {
    hide ScopeOk, Held, Frames;
    var f := ep.flows[key];
    assert FlowOk(key, f);
    if sd.headerOffset == |sd.header| && sd.current.None? && f.outbound != [] {
      var t := f.outbound[0];
      assert Count(sd.next) == t.index;
      var m := Message(t, Varint(|t.payload|), 0, 0);
      assert Prepared(sd, ep, key) == Ok(sd.(current := Some(m)));
      assert WrittenOf(m) == [];
      assert written == sd.header + Frames(accepted[..|accepted| - |f.outbound|]) + WrittenOf(m);
    }
  }

  /** Octets taken by the stream are the next octets of the flow's stream; the message is committed
      exactly when its last octet is among them. */
  lemma AdvanceKeepsPosition(sd: Sender, ep: Endpoint, key: FlowKey, accepted: seq<seq<u8>>, written: seq<u8>, max: nat, n: nat)
    requires WellFormed(ep) && key in ep.flows && key.direction.Outbound? && FlowAgrees(ep.flows[key], accepted, max)
    requires AtPosition(sd, ep.flows[key].outbound, accepted, written) && Segment(sd).Some?
    requires 1 <= n <= |Segment(sd).value|
    ensures var a := Advance(sd, ep, key, n);
            var now := written + Segment(sd).value[..n];
            && a.result.Ok? && key in a.ep.flows && FlowAgrees(a.ep.flows[key], accepted, max)
            && AtPosition(a.sender, a.ep.flows[key].outbound, accepted, now)
            && a.sender.header == sd.header && a.sender.maxMessageBytes == sd.maxMessageBytes
            && (a.result.value.None? ==> a.ep == ep)
            && (a.result.value.Some? ==>
                  && a.ep == Commit(ep, key, a.result.value.value).0
                  && a.result.value.value < |accepted|
                  && now == sd.header + Frames(accepted[..a.result.value.value + 1]))
  {
    hide ScopeOk, Held, Frames, WellFormed, FlowAgrees, Commit;
    if sd.headerOffset < |sd.header| {
      HeaderAdvances(sd, accepted, n);
    } else {
      MessageAdvances(sd.current.value, n);
      var m := Taken(sd.current.value, n);
      if m.lengthOffset == |m.length| && m.payloadOffset == |m.snapshot.payload| {
        CommitKeepsPosition(sd, ep, key, accepted, written, max, n);
      } else {
        SegmentKeepsPosition(sd, ep.flows[key].outbound, accepted, written, n);
      }
    }
  }

  function Taken(m: Message, n: nat): Message {
    if m.lengthOffset < |m.length| then m.(lengthOffset := m.lengthOffset + n) else m.(payloadOffset := m.payloadOffset + n)
  }

  lemma SegmentKeepsPosition(sd: Sender, q: seq<Transfer>, accepted: seq<seq<u8>>, written: seq<u8>, n: nat)
    requires AtPosition(sd, q, accepted, written) && sd.headerOffset == |sd.header| && sd.current.Some?
    requires 1 <= n <= |Segment(sd).value| && Loaded(Taken(sd.current.value, n))
    ensures AtPosition(sd.(current := Some(Taken(sd.current.value, n))), q, accepted, written + Segment(sd).value[..n])
  {
    hide Frames;
    var m := sd.current.value;
    MessageAdvances(m, n);
    var before := sd.header + Frames(accepted[..|accepted| - |q|]);
    assert before + WrittenOf(m) + Segment(sd).value[..n] == before + (WrittenOf(m) + Segment(sd).value[..n]);
  }

  lemma CommitKeepsPosition(sd: Sender, ep: Endpoint, key: FlowKey, accepted: seq<seq<u8>>, written: seq<u8>, max: nat, n: nat)
    requires key in ep.flows && key.direction.Outbound? && FlowAgrees(ep.flows[key], accepted, max)
    requires AtPosition(sd, ep.flows[key].outbound, accepted, written) && sd.headerOffset == |sd.header| && sd.current.Some?
    requires 1 <= n <= |Segment(sd).value|
    requires var m := Taken(sd.current.value, n); m.lengthOffset == |m.length| && m.payloadOffset == |m.snapshot.payload|
    ensures var a := Advance(sd, ep, key, n);
            var now := written + Segment(sd).value[..n];
            var i := sd.current.value.snapshot.index;
            && a.result == Ok(Some(i)) && a.ep == Commit(ep, key, i).0 && i < |accepted|
            && key in a.ep.flows && FlowAgrees(a.ep.flows[key], accepted, max)
            && now == sd.header + Frames(accepted[..i + 1])
            && AtPosition(a.sender, a.ep.flows[key].outbound, accepted, now)
            && a.sender.header == sd.header && a.sender.maxMessageBytes == sd.maxMessageBytes
  {
    hide Frames, Commit, WrittenOf, Segment;
    WholeFrameWritten(sd, ep.flows[key].outbound, accepted, written, n);
    CommitsFront(ep, key, accepted, max);
    CommitAdvance(sd, ep, key, n);
    var c := |accepted| - |ep.flows[key].outbound|;
    assert sd.header + Frames(accepted[..c + 1]) + [] == sd.header + Frames(accepted[..c + 1]);
  }

  lemma CommitAdvance(sd: Sender, ep: Endpoint, key: FlowKey, n: nat)
    requires SenderOk(sd) && sd.headerOffset == |sd.header| && sd.current.Some? && 1 <= n <= |Segment(sd).value|
    requires var m := Taken(sd.current.value, n); m.lengthOffset == |m.length| && m.payloadOffset == |m.snapshot.payload|
    ensures Advance(sd, ep, key, n) == CommitCurrent(sd, ep, key, Taken(sd.current.value, n))
  {
  }

  lemma WholeFrameWritten(sd: Sender, q: seq<Transfer>, accepted: seq<seq<u8>>, written: seq<u8>, n: nat)
    requires AtPosition(sd, q, accepted, written) && QueueIsSuffix(q, accepted)
    requires sd.headerOffset == |sd.header| && sd.current.Some? && 1 <= n <= |Segment(sd).value|
    requires var m := Taken(sd.current.value, n); m.lengthOffset == |m.length| && m.payloadOffset == |m.snapshot.payload|
    ensures written + Segment(sd).value[..n] == sd.header + Frames(accepted[..|accepted| - |q| + 1])
  {
    hide Frames;
    var m := sd.current.value;
    var c := |accepted| - |q|;
    MessageAdvances(m, n);
    FramesNext(accepted, c);
    assert WrittenOf(Taken(m, n)) == Frame(accepted[c]);
    Reassociate(sd.header, Frames(accepted[..c]), WrittenOf(m), Segment(sd).value[..n]);
  }

  lemma Reassociate(a: seq<u8>, b: seq<u8>, c: seq<u8>, d: seq<u8>)
    ensures a + b + c + d == a + (b + (c + d))
  {
  }

  lemma HeaderAdvances(sd: Sender, accepted: seq<seq<u8>>, n: nat)
    requires sd.headerOffset < |sd.header| && n <= |sd.header| - sd.headerOffset
    ensures sd.header[..sd.headerOffset] + sd.header[sd.headerOffset..][..n] == sd.header[..sd.headerOffset + n]
    ensures sd.header[..|sd.header|] == sd.header + Frames(accepted[..0]) + []
  {
    assert accepted[..0] == [];
  }

  lemma MessageAdvances(m: Message, n: nat)
    requires Loaded(m) && (m.payloadOffset > 0 ==> m.lengthOffset == |m.length|)
    requires n <= if m.lengthOffset < |m.length| then |m.length| - m.lengthOffset else |m.snapshot.payload| - m.payloadOffset
    ensures m.lengthOffset < |m.length| ==>
              WrittenOf(m.(lengthOffset := m.lengthOffset + n)) == WrittenOf(m) + m.length[m.lengthOffset..][..n]
    ensures m.lengthOffset == |m.length| ==>
              WrittenOf(m.(payloadOffset := m.payloadOffset + n)) == WrittenOf(m) + m.snapshot.payload[m.payloadOffset..][..n]
  {
    if m.lengthOffset < |m.length| {
      assert m.length[..m.lengthOffset] + m.length[m.lengthOffset..][..n] == m.length[..m.lengthOffset + n];
    } else {
      var p := m.snapshot.payload;
      assert p[..m.payloadOffset] + p[m.payloadOffset..][..n] == p[..m.payloadOffset + n];
    }
  }

  /** Committing the front message removes exactly it. */
  lemma CommitsFront(ep: Endpoint, key: FlowKey, accepted: seq<seq<u8>>, max: nat)
    requires key in ep.flows && key.direction.Outbound? && FlowAgrees(ep.flows[key], accepted, max) && ep.flows[key].outbound != []
    ensures var q := ep.flows[key].outbound;
            var (after, r) := Commit(ep, key, q[0].index);
            && r.Ok? && key in after.flows && after.flows[key] == ep.flows[key].(outbound := q[1..])
            && FlowAgrees(after.flows[key], accepted, max)
            && q[0].index == |accepted| - |q| && Count(Next(q[0].index)) == q[0].index + 1
  {
  }

  // ---------------------------------------------------------------- host operations

  lemma ReliableSubmit(ep: Endpoint, key: FlowKey, payload: seq<u8>)
    requires key in ep.flows && key.direction.Outbound? && ep.flows[key].policy.outboundPressure.RejectNew?
    ensures var (after, r) := Submit(ep, key, payload);
            && r.Ok?
            && (!r.value.Accepted? ==> after == ep)
            && (r.value.Accepted? ==>
                  && ep.flows[key].nextIndex == Some(r.value.index) && |payload| <= ep.flows[key].policy.maxMessageBytes
                  && after == Enqueue(ep, key, r.value.index, payload))
  {
    hide HasRoom;
  }

  lemma OtherOpsOnOutbound(ep: Endpoint, op: Op)
    requires op.key in ep.flows && op.key.direction.Outbound? && !op.DoSubmit? && !op.DoCommit?
    ensures op.key in Apply(ep, op).flows ==>
              Apply(ep, op).flows[op.key] == ep.flows[op.key].(session := Apply(ep, op).flows[op.key].session)
  {
    hide CoreInvariant.Run, Held, Populated;
  }

  lemma SubmitAgrees(f: Flow, accepted: seq<seq<u8>>, max: nat, i: u64, payload: seq<u8>)
    requires FlowAgrees(f, accepted, max) && f.nextIndex == Some(i) && |payload| <= max
    ensures FlowAgrees(f.(nextIndex := Next(i), outbound := f.outbound + [Transfer(f.mode, i, payload)]), accepted + [payload], max)
  {
  }

  /** A longer queue of accepted messages leaves the writing position where it is. */
  lemma PositionAfterSubmit(sd: Sender, q: seq<Transfer>, accepted: seq<seq<u8>>, written: seq<u8>, t: Transfer)
    requires AtPosition(sd, q, accepted, written) && |t.payload| <= MAX_VARINT
    ensures AtPosition(sd, q + [t], accepted + [t.payload], written)
  {
    var c := |accepted| - |q|;
    assert (accepted + [t.payload])[..c] == accepted[..c];
  }

  lemma BoundaryAfterSubmit(s: SendSide, more: seq<seq<u8>>, c: nat)
    requires OnBoundary(s, c)
    ensures OnBoundary(s.(accepted := s.accepted + more), c)
  {
    assert (s.accepted + more)[..c] == s.accepted[..c];
  }

  lemma HostSendKeeps(s: SendSide, op: Op)
    requires SendInv(s) && SendAllowed(s, HostSends(op))
    ensures SendInv(SendNext(s, HostSends(op)))
  {
    hide WellFormed, AtPosition, FlowAgrees, OnBoundary, Stream, Submit;
    var key := s.out.key;
    var after := Apply(s.ep, op);
    ApplyKeeps(s.ep, op);
    var t := SendNext(s, HostSends(op));
    if s.finished && AcceptedBy(s.ep, op, key) == [] {
      var c :| OnBoundary(s, c);
      assert s.accepted + [] == s.accepted;
      BoundaryIgnores(s, t, c);
    }
    if op.key != key {
      OtherKeysUntouched(s.ep, op, key);
      assert s.accepted + [] == s.accepted;
    } else if key !in s.ep.flows {
      AbsentStaysAbsent(s.ep, op);
      AbsentSubmits(s.ep, op);
      assert s.accepted + [] == s.accepted;
    } else if op.DoSubmit? {
      HostSubmitKeeps(s, op.payload);
    } else {
      OtherOpsOnOutbound(s.ep, op);
      assert s.accepted + [] == s.accepted;
      if key in after.flows {
        SessionAgrees(s.ep.flows[key], after.flows[key].session, s.accepted, s.out.sender.maxMessageBytes);
      }
    }
  }

  lemma AbsentSubmits(ep: Endpoint, op: Op)
    requires op.key !in ep.flows
    ensures AcceptedBy(ep, op, op.key) == []
  {
  }

  lemma SessionAgrees(f: Flow, session: Option<nat>, accepted: seq<seq<u8>>, max: nat)
    requires FlowAgrees(f, accepted, max)
    ensures FlowAgrees(f.(session := session), accepted, max)
  {
  }

  lemma HostSubmitKeeps(s: SendSide, payload: seq<u8>)
    requires SendInv(s) && s.out.key in s.ep.flows && WellFormed(Apply(s.ep, DoSubmit(s.out.key, payload)))
    ensures SendInv(SendNext(s, HostSends(DoSubmit(s.out.key, payload))))
  {
    hide WellFormed, AtPosition, Stream, Submit, OnBoundary;
    var key := s.out.key;
    var f := s.ep.flows[key];
    var max := s.out.sender.maxMessageBytes;
    ReliableSubmit(s.ep, key, payload);
    var (after, r) := Submit(s.ep, key, payload);
    if r.value.Accepted? {
      SubmitAgrees(f, s.accepted, max, r.value.index, payload);
      StreamGrows(s.out.id, s.accepted, [payload]);
      if !s.out.terminal {
        PositionAfterSubmit(s.out.sender, f.outbound, s.accepted, s.written, Transfer(f.mode, r.value.index, payload));
      }
      if s.finished {
        var c :| OnBoundary(s, c);
        BoundaryAfterSubmit(s, [payload], c);
        BoundaryIgnores(s.(accepted := s.accepted + [payload]), SendNext(s, HostSends(DoSubmit(key, payload))), c);
      }
    } else {
      assert s.accepted + [] == s.accepted;
    }
  }

  lemma BoundaryIgnores(s: SendSide, t: SendSide, c: nat)
    requires OnBoundary(s, c) && s.accepted == t.accepted && s.written == t.written && s.out.id == t.out.id
    ensures OnBoundary(t, c)
  {
  }

  // ---------------------------------------------------------------- polling and finishing

  lemma PollFailKeeps(s: SendSide, loaded: Outgoing, ep: Endpoint, chunk: seq<u8>, error: SendError)
    requires SendInv(s) && !s.out.terminal && WellFormed(ep)
    requires loaded.key == s.out.key && loaded.id == s.out.id && SenderOk(loaded.sender)
    requires loaded.sender.header == s.out.sender.header && loaded.sender.maxMessageBytes == s.out.sender.maxMessageBytes
    requires s.out.key in ep.flows ==> ep.flows[s.out.key].mode.ReliableOrdered?
    requires s.written + chunk <= Stream(s.out.id, s.accepted) && (s.finished ==> chunk == [])
    ensures var st := FailSend(loaded, ep, s.reg, chunk, error);
            && st.result == Ready(Err(error)) && st.written == chunk
            && SendInv(s.(ep := st.ep, reg := st.reg, out := st.binding, written := s.written + chunk))
  {
    hide WellFormed, AtPosition, Stream, FlowAgrees, OnBoundary, Held, Populated;
    ApplyKeeps(ep, DoFailCustody(loaded.key));
    var st := FailSend(loaded, ep, s.reg, chunk, error);
    assert s.out.key !in st.ep.flows;
    if s.finished {
      var c :| OnBoundary(s, c);
      assert s.written + [] == s.written;
      BoundaryIgnores(s, s.(ep := st.ep, reg := st.reg, out := st.binding, written := s.written + chunk), c);
    }
  }

  lemma PollWriteKeeps(s: SendSide, write: WriteIo, finish: FinishIo)
    requires SendInv(s) && !s.out.terminal && s.out.key in s.ep.flows && !s.out.finishing
    ensures SendInv(SendNext(s, PollSender(write, finish)))
  {
    hide WellFormed, AtPosition, Stream, FlowAgrees, OnBoundary, FailSend, Advance, Prepared, Segment;
    var key, max := s.out.key, s.out.sender.maxMessageBytes;
    assert AllShort(s.accepted);
    LoadKeepsPosition(s.out.sender, s.ep, key, s.accepted, s.written, max);
    var p := Prepared(s.out.sender, s.ep, key).value;
    PositionIsOk(p, s.ep.flows[key].outbound, s.accepted, s.written);
    var loaded := s.out.(sender := p);
    assert s.written + [] == s.written;
    FlowAgreesMode(s.ep.flows[key], s.accepted, max);
    if Segment(p).Some? {
      match write
      case WritePending =>
      case WriteFailed(failure) => PollFailKeeps(s, loaded, s.ep, [], SendIo(failure));
      case Wrote(n) => PollWroteKeeps(s, p, n);
    }
  }

  lemma FlowAgreesMode(f: Flow, accepted: seq<seq<u8>>, max: nat)
    requires FlowAgrees(f, accepted, max)
    ensures f.mode.ReliableOrdered? && QueueIsSuffix(f.outbound, accepted)
  {
  }

  lemma PositionIsOk(sd: Sender, q: seq<Transfer>, accepted: seq<seq<u8>>, written: seq<u8>)
    requires AtPosition(sd, q, accepted, written)
    ensures SenderOk(sd)
  {
  }

  lemma WholeSegmentInStream(s: SendSide, p: Sender, n: nat)
    requires SendInv(s) && s.out.key in s.ep.flows && SenderOk(p) && Segment(p).Some?
    requires AtPosition(p, s.ep.flows[s.out.key].outbound, s.accepted, s.written)
    requires p.header == s.out.sender.header && p.maxMessageBytes == s.out.sender.maxMessageBytes
    requires 1 <= n <= |Segment(p).value|
    ensures var a := Advance(p, s.ep, s.out.key, n);
            var now := s.written + Segment(p).value[..n];
            && now <= Stream(s.out.id, s.accepted) && a.result.Ok? && WellFormed(a.ep)
            && s.out.key in a.ep.flows && FlowAgrees(a.ep.flows[s.out.key], s.accepted, s.out.sender.maxMessageBytes)
            && AtPosition(a.sender, a.ep.flows[s.out.key].outbound, s.accepted, now)
            && a.sender.header == p.header && a.sender.maxMessageBytes == p.maxMessageBytes
  {
    hide WellFormed, AtPosition, Stream, Advance, Segment, Commit;
    var key, max := s.out.key, s.out.sender.maxMessageBytes;
    AdvanceKeepsPosition(p, s.ep, key, s.accepted, s.written, max, n);
    var a := Advance(p, s.ep, key, n);
    if a.result.value.Some? {
      CommitKeeps(s.ep, key, a.result.value.value);
    }
    PositionInStream(a.sender, a.ep.flows[key].outbound, s.accepted, s.written + Segment(p).value[..n], s.out.id);
  }

  lemma PollWroteKeeps(s: SendSide, p: Sender, n: nat)
    requires SendInv(s) && !s.out.terminal && s.out.key in s.ep.flows && !s.out.finishing
    requires Prepared(s.out.sender, s.ep, s.out.key) == Ok(p) && SenderOk(p) && Segment(p).Some? && Segment(p).value != []
    requires AtPosition(p, s.ep.flows[s.out.key].outbound, s.accepted, s.written)
    requires p.header == s.out.sender.header && p.maxMessageBytes == s.out.sender.maxMessageBytes
    ensures forall finish :: SendInv(SendNext(s, PollSender(Wrote(n), finish)))
  {
    hide WellFormed, AtPosition, Stream, FlowAgrees, OnBoundary, FailSend, Segment, Prepared, Advance;
    var key := s.out.key;
    var segment := Segment(p).value;
    var loaded := s.out.(sender := p);
    var a := Advance(p, s.ep, key, n);
    FlowAgreesMode(s.ep.flows[key], s.accepted, s.out.sender.maxMessageBytes);
    if 1 <= n <= |segment| {
      WholeSegmentInStream(s, p, n);
      PositionIsOk(a.sender, a.ep.flows[key].outbound, s.accepted, s.written + segment[..n]);
    } else {
      BadCount(p, s.ep, key, n);
      WholeSegmentInStream(s, p, |segment|);
      assert segment[..|segment|] == segment && segment[..0] == [] && s.written + [] == s.written;
      PollFailKeeps(s, loaded, s.ep, segment[..Min(n, |segment|)], a.result.error);
    }
  }

  lemma BadCount(p: Sender, ep: Endpoint, key: FlowKey, n: nat)
    requires SenderOk(p) && Segment(p).Some? && !(1 <= n <= |Segment(p).value|)
    ensures Advance(p, ep, key, n) == Advanced(p, ep, Err(if n == 0 then WriteZero else InvalidWriteCount))
  {
  }

  lemma PollFinishKeeps(s: SendSide, write: WriteIo, finish: FinishIo)
    requires SendInv(s) && !s.out.terminal && s.out.key in s.ep.flows && s.out.finishing
    ensures SendInv(SendNext(s, PollSender(write, finish)))
  {
    hide WellFormed, Stream, FailSend, OnBoundary, Terminate;
    var key := s.out.key;
    var f := s.ep.flows[key];
    assert s.written + [] == s.written;
    var c :| OnBoundary(s, c);
    var t := SendNext(s, PollSender(write, finish));
    BoundaryIgnores(s, s.(out := s.out.(finishing := false, terminal := true)), c);
    if f.outbound != [] {
      PollFailKeeps(s, s.out, s.ep, [], PendingData);
    } else {
      match finish
      case FinishPending =>
      case FinishAcked => CleanClose(s);
      case FinishStopped => PollFailKeeps(s, s.out, s.ep, [], SendIo(WriteFailure));
      case FinishFailed(ConnectionLost) =>
      case FinishFailed(_) => PollFailKeeps(s, s.out, s.ep, [], SendIo(WriteFailure));
    }
    if t.written == s.written && t.accepted == s.accepted && t.out.id == s.out.id {
      BoundaryIgnores(s, t, c);
    }
  }

  /** An acknowledged finish with an empty queue: everything accepted was written, nothing is owed. */
  lemma CleanClose(s: SendSide)
    requires SendInv(s) && !s.out.terminal && s.out.key in s.ep.flows && s.out.finishing && s.ep.flows[s.out.key].outbound == []
    ensures var (after, r) := Terminate(s.ep, s.out.key, Requested);
            && r.Ok? && r.value.pendingMessages == 0 && !r.value.obligationFailed
            && WellFormed(after) && s.out.key !in after.flows && s.written == Stream(s.out.id, s.accepted)
  {
    hide ScopeOk, Populated;
    var f := s.ep.flows[s.out.key];
    assert FlowOk(s.out.key, f);
    TerminateKeeps(s.ep, s.out.key, Requested);
    assert s.accepted[..|s.accepted|] == s.accepted;
    assert Varint(s.out.id) + Frames(s.accepted) + [] == Stream(s.out.id, s.accepted);
  }

  lemma HostFinishKeeps(s: SendSide, ok: bool)
    requires SendInv(s)
    ensures SendInv(SendNext(s, HostFinishes(ok)))
  {
    hide WellFormed, Stream, OnBoundary, AtPosition, FlowAgrees, Prepared, Segment;
    var key, max := s.out.key, s.out.sender.maxMessageBytes;
    var t := SendNext(s, HostFinishes(ok));
    if !s.out.terminal && !s.out.finishing && key in s.ep.flows {
      LoadKeepsPosition(s.out.sender, s.ep, key, s.accepted, s.written, max);
      var p := Prepared(s.out.sender, s.ep, key).value;
      PositionIsOk(p, s.ep.flows[key].outbound, s.accepted, s.written);
      if Segment(p).None? {
        IdleBoundary(s);
        BoundaryIgnores(s, t, |s.accepted|);
      }
    }
    if s.finished {
      var c :| OnBoundary(s, c);
      BoundaryIgnores(s, t, c);
    }
  }

  /** With nothing left to write the stream ends exactly after the last accepted message. */
  lemma IdleBoundary(s: SendSide)
    requires SendInv(s) && !s.out.terminal && s.out.key in s.ep.flows && s.ep.flows[s.out.key].outbound == []
    requires s.out.sender.headerOffset == |s.out.sender.header|
    ensures OnBoundary(s, |s.accepted|) && s.out.sender.current.None?
  {
    assert s.accepted[..|s.accepted|] == s.accepted;
    assert Varint(s.out.id) + Frames(s.accepted) + [] == Stream(s.out.id, s.accepted);
  }

  lemma PollKeeps(s: SendSide, write: WriteIo, finish: FinishIo)
    requires SendInv(s)
    ensures SendInv(SendNext(s, PollSender(write, finish)))
  {
    if s.out.terminal {
      assert s.written + [] == s.written;
    } else if s.out.key !in s.ep.flows {
      assert s.written + [] == s.written;
      PollFailKeeps(s, s.out, s.ep, [], SendCore(UnknownFlow));
    } else if s.out.finishing {
      PollFinishKeeps(s, write, finish);
    } else {
      PollWriteKeeps(s, write, finish);
    }
  }

  lemma SendStepKeeps(s: SendSide, move: SendMove)
    requires SendInv(s) && SendAllowed(s, move)
    ensures SendInv(SendNext(s, move))
  {
    hide PollSend, RequestFinish, Apply;
    match move
    case HostSends(op) => HostSendKeeps(s, op);
    case PollSender(write, finish) => PollKeeps(s, write, finish);
    case HostFinishes(ok) => HostFinishKeeps(s, ok);
    case SenderRegistry(reg) => RegistryIsInert(s, reg);
  }

  lemma RegistryIsInert(s: SendSide, reg: Flows)
    requires SendInv(s)
    ensures SendInv(s.(reg := reg))
  {
    hide WellFormed, Stream, AtPosition, FlowAgrees, OnBoundary;
    if s.finished {
      var c :| OnBoundary(s, c);
      BoundaryIgnores(s, s.(reg := reg), c);
    }
  }

  lemma SendStarts(s: SendSide, id: FlowId, key: FlowKey, max: nonzero)
    requires SendStart(s, id, key, max)
    ensures SendInv(s)
  {
    hide ScopeOk, Held;
    assert FlowOk(key, s.ep.flows[key]);
  }

  // ---------------------------------------------------------------- what a poll can report

  /** The stream claims to have taken more octets than the sender offers it next. */
  predicate Overclaims(s: SendSide, count: nat) {
    var p := Prepared(s.out.sender, s.ep, s.out.key);
    p.Ok? && SenderOk(p.value) && Segment(p.value).Some? && count > |Segment(p.value).value|
  }

  /** In every reachable state of a live binding a poll fails only for what the stream answered or
      because the flow has pending data after its finish: never for custody, framing or index reasons. */
  lemma PollErrorsAreExternal(s: SendSide, write: WriteIo, finish: FinishIo)
    requires SendInv(s) && !s.out.terminal && s.out.key in s.ep.flows
    ensures var st := PollSend(s.out, s.ep, s.reg, write, finish);
            st.result.Ready? && st.result.value.Err? ==>
              var e := st.result.value.error;
              || (e.SendIo? && (write.WriteFailed? || finish.FinishFailed? || finish.FinishStopped?))
              || (e.WriteZero? && write == Wrote(0))
              || (e.InvalidWriteCount? && write.Wrote? && Overclaims(s, write.count))
              || (e.PendingData? && s.out.finishing && s.ep.flows[s.out.key].outbound != [])
  {
    hide WellFormed, Stream, OnBoundary, AtPosition, Prepared, Segment, FailCustody, Advance, Terminate;
    var key := s.out.key;
    if s.out.finishing {
      TerminateLive(s.ep, key);
    } else {
      LoadKeepsPosition(s.out.sender, s.ep, key, s.accepted, s.written, s.out.sender.maxMessageBytes);
      var p := Prepared(s.out.sender, s.ep, key).value;
      PositionIsOk(p, s.ep.flows[key].outbound, s.accepted, s.written);
      if Segment(p).Some? && write.Wrote? {
        if 1 <= write.count <= |Segment(p).value| {
          AdvanceKeepsPosition(p, s.ep, key, s.accepted, s.written, s.out.sender.maxMessageBytes, write.count);
        } else {
          BadCount(p, s.ep, key, write.count);
        }
      }
    }
  }

  lemma TerminateLive(ep: Endpoint, key: FlowKey)
    requires key in ep.flows
    ensures Terminate(ep, key, Requested).1.Ok?
  {
  }

  /** A commit is reported exactly at the last octet of its message: the octets written so far are then
      the header and the frames up to and including it. */
  lemma CommitAtLastOctet(s: SendSide, write: WriteIo, finish: FinishIo)
    requires SendInv(s) && !s.out.terminal && s.out.key in s.ep.flows && !s.out.finishing
    ensures var st := PollSend(s.out, s.ep, s.reg, write, finish);
            st.result.Ready? && st.result.value.Ok? && st.result.value.value.CommittedMessage? ==>
              var i := st.result.value.value.index;
              && i == |s.accepted| - |s.ep.flows[s.out.key].outbound|
              && OnBoundary(s.(written := s.written + st.written), i + 1)
  {
    hide WellFormed, Segment, FailCustody, Prepared, Advance, FlowAgrees, AtPosition;
    var key, max := s.out.key, s.out.sender.maxMessageBytes;
    LoadKeepsPosition(s.out.sender, s.ep, key, s.accepted, s.written, max);
    var p := Prepared(s.out.sender, s.ep, key).value;
    PositionIsOk(p, s.ep.flows[key].outbound, s.accepted, s.written);
    if Segment(p).Some? && write.Wrote? {
      if 1 <= write.count <= |Segment(p).value| {
        AdvanceKeepsPosition(p, s.ep, key, s.accepted, s.written, max, write.count);
        var a := Advance(p, s.ep, key, write.count);
        if a.result.value.Some? {
          CommittedIndex(p, s.ep, key, s.accepted, s.written, max, write.count);
          assert Stream(s.out.id, s.accepted[..a.result.value.value + 1]) == p.header + Frames(s.accepted[..a.result.value.value + 1]);
        }
      } else {
        BadCount(p, s.ep, key, write.count);
      }
    }
  }

  lemma CommittedIndex(p: Sender, ep: Endpoint, key: FlowKey, accepted: seq<seq<u8>>, written: seq<u8>, max: nat, n: nat)
    requires key in ep.flows && FlowAgrees(ep.flows[key], accepted, max)
    requires AtPosition(p, ep.flows[key].outbound, accepted, written) && Segment(p).Some?
    ensures var a := Advance(p, ep, key, n);
            a.result.Ok? && a.result.value.Some? ==> a.result.value.value == |accepted| - |ep.flows[key].outbound|
  {
  }
}
