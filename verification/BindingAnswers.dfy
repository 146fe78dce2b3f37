/** How a stream binding fails, waits and closes, told by what it was given and what is left of its flow. */
module BindingAnswers {
  import opened Basics
  import opened Wire
  import opened Framing
  import opened Delivery
  import opened Core
  import opened CoreInvariant
  import opened CoreAnswers
  import opened Registry
  import opened OutboundBinding
  import opened InboundBinding

  /** Custody of the flow is lost: it is gone from Core alone, and the report says that an obligation failed. */
  ghost predicate CustodyLost(ep: Endpoint, after: Endpoint, key: FlowKey, failure: Option<Termination>)
    requires key in ep.flows
  {
    var f := ep.flows[key];
    after.flows == ep.flows - {key} && failure == Some(Termination(key, ReliableCustodyLost, |f.outbound| + Unexposed(f), true))
  }

  // ---------------------------------------------------------------- the sending binding

  /** A live sending binding: its flow is in Core, reliable, and it did not end. */
  predicate Sending(b: Outgoing, ep: Endpoint) {
    SenderOk(b.sender) && !b.terminal && b.key.direction.Outbound? && b.key in ep.flows && ep.flows[b.key].mode == ReliableOrdered
  }

  /** A poll that fails ends the binding. A lost connection leaves Core and the registry as they are; any other
      failure takes the flow out of the registry and Core and keeps the report for the driver. */
  lemma SendFailureEffects(b: Outgoing, ep: Endpoint, reg: Flows, write: WriteIo, finish: FinishIo)
    requires Sending(b, ep)
    ensures var st := PollSend(b, ep, reg, write, finish);
            st.result.Ready? && st.result.value.Err? ==>
              && st.binding.terminal
              && (st.result.value.error == SendIo(ConnectionLost) ==> st.ep == ep && st.reg == reg && st.binding.failure == b.failure)
              && (st.result.value.error != SendIo(ConnectionLost) ==>
                    st.reg == reg - {b.id} && CustodyLost(ep, st.ep, b.key, st.binding.failure))
  {
    hide FailSend, PollFinish, PollWrite;
    if b.finishing {
      FinishFailureEffects(b, ep, reg, finish);
    } else {
      WriteFailureEffects(b, ep, reg, write);
    }
  }

  /** What every failing step leaves. */
  ghost predicate Failed(b: Outgoing, ep: Endpoint, reg: Flows, st: SendStep)
    requires b.key in ep.flows
  {
    st.result.Ready? && st.result.value.Err? ==>
      && st.binding.terminal
      && (st.result.value.error == SendIo(ConnectionLost) ==> st.ep == ep && st.reg == reg && st.binding.failure == b.failure)
      && (st.result.value.error != SendIo(ConnectionLost) ==> st.reg == reg - {b.id} && CustodyLost(ep, st.ep, b.key, st.binding.failure))
  }

  lemma FailingLosesCustody(b: Outgoing, from: Outgoing, ep: Endpoint, reg: Flows, written: seq<u8>, error: SendError)
    requires b.key in ep.flows && ep.flows[b.key].mode == ReliableOrdered && error != SendIo(ConnectionLost)
    requires from.key == b.key && from.id == b.id
    ensures Failed(b, ep, reg, FailSend(from, ep, reg, written, error)) && FailSend(from, ep, reg, written, error).result == Ready(Err(error))
  {
    hide FailCustody;
    CustodyLossReport(ep, b.key);
  }

  lemma FinishFailureEffects(b: Outgoing, ep: Endpoint, reg: Flows, finish: FinishIo)
    requires Sending(b, ep)
    ensures Failed(b, ep, reg, PollFinish(b, ep, reg, finish))
  {
    hide FailSend, Terminate, Failed;
    TerminationReport(ep, b.key, Requested);
    FailingLosesCustody(b, b, ep, reg, [], PendingData);
    FailingLosesCustody(b, b, ep, reg, [], SendIo(WriteFailure));
    NotFailed(b, ep, reg, PollFinish(b, ep, reg, finish));
  }

  lemma NotFailed(b: Outgoing, ep: Endpoint, reg: Flows, st: SendStep)
    requires b.key in ep.flows
    ensures st.result.Pending? || st.result.value.Ok? ==> Failed(b, ep, reg, st)
    ensures st.result == Ready(Err(SendIo(ConnectionLost))) && st.ep == ep && st.reg == reg && st.binding.terminal && st.binding.failure == b.failure ==> Failed(b, ep, reg, st)
  {
  }

  lemma WriteFailureEffects(b: Outgoing, ep: Endpoint, reg: Flows, write: WriteIo)
    requires Sending(b, ep)
    ensures Failed(b, ep, reg, PollWrite(b, ep, reg, write))
  {
    hide FailSend, Failed, Prepared, Advance, Segment;
    var st := PollWrite(b, ep, reg, write);
    NotFailed(b, ep, reg, st);
    NeverLosesConnection(b.sender, ep, b.key);
    var p := Prepared(b.sender, ep, b.key);
    if p.Err? {
      FailingLosesCustody(b, b, ep, reg, [], p.error);
    } else if SenderOk(p.value) && Segment(p.value).Some? {
      var loaded := b.(sender := p.value);
      if write.WriteFailed? && write.failure != ConnectionLost {
        FailingLosesCustody(b, loaded, ep, reg, [], SendIo(write.failure));
      } else if write.Wrote? {
        FailedAdvance(p.value, ep, b.key, write.count);
        var a := Advance(p.value, ep, b.key, write.count);
        if a.result.Err? {
          var offered := Segment(p.value).value;
          FailingLosesCustody(b, loaded.(sender := a.sender), ep, reg, offered[..Min(write.count, |offered|)], a.result.error);
        }
      }
    }
  }

  lemma NeverLosesConnection(s: Sender, ep: Endpoint, key: FlowKey)
    ensures Prepared(s, ep, key).Err? ==> !Prepared(s, ep, key).error.SendIo?
  {
  }

  lemma FailedAdvance(s: Sender, ep: Endpoint, key: FlowKey, n: nat)
    requires SenderOk(s) && Segment(s).Some?
    ensures var a := Advance(s, ep, key, n); a.result.Err? ==> a.ep == ep && !a.result.error.SendIo?
  {
    if s.current.Some? {
      CommitAnswers(ep, key, s.current.value.snapshot.index);
    }
    hide Commit;
  }

  /** Every answer of the stream to a binding with something to write. */
  lemma WriteAnswers(b: Outgoing, ep: Endpoint, reg: Flows, write: WriteIo, finish: FinishIo)
    requires Sending(b, ep) && !b.finishing && Prepared(b.sender, ep, b.key).Ok? && SenderOk(Prepared(b.sender, ep, b.key).value)
    requires Segment(Prepared(b.sender, ep, b.key).value).Some?
    ensures var st := PollSend(b, ep, reg, write, finish);
            var offered := Segment(Prepared(b.sender, ep, b.key).value).value;
            && (write.WritePending? <==> st.result == Pending)
            && (write.WriteFailed? ==> st.result == Ready(Err(SendIo(write.failure))) && st.written == [])
            && (write == Wrote(0) ==> st.result == Ready(Err(WriteZero)) && st.written == [])
            && (write.Wrote? && write.count > |offered| ==> st.result == Ready(Err(InvalidWriteCount)) && st.written == offered)
            && (write.Wrote? && 1 <= write.count <= |offered| ==> st.written == offered[..write.count])
            && (write.Wrote? && 1 <= write.count < |offered| ==> st.result == Ready(Ok(Progressed(write.count))) && st.ep == ep && st.reg == reg)
  {
    hide FailCustody, LoadNext, Varint;
    var s := Prepared(b.sender, ep, b.key).value;
    if write.Wrote? && 1 <= write.count < |Segment(s).value| {
      PartOfSegment(s, ep, b.key, write.count);
    }
    hide Commit, Advance;
    if write.Wrote? && !(1 <= write.count <= |Segment(s).value|) {
      WrongCount(s, ep, b.key, write.count);
    }
    assert Segment(s).value[..|Segment(s).value|] == Segment(s).value && Segment(s).value[..0] == [];
  }

  lemma PartOfSegment(s: Sender, ep: Endpoint, key: FlowKey, n: nat)
    requires SenderOk(s) && Segment(s).Some? && 1 <= n < |Segment(s).value|
    ensures Advance(s, ep, key, n).result == Ok(None) && Advance(s, ep, key, n).ep == ep
  {
    hide Commit;
  }

  lemma WrongCount(s: Sender, ep: Endpoint, key: FlowKey, n: nat)
    requires SenderOk(s) && Segment(s).Some? && !(1 <= n <= |Segment(s).value|)
    ensures Advance(s, ep, key, n) == Advanced(s, ep, Err(if n == 0 then WriteZero else InvalidWriteCount))
  {
  }

  /** A finishing binding closes exactly when the peer has acknowledged everything and Core has nothing queued;
      then the flow leaves the registry and Core with a report of its own. */
  lemma FinishAnswers(b: Outgoing, ep: Endpoint, reg: Flows, write: WriteIo, finish: FinishIo)
    requires Sending(b, ep) && b.finishing
    ensures var st := PollSend(b, ep, reg, write, finish);
            var f := ep.flows[b.key];
            && st.written == []
            && (st.result == Ready(Err(PendingData)) <==> f.outbound != [])
            && (st.result == Pending <==> f.outbound == [] && finish.FinishPending?)
            && (f.outbound == [] && finish.FinishAcked? <==> st.result.Ready? && st.result.value.Ok?)
            && (f.outbound == [] && finish.FinishAcked? ==>
                  && st.result == Ready(Ok(SenderClosed(Termination(b.key, Requested, Unexposed(f), Unexposed(f) > 0))))
                  && st.reg == reg - {b.id} && st.ep.flows == ep.flows - {b.key} && st.binding.terminal)
            && (f.outbound == [] && finish == FinishFailed(ConnectionLost) ==> st.result == Ready(Err(SendIo(ConnectionLost))))
            && (f.outbound == [] && (finish.FinishStopped? || (finish.FinishFailed? && finish.failure != ConnectionLost)) ==>
                  st.result == Ready(Err(SendIo(WriteFailure))))
  {
    hide FailCustody, Terminate, Varint;
    TerminationReport(ep, b.key, Requested);
  }

  // ---------------------------------------------------------------- the receiving binding

  predicate Receiving(b: Incoming) {
    IncomingOk(b) && !b.terminal
  }

  /** The flow of the binding, when it is known, is live and reliable. */
  predicate FlowIsLive(b: Incoming, ep: Endpoint) {
    b.flow.Some? ==> b.flow.value.key in ep.flows && ep.flows[b.flow.value.key].mode == ReliableOrdered
  }

  /** A read that fails ends the binding: a lost connection leaves Core and the registry as they are; any other
      failure loses custody of the flow, if it is known, and takes it out of the registry. */
  lemma ReadFailureAnswers(b: Incoming, ep: Endpoint, reg: Flows, failure: IoFailure)
    requires Receiving(b) && !b.draining && FlowIsLive(b, ep)
    ensures var st := PollReceive(b, ep, reg, ReadFailed(failure));
            && st.result == Ready(Err(ReceiveIo(failure))) && st.binding.terminal
            && (failure == ConnectionLost ==> st.ep == ep && st.reg == reg)
            && (failure != ConnectionLost && b.flow.None? ==> st.ep == ep && st.reg == if b.flowId.Some? then reg - {b.flowId.value} else reg)
            && (failure != ConnectionLost && b.flow.Some? ==>
                  st.reg == reg - {b.flowId.value} && CustodyLost(ep, st.ep, b.flow.value.key, st.binding.failure))
  {
    hide FailCustody, Terminate, ConsumeChunk, DecodeVarint, FirstFrame, Parse;
    if b.flow.Some? {
      CustodyLossReport(ep, b.flow.value.key);
    }
  }

  /** The end of the stream before its FlowId, or within a frame, is a truncation; on a frame boundary the
      binding drains. */
  lemma EndAnswers(b: Incoming, ep: Endpoint, reg: Flows)
    requires Receiving(b) && !b.draining && FlowIsLive(b, ep)
    ensures var st := PollReceive(b, ep, reg, ReadChunk([]));
            && (st.result == Ready(Err(TruncatedAssociation)) <==> b.flow.None?)
            && (st.result == Ready(Err(ReceiveFraming(TruncatedFrame))) <==> b.flow.Some? && b.frames.value.pending != [])
            && (b.flow.None? ==> st.ep == ep && st.reg == reg && st.binding.terminal)
            && (b.flow.Some? && b.frames.value.pending != [] ==> CustodyLost(ep, st.ep, b.flow.value.key, st.binding.failure))
            && (b.flow.Some? && b.frames.value.pending == [] ==> st == PollReceive(b.(draining := true), ep, reg, ReadChunk([])))
  {
    hide FailCustody, Terminate, ConsumeChunk, DecodeVarint, FirstFrame, Parse, Held;
    if b.flow.Some? {
      CustodyLossReport(ep, b.flow.value.key);
    }
  }

  /** A draining binding closes, with Core's own report, exactly when everything received has been exposed; until
      then it stays and says so. If its flow is gone already it closes without a report. */
  lemma DrainAnswers(b: Incoming, ep: Endpoint, reg: Flows, io: ReadIo)
    requires WellFormed(ep) && Receiving(b) && b.draining && b.flow.value.key.direction.Inbound?
    ensures var st := PollReceive(b, ep, reg, io);
            var key := b.flow.value.key;
            if key !in ep.flows then
              st.result == Ready(Ok(ReceiverClosed(key, None))) && st.ep == ep && st.reg == reg - {b.flowId.value} && st.binding.terminal
            else if Unexposed(ep.flows[key]) > 0 then st == ReceiveStep(b, ep, reg, Ready(Ok(Draining(key))))
            else
              && st.result == Ready(Ok(ReceiverClosed(key, Some(Termination(key, Requested, 0, false)))))
              && st.ep.flows == ep.flows - {key} && st.reg == reg - {b.flowId.value} && st.binding.terminal
  {
    hide Terminate, ConsumeChunk, DecodeVarint, FirstFrame, Parse, WellFormed, Held;
    var key := b.flow.value.key;
    if key in ep.flows {
      InboundQueuesNothing(ep, key);
      TerminationReport(ep, key, Requested);
      NothingHeld(ep.flows[key]);
      assert PollReceive(b, ep, reg, io) == Drain(b, ep, reg);
    }
  }

  lemma InboundQueuesNothing(ep: Endpoint, key: FlowKey)
    requires WellFormed(ep) && key in ep.flows && key.direction.Inbound?
    ensures ep.flows[key].outbound == []
  {
    hide ScopeOk, Held, QueueOk, ReceiverOk;
    assert FlowOk(key, ep.flows[key]);
  }

  lemma NothingHeld(f: Flow)
    requires f.outbound == []
    ensures Held(f).messages == Unexposed(f)
    ensures Unexposed(f) == 0 ==> Held(f).bytes == 0
  {
    if f.receiver.Reliable? && |f.receiver.byIndex| == 0 {
      assert f.receiver.byIndex == map[];
    }
  }

  // ---------------------------------------------------------------- received chunks

  /** Delivery takes all messages, under consecutive indices, or stops at the first that Core does not buffer
      and says which answer it was. */
  lemma {:induction false} DeliveryAnswers(ep: Endpoint, key: FlowKey, next: Option<u64>, messages: seq<seq<u8>>)
    ensures var d := DeliverAll(ep, key, next, messages);
            && (d.result.Ok? ==> d.result.value == |messages| && Count(d.next) == Count(next) + |messages|)
            && (d.result == Err(ReceiveIndexExhausted) ==> d.next == None)
            && (d.result.Err? ==>
                  d.result.error == ReceiveIndexExhausted || d.result.error.ReceiveCore?
                  || (d.result.error.UnexpectedCoreOutcome? && d.result.error.outcome != Buffered(0)))
    decreases |messages|
  {
    hide ReceivePayload;
    if messages != [] && next.Some? && ReceivePayload(ep, key, next.value, messages[0]).1 == Ok(Buffered(0)) {
      DeliveryAnswers(ReceivePayload(ep, key, next.value, messages[0]).0, key, Next(next.value), messages[1..]);
    }
  }

  /** One chunk of a known flow: the messages that it completes go to Core, and the poll reports how many they
      were, or the octets read if there were none; an error of delivery comes before one of framing. */
  lemma ChunkAnswers(b: Incoming, ep: Endpoint, reg: Flows, bytes: seq<u8>)
    requires Receiving(b) && !b.draining && b.flow.Some? && bytes != []
    ensures var st := PollReceive(b, ep, reg, ReadChunk(bytes));
            var key := b.flow.value.key;
            var fr := b.frames.value;
            var parsed := Parse(fr.pending + bytes, fr.limits);
            var d := DeliverAll(ep, key, fr.next, parsed.messages);
            && (d.result.Err? ==> st.result == Ready(Err(d.result.error)) && st.binding.terminal)
            && (d.result.Ok? && parsed.error.Some? ==> st.result == Ready(Err(ReceiveFraming(parsed.error.value))) && st.binding.terminal)
            && (d.result.Ok? && parsed.error.None? ==>
                  && st.result == Ready(Ok(if parsed.messages == [] then ReadBytes(|bytes|) else MessagesBuffered(key, |parsed.messages|)))
                  && st.ep == d.ep && st.reg == reg && st.binding == b.(frames := Some(FrameFeed(parsed.rest, fr.limits, d.next))))
  {
    hide DeliverAll, Parse, FailCustody, DecodeVarint, FirstFrame;
    var fr := b.frames.value;
    DeliveryAnswers(ep, b.flow.value.key, fr.next, Parse(fr.pending + bytes, fr.limits).messages);
  }

  // ---------------------------------------------------------------- association

  /** The registry gives one stream to a reliable flow in its own direction, and names the first thing wrong
      otherwise. */
  lemma BindAnswers(reg: Flows, id: FlowId, direction: Direction)
    requires id in reg && reg[id].mode == ReliableOrdered ==> reg[id].association.Some?
    ensures var r := Bind(reg, id, direction);
            && (r == Err(UnknownFlowId) <==> id !in reg)
            && (r == Err(FlowNotReliable) <==> id in reg && reg[id].mode != ReliableOrdered)
            && (r == Err(WrongFlowDirection) <==> id in reg && reg[id].mode == ReliableOrdered && reg[id].key.direction != direction)
            && (r == Err(AlreadyBound) <==>
                  id in reg && reg[id].mode == ReliableOrdered && reg[id].key.direction == direction && reg[id].association != Some(Unbound))
            && (r.Ok? <==> id in reg && reg[id].mode == ReliableOrdered && reg[id].key.direction == direction && reg[id].association == Some(Unbound))
            && (r.Ok? ==>
                  r.value == reg[id := reg[id].(association := Some(if direction == Outbound then BoundOutbound else BoundInbound))])
  {
  }

  /** A flow is registered exactly if its FlowId is new and of the right side, there is capacity, and Core has a
      flow under the key whose own maximum fits the agreed one. */
  lemma RegisterAnswers(reg: Flows, local: Side, capacity: nat, ep: Endpoint, id: FlowId, key: FlowKey, max: nonzero)
    ensures var r := Register(reg, local, capacity, ep, id, key, max);
            var room := id !in reg && |reg| < capacity;
            var known := room && key in ep.flows;
            && (r == Err(DuplicateFlowId) <==> id in reg)
            && (r == Err(CapacityExceeded) <==> id !in reg && |reg| >= capacity)
            && (r == Err(UnknownCoreFlow) <==> room && key !in ep.flows)
            && (r == Err(OutboundMessageLimitExceedsProfile) <==> known && key.direction == Outbound && ep.flows[key].policy.maxMessageBytes > max)
            && (r == Err(InboundMessageLimitCannotSupportProfile) <==> known && key.direction == Inbound && ep.flows[key].policy.maxMessageBytes < max)
            && (known && (if key.direction == Outbound then ep.flows[key].policy.maxMessageBytes <= max else ep.flows[key].policy.maxMessageBytes >= max) ==>
                  && (r == Err(WrongFlowSide) <==> ((SideOf(id) == local) != (key.direction == Outbound)))
                  && (r.Ok? <==> ((SideOf(id) == local) == (key.direction == Outbound)))
                  && (r.Ok? ==>
                        r.value == reg[id := RegisteredFlow(key, ep.flows[key].mode, max, if ep.flows[key].mode == ReliableOrdered then Some(Unbound) else None)]))
  {
  }

  /** A stream whose FlowId is complete is bound to that flow, or the binding ends: with the registry's own
      reason, or, if the stream buffer is smaller than the flow's maximum, by losing the flow. */
  lemma AssociationAnswers(b: Incoming, ep: Endpoint, reg: Flows, id: FlowId, rest: seq<u8>, read: nat)
    requires Receiving(b) && b.flow.None?
    ensures var st := AssociateChunk(b, ep, reg, id, rest, read);
            var bound := Bind(reg, id, Inbound);
            && (bound.Err? ==> st == ReceiveStep(Ended(b), ep, reg, Ready(Err(ReceiveRegistry(bound.error)))))
            && (bound.Ok? && b.maxStaging < reg[id].maxMessageBytes ==>
                  && st.result == Ready(Err(StagingBelowFlowMaximum(reg[id].maxMessageBytes, b.maxStaging))) && st.binding.terminal
                  && id !in st.reg && (reg[id].key in ep.flows && ep.flows[reg[id].key].mode == ReliableOrdered ==> reg[id].key !in st.ep.flows))
            && (bound.Ok? && reg[id].maxMessageBytes <= b.maxStaging <= MAX_VARINT && rest == [] ==>
                  && st.result == Ready(Ok(StreamAssociated(id))) && st.ep == ep && st.reg == bound.value
                  && st.binding.flowId == Some(id) && st.binding.flow == Some(bound.value[id])
                  && st.binding.frames == Some(FrameFeed([], FrameLimits(reg[id].maxMessageBytes, b.maxStaging), Some(0))))
  {
    hide FailCustody, FeedChunk;
    if id in reg {
      CustodyLossReport(ep, reg[id].key);
    }
  }
}
