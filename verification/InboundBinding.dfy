/** One accepted byte stream: the FlowId prefix, the frame decoder, and delivery of each decoded
    message into Core under its consecutive index. */
module InboundBinding {
  import opened Basics
  import opened Wire
  import opened Framing
  import opened Delivery
  import opened Core
  import opened CoreInvariant
  import opened DeliveryEndpoints
  import opened Registry
  import opened OutboundBinding

  datatype ReceiveError =
    | ReceiveRegistry(registryError: RegistryError)
    | BadPrefix(prefixError: VarintError)
    | ReceiveFraming(frameError: FrameError)
    | ReceiveCore(coreError: OpError)
    | ReceiveIo(io: IoFailure)
    | TruncatedAssociation
    | StagingBelowFlowMaximum(maxMessageBytes: nat, maxStagingBytes: nat)
    | ReceiveIndexExhausted
    | UnexpectedCoreOutcome(outcome: ReceiveOutcome)
    | ReceiveTerminal

  datatype ReceiveProgress =
    | ReadBytes(bytes: nat)
    | StreamAssociated(flowId: FlowId)
    | MessagesBuffered(key: FlowKey, count: nat)
    | Draining(key: FlowKey)
    | ReceiverClosed(key: FlowKey, termination: Option<Termination>)

  /** What the stream answers to one poll; an empty read is the end of the stream. */
  datatype ReadIo = ReadPending | ReadFailed(failure: IoFailure) | ReadChunk(bytes: seq<u8>)

  // ---------------------------------------------------------------- frames into Core, as values

  datatype FrameFeed = FrameFeed(pending: seq<u8>, limits: FrameLimits, next: Option<u64>)

  datatype Delivered = Delivered(ep: Endpoint, next: Option<u64>, result: Result<nat, ReceiveError>)

  function CountMore(r: Result<nat, ReceiveError>, more: nat): Result<nat, ReceiveError> {
    match r case Ok(n) => Ok(n + more) case Err(e) => Err(e)
  }

  /** Hand consecutive messages to Core, stopping at the first that is not buffered. */
  ghost function DeliverAll(ep: Endpoint, key: FlowKey, next: Option<u64>, messages: seq<seq<u8>>): Delivered
    decreases |messages|
  {
    if messages == [] then Delivered(ep, next, Ok(0))
    else if next.None? then Delivered(ep, next, Err(ReceiveIndexExhausted))
    else
      var (after, r) := ReceivePayload(ep, key, next.value, messages[0]);
      if r.Err? then Delivered(after, next, Err(ReceiveCore(r.error)))
      else if r.value != Buffered(0) then Delivered(after, next, Err(UnexpectedCoreOutcome(r.value)))
      else
        var d := DeliverAll(after, key, Next(next.value), messages[1..]);
        Delivered(d.ep, d.next, CountMore(d.result, 1))
  }

  /** One chunk: deliver every frame it completes, then report the stream's error, if any. */
  ghost function ConsumeChunk(fr: FrameFeed, ep: Endpoint, key: FlowKey, input: seq<u8>): Delivered {
    var parsed := Parse(fr.pending + input, fr.limits);
    var d := DeliverAll(ep, key, fr.next, parsed.messages);
    if d.result.Ok? && parsed.error.Some? then d.(result := Err(ReceiveFraming(parsed.error.value))) else d
  }

  /** Delivering in two parts. */
  lemma {:induction false} DeliverSplit(ep: Endpoint, key: FlowKey, next: Option<u64>, a: seq<seq<u8>>, b: seq<seq<u8>>)
    ensures var d := DeliverAll(ep, key, next, a);
            DeliverAll(ep, key, next, a + b) ==
            if d.result.Err? then d
            else
              var e := DeliverAll(d.ep, key, d.next, b);
              Delivered(e.ep, e.next, CountMore(e.result, d.result.value))
    decreases |a|
  {
    hide ReceivePayload;
    if a == [] {
      assert a + b == b;
    } else if next.Some? {
      assert (a + b)[0] == a[0] && (a + b)[1..] == a[1..] + b;
      DeliverSplit(ReceivePayload(ep, key, next.value, a[0]).0, key, Next(next.value), a[1..], b);
    }
  }

  class InboundFrames {
    const decoder: ReliableFrameDecoder
    var next: Option<u64>

    ghost predicate Valid()
      reads this, decoder
    {
      decoder.Valid()
    }

    ghost function Value(): FrameFeed
      requires Valid()
      reads this, decoder
    {
      FrameFeed(decoder.Pending(), decoder.limits, next)
    }

    constructor (decoder: ReliableFrameDecoder)
      requires decoder.Valid()
      ensures Valid() && this.decoder == decoder && next == Some(0)
    {
      this.decoder := decoder;
      next := Some(0);
    }

    /** The loop over one chunk: decode a frame, hand its message to Core, go on with the rest. The
        binding never comes back here after a malformed stream. */
    method Consume(input: seq<u8>, endpoint: DeliveryEndpoint, key: FlowKey) returns (r: Result<nat, ReceiveError>)
      requires Valid() && endpoint.Valid() && FirstFrame(decoder.Pending(), decoder.limits).Partial?
      modifies this, decoder, endpoint
      ensures Valid() && endpoint.Valid()
      ensures var d := ConsumeChunk(old(Value()), old(endpoint.model), key, input);
              && r == d.result && endpoint.model == d.ep
              && (r.Ok? ==>
                    && Value() == FrameFeed(Parse(old(Value()).pending + input, decoder.limits).rest, decoder.limits, d.next)
                    && FirstFrame(decoder.Pending(), decoder.limits).Partial?)
    {
      hide WellFormed, ReceivePayload, FirstFrame, DeliverAll, Parse;
      ghost var lim := decoder.limits;
      ghost var parsed := Parse(decoder.Pending() + input, lim);
      ghost var first, start := next, endpoint.model;
      ghost var done: seq<seq<u8>> := [];
      var offset, messages := 0, 0;
      DeliverNothing(start, key, first);
      ParsedNothing(parsed);
      assert input[0..] == input;
      while offset < |input|
        invariant Valid() && endpoint.Valid() && offset <= |input| && messages == |done|
        invariant DeliverAll(start, key, first, done) == Delivered(endpoint.model, next, Ok(messages))
        invariant parsed == Continue(done, Parse(decoder.Pending() + input[offset..], lim))
        invariant FirstFrame(decoder.Pending(), lim).Partial?
        decreases |input| - offset
      {
        ghost var s := decoder.Pending() + input[offset..];
        ParseStep(s, lim);
        var step := decoder.Consume(input[offset..]);
        if step.Err? {
          ContinueNothing(done, Parse(s, lim));
          return Err(ReceiveFraming(step.error));
        }
        var FrameConsume(consumed, message) := step.value;
        offset := offset + consumed;
        match message {
          case None =>
            assert decoder.Pending() + input[offset..] == s;
          case Some(payload) =>
            EmptyIsPartial(lim);
            ghost var size := FirstFrame(s, lim).size;
            ghost var rest := Parse(s[size..], lim);
            assert decoder.Pending() + input[offset..] == s[size..];
            ContinueOne(done, payload, rest);
            DeliverSplit(start, key, first, done, [payload] + rest.messages);
            DeliverSplit(start, key, first, done, [payload]);
            DeliverOne(endpoint.model, key, next, payload, rest.messages);
            if next.None? {
              return Err(ReceiveIndexExhausted);
            }
            var received := endpoint.ReceiveTransportPayload(key, next.value, payload);
            if received.Err? {
              return Err(ReceiveCore(received.error));
            }
            if received.value != Buffered(0) {
              return Err(UnexpectedCoreOutcome(received.value));
            }
            next := Next(next.value);
            messages := messages + 1;
            done := done + [payload];
        }
      }
      assert decoder.Pending() + input[offset..] == decoder.Pending();
      ParseStep(decoder.Pending(), lim);
      ContinueNothing(done, Parse(decoder.Pending(), lim));
      return Ok(messages);
    }
  }

  /** `done` messages followed by what the rest of the stream parses to. */
  function Continue(done: seq<seq<u8>>, rest: Parsed): Parsed {
    Parsed(done + rest.messages, rest.rest, rest.error)
  }

  lemma ParsedNothing(p: Parsed)
    ensures Continue([], p) == p
  {
    assert [] + p.messages == p.messages;
  }

  lemma ContinueNothing(done: seq<seq<u8>>, rest: Parsed)
    requires rest.messages == []
    ensures Continue(done, rest) == Parsed(done, rest.rest, rest.error)
  {
    assert done + [] == done;
  }

  lemma ContinueOne(done: seq<seq<u8>>, payload: seq<u8>, rest: Parsed)
    ensures Continue(done, Parsed([payload] + rest.messages, rest.rest, rest.error)) == Continue(done + [payload], rest)
    ensures Continue(done, Parsed([payload] + rest.messages, rest.rest, rest.error)).messages == done + ([payload] + rest.messages)
  {
    assert done + ([payload] + rest.messages) == (done + [payload]) + rest.messages;
  }

  lemma ParseStep(s: seq<u8>, lim: FrameLimits)
    ensures FirstFrame(s, lim).Partial? ==> Parse(s, lim) == Parsed([], s, None)
    ensures FirstFrame(s, lim).Malformed? ==> Parse(s, lim) == Parsed([], s, Some(FirstFrame(s, lim).error))
    ensures FirstFrame(s, lim).Whole? ==>
              var h, r := FirstFrame(s, lim), Parse(s[FirstFrame(s, lim).size..], lim);
              Parse(s, lim) == Parsed([h.payload] + r.messages, r.rest, r.error)
  {
  }

  lemma EmptyIsPartial(lim: FrameLimits)
    ensures FirstFrame([], lim).Partial?
  {
  }

  lemma DeliverNothing(ep: Endpoint, key: FlowKey, next: Option<u64>)
    ensures DeliverAll(ep, key, next, []) == Delivered(ep, next, Ok(0))
  {
  }

  lemma DeliverOne(ep: Endpoint, key: FlowKey, next: Option<u64>, payload: seq<u8>, tail: seq<seq<u8>>)
    ensures next.None? ==> DeliverAll(ep, key, next, [payload] + tail) == Delivered(ep, next, Err(ReceiveIndexExhausted))
    ensures next.Some? ==>
              var (after, r) := ReceivePayload(ep, key, next.value, payload);
              && (r.Err? ==> DeliverAll(ep, key, next, [payload] + tail) == Delivered(after, next, Err(ReceiveCore(r.error))))
              && (r.Ok? && r.value != Buffered(0) ==>
                    DeliverAll(ep, key, next, [payload] + tail) == Delivered(after, next, Err(UnexpectedCoreOutcome(r.value))))
              && (r == Ok(Buffered(0)) ==> DeliverAll(ep, key, next, [payload]) == Delivered(after, Next(next.value), Ok(1)))
  {
    hide ReceivePayload;
    assert ([payload] + tail)[0] == payload;
    assert [payload][1..] == [];
  }

  // ---------------------------------------------------------------- the binding, as a value

  /** `prefix` and `frames` are only meaningful while the binding is not terminal. */
  datatype Incoming = Incoming(prefix: seq<u8>, flowId: Option<FlowId>, flow: Option<RegisteredFlow>, frames: Option<FrameFeed>,
                               failure: Option<Termination>, draining: bool, terminal: bool, maxStaging: nonzero)

  function NewIncoming(maxStaging: nonzero): Incoming {
    Incoming([], None, None, None, None, false, false, maxStaging)
  }

  predicate IncomingOk(b: Incoming) {
    !b.terminal ==>
      && (b.flow.Some? <==> b.frames.Some?) && (b.flow.Some? ==> b.flowId.Some?)
      && (b.frames.Some? ==> FirstFrame(b.frames.value.pending, b.frames.value.limits).Partial?)
      && (b.draining ==> b.flow.Some?)
  }

  datatype ReceiveStep = ReceiveStep(binding: Incoming, ep: Endpoint, reg: Flows, result: Poll<Result<ReceiveProgress, ReceiveError>>)

  function Ended(b: Incoming): Incoming {
    b.(terminal := true, prefix := [], frames := None)
  }

  function Without(reg: Flows, id: Option<FlowId>): Flows {
    match id case None => reg case Some(v) => reg - {v}
  }

  ghost function FailReceive(b: Incoming, ep: Endpoint, reg: Flows, error: ReceiveError): ReceiveStep {
    match b.flow
    case None => ReceiveStep(Ended(b), ep, Without(reg, b.flowId), Ready(Err(error)))
    case Some(flow) =>
      var (after, r) := FailCustody(ep, flow.key);
      ReceiveStep(Ended(b.(failure := match r case Ok(t) => Some(t) case Err(_) => None)), after, Without(reg, b.flowId), Ready(Err(error)))
  }

  ghost function Drain(b: Incoming, ep: Endpoint, reg: Flows): ReceiveStep
    requires b.flow.Some?
  {
    var key := b.flow.value.key;
    if key !in ep.flows then ReceiveStep(Ended(b), ep, Without(reg, b.flowId), Ready(Ok(ReceiverClosed(key, None))))
    else if Held(ep.flows[key]).messages == 0 && Held(ep.flows[key]).bytes == 0 then
      var (after, r) := Terminate(ep, key, Requested);
      ReceiveStep(Ended(b), after, Without(reg, b.flowId), Ready(Ok(ReceiverClosed(key, Some(r.value)))))
    else ReceiveStep(b, ep, reg, Ready(Ok(Draining(key))))
  }

  ghost function FeedChunk(b: Incoming, ep: Endpoint, reg: Flows, input: seq<u8>, read: nat): ReceiveStep
    requires b.flow.Some? && b.frames.Some?
  {
    var key := b.flow.value.key;
    var fr := b.frames.value;
    var d := ConsumeChunk(fr, ep, key, input);
    match d.result
    case Err(e) => FailReceive(b, d.ep, reg, e)
    case Ok(n) =>
      var fed := b.(frames := Some(FrameFeed(Parse(fr.pending + input, fr.limits).rest, fr.limits, d.next)));
      ReceiveStep(fed, d.ep, reg, Ready(Ok(if n == 0 then ReadBytes(read) else MessagesBuffered(key, n))))
  }

  /** A complete prefix claims its registered flow; whatever follows it in the chunk is frame data. */
  ghost function AssociateChunk(b: Incoming, ep: Endpoint, reg: Flows, id: FlowId, rest: seq<u8>, read: nat): ReceiveStep {
    match Bind(reg, id, Inbound)
    case Err(e) => ReceiveStep(Ended(b), ep, reg, Ready(Err(ReceiveRegistry(e))))
    case Ok(bound) =>
      if id !in bound then ReceiveStep(Ended(b), ep, reg, Ready(Err(ReceiveTerminal)))
      else
        var flow := bound[id];
        var known := b.(flowId := Some(id), flow := Some(flow), prefix := []);
        var lim := FrameLimits(flow.maxMessageBytes, b.maxStaging);
        if b.maxStaging < flow.maxMessageBytes then FailReceive(known, ep, bound, StagingBelowFlowMaximum(flow.maxMessageBytes, b.maxStaging))
        else if !lim.Valid() then FailReceive(known, ep, bound, ReceiveFraming(LengthOutOfProfileRange))
        else
          var open := known.(frames := Some(FrameFeed([], lim, Some(0))));
          if rest == [] then ReceiveStep(open, ep, bound, Ready(Ok(StreamAssociated(id)))) else FeedChunk(open, ep, bound, rest, read)
  }

  ghost function PollPrefix(b: Incoming, ep: Endpoint, reg: Flows, input: seq<u8>): ReceiveStep {
    var whole := b.prefix + input;
    match DecodeVarint(whole)
    case Err(NonMinimal) => ReceiveStep(Ended(b), ep, reg, Ready(Err(BadPrefix(NonMinimal))))
    case Err(Incomplete(_, _)) => ReceiveStep(b.(prefix := whole), ep, reg, Ready(Ok(ReadBytes(|input|))))
    case Ok((id, n)) => AssociateChunk(b, ep, reg, id, whole[n..], |input|)
  }

  ghost function PollEnd(b: Incoming, ep: Endpoint, reg: Flows): ReceiveStep {
    if b.flow.None? || b.frames.None? then ReceiveStep(Ended(b), ep, reg, Ready(Err(TruncatedAssociation)))
    else if b.frames.value.pending != [] then FailReceive(b, ep, reg, ReceiveFraming(TruncatedFrame))
    else Drain(b.(draining := true), ep, reg)
  }

  ghost function PollReceive(b: Incoming, ep: Endpoint, reg: Flows, io: ReadIo): ReceiveStep
    requires IncomingOk(b)
  {
    if b.terminal then ReceiveStep(b, ep, reg, Ready(Err(ReceiveTerminal)))
    else if b.draining then Drain(b, ep, reg)
    else match io
      case ReadPending => ReceiveStep(b, ep, reg, Pending)
      case ReadFailed(ConnectionLost) => ReceiveStep(Ended(b), ep, reg, Ready(Err(ReceiveIo(ConnectionLost))))
      case ReadFailed(failure) => FailReceive(b, ep, reg, ReceiveIo(failure))
      case ReadChunk(bytes) =>
        if bytes == [] then PollEnd(b, ep, reg)
        else if b.flow.None? then PollPrefix(b, ep, reg, bytes)
        else FeedChunk(b, ep, reg, bytes, |bytes|)
  }

  // ---------------------------------------------------------------- the binding, in place

  class InboundReliable {
    const maxStaging: nonzero
    const prefix: FlowIdPrefix
    var flowId: Option<FlowId>
    var flow: Option<RegisteredFlow>
    var frames: InboundFrames?
    var failure: Option<Termination>
    var draining: bool
    var terminal: bool

    ghost function Parts(): set<object>
      reads this, frames
    {
      if frames == null then {this, prefix} else {this, prefix, frames, frames.decoder}
    }

    ghost predicate Valid()
      reads this, prefix, frames, if frames == null then {} else {frames.decoder}
    {
      && prefix.Valid() && (frames != null ==> frames.Valid()) && IncomingOk(Value())
    }

    ghost function Value(): Incoming
      requires prefix.Valid() && (frames != null ==> frames.Valid())
      reads this, prefix, frames, if frames == null then {} else {frames.decoder}
    {
      if terminal then Incoming([], flowId, flow, None, failure, draining, true, maxStaging)
      else Incoming(if flow.None? then prefix.Pending() else [], flowId, flow,
                    if frames == null then None else Some(frames.Value()), failure, draining, false, maxStaging)
    }

    /** Equal up to the prefix and frame state, which a failure discards. */
    ghost predicate SameBinding(b: Incoming, id: Option<FlowId>, flow: Option<RegisteredFlow>, failure: Option<Termination>, draining: bool) {
      b.flowId == id && b.flow == flow && b.failure == failure && b.draining == draining && b.maxStaging == maxStaging
    }

    constructor (maxStaging: nonzero)
      ensures Valid() && fresh(Parts()) && Value() == NewIncoming(maxStaging)
    {
      this.maxStaging := maxStaging;
      prefix := new FlowIdPrefix();
      flowId, flow, frames, failure := None, None, null, None;
      draining, terminal := false, false;
    }

    /** Give up what the binding holds: Core custody and the registry entry. */
    method GiveUp(endpoint: DeliveryEndpoint, registry: AcceptedFlowRegistry)
      requires endpoint.Valid()
      modifies this`failure, endpoint, registry
      ensures endpoint.Valid() && registry.flows == Without(old(registry.flows), flowId)
      ensures match flow
              case None => endpoint.model == old(endpoint.model) && failure == old(failure)
              case Some(f) =>
                && endpoint.model == FailCustody(old(endpoint.model), f.key).0
                && failure == match FailCustody(old(endpoint.model), f.key).1 case Ok(t) => Some(t) case Err(_) => None
    {
      hide WellFormed, FailCustody, Terminate;
      if flow.Some? {
        var t := endpoint.FailReliableCustody(flow.value.key);
        failure := match t case Ok(value) => Some(value) case Err(_) => None;
      }
      if flowId.Some? {
        registry.Release(flowId.value);
      }
    }

    method Fail(endpoint: DeliveryEndpoint, registry: AcceptedFlowRegistry, error: ReceiveError)
      returns (r: Poll<Result<ReceiveProgress, ReceiveError>>)
      requires endpoint.Valid() && !terminal && prefix.Valid() && (frames != null ==> frames.Valid())
      modifies this, endpoint, registry
      ensures endpoint.Valid() && Valid() && frames == old(frames)
      ensures forall b: Incoming | SameBinding(b, old(flowId), old(flow), old(failure), old(draining)) ::
                ReceiveStep(Value(), endpoint.model, registry.flows, r) == FailReceive(b, old(endpoint.model), old(registry.flows), error)
    {
      hide WellFormed, FailCustody, Terminate, FirstFrame, Parse;
      GiveUp(endpoint, registry);
      terminal := true;
      return Ready(Err(error));
    }

    method StepDrain(endpoint: DeliveryEndpoint, registry: AcceptedFlowRegistry) returns (r: Poll<Result<ReceiveProgress, ReceiveError>>)
      requires Valid() && endpoint.Valid() && !terminal && flow.Some?
      modifies this, endpoint, registry
      ensures endpoint.Valid() && Valid() && frames == old(frames)
      ensures ReceiveStep(Value(), endpoint.model, registry.flows, r) == Drain(old(Value()), old(endpoint.model), old(registry.flows))
    {
      hide WellFormed, Held, Populated;
      var key := flow.value.key;
      var usage := endpoint.FlowPendingUsage(key);
      match usage {
        case None =>
          if flowId.Some? {
            registry.Release(flowId.value);
          }
          terminal := true;
          return Ready(Ok(ReceiverClosed(key, None)));
        case Some((messages, bytes)) =>
          if messages != 0 || bytes != 0 {
            return Ready(Ok(Draining(key)));
          }
          var terminated := endpoint.TerminateFlow(key, Requested);
          if flowId.Some? {
            registry.Release(flowId.value);
          }
          terminal := true;
          return Ready(Ok(ReceiverClosed(key, Some(terminated.value))));
      }
    }

    method StepFeed(endpoint: DeliveryEndpoint, registry: AcceptedFlowRegistry, input: seq<u8>, read: nat)
      returns (r: Poll<Result<ReceiveProgress, ReceiveError>>)
      requires Valid() && endpoint.Valid() && !terminal && flow.Some?
      modifies Parts(), endpoint, registry
      ensures endpoint.Valid() && Valid() && frames == old(frames)
      ensures ReceiveStep(Value(), endpoint.model, registry.flows, r)
           == FeedChunk(old(Value()), old(endpoint.model), old(registry.flows), input, read)
    {
      hide WellFormed, ConsumeChunk, FailReceive, FirstFrame, Parse;
      ghost var before := Value();
      var consumed := frames.Consume(input, endpoint, flow.value.key);
      match consumed {
        case Err(e) => r := Fail(endpoint, registry, e);
        case Ok(n) => r := Ready(Ok(if n == 0 then ReadBytes(read) else MessagesBuffered(flow.value.key, n)));
      }
    }

    method StepAssociate(endpoint: DeliveryEndpoint, registry: AcceptedFlowRegistry, id: FlowId, rest: seq<u8>, read: nat, ghost before: Incoming)
      returns (r: Poll<Result<ReceiveProgress, ReceiveError>>)
      requires prefix.Valid() && endpoint.Valid() && !terminal && !draining && flow.None? && frames == null
      requires before == Incoming(before.prefix, flowId, flow, None, failure, draining, false, maxStaging)
      modifies Parts(), endpoint, registry
      ensures endpoint.Valid() && Valid() && (frames == null || (fresh(frames) && fresh(frames.decoder)))
      ensures ReceiveStep(Value(), endpoint.model, registry.flows, r)
           == AssociateChunk(before, old(endpoint.model), old(registry.flows), id, rest, read)
    {
      hide WellFormed, FeedChunk, FailReceive;
      var bound := registry.AssociateStream(id, Inbound);
      match bound {
        case Err(e) =>
          terminal := true;
          return Ready(Err(ReceiveRegistry(e)));
        case Ok(found) =>
          flowId := Some(id);
          flow := Some(found);
          if maxStaging < found.maxMessageBytes {
            r := Fail(endpoint, registry, StagingBelowFlowMaximum(found.maxMessageBytes, maxStaging));
            return;
          }
          var created := ReliableFrameDecoder.Create(found.maxMessageBytes, maxStaging);
          match created {
            case Err(e) => r := Fail(endpoint, registry, ReceiveFraming(e));
            case Ok(decoder) =>
              frames := new InboundFrames(decoder);
              EmptyIsPartial(decoder.limits);
              if rest == [] {
                return Ready(Ok(StreamAssociated(id)));
              }
              r := StepFeed(endpoint, registry, rest, read);
          }
      }
    }

    method PollStep(endpoint: DeliveryEndpoint, registry: AcceptedFlowRegistry, io: ReadIo)
      returns (r: Poll<Result<ReceiveProgress, ReceiveError>>)
      requires Valid() && endpoint.Valid()
      modifies Parts(), endpoint, registry
      ensures endpoint.Valid() && Valid() && (frames == old(frames) || (frames != null && fresh(frames) && fresh(frames.decoder)))
      ensures ReceiveStep(Value(), endpoint.model, registry.flows, r)
           == PollReceive(old(Value()), old(endpoint.model), old(registry.flows), io)
    {
      hide WellFormed, FailReceive, Drain, FeedChunk, AssociateChunk, FirstFrame;
      if terminal {
        return Ready(Err(ReceiveTerminal));
      }
      if draining {
        r := StepDrain(endpoint, registry);
        return;
      }
      match io {
        case ReadPending => return Pending;
        case ReadFailed(ConnectionLost) =>
          terminal := true;
          return Ready(Err(ReceiveIo(ConnectionLost)));
        case ReadFailed(failure) => r := Fail(endpoint, registry, ReceiveIo(failure));
        case ReadChunk(bytes) =>
          if bytes == [] {
            r := StepEnd(endpoint, registry);
          } else if flow.None? {
            r := StepPrefix(endpoint, registry, bytes);
          } else {
            r := StepFeed(endpoint, registry, bytes, |bytes|);
          }
      }
    }

    method StepEnd(endpoint: DeliveryEndpoint, registry: AcceptedFlowRegistry) returns (r: Poll<Result<ReceiveProgress, ReceiveError>>)
      requires Valid() && endpoint.Valid() && !terminal
      modifies this, endpoint, registry
      ensures endpoint.Valid() && Valid() && frames == old(frames)
      ensures ReceiveStep(Value(), endpoint.model, registry.flows, r) == PollEnd(old(Value()), old(endpoint.model), old(registry.flows))
    {
      hide WellFormed, FailReceive, Drain, FirstFrame;
      if flow.None? {
        terminal := true;
        return Ready(Err(TruncatedAssociation));
      }
      var finished := frames.decoder.Finish();
      if finished.Err? {
        r := Fail(endpoint, registry, ReceiveFraming(finished.error));
        return;
      }
      draining := true;
      r := StepDrain(endpoint, registry);
    }

    method StepPrefix(endpoint: DeliveryEndpoint, registry: AcceptedFlowRegistry, input: seq<u8>)
      returns (r: Poll<Result<ReceiveProgress, ReceiveError>>)
      requires Valid() && endpoint.Valid() && !terminal && !draining && flow.None?
      modifies Parts(), endpoint, registry
      ensures endpoint.Valid() && Valid() && (frames == old(frames) || (frames != null && fresh(frames) && fresh(frames.decoder)))
      ensures ReceiveStep(Value(), endpoint.model, registry.flows, r)
           == PollPrefix(old(Value()), old(endpoint.model), old(registry.flows), input)
    {
      hide WellFormed, AssociateChunk, DecodeVarint, FirstFrame;
      ghost var before := Value();
      ghost var whole := prefix.Pending() + input;
      var step := prefix.Consume(input);
      match step {
        case Err(e) =>
          terminal := true;
          return Ready(Err(BadPrefix(e)));
        case Ok(PrefixConsume(consumed, None)) => return Ready(Ok(ReadBytes(|input|)));
        case Ok(PrefixConsume(consumed, Some(id))) =>
          assert whole[|before.prefix| + consumed..] == input[consumed..];
          r := StepAssociate(endpoint, registry, id, input[consumed..], |input|, before);
      }
    }
  }
}
