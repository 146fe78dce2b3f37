/** One unreliable flow between two endpoints over a network that may lose, repeat and reorder every
    datagram. */
module DatagramRun {
  import opened Basics
  import opened Wire
  import opened Delivery
  import opened Core
  import opened CoreInvariant
  import opened CoreHistory
  import opened CoreReceiver
  import opened Registry
  import opened Envelope
  import opened Datagrams

  /** The flow watched: its FlowId, its keys at the two ends, and its mode. */
  datatype Watched = Watched(id: FlowId, from: FlowKey, to: FlowKey, mode: Mode)

  /** Both registries and endpoints, every datagram ever handed to the network, and the flow's life at
      each end. */
  datatype Net = Net(sending: Flows, s: Endpoint, receiving: Flows, r: Endpoint, wire: set<seq<u8>>, out: OutboundLife, inn: InboundLife)

  datatype NetAct =
    | Submits(id: FlowId, payload: seq<u8>, maxSize: Option<nat>)
    | Drives(id: FlowId, tx: Transport)
    | Delivers(datagram: seq<u8>)
    | SenderActs(op: Op)
    | ReceiverActs(op: Op)

  /** The host neither ends nor establishes the watched flow anew, and commits and feeds it only through
      the adapter. */
  predicate Allowed(w: Watched, n: Net, act: NetAct) {
    match act
    case Delivers(d) => d in n.wire
    case SenderActs(op) => op.key == w.from ==> op.DoSubmit? || op.DoAssociate?
    case ReceiverActs(op) => op.key == w.to ==> op.DoExpose? || op.DoAssociate?
    case _ => true
  }

  /** The Core operation a received datagram amounts to. */
  function ArrivalOp(reg: Flows, datagram: seq<u8>): Option<Op> {
    match DecodeVarint(datagram)
    case Err(_) => None
    case Ok((id, _)) =>
      if id !in reg || !reg[id].key.direction.Inbound? || reg[id].mode.ReliableOrdered? then None
      else match DecodeEnvelope(datagram, reg[id].mode)
        case Err(_) => None
        case Ok((_, sequence, payload)) =>
          if |payload| > reg[id].maxMessageBytes then None
          else Some(DoReceivePayload(reg[id].key, if sequence.Some? then sequence.value else 0, payload))
  }

  lemma ArrivalIsOneOp(reg: Flows, ep: Endpoint, datagram: seq<u8>)
    ensures ReceiveDatagram(reg, ep, datagram).0 ==
            if ArrivalOp(reg, datagram).Some? then Apply(ep, ArrivalOp(reg, datagram).value) else ep
  {
    hide DecodeVarint, DecodeEnvelope, ReceivePayload;
  }

  /** The Core operation a submission or a drive amounts to. */
  ghost function SendingOp(n: Net, act: NetAct): Option<Op>
    requires act.Submits? || act.Drives?
  {
    if act.id !in n.sending then None
    else match act
      case Submits(id, payload, maxSize) =>
        if SubmitDatagram(n.sending, n.s, id, payload, maxSize).0 == n.s then None else Some(DoSubmit(n.sending[id].key, payload))
      case Drives(id, tx) =>
        var d := DriveOne(n.sending, n.s, id, tx);
        if d.result.Ok? && (d.result.value.Enqueued? || d.result.value.DroppedTransport?) then Some(DoCommit(n.sending[id].key, d.result.value.index))
        else None
  }

  ghost function SenderDoes(w: Watched, n: Net, op: Option<Op>): Net {
    if op.None? then n else n.(s := Apply(n.s, op.value), out := TrackOutbound(n.out, n.s, op.value, w.from))
  }

  ghost function ReceiverDoes(w: Watched, n: Net, op: Option<Op>): Net {
    if op.None? then n else n.(r := Apply(n.r, op.value), inn := TrackInbound(n.inn, n.r, op.value, w.to))
  }

  ghost function NetStep(w: Watched, n: Net, act: NetAct): Net {
    match act
    case Submits(_, _, _) => SenderDoes(w, n, SendingOp(n, act))
    case Drives(id, tx) =>
      var handed := DriveOne(n.sending, n.s, id, tx).handed;
      SenderDoes(w, n, SendingOp(n, act)).(wire := if handed.Some? then n.wire + {handed.value} else n.wire)
    case Delivers(d) => ReceiverDoes(w, n, ArrivalOp(n.receiving, d))
    case SenderActs(op) => SenderDoes(w, n, Some(op))
    case ReceiverActs(op) => ReceiverDoes(w, n, Some(op))
  }

  /** The Core effect of every act is the adapter's own. */
  lemma StepIsTheAdapter(w: Watched, n: Net, act: NetAct)
    ensures match act
            case Submits(id, payload, maxSize) => NetStep(w, n, act).s == SubmitDatagram(n.sending, n.s, id, payload, maxSize).0
            case Drives(id, tx) => NetStep(w, n, act).s == DriveOne(n.sending, n.s, id, tx).ep
            case Delivers(d) => NetStep(w, n, act).r == ReceiveDatagram(n.receiving, n.r, d).0
            case _ => true
  {
    hide SubmitDatagram, DriveOne, ReceiveDatagram, Submit, Commit, ArrivalOp;
    match act
    case Submits(id, payload, maxSize) => SubmissionOutcomes(n.sending, n.s, id, payload, maxSize);
    case Drives(id, tx) => DriveOutcomes(n.sending, n.s, id, tx);
    case Delivers(d) => ArrivalIsOneOp(n.receiving, n.r, d);
    case _ =>
  }

  // ---------------------------------------------------------------- the invariant

  ghost predicate Placed(reg: Flows, ep: Endpoint, id: FlowId, key: FlowKey, mode: Mode) {
    && WellFormed(ep) && id in reg && reg[id].key == key && reg[id].mode == mode
    && key in ep.flows && ep.flows[key].mode == mode
    && forall other :: other in reg && reg[other].key == key ==> other == id
  }

  /** The message was accepted by the sender; a sequenced one under this very index. */
  predicate WasAccepted(w: Watched, out: OutboundLife, index: u64, payload: seq<u8>) {
    if w.mode.UnreliableSequenced? then index < |out.accepted| && out.accepted[index].payload == payload
    else exists i :: 0 <= i < |out.accepted| && out.accepted[i].payload == payload
  }

  ghost predicate AcceptedAll(w: Watched, out: OutboundLife) {
    forall i :: 0 <= i < |out.accepted| ==> out.accepted[i].mode == w.mode
  }

  /** A datagram of the watched flow decodes to an accepted message. */
  ghost predicate Genuine(w: Watched, out: OutboundLife, datagram: seq<u8>) {
    DecodeVarint(datagram).Ok? && DecodeVarint(datagram).value.0 == w.id ==>
      && DecodeEnvelope(datagram, w.mode).Ok?
      && var e := DecodeEnvelope(datagram, w.mode).value;
         WasAccepted(w, out, if e.1.Some? then e.1.value else 0, e.2)
  }

  ghost predicate ReceivedGenuine(w: Watched, n: Net) {
    forall t :: t in n.inn.received ==> WasAccepted(w, n.out, t.index, t.payload)
  }

  ghost predicate NetInv(w: Watched, n: Net) {
    && !w.mode.ReliableOrdered? && w.from.direction.Outbound? && w.to.direction.Inbound?
    && Placed(n.sending, n.s, w.id, w.from, w.mode) && Placed(n.receiving, n.r, w.id, w.to, w.mode)
    && Conserved(n.out, n.s, w.from) && AcceptedAll(w, n.out)
    && Faithful(n.inn, n.r, w.to) && n.inn.mode == w.mode
    && (forall d :: d in n.wire ==> Genuine(w, n.out, d))
    && ReceivedGenuine(w, n)
  }

  // ---------------------------------------------------------------- the sending side

  /** Acceptances only accumulate. */
  lemma AcceptedGrows(w: Watched, n: Net, op: Op)
    requires w.from in n.s.flows && n.s.flows[w.from].mode == w.mode && AcceptedAll(w, n.out)
    ensures var out := TrackOutbound(n.out, n.s, op, w.from);
            n.out.accepted <= out.accepted && AcceptedAll(w, out)
  {
    hide Apply, Submit, Commit;
  }

  lemma AcceptedStays(w: Watched, out: OutboundLife, more: OutboundLife, index: u64, payload: seq<u8>)
    requires out.accepted <= more.accepted && WasAccepted(w, out, index, payload)
    ensures WasAccepted(w, more, index, payload)
  {
    if !w.mode.UnreliableSequenced? {
      var i :| 0 <= i < |out.accepted| && out.accepted[i].payload == payload;
      assert more.accepted[i].payload == payload;
    }
  }

  lemma PlacedStays(reg: Flows, ep: Endpoint, id: FlowId, key: FlowKey, mode: Mode, op: Op)
    requires Placed(reg, ep, id, key, mode)
    requires op.key == key ==> !op.DoTerminate? && !op.DoFailCustody? && !op.DoReceive? && (op.DoReceivePayload? ==> !mode.ReliableOrdered?)
    ensures Placed(reg, Apply(ep, op), id, key, mode)
  {
    hide WellFormed;
    ApplyKeeps(ep, op);
    hide Apply;
    if op.key != key {
      OtherKeysUntouched(ep, op, key);
    } else {
      OwnOpKeepsFlow(ep, op);
    }
  }

  lemma OwnOpKeepsFlow(ep: Endpoint, op: Op)
    requires op.key in ep.flows && !op.DoTerminate? && !op.DoFailCustody? && !op.DoReceive? && WellFormed(ep)
    requires op.DoReceivePayload? ==> !ep.flows[op.key].mode.ReliableOrdered?
    ensures op.key in Apply(ep, op).flows && Apply(ep, op).flows[op.key].mode == ep.flows[op.key].mode
  {
    hide WellFormed, Submit, Commit, Receive, Expose, HasRoom, Held, EvictionCount;
    match op
    case DoSubmit(key, payload) =>
      if key.direction.Outbound? {
        SubmitConsumes(ep, key, payload);
      } else {
        InboundNeverSubmits(ep, op);
      }
    case DoCommit(key, index) => CommitKeepsFlow(ep, key, index);
    case DoReceivePayload(key, index, payload) =>
      if key.direction.Inbound? {
        UnreliableArrival(ep, key, Transfer(ep.flows[key].mode, index, payload));
      }
    case DoExpose(key) => ExposeKeepsFlow(ep, key);
    case _ =>
  }

  lemma CommitKeepsFlow(ep: Endpoint, key: FlowKey, index: u64)
    requires key in ep.flows
    ensures key in Commit(ep, key, index).0.flows && Commit(ep, key, index).0.flows[key].mode == ep.flows[key].mode
  {
    hide Held, Load;
  }

  lemma ExposeKeepsFlow(ep: Endpoint, key: FlowKey)
    requires key in ep.flows
    ensures key in Expose(ep, key).0.flows && Expose(ep, key).0.flows[key].mode == ep.flows[key].mode
  {
    hide Held, Load;
  }

  /** Any Core operation of the sender that the flow's owner allows. */
  lemma SenderKeeps(w: Watched, n: Net, op: Op)
    requires NetInv(w, n) && (op.key == w.from ==> !op.DoTerminate? && !op.DoFailCustody? && !op.DoReceive? && !op.DoReceivePayload?)
    ensures NetInv(w, SenderDoes(w, n, Some(op))) && n.out.accepted <= SenderDoes(w, n, Some(op)).out.accepted
  {
    hide WellFormed, Faithful, Apply, DecodeVarint, DecodeEnvelope, WasAccepted, Conserved, TrackOutbound;
    var out := TrackOutbound(n.out, n.s, op, w.from);
    PlacedStays(n.sending, n.s, w.id, w.from, w.mode, op);
    TrackConserves(n.out, n.s, op, w.from);
    AcceptedGrows(w, n, op);
    forall index: u64, payload | WasAccepted(w, n.out, index, payload) ensures WasAccepted(w, out, index, payload) {
      AcceptedStays(w, n.out, out, index, payload);
    }
  }

  /** A datagram handed over for the watched flow carries an accepted message. */
  lemma HandedIsGenuine(w: Watched, n: Net, id: FlowId, tx: Transport)
    requires NetInv(w, n) && DriveOne(n.sending, n.s, id, tx).handed.Some?
    ensures Genuine(w, n.out, DriveOne(n.sending, n.s, id, tx).handed.value)
  {
    hide WellFormed, Faithful, DriveOne, Commit, EncodeDatagram, DecodeVarint, DecodeEnvelope;
    DriveOutcomes(n.sending, n.s, id, tx);
    var d := DriveOne(n.sending, n.s, id, tx).handed.value;
    var flow := n.sending[id];
    var t := n.s.flows[flow.key].outbound[0];
    EncodedEnvelope(d, id, flow.mode, SequenceFor(flow.mode, t), t.payload);
    PrefixIsId(d, flow.mode, id);
    if id == w.id {
      FrontWasAccepted(w, n);
    }
  }

  lemma PrefixIsId(d: seq<u8>, mode: Mode, id: FlowId)
    requires DecodeEnvelope(d, mode).Ok? && DecodeEnvelope(d, mode).value.0 == id
    ensures DecodeVarint(d).Ok? && DecodeVarint(d).value.0 == id
  {
    hide DecodeVarint;
  }

  lemma FrontWasAccepted(w: Watched, n: Net)
    requires Conserved(n.out, n.s, w.from) && w.from in n.s.flows && n.s.flows[w.from].outbound != []
    ensures var t := n.s.flows[w.from].outbound[0];
            WasAccepted(w, n.out, if w.mode.UnreliableSequenced? then t.index else 0, t.payload)
  {
    var i := |n.out.departed|;
    assert n.out.accepted[i] == n.s.flows[w.from].outbound[0];
  }

  lemma SendingKeeps(w: Watched, n: Net, act: NetAct)
    requires NetInv(w, n) && (act.Submits? || act.Drives?)
    ensures NetInv(w, NetStep(w, n, act))
  {
    hide NetInv, DriveOne, SubmitDatagram, SenderDoes, Genuine;
    var op := SendingOp(n, act);
    var moved := SenderDoes(w, n, op);
    if op.Some? {
      SenderKeeps(w, n, op.value);
      OnlyLifeMoves(w, n, op.value);
    } else {
      NoMove(w, n);
    }
    if act.Drives? && DriveOne(n.sending, n.s, act.id, act.tx).handed.Some? {
      HandedIsGenuine(w, n, act.id, act.tx);
      var d := DriveOne(n.sending, n.s, act.id, act.tx).handed.value;
      GenuineStays(w, n.out, moved.out, d);
      WireGrows(w, moved, d);
    }
  }

  lemma NoMove(w: Watched, n: Net)
    ensures SenderDoes(w, n, None) == n
  {
  }

  lemma OnlyLifeMoves(w: Watched, n: Net, op: Op)
    ensures SenderDoes(w, n, Some(op)).wire == n.wire
  {
  }

  lemma GenuineStays(w: Watched, out: OutboundLife, more: OutboundLife, d: seq<u8>)
    requires Genuine(w, out, d) && out.accepted <= more.accepted
    ensures Genuine(w, more, d)
  {
    hide DecodeVarint, DecodeEnvelope, WasAccepted;
    if DecodeVarint(d).Ok? && DecodeVarint(d).value.0 == w.id {
      var e := DecodeEnvelope(d, w.mode).value;
      AcceptedStays(w, out, more, if e.1.Some? then e.1.value else 0, e.2);
    }
  }

  lemma WireGrows(w: Watched, n: Net, d: seq<u8>)
    requires NetInv(w, n) && Genuine(w, n.out, d)
    ensures NetInv(w, n.(wire := n.wire + {d}))
  {
    hide Placed, Conserved, AcceptedAll, Faithful, Genuine, WasAccepted;
  }

  // ---------------------------------------------------------------- the receiving side

  /** Any Core operation of the receiver that the flow's owner allows. */
  lemma ReceiverKeeps(w: Watched, n: Net, op: Op)
    requires NetInv(w, n) && (op.key == w.to ==> !op.DoTerminate? && !op.DoFailCustody? && !op.DoReceive?)
    requires op.key == w.to && op.DoReceivePayload? ==> WasAccepted(w, n.out, op.index, op.payload)
    ensures NetInv(w, ReceiverDoes(w, n, Some(op)))
  {
    hide WellFormed, Faithful, Apply, Genuine, WasAccepted, Conserved, AcceptedAll, TrackInbound;
    PlacedStays(n.receiving, n.r, w.id, w.to, w.mode, op);
    TrackFaithful(n.inn, n.r, op, w.to);
    LifeArrivals(w, n, op);
  }

  lemma LifeArrivals(w: Watched, n: Net, op: Op)
    requires w.to in n.r.flows && (op.key == w.to ==> !op.DoReceive?)
    ensures var inn := TrackInbound(n.inn, n.r, op, w.to);
            && inn.mode == n.inn.mode
            && forall t :: t in inn.received ==>
                 t in n.inn.received || (op.key == w.to && op.DoReceivePayload? && t.index == op.index && t.payload == op.payload)
  {
    hide Expose, Apply;
  }

  lemma DeliveryKeeps(w: Watched, n: Net, d: seq<u8>)
    requires NetInv(w, n) && d in n.wire
    ensures NetInv(w, ReceiverDoes(w, n, ArrivalOp(n.receiving, d)))
  {
    var op := ArrivalOp(n.receiving, d);
    if op.Some? {
      if op.value.key == w.to {
        assert Genuine(w, n.out, d);
        ArrivalOfWatched(w, n.receiving, d);
      }
      hide NetInv, Apply;
      ReceiverKeeps(w, n, op.value);
    }
  }

  lemma ArrivalOfWatched(w: Watched, reg: Flows, d: seq<u8>)
    requires w.id in reg && reg[w.id].key == w.to && reg[w.id].mode == w.mode
    requires forall other :: other in reg && reg[other].key == w.to ==> other == w.id
    requires ArrivalOp(reg, d).Some? && ArrivalOp(reg, d).value.key == w.to
    ensures DecodeVarint(d).Ok? && DecodeVarint(d).value.0 == w.id && DecodeEnvelope(d, w.mode).Ok?
    ensures var e := DecodeEnvelope(d, w.mode).value;
            var op := ArrivalOp(reg, d).value;
            op.DoReceivePayload? && op.index == (if e.1.Some? then e.1.value else 0) && op.payload == e.2
  {
    hide DecodeVarint, DecodeEnvelope;
  }

  lemma NetStepKeeps(w: Watched, n: Net, act: NetAct)
    requires NetInv(w, n) && Allowed(w, n, act)
    ensures NetInv(w, NetStep(w, n, act))
  {
    hide NetInv, SenderDoes, ReceiverDoes;
    match act
    case Submits(_, _, _) => SendingKeeps(w, n, act);
    case Drives(_, _) => SendingKeeps(w, n, act);
    case Delivers(d) => DeliveryKeeps(w, n, d);
    case SenderActs(op) => SenderKeeps(w, n, op);
    case ReceiverActs(op) => ReceiverKeeps(w, n, op);
  }

  // ---------------------------------------------------------------- every run

  ghost predicate NetRun(w: Watched, n: Net, acts: seq<NetAct>, last: Net)
    decreases |acts|
  {
    if acts == [] then n == last else Allowed(w, n, acts[0]) && NetRun(w, NetStep(w, n, acts[0]), acts[1..], last)
  }

  /** The flow was just established at both ends and nothing of its FlowId is in the network. */
  ghost predicate JustOpened(w: Watched, n: Net) {
    && !w.mode.ReliableOrdered? && w.from.direction.Outbound? && w.to.direction.Inbound?
    && Placed(n.sending, n.s, w.id, w.from, w.mode) && Placed(n.receiving, n.r, w.id, w.to, w.mode)
    && n.s.flows[w.from] == NewFlow(w.mode, n.s.flows[w.from].policy) && n.r.flows[w.to] == NewFlow(w.mode, n.r.flows[w.to].policy)
    && n.out == OutboundLife([], []) && n.inn == NoLife.(mode := w.mode)
    && (forall d :: d in n.wire ==> DecodeVarint(d).Err? || DecodeVarint(d).value.0 != w.id)
  }

  lemma JustOpenedHolds(w: Watched, n: Net)
    requires JustOpened(w, n)
    ensures NetInv(w, n)
  {
    hide WellFormed, DecodeVarint;
  }

  lemma {:induction false} NetRunKeeps(w: Watched, n: Net, acts: seq<NetAct>, last: Net)
    requires NetInv(w, n) && NetRun(w, n, acts, last)
    ensures NetInv(w, last)
    decreases |acts|
  {
    hide NetInv, NetStep, Allowed;
    if acts != [] {
      NetStepKeeps(w, n, acts[0]);
      NetRunKeeps(w, NetStep(w, n, acts[0]), acts[1..], last);
    }
  }

  /** Whatever the network loses, repeats or reorders: every exposed message was accepted by the sender,
      and on a sequenced flow it carries the index it was accepted under, in strictly increasing order. */
  lemma ExposedWasAccepted(w: Watched, n: Net, acts: seq<NetAct>, last: Net)
    requires JustOpened(w, n) && NetRun(w, n, acts, last)
    ensures forall i :: 0 <= i < |last.inn.exposed| ==> WasAccepted(w, last.out, last.inn.exposed[i].index, last.inn.exposed[i].payload)
    ensures w.mode.UnreliableSequenced? ==>
              forall i, j :: 0 <= i < j < |last.inn.exposed| ==> last.inn.exposed[i].index < last.inn.exposed[j].index
    ensures forall i :: 0 <= i < |last.out.accepted| ==> last.out.accepted[i].index == i
  {
    hide JustOpened, NetRun, Placed, Genuine, WasAccepted, AcceptedAll;
    JustOpenedHolds(w, n);
    NetRunKeeps(w, n, acts, last);
    forall i | 0 <= i < |last.inn.exposed|
      ensures WasAccepted(w, last.out, last.inn.exposed[i].index, last.inn.exposed[i].payload)
    {
      assert last.inn.exposed[i] in multiset(last.inn.exposed);
      assert last.inn.exposed[i] in last.inn.received;
    }
  }
}
