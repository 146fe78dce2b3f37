/** The size check made when an unreliable flow is opened, followed over every run of a side: as long as
    the datagram size does not fall below it, no message of the flow is ever refused or dropped for size. */
module DatagramSizes {
  import opened Basics
  import opened Wire
  import opened Delivery
  import opened Core
  import opened CoreInvariant
  import opened ControlBody
  import opened Envelope
  import opened Registry
  import opened FlowControls
  import opened FlowNode
  import opened FlowPhases
  import opened FlowMoves
  import FlowProtocol
  import Datagrams

  /** The longest message of these terms fits a datagram of this size, under any sequence number. */
  predicate Fits(id: FlowId, t: Option<Terms>, size: nat) {
    t.Some? && !t.value.mode.ReliableOrdered? ==>
      var needed := DatagramLen(id, t.value.mode, OpenSequence(t.value.mode), t.value.maxMessageBytes);
      needed.Ok? && needed.value <= size
  }

  /** The flow, while asked for and once registered, was checked against this size. */
  predicate Checked(n: Node, id: FlowId, size: nat) {
    Fits(id, LocalOf(n, id).asking, size) && Fits(id, LocalOf(n, id).has, size)
  }

  /** If this act opens the FlowId, the datagram size at that moment is at most `size`. */
  ghost predicate OpensWithin(n: Node, act: Act, id: FlowId, size: nat)
    requires Legal(n, act)
  {
    var sent := NodeNext(n, act).sent;
    act.OpenOne? && act.datagram.Some? && sent.Some? && sent.value.id == id ==> act.datagram.value <= size
  }

  ghost predicate OpenedWithin(n: Node, acts: seq<Act>, id: FlowId, size: nat)
    decreases |acts|
  {
    acts != [] && Legal(n, acts[0]) ==>
      OpensWithin(n, acts[0], id, size) && OpenedWithin(NodeNext(n, acts[0]).node, acts[1..], id, size)
  }

  lemma OpenIsChecked(n: Node, act: Act, id: FlowId, size: nat)
    requires NodeInv(n) && act.OpenOne? && Checked(n, id, size) && OpensWithin(n, act, id, size)
    ensures Checked(NodeNext(n, act).node, id, size)
  {
    hide NodeInv, DatagramLen, ActiveIds;
  }

  /** Only opening puts an OPEN on the wire. */
  lemma OthersSendNoOpen(n: Node, act: Act)
    requires NodeInv(n) && Legal(n, act) && !NodeNext(n, act).failed && !act.OpenOne?
    ensures NodeNext(n, act).sent.Some? ==> !NodeNext(n, act).sent.value.Open?
  {
    hide NodeInv, HandleOpen, HandleAccept, HandleReject, HandleTerminate, ReceiveControl, AcceptPending, RejectPending, TerminateLocal;
    hide Apply, ReceivePayload, Core.Terminate;
  }

  lemma OtherActsKeepChecked(n: Node, act: Act, id: FlowId, size: nat)
    requires NodeInv(n) && Legal(n, act) && !NodeNext(n, act).failed && !act.OpenOne?
    requires SideOf(id) == n.c.side && Checked(n, id, size)
    ensures Checked(NodeNext(n, act).node, id, size)
  {
    hide NodeInv, NodeNext, LocalOf, DatagramLen, Legal;
    NodeMoves(n, act, id);
    OthersSendNoOpen(n, act);
    AboutOne(id, Sent(NodeNext(n, act)));
  }

  lemma StepKeepsChecked(n: Node, act: Act, id: FlowId, size: nat)
    requires NodeInv(n) && Legal(n, act) && !NodeNext(n, act).failed
    requires SideOf(id) == n.c.side && Checked(n, id, size) && OpensWithin(n, act, id, size)
    ensures Checked(NodeNext(n, act).node, id, size) && NodeNext(n, act).node.c.side == n.c.side
  {
    hide NodeInv, NodeNext, Checked, Legal, OpensWithin;
    FlowProtocol.ActSteady(n, act);
    if act.OpenOne? {
      OpenIsChecked(n, act, id, size);
    } else {
      OtherActsKeepChecked(n, act, id, size);
    }
  }

  lemma {:induction false} RunKeepsChecked(n: Node, acts: seq<Act>, last: Node, id: FlowId, size: nat)
    requires NodeInv(n) && NodeRun(n, acts, last) && OpenedWithin(n, acts, id, size)
    requires SideOf(id) == n.c.side && Checked(n, id, size)
    ensures Checked(last, id, size) && last.c.side == n.c.side && NodeInv(last)
    decreases |acts|
  {
    hide NodeInv, NodeNext, Checked, Legal, OpensWithin;
    if acts != [] {
      NodeKeeps(n, acts[0]);
      StepKeepsChecked(n, acts[0], id, size);
      RunKeepsChecked(NodeNext(n, acts[0]).node, acts[1..], last, id, size);
    }
  }

  /** In every error-free run of a side: a flow that was opened under a datagram size of at most `size` has
      no submission refused and no message dropped for its size while the size stays at least that, unless
      the transport itself refuses a size it announced. */
  lemma OpenedFlowsFit(start: Node, acts: seq<Act>, last: Node, id: FlowId, size: nat, payload: seq<u8>,
                       maxSize: Option<nat>, tx: Datagrams.Transport)
    requires WellFormed(start.ep) && start == NewNode(start.c.connection, start.c.side, start.c.local, start.c.peer, start.ep)
    requires NodeRun(start, acts, last) && OpenedWithin(start, acts, id, size)
    requires (maxSize.Some? ==> maxSize.value >= size) && (tx.maxSize.Some? ==> tx.maxSize.value >= size)
    requires (tx.maxAtSend.Some? ==> tx.maxAtSend.value >= size) && !tx.outcome.SendTooLarge?
    ensures Datagrams.SubmitDatagram(last.c.reg, last.ep, id, payload, maxSize).1 != Ok(Datagrams.ExceedsDatagramSize)
    ensures var d := Datagrams.DriveOne(last.c.reg, last.ep, id, tx); d.result.Ok? ==> !d.result.value.DroppedTransport?
  {
    hide NodeInv, WellFormed, NodeRun, OpenedWithin, Datagrams.SubmitDatagram, Datagrams.DriveOne, DatagramLen;
    NewNodeHolds(start.c.connection, start.c.side, start.c.local, start.c.peer, start.ep);
    NodeRunKeeps(start, acts, last);
    if Datagrams.UsableOutbound(last.c.reg, id).Err? {
      Unusable(last, id, payload, maxSize, tx);
    } else {
      SameSide(start, acts, last);
      FlowProtocol.Directed(last, id);
      assert Checked(start, id, size);
      RunKeepsChecked(start, acts, last, id, size);
      Datagrams.SizeNeverRejects(last.c.reg, last.ep, id, payload, maxSize, tx, size);
    }
  }

  lemma Unusable(n: Node, id: FlowId, payload: seq<u8>, maxSize: Option<nat>, tx: Datagrams.Transport)
    requires Datagrams.UsableOutbound(n.c.reg, id).Err?
    ensures Datagrams.SubmitDatagram(n.c.reg, n.ep, id, payload, maxSize).1.Err?
    ensures Datagrams.DriveOne(n.c.reg, n.ep, id, tx).result.Err?
  {
  }

  lemma {:induction false} SameSide(n: Node, acts: seq<Act>, last: Node)
    requires NodeInv(n) && NodeRun(n, acts, last)
    ensures last.c.side == n.c.side
    decreases |acts|
  {
    hide NodeInv, NodeNext, Legal;
    if acts != [] {
      NodeKeeps(n, acts[0]);
      FlowProtocol.ActSteady(n, acts[0]);
      SameSide(NodeNext(n, acts[0]).node, acts[1..], last);
    }
  }
}
