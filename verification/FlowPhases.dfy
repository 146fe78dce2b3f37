/** The life of one FlowId as both peers and the two control channels see it: the phases it passes
    through, and the moves either side can make. */
module FlowPhases {
  import opened Basics
  import opened Wire
  import opened Delivery
  import opened ControlBody

  datatype Terms = Terms(mode: Mode, maxMessageBytes: nonzero)

  /** What one side knows of a FlowId: whether its cursor has passed it, whether it waits for an answer
      or for a decision, the terms of its registered flow, and whether it ended the flow itself. */
  datatype Local = Local(known: bool, asking: Option<Terms>, deciding: Option<Terms>, has: Option<Terms>, retired: bool)

  const Nothing: Local := Local(false, None, None, None, false)
  const Used: Local := Local(true, None, None, None, false)

  /** The opener, the acceptor, and the frames about this FlowId on their way down to the acceptor and
      up to the opener. */
  datatype View = View(id: FlowId, o: Local, p: Local, down: seq<ControlMsg>, up: seq<ControlMsg>)

  /** A reliable flow's normal end is the stream's FIN, never a frame. */
  predicate ReasonOk(t: Terms, reason: TerminateReason) {
    !(t.mode.ReliableOrdered? && reason.Normal?)
  }

  function OpenFrame(id: FlowId, t: Terms): ControlMsg {
    Open(id, t.mode, t.maxMessageBytes)
  }

  predicate Unissued(v: View) {
    v.o == Nothing && v.p == Nothing && v.down == [] && v.up == []
  }

  predicate Opening(v: View) {
    && v.o.asking.Some? && v.o == Used.(asking := v.o.asking) && v.p == Nothing
    && v.down == [OpenFrame(v.id, v.o.asking.value)] && v.up == []
  }

  predicate Deciding(v: View) {
    && v.o.asking.Some? && v.o == Used.(asking := v.o.asking) && v.p == Used.(deciding := v.o.asking)
    && v.down == [] && v.up == []
  }

  predicate Refused(v: View) {
    && v.o.asking.Some? && v.o == Used.(asking := v.o.asking) && v.p == Used
    && v.down == [] && |v.up| == 1 && v.up[0].Reject? && v.up[0].id == v.id
  }

  predicate EndFrame(v: View, m: ControlMsg, t: Terms) {
    m.Terminate? && m.id == v.id && ReasonOk(t, m.reason)
  }

  predicate Granted(v: View) {
    && v.o.asking.Some? && v.o == Used.(asking := v.o.asking)
    && v.down == [] && v.up != [] && v.up[0] == Accept(v.id)
    && (|| (v.p == Used.(has := v.o.asking) && |v.up| == 1)
        || (v.p == Used.(retired := true) && |v.up| == 1)
        || (v.p == Used.(retired := true) && |v.up| == 2 && EndFrame(v, v.up[1], v.o.asking.value)))
  }

  /** A side that sent TERMINATE is through with the flow; the frame finds the other side either still
      holding it or having retired it itself. */
  predicate HalfSettled(v: View, from: Local, to: Local, frames: seq<ControlMsg>) {
    && from.known && from.asking.None? && from.deciding.None?
    && (from.has.Some? ==> !from.retired && (to.has.Some? || to.retired) && (to.has.Some? ==> to.has == from.has))
    && (frames != [] ==>
          && |frames| == 1 && frames[0].Terminate? && frames[0].id == v.id
          && from.has.None? && from.retired && (to.has.Some? || to.retired)
          && (to.has.Some? ==> ReasonOk(to.has.value, frames[0].reason)))
  }

  predicate Settled(v: View) {
    HalfSettled(v, v.o, v.p, v.down) && HalfSettled(v, v.p, v.o, v.up)
  }

  predicate Phased(v: View) {
    Unissued(v) || Opening(v) || Deciding(v) || Refused(v) || Granted(v) || Settled(v)
  }

  // ---------------------------------------------------------------- what one side can do

  predicate Opens(id: FlowId, own: bool, l: Local, after: Local, taken: seq<ControlMsg>, sent: seq<ControlMsg>) {
    && own && l == Nothing && after.asking.Some? && after == Used.(asking := after.asking)
    && taken == [] && sent == [OpenFrame(id, after.asking.value)]
  }

  predicate TakesOpen(id: FlowId, own: bool, l: Local, after: Local, taken: seq<ControlMsg>, sent: seq<ControlMsg>) {
    && !own && l == Nothing && |taken| == 1 && taken[0].Open? && taken[0].id == id && Representable(taken[0])
    && (|| (after == Used && |sent| == 1 && sent[0].Reject? && sent[0].id == id)
        || (after == Used.(deciding := Some(Terms(taken[0].mode, taken[0].maxMessageBytes))) && sent == []))
  }

  predicate TakesAccept(id: FlowId, own: bool, l: Local, after: Local, taken: seq<ControlMsg>, sent: seq<ControlMsg>) {
    && own && l.asking.Some? && taken == [Accept(id)]
    && (|| (after == l.(asking := None, has := l.asking) && sent == [])
        || (after == l.(asking := None, retired := true) && sent == [ControlMsg.Terminate(id, ResourceFailure)]))
  }

  predicate TakesReject(id: FlowId, own: bool, l: Local, after: Local, taken: seq<ControlMsg>, sent: seq<ControlMsg>) {
    own && l.asking.Some? && |taken| == 1 && taken[0].Reject? && taken[0].id == id && after == l.(asking := None) && sent == []
  }

  predicate TakesTerminate(id: FlowId, own: bool, l: Local, after: Local, taken: seq<ControlMsg>, sent: seq<ControlMsg>) {
    && l.has.Some? && |taken| == 1 && taken[0].Terminate? && taken[0].id == id && ReasonOk(l.has.value, taken[0].reason)
    && after == l.(has := None) && sent == []
  }

  predicate Decides(id: FlowId, own: bool, l: Local, after: Local, taken: seq<ControlMsg>, sent: seq<ControlMsg>) {
    && !own && l.deciding.Some? && taken == []
    && (|| (after == l.(deciding := None, has := l.deciding) && sent == [Accept(id)])
        || (after == l.(deciding := None) && |sent| == 1 && sent[0].Reject? && sent[0].id == id))
  }

  predicate Ends(id: FlowId, own: bool, l: Local, after: Local, taken: seq<ControlMsg>, sent: seq<ControlMsg>) {
    && l.has.Some? && after == l.(has := None, retired := true) && taken == []
    && (sent != [] ==> |sent| == 1 && sent[0].Terminate? && sent[0].id == id && ReasonOk(l.has.value, sent[0].reason))
  }

  predicate Idles(l: Local, after: Local, taken: seq<ControlMsg>, sent: seq<ControlMsg>) {
    after == l && taken == [] && sent == []
  }

  /** One act of one side, as far as one FlowId is concerned; `own` says whether it is the opener. */
  predicate Moves(id: FlowId, own: bool, l: Local, after: Local, taken: seq<ControlMsg>, sent: seq<ControlMsg>) {
    || Opens(id, own, l, after, taken, sent) || TakesOpen(id, own, l, after, taken, sent)
    || TakesAccept(id, own, l, after, taken, sent) || TakesReject(id, own, l, after, taken, sent)
    || TakesTerminate(id, own, l, after, taken, sent) || Decides(id, own, l, after, taken, sent)
    || Ends(id, own, l, after, taken, sent) || Idles(l, after, taken, sent)
  }

  // ---------------------------------------------------------------- the phases are kept

  function OpenerMoved(v: View, after: Local, taken: seq<ControlMsg>, sent: seq<ControlMsg>): View
    requires taken <= v.up
  {
    v.(o := after, down := v.down + sent, up := v.up[|taken|..])
  }

  function AcceptorMoved(v: View, after: Local, taken: seq<ControlMsg>, sent: seq<ControlMsg>): View
    requires taken <= v.down
  {
    v.(p := after, up := v.up + sent, down := v.down[|taken|..])
  }

  lemma EndKeepsPhase(v: View, own: bool, after: Local, sent: seq<ControlMsg>)
    requires Phased(v) && Ends(v.id, own, if own then v.o else v.p, after, [], sent)
    ensures Phased(if own then OpenerMoved(v, after, [], sent) else AcceptorMoved(v, after, [], sent))
  {
    if Granted(v) {
      assert !own && Granted(AcceptorMoved(v, after, [], sent));
    } else {
      assert Settled(v) && Settled(if own then OpenerMoved(v, after, [], sent) else AcceptorMoved(v, after, [], sent));
    }
  }

  lemma TerminateKeepsPhase(v: View, own: bool, after: Local, taken: seq<ControlMsg>)
    requires Phased(v) && TakesTerminate(v.id, own, if own then v.o else v.p, after, taken, [])
    requires taken <= if own then v.up else v.down
    ensures Phased(if own then OpenerMoved(v, after, taken, []) else AcceptorMoved(v, after, taken, []))
  {
    assert taken[0] == if own then v.up[0] else v.down[0];
    assert Settled(v) && Settled(if own then OpenerMoved(v, after, taken, []) else AcceptorMoved(v, after, taken, []));
  }

  lemma OpeningKeepsPhase(v: View, own: bool, after: Local, taken: seq<ControlMsg>, sent: seq<ControlMsg>)
    requires Phased(v) && taken <= if own then v.up else v.down
    requires var l := if own then v.o else v.p;
             Opens(v.id, own, l, after, taken, sent) || TakesOpen(v.id, own, l, after, taken, sent) || Decides(v.id, own, l, after, taken, sent)
    ensures Phased(if own then OpenerMoved(v, after, taken, sent) else AcceptorMoved(v, after, taken, sent))
  {
    if own {
      assert Unissued(v) && Opening(OpenerMoved(v, after, taken, sent));
    } else if taken != [] {
      assert taken[0] == v.down[0];
      assert Opening(v);
    } else {
      assert Deciding(v);
    }
  }

  lemma AnswerKeepsPhase(v: View, after: Local, taken: seq<ControlMsg>, sent: seq<ControlMsg>)
    requires Phased(v) && taken <= v.up
    requires TakesAccept(v.id, true, v.o, after, taken, sent) || TakesReject(v.id, true, v.o, after, taken, sent)
    ensures Phased(OpenerMoved(v, after, taken, sent))
  {
    assert taken[0] == v.up[0];
    assert Settled(OpenerMoved(v, after, taken, sent));
  }

  /** Whatever either side does, each FlowId stays in one of its phases. */
  lemma MovesKeepPhase(v: View, own: bool, after: Local, taken: seq<ControlMsg>, sent: seq<ControlMsg>)
    requires Phased(v) && taken <= (if own then v.up else v.down)
    requires Moves(v.id, own, if own then v.o else v.p, after, taken, sent)
    ensures Phased(if own then OpenerMoved(v, after, taken, sent) else AcceptorMoved(v, after, taken, sent))
  {
    hide Phased, Opens, TakesOpen, TakesAccept, TakesReject, Decides;
    var l := if own then v.o else v.p;
    if Ends(v.id, own, l, after, taken, sent) {
      EndKeepsPhase(v, own, after, sent);
    } else if TakesTerminate(v.id, own, l, after, taken, sent) {
      TerminateKeepsPhase(v, own, after, taken);
    } else if TakesAccept(v.id, own, l, after, taken, sent) || TakesReject(v.id, own, l, after, taken, sent) {
      OnlyOpenersAreAnswered(v.id, own, l, after, taken, sent);
      AnswerKeepsPhase(v, after, taken, sent);
    } else if Idles(l, after, taken, sent) {
      assert v == if own then OpenerMoved(v, after, taken, sent) else AcceptorMoved(v, after, taken, sent);
    } else {
      OpeningKeepsPhase(v, own, after, taken, sent);
    }
  }

  lemma OnlyOpenersAreAnswered(id: FlowId, own: bool, l: Local, after: Local, taken: seq<ControlMsg>, sent: seq<ControlMsg>)
    requires TakesAccept(id, own, l, after, taken, sent) || TakesReject(id, own, l, after, taken, sent)
    ensures own
  {
  }

  // ---------------------------------------------------------------- what the phases say

  /** An answer awaited is an OPEN still travelling, a decision pending, or an answer travelling: exactly
      one of the three, and with the terms that were asked for. */
  lemma AskingIsSomewhere(v: View)
    requires Phased(v)
    ensures v.o.asking.Some? ==> v.o.known && v.o.has.None? && !v.o.retired
    ensures v.p.asking.None? && v.o.deciding.None?
    ensures var travelling := v.down != [] && v.down[0].Open?;
            var answered := v.up != [] && (v.up[0].Accept? || v.up[0].Reject?);
            && (v.o.asking.Some? <==> travelling || v.p.deciding.Some? || answered)
            && !(travelling && v.p.deciding.Some?) && !(travelling && answered) && !(v.p.deciding.Some? && answered)
            && (travelling ==> v.down == [OpenFrame(v.id, v.o.asking.value)])
            && (v.p.deciding.Some? ==> v.p.deciding == v.o.asking)
  {
  }

  lemma BothAgree(v: View)
    requires Phased(v) && v.o.has.Some? && v.p.has.Some?
    ensures v.o.has == v.p.has && v.down == [] && v.up == []
  {
  }

  /** The frame at the head of a channel always finds its receiver in a state that expects it, except
      for a TERMINATE whose receiver has retired the flow itself. */
  lemma HeadIsExpected(v: View, own: bool)
    requires Phased(v) && (if own then v.up else v.down) != []
    ensures var m := (if own then v.up else v.down)[0];
            var l := if own then v.o else v.p;
            && m.id == v.id
            && (m.Open? ==> !own && l == Nothing && v.o.asking.Some? && m == OpenFrame(v.id, v.o.asking.value))
            && (m.Accept? || m.Reject? ==> own && l.asking.Some?)
            && (m.Terminate? ==> (l.retired <==> l.has.None?) && (l.has.Some? ==> ReasonOk(l.has.value, m.reason)))
  {
  }
}
