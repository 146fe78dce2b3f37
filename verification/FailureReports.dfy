/** What a failed stream or datagram of an established flow leads to: a reported termination, a report
    only, or nothing but cleanup. */
module FailureReports {
  import opened Basics
  import opened Wire
  import opened Delivery
  import opened Core
  import opened ControlBody
  import opened FlowControls

  datatype Context =
    | Unresolved
    | Reportable(id: FlowId, key: FlowKey, termination: Option<Termination>)
    | Detached(id: FlowId, key: FlowKey)

  datatype Disposition =
    | TerminateAndReport(id: FlowId, reason: TerminateReason)
    | ReportOnly(id: FlowId, key: FlowKey, reason: TerminateReason, termination: Option<Termination>)
    | CleanupOnly(id: FlowId)
    | CloseConnection

  datatype Outcome = SendReport(id: FlowId, reason: TerminateReason, termination: Option<Termination>) | CleanedUp(id: FlowId) | Closing

  function ResolvedContext(id: FlowId, key: FlowKey, registeredBefore: bool, termination: Option<Termination>): Context {
    if registeredBefore || termination.Some? then Reportable(id, key, termination) else Detached(id, key)
  }

  /** For an inbound binding the poll that failed may also have been the one that resolved its flow. */
  function InboundContext(before: Option<(FlowId, FlowKey)>, registeredBefore: bool, after: Option<(FlowId, FlowKey)>,
                          termination: Option<Termination>): Context {
    if before.Some? then ResolvedContext(before.value.0, before.value.1, registeredBefore, termination)
    else if after.Some? then Reportable(after.value.0, after.value.1, termination)
    else Unresolved
  }

  function ContextDisposition(context: Context, reason: TerminateReason, liveNow: bool): Disposition {
    match context
    case Unresolved => CloseConnection
    case Detached(id, _) => CleanupOnly(id)
    case Reportable(id, key, termination) =>
      if liveNow then TerminateAndReport(id, reason) else ReportOnly(id, key, reason, termination)
  }

  function KnownFlowDisposition(id: FlowId, reason: TerminateReason, liveNow: bool): Disposition {
    if liveNow then TerminateAndReport(id, reason) else CleanupOnly(id)
  }

  ghost function EndAndReport(c: Control, ep: Endpoint, id: FlowId, reason: TerminateReason): Done<Result<Outcome, ControlError>> {
    var d := TerminateLocal(c, ep, id, reason);
    Done(d.control, d.ep, match d.result case Err(e) => Err(e) case Ok(t) => Ok(SendReport(id, reason, Some(t.termination))))
  }

  /** Carry out a disposition. */
  ghost function PrepareFailure(c: Control, ep: Endpoint, d: Disposition): Done<Result<Outcome, ControlError>> {
    match d
    case TerminateAndReport(id, reason) => EndAndReport(c, ep, id, reason)
    case ReportOnly(id, _, reason, termination) =>
      if id in c.reg then EndAndReport(c, ep, id, reason)
      else Done(c, ep, Ok(SendReport(id, reason, termination)))
    case CleanupOnly(id) => Done(c, ep, Ok(CleanedUp(id)))
    case CloseConnection => Done(c, ep, Ok(Closing))
  }

  /** A binding of a resolved flow fails. If its own failure path ran, the Core flow lost custody and the
      registry entry was released before the failure is classified. */
  ghost function BindingFailure(c: Control, ep: Endpoint, id: FlowId, key: FlowKey, handled: bool, reason: TerminateReason)
    : Done<Result<Outcome, ControlError>>
  {
    var lost := if handled then Core.FailCustody(ep, key) else (ep, Err(UnknownFlow));
    var left := if handled then c.(reg := c.reg - {id}) else c;
    var termination := match lost.1 case Ok(t) => Some(t) case Err(_) => None;
    PrepareFailure(left, lost.0, ContextDisposition(ResolvedContext(id, key, id in c.reg, termination), reason, id in left.reg))
  }

  ghost function FlowFailure(c: Control, ep: Endpoint, id: FlowId, reason: TerminateReason): Done<Result<Outcome, ControlError>> {
    PrepareFailure(c, ep, KnownFlowDisposition(id, reason, id in c.reg))
  }

  /** A failing binding whose flow is still registered produces exactly one report, whichever path it
      takes, and removes the flow, even if an arrival ended the Core flow in the same poll and no
      termination is left to hand over; a binding whose flow is already gone produces none and changes nothing. */
  lemma BindingFailureOutcomes(c: Control, ep: Endpoint, id: FlowId, key: FlowKey, handled: bool, reason: TerminateReason)
    requires !reason.Normal?
    requires id in c.reg ==> c.reg[id].key == key && (if key in ep.flows then handled ==> ep.flows[key].mode.ReliableOrdered? else handled)
    requires id !in c.reg ==> key !in ep.flows
    ensures var d := BindingFailure(c, ep, id, key, handled, reason);
            && d.result.Ok?
            && (id in c.reg ==>
                  && d.result.value.SendReport? && d.result.value.id == id && d.result.value.reason == reason
                  && d.control == c.(reg := c.reg - {id})
                  && (key in ep.flows ==>
                        && d.result.value.termination.Some? && d.result.value.termination.value.key == key
                        && d.ep == Core.Terminate(ep, key, if handled then ReliableCustodyLost else Requested).0)
                  && (key !in ep.flows ==> d.result.value.termination.None? && d.ep == ep))
            && (id !in c.reg ==> d.result.value == CleanedUp(id) && d.control == c && d.ep == ep)
  {
    if id !in c.reg {
      assert c.reg - {id} == c.reg;
    }
  }

  /** When the flow is already gone, a failing binding is harmless exactly if its failure path did not run or
      its Core key is not in use by another reliable flow; otherwise that other flow is ended and a
      termination is reported under the old FlowId. */
  lemma StaleBindingExactly(c: Control, ep: Endpoint, id: FlowId, key: FlowKey, handled: bool, reason: TerminateReason)
    requires id !in c.reg
    ensures var d := BindingFailure(c, ep, id, key, handled, reason);
            var reused := handled && key in ep.flows && ep.flows[key].mode.ReliableOrdered?;
            && (d.result == Ok(CleanedUp(id)) && d.ep == ep <==> !reused)
            && (reused ==> d.ep.flows == ep.flows - {key} && d.result.Ok? && d.result.value.SendReport? && d.result.value.id == id)
  {
    CustodyLoss(ep, key);
    hide Core.FailCustody;
    assert c.reg - {id} == c.reg;
  }

  lemma CustodyLoss(ep: Endpoint, key: FlowKey)
    ensures var (after, r) := Core.FailCustody(ep, key);
            && (r.Ok? <==> key in ep.flows && ep.flows[key].mode.ReliableOrdered?)
            && (r.Ok? ==> after.flows == ep.flows - {key} && after != ep)
            && (r.Err? ==> after == ep)
  {
    hide Populated, Held;
  }

  lemma FlowFailureOutcomes(c: Control, ep: Endpoint, id: FlowId, reason: TerminateReason)
    requires id in c.reg ==> c.reg[id].key in ep.flows && !(c.reg[id].mode.ReliableOrdered? && reason.Normal?)
    ensures var d := FlowFailure(c, ep, id, reason);
            && d.result.Ok?
            && (id in c.reg ==>
                  && d.result.value.SendReport? && d.result.value.id == id && d.result.value.reason == reason
                  && d.control == c.(reg := c.reg - {id}) && d.ep == Core.Terminate(ep, c.reg[id].key, Requested).0)
            && (id !in c.reg ==> d.result.value == CleanedUp(id) && d.control == c && d.ep == ep)
  {
  }

  /** Resolving the flow in the very poll that fails is no different from having resolved it before. */
  lemma LateResolution(id: FlowId, key: FlowKey, termination: Option<Termination>)
    ensures InboundContext(None, false, Some((id, key)), termination) == InboundContext(Some((id, key)), true, Some((id, key)), termination)
  {
  }
}
