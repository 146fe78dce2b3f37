/** One side's negotiation exchange over a manager. */
module Negotiation {
  import opened Basics
  import opened Wire
  import opened Offers
  import opened NegotiationBody
  import opened OfferCodec
  import opened ProposalCodec
  import Managers

  type Manager = Managers.Manager

  datatype Role = Authority | NonAuthority

  datatype State =
    | Ready
    | AwaitingPeerOffer
    | AwaitingAuthoritySelection
    | AwaitingProposal
    | AwaitingValidated
    | AwaitingEstablished
    | Established
    | Failed

  datatype FrameKind = OfferFrame | ProposalFrame | ValidatedFrame | EstablishedFrame | FailedFrame | UnrelatedFrame

  datatype Frame = Frame(kind: FrameKind, body: seq<u8>)

  datatype ProtocolFault =
    | UnexpectedFrame(state: State, kind: FrameKind)
    | UnexpectedLocalOperation(state: State)
    | WrongLocalRole
    | NonEmptyAcknowledgement(kind: FrameKind)
    | WireFault(fault: NegotiationBody.WireFault)

  datatype Error =
    | ProfileProtocol(protocolFault: ProtocolFault)
    | LocalFailure(outcome: NegotiationOutcome)
    | ManagerState(managerError: Managers.ManagerError)
    | UnexpectedCoreStatus(status: Managers.Status)

  datatype Progress = Waiting | AuthoritySelectionRequired | Send(frame: Frame) | Agreed | RemoteFailed(outcome: NegotiationOutcome)

  datatype Exchange = Exchange(connection: u64, role: Role, maxFrame: u64, state: State, localOffer: Option<Offer>, managerOwned: bool)

  datatype Done<+R> = Done(x: Exchange, m: Manager, result: Result<R, Error>)

  function NewExchange(connection: u64, role: Role, maxFrame: u64): Exchange {
    Exchange(connection, role, maxFrame, Ready, None, false)
  }

  // ---------------------------------------------------------------- the failure body

  function OutcomeCode(o: NegotiationOutcome): u8 {
    match o
    case MalformedOffer => 0
    case ProtocolIncompatible => 1
    case RequiredCapabilityUnavailable => 2
    case RequiredSchemaUnavailable => 3
    case ResourceLimitExceeded => 4
    case InvalidSelection => 5
  }

  function OutcomeFrom(v: nat): Result<NegotiationOutcome, NegotiationBody.WireFault> {
    if v == 0 then Ok(MalformedOffer)
    else if v == 1 then Ok(ProtocolIncompatible)
    else if v == 2 then Ok(RequiredCapabilityUnavailable)
    else if v == 3 then Ok(RequiredSchemaUnavailable)
    else if v == 4 then Ok(ResourceLimitExceeded)
    else if v == 5 then Ok(InvalidSelection)
    else Err(UnknownOutcome(v))
  }

  function FailureFrame(o: NegotiationOutcome): Frame {
    Frame(FailedFrame, [OutcomeCode(o)])
  }

  function DecodeFailure(body: seq<u8>): Result<NegotiationOutcome, NegotiationBody.WireFault> {
    match DecodeVarint(body)
    case Err(e) => Err(BadVarint(e))
    case Ok((v, n)) =>
      var outcome :- OutcomeFrom(v);
      if n == |body| then Ok(outcome) else Err(TrailingBytes)
  }

  /** A failure report names its outcome. */
  lemma FailureRoundTrip(o: NegotiationOutcome)
    ensures DecodeFailure(FailureFrame(o).body) == Ok(o)
  {
    hide DecodeVarint, Varint;
    var code := OutcomeCode(o);
    SmallVarint(code);
    DecodeVarintAppend(code, []);
    assert Varint(code) + [] == [code];
  }

  lemma SmallVarint(v: u8)
    requires v < 64
    ensures Varint(v) == [v]
  {
    assert BigEndian(v, 1) == BigEndian(v / 256, 0) + [v % 256];
  }

  // ---------------------------------------------------------------- leaving the exchange

  function ManagerOutcome(e: Managers.ManagerError): Result<NegotiationOutcome, Managers.ManagerError> {
    match e
    case AttemptLimitExceeded => Ok(ResourceLimitExceeded)
    case AggregateLimitExceeded => Ok(ResourceLimitExceeded)
    case ConnectionAlreadyKnown => Err(e)
    case UnknownConnection => Err(e)
    case Negotiation(error) =>
      match error
      case AuthorityOfferInvalid => Ok(MalformedOffer)
      case PeerOfferInvalid => Ok(MalformedOffer)
      case ProtocolsIncompatible => Ok(ProtocolIncompatible)
      case CapabilityUnavailable => Ok(RequiredCapabilityUnavailable)
      case SchemaUnavailable => Ok(RequiredSchemaUnavailable)
      case SelectionTooLarge => Ok(ResourceLimitExceeded)
      case SelectionInvalid => Ok(InvalidSelection)
      case _ => Err(e)
  }

  /** The exchange gives up: what it owns in the manager is terminated, and `error` is reported unless
      that fails. */
  function Leave<R>(x: Exchange, m: Manager, error: Error): Done<R>
    requires Managers.ManagerInv(m)
  {
    var left := x.(state := Failed, localOffer := None, managerOwned := false);
    if !x.managerOwned then Done(left, m, Err(error))
    else match Managers.Terminate(m, x.connection)
      case Err(e) => Done(left, m, Err(ManagerState(e)))
      case Ok(released) => Done(left, released, Err(error))
  }

  function LeaveFromManager<R>(x: Exchange, m: Manager, e: Managers.ManagerError): Done<R>
    requires Managers.ManagerInv(m)
  {
    match ManagerOutcome(e)
    case Ok(outcome) => Leave(x, m, LocalFailure(outcome))
    case Err(other) => Leave(x, m, ManagerState(other))
  }

  function LeaveFromDecode<R>(x: Exchange, m: Manager, e: DecodeError): Done<R>
    requires Managers.ManagerInv(m)
  {
    match e
    case Malformed(fault) => Leave(x, m, ProfileProtocol(WireFault(fault)))
    case Failure(outcome) => Leave(x, m, LocalFailure(outcome))
  }

  // ---------------------------------------------------------------- local operations

  function PrepareOffer(x: Exchange, m: Manager, o: Offer): Done<Frame>
    requires Managers.ManagerInv(m)
  {
    if !x.state.Ready? then Leave(x, m, ProfileProtocol(UnexpectedLocalOperation(x.state)))
    else if !Managers.ValidOffer(o, m.offerLimits) || o.diagnosticLabel.Some? then Leave(x, m, LocalFailure(MalformedOffer))
    else match EncodeOffer(o, x.maxFrame)
      case Err(outcome) => Leave(x, m, LocalFailure(outcome))
      case Ok(body) => Done(x.(localOffer := Some(o), state := AwaitingPeerOffer), m, Ok(Frame(OfferFrame, body)))
  }

  /** The proposal's body, written in the order given. */
  ghost function SendProposal(x: Exchange, m: Manager, c: Contract, e: Enumeration): Done<Frame>
    requires Managers.ManagerInv(m) && Enumerates(e, c)
  {
    match EncodeProposal(c, e, x.maxFrame)
    case Err(outcome) => Leave(x, m, LocalFailure(outcome))
    case Ok(body) => Done(x.(state := AwaitingValidated), m, Ok(Frame(ProposalFrame, body)))
  }

  ghost function ProposeAuthority(x: Exchange, m: Manager, c: Contract, req: Managers.Requirements, e: Enumeration): Done<Frame>
    requires Managers.ManagerInv(m) && Enumerates(e, c)
  {
    if !x.role.Authority? then Leave(x, m, ProfileProtocol(WrongLocalRole))
    else if !x.state.AwaitingAuthoritySelection? then Leave(x, m, ProfileProtocol(UnexpectedLocalOperation(x.state)))
    else match Managers.Propose(m, x.connection, c, req)
      case Err(error) => LeaveFromManager(x, m, error)
      case Ok(proposed) =>
        Managers.ProposeKeeps(m, x.connection, c, req);
        match Managers.Validate(proposed, x.connection, true)
        case Err(error) => Leave(x, proposed, ManagerState(error))
        case Ok((validated, status)) =>
          Managers.ValidateKeeps(proposed, x.connection, true);
          if status != Managers.AwaitingValidation(true, false) then Leave(x, validated, UnexpectedCoreStatus(status))
          else SendProposal(x, validated, c, e)
  }

  function Abort(x: Exchange, m: Manager): Done<()>
    requires Managers.ManagerInv(m)
  {
    var left := x.(state := Failed, localOffer := None, managerOwned := false);
    if !x.managerOwned then Done(left, m, Ok(()))
    else match Managers.Terminate(m, x.connection)
      case Err(e) => Done(left, m, Err(ManagerState(e)))
      case Ok(released) => Done(left, released, Ok(()))
  }

  // ---------------------------------------------------------------- receiving

  function ReceiveOffer(x: Exchange, m: Manager, body: seq<u8>): Done<Progress>
    requires Managers.ManagerInv(m)
  {
    match DecodeOffer(body, m.offerLimits)
    case Err(e) => LeaveFromDecode(x, m, e)
    case Ok(peer) =>
      if x.localOffer.None? then Done(x.(state := Failed), m, Err(ProfileProtocol(UnexpectedLocalOperation(x.state))))
      else
        var taken := x.(localOffer := None);
        var local := x.localOffer.value;
        match (if x.role.Authority? then Managers.Start(m, x.connection, local, peer) else Managers.Start(m, x.connection, peer, local))
        case Err(e) => LeaveFromManager(taken, m, e)
        case Ok(started) =>
          if x.role.Authority? then Done(taken.(managerOwned := true, state := AwaitingAuthoritySelection), started, Ok(AuthoritySelectionRequired))
          else Done(taken.(managerOwned := true, state := AwaitingProposal), started, Ok(Waiting))
  }

  function ReceiveProposal(x: Exchange, m: Manager, req: Managers.Requirements, body: seq<u8>): Done<Progress>
    requires Managers.ManagerInv(m)
  {
    match DecodeProposal(body, m.offerLimits)
    case Err(e) => LeaveFromDecode(x, m, e)
    case Ok(c) =>
      match Managers.Propose(m, x.connection, c, req)
      case Err(error) => LeaveFromManager(x, m, error)
      case Ok(proposed) =>
        Managers.ProposeKeeps(m, x.connection, c, req);
        match Managers.Validate(proposed, x.connection, false)
        case Err(error) => Leave(x, proposed, ManagerState(error))
        case Ok((validated, status)) =>
          Managers.ValidateKeeps(proposed, x.connection, false);
          if status != Managers.AwaitingValidation(false, true) then Leave(x, validated, UnexpectedCoreStatus(status))
          else Done(x.(state := AwaitingEstablished), validated, Ok(Send(Frame(ValidatedFrame, []))))
  }

  /** The last validation, by either side, must establish the contract. */
  function ReceiveAcknowledgement(x: Exchange, m: Manager, kind: FrameKind, body: seq<u8>): Done<Progress>
    requires Managers.ManagerInv(m)
  {
    if body != [] then Leave(x, m, ProfileProtocol(NonEmptyAcknowledgement(kind)))
    else match Managers.Validate(m, x.connection, kind.EstablishedFrame?)
      case Err(error) => Leave(x, m, ManagerState(error))
      case Ok((validated, status)) =>
        Managers.ValidateKeeps(m, x.connection, kind.EstablishedFrame?);
        if !status.Established? then Leave(x, validated, UnexpectedCoreStatus(status))
        else Done(x.(state := Established), validated, Ok(if kind.EstablishedFrame? then Agreed else Send(Frame(EstablishedFrame, []))))
  }

  function ReceiveFailure(x: Exchange, m: Manager, body: seq<u8>): Done<Progress>
    requires Managers.ManagerInv(m)
  {
    match DecodeFailure(body)
    case Err(fault) => Leave(x, m, ProfileProtocol(WireFault(fault)))
    case Ok(outcome) =>
      var d := Abort(x, m);
      Done(d.x, d.m, match d.result case Err(e) => Err(e) case Ok(_) => Ok(RemoteFailed(outcome)))
  }

  function Receive(x: Exchange, m: Manager, req: Managers.Requirements, f: Frame): Done<Progress>
    requires Managers.ManagerInv(m)
  {
    if f.kind.FailedFrame? && !x.state.Established? && !x.state.Failed? then ReceiveFailure(x, m, f.body)
    else if x.state.AwaitingPeerOffer? && f.kind.OfferFrame? then ReceiveOffer(x, m, f.body)
    else if x.state.AwaitingProposal? && f.kind.ProposalFrame? then ReceiveProposal(x, m, req, f.body)
    else if x.state.AwaitingValidated? && f.kind.ValidatedFrame? then ReceiveAcknowledgement(x, m, f.kind, f.body)
    else if x.state.AwaitingEstablished? && f.kind.EstablishedFrame? then ReceiveAcknowledgement(x, m, f.kind, f.body)
    else Leave(x, m, ProfileProtocol(UnexpectedFrame(x.state, f.kind)))
  }

  // ---------------------------------------------------------------- what the exchange owns

  ghost predicate AttemptIs(x: Exchange, m: Manager, proposed: bool, authority: bool, peer: bool) {
    && x.managerOwned && x.connection in m.attempts && x.connection !in m.established
    && var t := m.attempts[x.connection];
       t.proposal.Some? == proposed && t.authorityValidated == authority && t.peerValidated == peer
  }

  /** What the manager holds for this connection is what the state says: nothing before the offers meet
      and after a failure, an attempt in between, the contract once established. */
  ghost predicate ExchangeInv(x: Exchange, m: Manager) {
    && Managers.ManagerInv(m)
    && (x.managerOwned <==> m.Knows(x.connection))
    && match x.state
       case Ready => !x.managerOwned && x.localOffer.None?
       case AwaitingPeerOffer => !x.managerOwned && x.localOffer.Some? && x.localOffer.value.diagnosticLabel.None?
       case AwaitingAuthoritySelection => x.role.Authority? && AttemptIs(x, m, false, false, false)
       case AwaitingProposal => x.role.NonAuthority? && AttemptIs(x, m, false, false, false)
       case AwaitingValidated => x.role.Authority? && AttemptIs(x, m, true, true, false)
       case AwaitingEstablished => x.role.NonAuthority? && AttemptIs(x, m, true, false, true)
       case Established => x.managerOwned && x.connection in m.established
       case Failed => !x.managerOwned
  }

  /** Nothing of another connection was touched. */
  ghost predicate OthersKept(m: Manager, after: Manager, connection: u64) {
    && after.offerLimits == m.offerLimits && after.maxAttempts == m.maxAttempts && after.maxAggregate == m.maxAggregate
    && (forall k :: k != connection ==> (k in after.attempts <==> k in m.attempts) && (k in after.established <==> k in m.established))
    && (forall k :: k != connection && k in m.attempts ==> after.attempts[k] == m.attempts[k])
    && (forall k :: k != connection && k in m.established ==> after.established[k] == m.established[k])
  }

  /** An operation keeps the invariant, never meets an unexpected manager state, and either stays out of
      `Failed` or ends there with nothing left in the manager. */
  ghost predicate Sound<R>(x: Exchange, m: Manager, d: Done<R>) {
    && ExchangeInv(d.x, d.m) && OthersKept(m, d.m, x.connection)
    && d.x.connection == x.connection && d.x.role == x.role && d.x.maxFrame == x.maxFrame
    && (d.result.Err? ==> !d.result.error.ManagerState? && !d.result.error.UnexpectedCoreStatus? && d.x.state.Failed?)
    && (d.x.state.Failed? ==> !d.m.Knows(x.connection))
  }

  /** Leaving releases whatever is owned, once: a second failure finds nothing to release. */
  lemma LeaveSound<R>(x: Exchange, m: Manager, error: Error)
    requires Managers.ManagerInv(m) && (x.managerOwned <==> m.Knows(x.connection))
    ensures var d := Leave<R>(x, m, error);
            && d.x.state.Failed? && ExchangeInv(d.x, d.m) && OthersKept(m, d.m, x.connection) && !d.m.Knows(x.connection)
            && d.result == Err(error)
            && (forall again: Error :: Leave<R>(d.x, d.m, again) == Done(d.x, d.m, Err(again)))
  {
    hide Managers.ManagerInv;
    if x.managerOwned {
      Managers.TerminateKeeps(m, x.connection);
    }
  }

  lemma AbortSound(x: Exchange, m: Manager)
    requires ExchangeInv(x, m)
    ensures Sound(x, m, Abort(x, m)) && Abort(x, m).result.Ok? && Abort(x, m).x.state.Failed?
  {
    hide Managers.ManagerInv;
    if x.managerOwned {
      Managers.TerminateKeeps(m, x.connection);
    }
  }

  lemma LeaveDecodeSound<R>(x: Exchange, m: Manager, e: DecodeError)
    requires ExchangeInv(x, m)
    ensures Sound(x, m, LeaveFromDecode<R>(x, m, e))
  {
    hide ExchangeInv, Leave, Sound, Managers.ManagerInv;
    Owned(x, m);
    match e
    case Malformed(fault) => LeaveIsSound<R>(x, m, ProfileProtocol(WireFault(fault)));
    case Failure(outcome) => LeaveIsSound<R>(x, m, LocalFailure(outcome));
  }

  lemma LeaveIsSound<R>(x: Exchange, m: Manager, error: Error)
    requires Managers.ManagerInv(m) && (x.managerOwned <==> m.Knows(x.connection))
    requires !error.ManagerState? && !error.UnexpectedCoreStatus?
    ensures Sound(x, m, Leave<R>(x, m, error)) && Leave<R>(x, m, error).result == Err(error)
  {
    hide ExchangeInv, Managers.ManagerInv;
    LeaveSound<R>(x, m, error);
  }

  lemma PrepareOfferSound(x: Exchange, m: Manager, o: Offer)
    requires ExchangeInv(x, m)
    ensures Sound(x, m, PrepareOffer(x, m, o))
    ensures var d := PrepareOffer(x, m, o);
            d.result.Ok? ==>
              && x.state.Ready? && Managers.ValidOffer(o, m.offerLimits) && o.diagnosticLabel.None? && EncodeOffer(o, x.maxFrame).Ok?
              && d.result.value == Frame(OfferFrame, EncodeOffer(o, x.maxFrame).value)
              && d.x == x.(localOffer := Some(o), state := AwaitingPeerOffer) && d.m == m
  {
    hide Leave, Managers.ValidOffer, EncodeOffer, Managers.ManagerInv;
    LeaveIsSound<Frame>(x, m, ProfileProtocol(UnexpectedLocalOperation(x.state)));
    LeaveIsSound<Frame>(x, m, LocalFailure(MalformedOffer));
    if EncodeOffer(o, x.maxFrame).Err? {
      LeaveIsSound<Frame>(x, m, LocalFailure(EncodeOffer(o, x.maxFrame).error));
    }
  }

  lemma ReceiveOfferSound(x: Exchange, m: Manager, body: seq<u8>)
    requires ExchangeInv(x, m) && x.state.AwaitingPeerOffer?
    ensures Sound(x, m, ReceiveOffer(x, m, body))
    ensures var d := ReceiveOffer(x, m, body);
            d.result.Ok? ==>
              && DecodeOffer(body, m.offerLimits).Ok? && x.localOffer.Some? && x.connection in d.m.attempts
              && d.x.state == (if x.role.Authority? then AwaitingAuthoritySelection else AwaitingProposal)
              && d.result.value == (if x.role.Authority? then AuthoritySelectionRequired else Waiting)
              && d.m.attempts[x.connection].authority == (if x.role.Authority? then x.localOffer.value else DecodeOffer(body, m.offerLimits).value)
              && d.m.attempts[x.connection].peer == (if x.role.Authority? then DecodeOffer(body, m.offerLimits).value else x.localOffer.value)
  {
    hide Leave, Managers.AttemptError, DecodeOffer, Managers.ManagerInv;
    if DecodeOffer(body, m.offerLimits).Err? {
      LeaveDecodeSound<Progress>(x, m, DecodeOffer(body, m.offerLimits).error);
      LeftWithError<Progress>(x, m, DecodeOffer(body, m.offerLimits).error);
    } else {
      var peer := DecodeOffer(body, m.offerLimits).value;
      var local := x.localOffer.value;
      var taken := x.(localOffer := None);
      var (a, p) := if x.role.Authority? then (local, peer) else (peer, local);
      var started := Managers.Start(m, x.connection, a, p);
      if started.Err? {
        StartErrors(m, x.connection, a, p);
        LeaveIsSound<Progress>(taken, m, LocalFailure(ManagerOutcome(started.error).value));
      } else {
        Managers.StartKeeps(m, x.connection, a, p);
      }
    }
  }

  lemma StartErrors(m: Manager, connection: u64, a: Offer, p: Offer)
    requires !m.Knows(connection) && Managers.Start(m, connection, a, p).Err?
    ensures ManagerOutcome(Managers.Start(m, connection, a, p).error).Ok?
  {
    hide Managers.ValidOffer;
  }

  /** Proposing to an attempt without a proposal fails only for the selection itself. */
  lemma ProposeErrors(x: Exchange, m: Manager, c: Contract, req: Managers.Requirements)
    requires AttemptIs(x, m, false, false, false) && Managers.ManagerInv(m)
    ensures var r := Managers.Propose(m, x.connection, c, req);
            && (r.Err? ==> ManagerOutcome(r.error).Ok?)
            && (r.Ok? ==>
                  && AttemptIs(x, r.value, true, false, false) && OthersKept(m, r.value, x.connection)
                  && Managers.ManagerInv(r.value) && r.value.attempts[x.connection] == m.attempts[x.connection].(proposal := Some(c)))
  {
    hide Managers.ManagerInv, Managers.Selects, Managers.CommonBinding, Managers.HasCapability, ContractWithin;
    if Managers.Propose(m, x.connection, c, req).Ok? {
      Managers.ProposeKeeps(m, x.connection, c, req);
    }
  }

  /** The first validation waits for the other one; the second one establishes the contract proposed. */
  lemma ValidateOutcome(x: Exchange, m: Manager, authority: bool, other: bool)
    requires AttemptIs(x, m, true, if authority then false else other, if authority then other else false) && Managers.ManagerInv(m)
    ensures var r := Managers.Validate(m, x.connection, authority);
            && r.Ok? && Managers.ManagerInv(r.value.0) && OthersKept(m, r.value.0, x.connection)
            && (if other then
                  && r.value.1.Established? && x.connection !in r.value.0.attempts && x.connection in r.value.0.established
                  && r.value.0.established[x.connection] == m.attempts[x.connection].proposal.value
                else
                  && r.value.1 == Managers.AwaitingValidation(authority, !authority) && AttemptIs(x, r.value.0, true, authority, !authority)
                  && r.value.0.attempts[x.connection] == m.attempts[x.connection].(authorityValidated := authority, peerValidated := !authority))
  {
    hide Managers.ManagerInv, ProposalBytes;
    Managers.ValidateKeeps(m, x.connection, authority);
  }

  lemma ReceiveProposalSound(x: Exchange, m: Manager, req: Managers.Requirements, body: seq<u8>)
    requires ExchangeInv(x, m) && x.state.AwaitingProposal?
    ensures Sound(x, m, ReceiveProposal(x, m, req, body))
    ensures var d := ReceiveProposal(x, m, req, body);
            d.result.Ok? ==>
              && DecodeProposal(body, m.offerLimits).Ok? && d.x == x.(state := AwaitingEstablished)
              && d.result.value == Send(Frame(ValidatedFrame, []))
              && x.connection in m.attempts && x.connection in d.m.attempts
              && d.m.attempts[x.connection] == m.attempts[x.connection].(proposal := Some(DecodeProposal(body, m.offerLimits).value), peerValidated := true)
  {
    hide Leave, DecodeProposal, Managers.ManagerInv, Managers.Propose, Managers.Validate;
    if DecodeProposal(body, m.offerLimits).Err? {
      LeaveDecodeSound<Progress>(x, m, DecodeProposal(body, m.offerLimits).error);
      LeftWithError<Progress>(x, m, DecodeProposal(body, m.offerLimits).error);
    } else {
      var c := DecodeProposal(body, m.offerLimits).value;
      ProposeErrors(x, m, c, req);
      var r := Managers.Propose(m, x.connection, c, req);
      if r.Err? {
        LeaveIsSound<Progress>(x, m, LocalFailure(ManagerOutcome(r.error).value));
      } else {
        ValidateOutcome(x, r.value, false, false);
      }
    }
  }

  lemma LeftWithError<R>(x: Exchange, m: Manager, e: DecodeError)
    requires ExchangeInv(x, m)
    ensures LeaveFromDecode<R>(x, m, e).result.Err?
  {
    hide Managers.ManagerInv;
  }

  lemma AcknowledgementSound(x: Exchange, m: Manager, kind: FrameKind, body: seq<u8>)
    requires ExchangeInv(x, m)
    requires (x.state.AwaitingValidated? && kind.ValidatedFrame?) || (x.state.AwaitingEstablished? && kind.EstablishedFrame?)
    ensures Sound(x, m, ReceiveAcknowledgement(x, m, kind, body))
    ensures var d := ReceiveAcknowledgement(x, m, kind, body);
            d.result.Ok? ==>
              && d.x == x.(state := Established)
              && x.connection in d.m.established && x.connection in m.attempts && m.attempts[x.connection].proposal.Some?
              && d.m.established[x.connection] == m.attempts[x.connection].proposal.value
              && (kind.ValidatedFrame? ==> d.result.value == Send(Frame(EstablishedFrame, []))) && (kind.EstablishedFrame? ==> d.result.value == Agreed)
  {
    hide Leave, Managers.ManagerInv, Managers.Validate;
    if body != [] {
      LeaveIsSound<Progress>(x, m, ProfileProtocol(NonEmptyAcknowledgement(kind)));
    } else {
      ValidateOutcome(x, m, kind.EstablishedFrame?, true);
    }
  }

  lemma ProposeAuthoritySound(x: Exchange, m: Manager, c: Contract, req: Managers.Requirements, e: Enumeration)
    requires ExchangeInv(x, m) && Enumerates(e, c)
    ensures Sound(x, m, ProposeAuthority(x, m, c, req, e))
    ensures var d := ProposeAuthority(x, m, c, req, e);
            d.result.Ok? ==>
              && x.state.AwaitingAuthoritySelection? && x.role.Authority?
              && EncodeProposal(c, e, x.maxFrame).Ok? && d.result.value == Frame(ProposalFrame, EncodeProposal(c, e, x.maxFrame).value)
              && d.x == x.(state := AwaitingValidated)
              && x.connection in m.attempts && x.connection in d.m.attempts
              && d.m.attempts[x.connection] == m.attempts[x.connection].(proposal := Some(c), authorityValidated := true)
  {
    hide Leave, Managers.ManagerInv, Managers.Propose, Managers.Validate, Enumerates, EncodeProposal;
    LeaveIsSound<Frame>(x, m, ProfileProtocol(WrongLocalRole));
    LeaveIsSound<Frame>(x, m, ProfileProtocol(UnexpectedLocalOperation(x.state)));
    if x.role.Authority? && x.state.AwaitingAuthoritySelection? {
      ProposeErrors(x, m, c, req);
      var r := Managers.Propose(m, x.connection, c, req);
      if r.Err? {
        LeaveIsSound<Frame>(x, m, LocalFailure(ManagerOutcome(r.error).value));
      } else {
        ValidateOutcome(x, r.value, true, false);
        SendProposalSound(x, m, Managers.Validate(r.value, x.connection, true).value.0, c, e);
      }
    }
  }

  lemma SendProposalSound(x: Exchange, m: Manager, after: Manager, c: Contract, e: Enumeration)
    requires ExchangeInv(x, m) && Enumerates(e, c) && x.state.AwaitingAuthoritySelection? && Managers.ManagerInv(after)
    requires AttemptIs(x, after, true, true, false) && OthersKept(m, after, x.connection)
    ensures Sound(x, m, SendProposal(x, after, c, e))
    ensures var d := SendProposal(x, after, c, e);
            d.result.Ok? ==>
              EncodeProposal(c, e, x.maxFrame).Ok? && d.result.value == Frame(ProposalFrame, EncodeProposal(c, e, x.maxFrame).value)
              && d.x == x.(state := AwaitingValidated) && d.m == after
  {
    hide Leave, Managers.ManagerInv, Enumerates, EncodeProposal;
    if EncodeProposal(c, e, x.maxFrame).Err? {
      LeaveIsSound<Frame>(x, after, LocalFailure(EncodeProposal(c, e, x.maxFrame).error));
    }
  }

  lemma ReceiveFailureSound(x: Exchange, m: Manager, body: seq<u8>)
    requires ExchangeInv(x, m)
    ensures Sound(x, m, ReceiveFailure(x, m, body)) && ReceiveFailure(x, m, body).x.state.Failed?
    ensures ReceiveFailure(x, m, body).result.Ok? ==> ReceiveFailure(x, m, body).result.value.RemoteFailed?
  {
    hide Leave, Abort, ExchangeInv, Managers.ManagerInv, DecodeFailure;
    assert Managers.ManagerInv(m) && (x.managerOwned <==> m.Knows(x.connection)) by { Owned(x, m); }
    AbortSound(x, m);
    if DecodeFailure(body).Err? {
      LeaveIsSound<Progress>(x, m, ProfileProtocol(WireFault(DecodeFailure(body).error)));
    }
  }

  lemma Owned(x: Exchange, m: Manager)
    requires ExchangeInv(x, m)
    ensures Managers.ManagerInv(m) && (x.managerOwned <==> m.Knows(x.connection))
  {
    hide Managers.ManagerInv;
  }

  /** Whatever frame arrives, the exchange stays sound. */
  lemma ReceiveSound(x: Exchange, m: Manager, req: Managers.Requirements, f: Frame)
    requires ExchangeInv(x, m)
    ensures Sound(x, m, Receive(x, m, req, f))
    ensures var d := Receive(x, m, req, f);
            && (d.result.Ok? ==> (d.x.state.Failed? <==> d.result.value.RemoteFailed?))
            && (d.result.Ok? && !d.x.state.Failed? ==>
                  || (x.state.AwaitingPeerOffer? && f.kind.OfferFrame? && d == ReceiveOffer(x, m, f.body))
                  || (x.state.AwaitingProposal? && f.kind.ProposalFrame? && d == ReceiveProposal(x, m, req, f.body))
                  || (x.state.AwaitingValidated? && f.kind.ValidatedFrame? && d == ReceiveAcknowledgement(x, m, f.kind, f.body))
                  || (x.state.AwaitingEstablished? && f.kind.EstablishedFrame? && d == ReceiveAcknowledgement(x, m, f.kind, f.body)))
  {
    hide Leave, ExchangeInv, Sound, Managers.ManagerInv, ReceiveOffer, ReceiveProposal, ReceiveAcknowledgement, ReceiveFailure;
    Owned(x, m);
    if f.kind.FailedFrame? && !x.state.Established? && !x.state.Failed? {
      ReceiveFailureSound(x, m, f.body);
    } else if x.state.AwaitingPeerOffer? && f.kind.OfferFrame? {
      ReceiveOfferSound(x, m, f.body);
    } else if x.state.AwaitingProposal? && f.kind.ProposalFrame? {
      ReceiveProposalSound(x, m, req, f.body);
    } else if (x.state.AwaitingValidated? && f.kind.ValidatedFrame?) || (x.state.AwaitingEstablished? && f.kind.EstablishedFrame?) {
      AcknowledgementSound(x, m, f.kind, f.body);
    } else {
      LeaveIsSound<Progress>(x, m, ProfileProtocol(UnexpectedFrame(x.state, f.kind)));
    }
  }
}
