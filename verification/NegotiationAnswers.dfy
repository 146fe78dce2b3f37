/** What an exchange answers to an offer, a proposal and a request to propose: when it goes on, and otherwise
    which outcome it reports. */
module NegotiationAnswers {
  import opened Basics
  import opened Wire
  import opened Offers
  import opened NegotiationBody
  import opened OfferCodec
  import opened ProposalCodec
  import opened Negotiation
  import opened Selections
  import Managers

  /** Room for one attempt more, and for its reservation. */
  predicate HasRoom(m: Manager) {
    |m.attempts| < m.maxAttempts && m.reserved + 3 * m.offerLimits.maxAccountedBytes <= m.maxAggregate
  }

  /** A peer's offer is taken exactly if the manager has room, both offers are valid here, they share a protocol
      and each gives the other what it requires. Otherwise the exchange reports why. */
  lemma OfferAnswer(x: Exchange, m: Manager, body: seq<u8>)
    requires ExchangeInv(x, m) && x.state.AwaitingPeerOffer? && DecodeOffer(body, m.offerLimits).Ok?
    ensures x.localOffer.Some?
    ensures var r := ReceiveOffer(x, m, body).result;
            var local, peer := x.localOffer.value, DecodeOffer(body, m.offerLimits).value;
            var a := if x.role.Authority? then local else peer;
            var p := if x.role.Authority? then peer else local;
            var valid := Managers.ValidOffer(a, m.offerLimits) && Managers.ValidOffer(p, m.offerLimits);
            && (r.Ok? <==> HasRoom(m) && valid && Compatible(a, p))
            && (r.Ok? ==> r.value == if x.role.Authority? then AuthoritySelectionRequired else Waiting)
            && (r == Err(LocalFailure(ResourceLimitExceeded)) <==> !HasRoom(m))
            && (r == Err(LocalFailure(MalformedOffer)) <==> HasRoom(m) && !valid)
            && (r == Err(LocalFailure(ProtocolIncompatible)) <==> HasRoom(m) && valid && !ShareProtocol(a, p))
            && (r == Err(LocalFailure(RequiredCapabilityUnavailable)) <==>
                  HasRoom(m) && valid && ShareProtocol(a, p)
                  && (!MeetsCapabilities(a, p) || (MeetsSchemas(a, p) && !MeetsCapabilities(p, a))))
            && (r == Err(LocalFailure(RequiredSchemaUnavailable)) <==>
                  HasRoom(m) && valid && ShareProtocol(a, p) && MeetsCapabilities(a, p)
                  && (!MeetsSchemas(a, p) || (MeetsCapabilities(p, a) && !MeetsSchemas(p, a))))
  {
    hide Managers.ManagerInv, Managers.ValidOffer, Managers.Start, DecodeOffer, ShareProtocol, MeetsCapabilities, MeetsSchemas;
    var local, peer := x.localOffer.value, DecodeOffer(body, m.offerLimits).value;
    var a := if x.role.Authority? then local else peer;
    var p := if x.role.Authority? then peer else local;
    StartAnswers(m, x.connection, a, p);
    ReceiveOfferSound(x, m, body);
    hide Leave;
    var started := Managers.Start(m, x.connection, a, p);
    if started.Err? {
      RefusalReported<Progress>(x.(localOffer := None), m, started.error);
    }
  }

  /** The outcome reported for each refusal of the manager. */
  lemma RefusalReported<R>(x: Exchange, m: Manager, e: Managers.ManagerError)
    requires Managers.ManagerInv(m) && (x.managerOwned <==> m.Knows(x.connection)) && ManagerOutcome(e).Ok?
    ensures LeaveFromManager<R>(x, m, e).result == Err(LocalFailure(ManagerOutcome(e).value))
  {
    hide Managers.ManagerInv;
    LeaveIsSound<R>(x, m, LocalFailure(ManagerOutcome(e).value));
  }

  /** What a contract is measured against: the offers of the attempt and what the host itself requires. */
  predicate Acceptable(m: Manager, connection: u64, c: Contract, req: Managers.Requirements)
    requires connection in m.attempts
  {
    var t := m.attempts[connection];
    ContractWithin(c, m.offerLimits) && Suits(t.authority, t.peer, c) && req.capabilities <= c.capabilities && req.schemas <= c.schemas.Keys
  }

  /** How a manager that waits for a proposal answers one, as the outcome to report; none if it accepts. */
  ghost predicate Judged(m: Manager, connection: u64, c: Contract, req: Managers.Requirements, outcome: Option<NegotiationOutcome>)
    requires connection in m.attempts
  {
    var t := m.attempts[connection];
    var a, p := t.authority, t.peer;
    var fits := ContractWithin(c, m.offerLimits);
    && (outcome == None <==> Acceptable(m, connection, c, req))
    && (outcome == Some(ResourceLimitExceeded) <==> c.protocol in a.protocols && c.protocol in p.protocols && !fits)
    && (outcome == Some(RequiredCapabilityUnavailable) <==> fits && Suits(a, p, c) && !Available(a, p, req.(schemas := {})))
    && (outcome == Some(RequiredSchemaUnavailable) <==> fits && Suits(a, p, c) && req.capabilities <= c.capabilities && !Available(a, p, req))
    && (outcome.Some? ==> outcome.value in {ResourceLimitExceeded, RequiredCapabilityUnavailable, RequiredSchemaUnavailable, InvalidSelection})
  }

  function OutcomeOf(r: Result<Manager, Managers.ManagerError>): Option<NegotiationOutcome> {
    if r.Err? && ManagerOutcome(r.error).Ok? then Some(ManagerOutcome(r.error).value) else None
  }

  lemma ProposalJudged(x: Exchange, m: Manager, c: Contract, req: Managers.Requirements)
    requires AttemptIs(x, m, false, false, false) && Managers.ManagerInv(m)
    ensures var r := Managers.Propose(m, x.connection, c, req);
            (r.Err? ==> ManagerOutcome(r.error).Ok?) && Judged(m, x.connection, c, req, OutcomeOf(r))
  {
    hide Managers.ManagerInv, Managers.Propose, ContractWithin, Suits, Available;
    ProposeAnswers(m, x.connection, c, req);
  }

  function ReportedOutcome<R>(r: Result<R, Error>): Option<NegotiationOutcome> {
    if r.Err? && r.error.LocalFailure? then Some(r.error.outcome) else None
  }

  /** A readable proposal is validated exactly if it is acceptable; otherwise the exchange reports why. */
  lemma ProposalAnswer(x: Exchange, m: Manager, req: Managers.Requirements, body: seq<u8>)
    requires ExchangeInv(x, m) && x.state.AwaitingProposal? && DecodeProposal(body, m.offerLimits).Ok?
    ensures x.connection in m.attempts
    ensures var r := ReceiveProposal(x, m, req, body).result;
            var c := DecodeProposal(body, m.offerLimits).value;
            && (r.Ok? <==> Acceptable(m, x.connection, c, req))
            && (r.Ok? ==> r.value == Send(Frame(ValidatedFrame, [])))
            && (r.Err? ==> r.error.LocalFailure?)
            && Judged(m, x.connection, c, req, ReportedOutcome(r))
  {
    hide Managers.ManagerInv, Managers.Propose, Managers.Validate, DecodeProposal, Acceptable, Judged, Leave;
    var c := DecodeProposal(body, m.offerLimits).value;
    ProposalJudged(x, m, c, req);
    ProposeErrors(x, m, c, req);
    var r := Managers.Propose(m, x.connection, c, req);
    if r.Err? {
      RefusalReported<Progress>(x, m, r.error);
    } else {
      ValidateOutcome(x, r.value, false, false);
    }
    JudgedNone(m, x.connection, c, req, OutcomeOf(r));
  }

  lemma JudgedNone(m: Manager, connection: u64, c: Contract, req: Managers.Requirements, outcome: Option<NegotiationOutcome>)
    requires connection in m.attempts
    ensures Judged(m, connection, c, req, outcome) ==> (outcome == None <==> Acceptable(m, connection, c, req))
  {
    hide Acceptable;
  }

  /** The authority proposes exactly when its turn has come, the contract is acceptable and its body fits a
      frame; otherwise the exchange fails, and reports the outcome if it is one the peer should know. */
  lemma ProposingAnswer(x: Exchange, m: Manager, c: Contract, req: Managers.Requirements, e: Enumeration)
    requires ExchangeInv(x, m) && Enumerates(e, c)
    ensures var r := ProposeAuthority(x, m, c, req, e).result;
            && (r == Err(ProfileProtocol(WrongLocalRole)) <==> x.role.NonAuthority?)
            && (r == Err(ProfileProtocol(UnexpectedLocalOperation(x.state))) <==> x.role.Authority? && !x.state.AwaitingAuthoritySelection?)
            && (x.role.Authority? && x.state.AwaitingAuthoritySelection? ==>
                  && x.connection in m.attempts
                  && (r.Ok? <==> Acceptable(m, x.connection, c, req) && EncodeProposal(c, e, x.maxFrame).Ok?)
                  && (Acceptable(m, x.connection, c, req) && EncodeProposal(c, e, x.maxFrame).Err? ==>
                        r == Err(LocalFailure(EncodeProposal(c, e, x.maxFrame).error)))
                  && (!Acceptable(m, x.connection, c, req) ==> Judged(m, x.connection, c, req, ReportedOutcome(r))))
  {
    hide Managers.ManagerInv, Managers.Propose, Managers.Validate, EncodeProposal, Acceptable, Judged, Leave, Enumerates;
    LeaveResults<Frame>(x, m);
    if x.role.Authority? && x.state.AwaitingAuthoritySelection? {
      ProposalJudged(x, m, c, req);
      ProposeErrors(x, m, c, req);
      var r := Managers.Propose(m, x.connection, c, req);
      JudgedNone(m, x.connection, c, req, OutcomeOf(r));
      if r.Err? {
        RefusalReported<Frame>(x, m, r.error);
      } else {
        ValidateOutcome(x, r.value, true, false);
        LeaveResults<Frame>(x, Managers.Validate(r.value, x.connection, true).value.0);
      }
    }
  }

  lemma LeaveResults<R>(x: Exchange, m: Manager)
    requires Managers.ManagerInv(m) && (x.managerOwned <==> m.Knows(x.connection))
    ensures forall error: Error :: Leave<R>(x, m, error).result == Err(error)
  {
    hide Managers.ManagerInv, Leave;
    forall error: Error ensures Leave<R>(x, m, error).result == Err(error) {
      LeaveSound<R>(x, m, error);
    }
  }

  /** A frame that its state does not expect fails the exchange with both named; a failure report ends it in
      every state but the last two, with the peer's outcome. */
  lemma OtherFramesAnswer(x: Exchange, m: Manager, req: Managers.Requirements, f: Frame)
    requires ExchangeInv(x, m)
    ensures var r := Receive(x, m, req, f).result;
            var over := x.state.Established? || x.state.Failed?;
            var expected :=
              || (x.state.AwaitingPeerOffer? && f.kind.OfferFrame?) || (x.state.AwaitingProposal? && f.kind.ProposalFrame?)
              || (x.state.AwaitingValidated? && f.kind.ValidatedFrame?) || (x.state.AwaitingEstablished? && f.kind.EstablishedFrame?);
            && (!expected && (over || !f.kind.FailedFrame?) ==> r == Err(ProfileProtocol(UnexpectedFrame(x.state, f.kind))))
            && (!over && f.kind.FailedFrame? ==>
                  r == match DecodeFailure(f.body) case Ok(outcome) => Ok(RemoteFailed(outcome)) case Err(fault) => Err(ProfileProtocol(WireFault(fault))))
  {
    hide Managers.ManagerInv, Leave, ReceiveOffer, ReceiveProposal, ReceiveAcknowledgement, Abort, DecodeFailure;
    LeaveResults<Progress>(x, m);
    AbortSound(x, m);
  }

  /** An acknowledgement in its place completes the exchange exactly if it is empty. */
  lemma AcknowledgementAnswer(x: Exchange, m: Manager, kind: FrameKind, body: seq<u8>)
    requires ExchangeInv(x, m)
    requires (x.state.AwaitingValidated? && kind.ValidatedFrame?) || (x.state.AwaitingEstablished? && kind.EstablishedFrame?)
    ensures var r := ReceiveAcknowledgement(x, m, kind, body).result;
            if body == [] then r == Ok(if kind.EstablishedFrame? then Agreed else Send(Frame(EstablishedFrame, [])))
            else r == Err(ProfileProtocol(NonEmptyAcknowledgement(kind)))
  {
    hide Managers.ManagerInv, Leave, Managers.Validate;
    LeaveResults<Progress>(x, m);
    if body == [] {
      ValidateOutcome(x, m, kind.EstablishedFrame?, true);
    }
  }

  /** This side's offer goes out exactly if nothing happened before, it is valid and unlabelled, and its body
      fits a frame. */
  lemma OfferingAnswer(x: Exchange, m: Manager, o: Offer)
    requires ExchangeInv(x, m)
    ensures var r := PrepareOffer(x, m, o).result;
            var proper := Managers.ValidOffer(o, m.offerLimits) && o.diagnosticLabel == None;
            && (r.Ok? <==> x.state.Ready? && proper && EncodeOffer(o, x.maxFrame).Ok?)
            && (!x.state.Ready? ==> r == Err(ProfileProtocol(UnexpectedLocalOperation(x.state))))
            && (x.state.Ready? && !proper ==> r == Err(LocalFailure(MalformedOffer)))
            && (x.state.Ready? && proper && EncodeOffer(o, x.maxFrame).Err? ==> r == Err(LocalFailure(EncodeOffer(o, x.maxFrame).error)))
  {
    hide Managers.ManagerInv, Leave, Managers.ValidOffer, EncodeOffer;
    LeaveResults<Frame>(x, m);
  }
}
