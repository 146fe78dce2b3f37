/** The exchange in place, over a manager in place. */
module NegotiationExchanges {
  import opened Basics
  import opened Wire
  import opened Offers
  import opened NegotiationBody
  import opened OfferCodec
  import opened OfferReaders
  import opened OfferWriters
  import opened ProposalCodec
  import opened ProposalReaders
  import opened Negotiation
  import Managers

  class NegotiationManager {
    var value: Manager

    ghost predicate Valid()
      reads this
    {
      Managers.ManagerInv(value)
    }

    constructor (value: Manager)
      requires Managers.ManagerInv(value)
      ensures Valid() && this.value == value
    {
      this.value := value;
    }

    method Start(connection: u64, authority: Offer, peer: Offer) returns (r: Result<(), Managers.ManagerError>)
      requires Valid()
      modifies this
      ensures Valid()
      ensures match Managers.Start(old(value), connection, authority, peer)
              case Err(e) => r == Err(e) && value == old(value)
              case Ok(started) => r == Ok(()) && value == started
    {
      hide Managers.ManagerInv, Managers.AttemptError;
      var started := Managers.Start(value, connection, authority, peer);
      if started.Err? {
        return Err(started.error);
      }
      Managers.StartKeeps(value, connection, authority, peer);
      value := started.value;
      return Ok(());
    }

    method Propose(connection: u64, c: Contract, req: Managers.Requirements) returns (r: Result<(), Managers.ManagerError>)
      requires Valid()
      modifies this
      ensures Valid()
      ensures match Managers.Propose(old(value), connection, c, req)
              case Err(e) => r == Err(e) && value == old(value)
              case Ok(proposed) => r == Ok(()) && value == proposed
    {
      hide Managers.ManagerInv, Managers.SelectionError;
      var proposed := Managers.Propose(value, connection, c, req);
      if proposed.Err? {
        return Err(proposed.error);
      }
      Managers.ProposeKeeps(value, connection, c, req);
      value := proposed.value;
      return Ok(());
    }

    method Validate(connection: u64, authority: bool) returns (r: Result<Managers.Status, Managers.ManagerError>)
      requires Valid()
      modifies this
      ensures Valid()
      ensures match Managers.Validate(old(value), connection, authority)
              case Err(e) => r == Err(e) && value == old(value)
              case Ok((validated, status)) => r == Ok(status) && value == validated
    {
      hide Managers.ManagerInv;
      var validated := Managers.Validate(value, connection, authority);
      if validated.Err? {
        return Err(validated.error);
      }
      Managers.ValidateKeeps(value, connection, authority);
      value := validated.value.0;
      return Ok(validated.value.1);
    }

    method Terminate(connection: u64) returns (r: Result<(), Managers.ManagerError>)
      requires Valid()
      modifies this
      ensures Valid()
      ensures match Managers.Terminate(old(value), connection)
              case Err(e) => r == Err(e) && value == old(value)
              case Ok(released) => r == Ok(()) && value == released
    {
      hide Managers.ManagerInv;
      var released := Managers.Terminate(value, connection);
      if released.Err? {
        return Err(released.error);
      }
      Managers.TerminateKeeps(value, connection);
      value := released.value;
      return Ok(());
    }
  }

  class NegotiationExchange {
    const connection: u64
    const role: Role
    const maxFrame: u64
    var state: State
    var localOffer: Option<Offer>
    var managerOwned: bool

    function Value(): Exchange
      reads this
    {
      Exchange(connection, role, maxFrame, state, localOffer, managerOwned)
    }

    constructor (connection: u64, role: Role, maxFrame: u64)
      ensures Value() == NewExchange(connection, role, maxFrame)
    {
      this.connection, this.role, this.maxFrame := connection, role, maxFrame;
      state, localOffer, managerOwned := Ready, None, false;
    }

    /** Give up, releasing what the manager holds; the release error, if any, replaces the cause. */
    method Fail(manager: NegotiationManager, cause: Error) returns (error: Error)
      requires manager.Valid()
      modifies this, manager
      ensures manager.Valid()
      ensures Done(Value(), manager.value, Err(error)) == Leave<Frame>(old(Value()), old(manager.value), cause)
      ensures Done(Value(), manager.value, Err(error)) == Leave<Progress>(old(Value()), old(manager.value), cause)
    {
      hide Managers.ManagerInv, Managers.Terminate;
      localOffer, state := None, Failed;
      if !managerOwned {
        return cause;
      }
      managerOwned := false;
      var released := manager.Terminate(connection);
      return if released.Err? then ManagerState(released.error) else cause;
    }

    method FailFromManager(manager: NegotiationManager, e: Managers.ManagerError) returns (error: Error)
      requires manager.Valid()
      modifies this, manager
      ensures manager.Valid()
      ensures Done(Value(), manager.value, Err(error)) == LeaveFromManager<Frame>(old(Value()), old(manager.value), e)
      ensures Done(Value(), manager.value, Err(error)) == LeaveFromManager<Progress>(old(Value()), old(manager.value), e)
    {
      hide Leave, Managers.ManagerInv;
      var outcome := ManagerOutcome(e);
      error := Fail(manager, if outcome.Ok? then LocalFailure(outcome.value) else ManagerState(outcome.error));
    }

    method FailFromDecode(manager: NegotiationManager, e: DecodeError) returns (error: Error)
      requires manager.Valid()
      modifies this, manager
      ensures manager.Valid()
      ensures Done(Value(), manager.value, Err(error)) == LeaveFromDecode<Progress>(old(Value()), old(manager.value), e)
    {
      hide Leave, Managers.ManagerInv;
      error := Fail(manager, match e case Malformed(fault) => ProfileProtocol(WireFault(fault)) case Failure(outcome) => LocalFailure(outcome));
    }

    method PrepareOffer(manager: NegotiationManager, o: Offer) returns (r: Result<Frame, Error>)
      requires manager.Valid()
      modifies this, manager
      ensures manager.Valid() && Done(Value(), manager.value, r) == Negotiation.PrepareOffer(old(Value()), old(manager.value), o)
    {
      hide Leave, Managers.ManagerInv, Managers.ValidOffer, EncodeOffer;
      if !state.Ready? {
        var error := Fail(manager, ProfileProtocol(UnexpectedLocalOperation(state)));
        return Err(error);
      }
      if !Managers.ValidOffer(o, manager.value.offerLimits) || o.diagnosticLabel.Some? {
        var error := Fail(manager, LocalFailure(MalformedOffer));
        return Err(error);
      }
      var body := EncodeOfferBody(o, maxFrame);
      if body.Err? {
        var error := Fail(manager, LocalFailure(body.error));
        return Err(error);
      }
      localOffer, state := Some(o), AwaitingPeerOffer;
      return Ok(Frame(OfferFrame, body.value));
    }

    /** Propose a contract; which of its encodings is sent depends on the order its sets yield. */
    method ProposeAuthority(manager: NegotiationManager, c: Contract, req: Managers.Requirements) returns (r: Result<Frame, Error>, ghost e: Enumeration)
      requires manager.Valid()
      modifies this, manager
      ensures manager.Valid() && Enumerates(e, c)
      ensures Done(Value(), manager.value, r) == Negotiation.ProposeAuthority(old(Value()), old(manager.value), c, req, e)
    {
      hide Leave, LeaveFromManager, Managers.ManagerInv, Managers.Propose, Managers.Validate, Enumerates, EncodeProposal, ProposalLength;
      e := SomeOrder(c);
      if !role.Authority? {
        var error := Fail(manager, ProfileProtocol(WrongLocalRole));
        r := Err(error);
        return;
      }
      if !state.AwaitingAuthoritySelection? {
        var error := Fail(manager, ProfileProtocol(UnexpectedLocalOperation(state)));
        r := Err(error);
        return;
      }
      var proposed := manager.Propose(connection, c, req);
      if proposed.Err? {
        var error := FailFromManager(manager, proposed.error);
        r := Err(error);
        return;
      }
      var status := manager.Validate(connection, true);
      if status.Err? {
        var error := Fail(manager, ManagerState(status.error));
        r := Err(error);
        return;
      }
      if status.value != Managers.AwaitingValidation(true, false) {
        var error := Fail(manager, UnexpectedCoreStatus(status.value));
        r := Err(error);
        return;
      }
      r, e := FinishProposal(manager, c, e);
    }

    method FinishProposal(manager: NegotiationManager, c: Contract, ghost order: Enumeration) returns (r: Result<Frame, Error>, ghost e: Enumeration)
      requires manager.Valid() && Enumerates(order, c)
      modifies this, manager
      ensures manager.Valid() && Enumerates(e, c)
      ensures Done(Value(), manager.value, r) == SendProposal(old(Value()), old(manager.value), c, e)
    {
      hide Leave, Managers.ManagerInv, Enumerates, ProposalLength;
      e := order;
      var body, written := EncodeProposalBody(c, maxFrame);
      if body.Err? {
        var error := Fail(manager, LocalFailure(body.error));
        r := Err(error);
        return;
      }
      e := written.value;
      state := AwaitingValidated;
      r := Ok(Frame(ProposalFrame, body.value));
    }

    method Abort(manager: NegotiationManager) returns (r: Result<(), Error>)
      requires manager.Valid()
      modifies this, manager
      ensures manager.Valid() && Done(Value(), manager.value, r) == Negotiation.Abort(old(Value()), old(manager.value))
    {
      hide Managers.ManagerInv, Managers.Terminate;
      localOffer, state := None, Failed;
      if !managerOwned {
        return Ok(());
      }
      managerOwned := false;
      var released := manager.Terminate(connection);
      return if released.Err? then Err(ManagerState(released.error)) else Ok(());
    }

    method ReceivePeerOffer(manager: NegotiationManager, body: seq<u8>) returns (r: Result<Progress, Error>)
      requires manager.Valid()
      modifies this, manager
      ensures manager.Valid() && Done(Value(), manager.value, r) == ReceiveOffer(old(Value()), old(manager.value), body)
    {
      hide Leave, LeaveFromManager, LeaveFromDecode, Managers.ManagerInv, Managers.Start, DecodeOffer;
      var decoder := new OfferDecoder(body, manager.value.offerLimits);
      var peer := decoder.Decode();
      if peer.Err? {
        var error := FailFromDecode(manager, peer.error);
        return Err(error);
      }
      if localOffer.None? {
        r := Err(ProfileProtocol(UnexpectedLocalOperation(state)));
        state := Failed;
        return;
      }
      var local := localOffer.value;
      localOffer := None;
      var started;
      if role.Authority? {
        started := manager.Start(connection, local, peer.value);
      } else {
        started := manager.Start(connection, peer.value, local);
      }
      if started.Err? {
        var error := FailFromManager(manager, started.error);
        return Err(error);
      }
      managerOwned := true;
      if role.Authority? {
        state := AwaitingAuthoritySelection;
        return Ok(AuthoritySelectionRequired);
      }
      state := AwaitingProposal;
      return Ok(Waiting);
    }

    method ReceivePeerProposal(manager: NegotiationManager, req: Managers.Requirements, body: seq<u8>) returns (r: Result<Progress, Error>)
      requires manager.Valid()
      modifies this, manager
      ensures manager.Valid() && Done(Value(), manager.value, r) == ReceiveProposal(old(Value()), old(manager.value), req, body)
    {
      hide Leave, LeaveFromManager, LeaveFromDecode, Managers.ManagerInv, Managers.Propose, Managers.Validate, DecodeProposal;
      var decoder := new ProposalDecoder(body, manager.value.offerLimits);
      var c := decoder.Decode();
      if c.Err? {
        var error := FailFromDecode(manager, c.error);
        return Err(error);
      }
      var proposed := manager.Propose(connection, c.value, req);
      if proposed.Err? {
        var error := FailFromManager(manager, proposed.error);
        return Err(error);
      }
      var status := manager.Validate(connection, false);
      if status.Err? {
        var error := Fail(manager, ManagerState(status.error));
        return Err(error);
      }
      if status.value != Managers.AwaitingValidation(false, true) {
        var error := Fail(manager, UnexpectedCoreStatus(status.value));
        return Err(error);
      }
      state := AwaitingEstablished;
      return Ok(Send(Frame(ValidatedFrame, [])));
    }

    method ReceivePeerAcknowledgement(manager: NegotiationManager, kind: FrameKind, body: seq<u8>) returns (r: Result<Progress, Error>)
      requires manager.Valid()
      modifies this, manager
      ensures manager.Valid() && Done(Value(), manager.value, r) == ReceiveAcknowledgement(old(Value()), old(manager.value), kind, body)
    {
      hide Leave, Managers.ManagerInv, Managers.Validate;
      if body != [] {
        var error := Fail(manager, ProfileProtocol(NonEmptyAcknowledgement(kind)));
        return Err(error);
      }
      var status := manager.Validate(connection, kind.EstablishedFrame?);
      if status.Err? {
        var error := Fail(manager, ManagerState(status.error));
        return Err(error);
      }
      if !status.value.Established? {
        var error := Fail(manager, UnexpectedCoreStatus(status.value));
        return Err(error);
      }
      state := Established;
      return Ok(if kind.EstablishedFrame? then Agreed else Send(Frame(EstablishedFrame, [])));
    }

    method ReceivePeerFailure(manager: NegotiationManager, body: seq<u8>) returns (r: Result<Progress, Error>)
      requires manager.Valid()
      modifies this, manager
      ensures manager.Valid() && Done(Value(), manager.value, r) == ReceiveFailure(old(Value()), old(manager.value), body)
    {
      hide Leave, Negotiation.Abort, Managers.ManagerInv, DecodeFailure;
      var outcome := DecodeFailure(body);
      if outcome.Err? {
        var error := Fail(manager, ProfileProtocol(WireFault(outcome.error)));
        return Err(error);
      }
      var aborted := Abort(manager);
      return if aborted.Err? then Err(aborted.error) else Ok(RemoteFailed(outcome.value));
    }

    method ReceiveFrame(manager: NegotiationManager, req: Managers.Requirements, f: Frame) returns (r: Result<Progress, Error>)
      requires manager.Valid()
      modifies this, manager
      ensures manager.Valid() && Done(Value(), manager.value, r) == Receive(old(Value()), old(manager.value), req, f)
    {
      hide Leave, Managers.ManagerInv, ReceiveOffer, ReceiveProposal, ReceiveAcknowledgement, ReceiveFailure;
      if f.kind.FailedFrame? && !state.Established? && !state.Failed? {
        r := ReceivePeerFailure(manager, f.body);
      } else if state.AwaitingPeerOffer? && f.kind.OfferFrame? {
        r := ReceivePeerOffer(manager, f.body);
      } else if state.AwaitingProposal? && f.kind.ProposalFrame? {
        r := ReceivePeerProposal(manager, req, f.body);
      } else if state.AwaitingValidated? && f.kind.ValidatedFrame? {
        r := ReceivePeerAcknowledgement(manager, f.kind, f.body);
      } else if state.AwaitingEstablished? && f.kind.EstablishedFrame? {
        r := ReceivePeerAcknowledgement(manager, f.kind, f.body);
      } else {
        var error := Fail(manager, ProfileProtocol(UnexpectedFrame(state, f.kind)));
        r := Err(error);
      }
    }
  }

  /** Every contract can be written in some order. */
  lemma SomeOrder(c: Contract) returns (e: Enumeration)
    ensures Enumerates(e, c)
  {
    var capabilities := OrderOfSet(c.capabilities);
    var bindings := OrderOfMap(c.schemas);
    e := Enumeration(capabilities, bindings);
  }

  lemma {:induction false} OrderOfSet(s: set<u128>) returns (ids: seq<u128>)
    ensures Distinct(ids) && SetOf(ids) == s
  {
    if s == {} {
      ids := [];
    } else {
      var id :| id in s;
      var rest := OrderOfSet(s - {id});
      SetOfAppend(rest, id);
      StaysDistinct(rest, id);
      ids := rest + [id];
    }
  }

  lemma {:induction false} OrderOfMap(m: map<u128, Selected>) returns (bindings: seq<Binding>)
    ensures Distinct(SchemasOf(bindings)) && MapOf(bindings) == m
    decreases |m|
  {
    if m == map[] {
      bindings := [];
    } else {
      var id :| id in m;
      assert (m - {id}).Keys == m.Keys - {id};
      var rest := OrderOfMap(m - {id});
      OneMoreBinding(rest, Binding(id, m[id]));
      bindings := rest + [Binding(id, m[id])];
    }
  }
}
