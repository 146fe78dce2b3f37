/** The negotiation manager: attempts and established contracts per connection, under reserved bytes. */
module Managers {
  import opened Basics
  import opened Offers
  import opened ProposalCodec

  // ---------------------------------------------------------------- offers

  predicate ValidLimits(lim: OfferLimits) {
    && lim.maxProtocols > 0 && lim.maxCapabilities > 0 && lim.maxSchemas > 0 && lim.maxContractsPerSchema > 0
    && lim.maxCodecsPerContract > 0 && lim.maxAccountedBytes > 0
  }

  predicate DistinctBy<T, K(==)>(s: seq<T>, key: T -> K) {
    forall i, j :: 0 <= i < j < |s| ==> key(s[i]) != key(s[j])
  }

  predicate ValidContractOffer(c: SchemaContract, lim: OfferLimits) {
    0 < |c.codecs| <= lim.maxCodecsPerContract && DistinctBy(c.codecs, id => id)
  }

  predicate ValidSchema(s: Schema, lim: OfferLimits) {
    && 0 < |s.contracts| <= lim.maxContractsPerSchema && DistinctBy(s.contracts, (c: SchemaContract) => c.id)
    && forall c :: c in s.contracts ==> ValidContractOffer(c, lim)
  }

  /** An offer has a protocol, no duplicates, no empty lists, and stays within the limits. */
  predicate ValidOffer(o: Offer, lim: OfferLimits) {
    && ValidLimits(lim)
    && 0 < |o.protocols| <= lim.maxProtocols && |o.capabilities| <= lim.maxCapabilities && |o.schemas| <= lim.maxSchemas
    && (o.diagnosticLabel.Some? ==> |o.diagnosticLabel.value| <= lim.maxDiagnosticLabelBytes)
    && DistinctBy(o.protocols, (p: Protocol) => p) && DistinctBy(o.capabilities, (c: Capability) => c.id) && DistinctBy(o.schemas, (s: Schema) => s.id)
    && (forall s :: s in o.schemas ==> ValidSchema(s, lim))
    && AccountedBytes(o) + (if o.diagnosticLabel.Some? then |o.diagnosticLabel.value| else 0) <= lim.maxAccountedBytes
  }

  function FindCapability(capabilities: seq<Capability>, id: u128): Option<Capability> {
    if capabilities == [] then None
    else if capabilities[0].id == id then Some(capabilities[0])
    else FindCapability(capabilities[1..], id)
  }

  function FindSchema(schemas: seq<Schema>, id: u128): Option<Schema> {
    if schemas == [] then None
    else if schemas[0].id == id then Some(schemas[0])
    else FindSchema(schemas[1..], id)
  }

  predicate HasCapability(o: Offer, id: u128) {
    FindCapability(o.capabilities, id).Some?
  }

  predicate SupportsBinding(o: Offer, id: u128, s: Selected) {
    var found := FindSchema(o.schemas, id);
    found.Some? && exists c :: c in found.value.contracts && c.id == s.contract && s.codec in c.codecs
  }

  predicate CommonBinding(a: Offer, p: Offer, id: u128) {
    var first := FindSchema(a.schemas, id);
    var second := FindSchema(p.schemas, id);
    && first.Some? && second.Some?
    && exists c, d :: c in first.value.contracts && d in second.value.contracts && c.id == d.id && exists k :: k in c.codecs && k in d.codecs
  }

  datatype NegotiationError =
    | AuthorityOfferInvalid
    | PeerOfferInvalid
    | ProtocolsIncompatible
    | CapabilityUnavailable
    | SchemaUnavailable
    | SelectionInvalid
    | SelectionTooLarge
    | AlreadyProposed
    | NoProposal
    | AlreadyEstablished

  datatype ManagerError =
    | AttemptLimitExceeded
    | AggregateLimitExceeded
    | ConnectionAlreadyKnown
    | UnknownConnection
    | Negotiation(negotiationError: NegotiationError)

  /** What one offer requires of the other. */
  function RequirementsError(requiring: Offer, other: Offer): Option<NegotiationError> {
    if exists c :: c in requiring.capabilities && c.requirement.Required? && !HasCapability(other, c.id) then Some(CapabilityUnavailable)
    else if exists s :: s in requiring.schemas && s.requirement.Required? && !CommonBinding(requiring, other, s.id) then Some(SchemaUnavailable)
    else None
  }

  function AttemptError(a: Offer, p: Offer, lim: OfferLimits): Option<NegotiationError> {
    if !ValidOffer(a, lim) then Some(AuthorityOfferInvalid)
    else if !ValidOffer(p, lim) then Some(PeerOfferInvalid)
    else if forall q :: q in a.protocols ==> q !in p.protocols then Some(ProtocolsIncompatible)
    else if RequirementsError(a, p).Some? then RequirementsError(a, p)
    else RequirementsError(p, a)
  }

  // ---------------------------------------------------------------- selections

  datatype Requirements = Requirements(capabilities: set<u128>, schemas: set<u128>)

  /** A contract both offers support that gives each offer what it requires. */
  predicate Selects(a: Offer, p: Offer, c: Contract) {
    && c.protocol in a.protocols && c.protocol in p.protocols
    && (forall id :: id in c.capabilities ==> HasCapability(a, id) && HasCapability(p, id))
    && (forall id :: id in c.schemas ==> SupportsBinding(a, id, c.schemas[id]) && SupportsBinding(p, id, c.schemas[id]))
    && (forall q :: q in a.capabilities + p.capabilities && q.requirement.Required? ==> q.id in c.capabilities)
    && (forall s :: s in a.schemas + p.schemas && s.requirement.Required? ==> s.id in c.schemas)
  }

  function SelectionError(a: Offer, p: Offer, c: Contract, req: Requirements, lim: OfferLimits): Option<NegotiationError> {
    if c.protocol !in a.protocols || c.protocol !in p.protocols then Some(SelectionInvalid)
    else if !ContractWithin(c, lim) then Some(SelectionTooLarge)
    else if !Selects(a, p, c) then Some(SelectionInvalid)
    else if exists id :: id in req.capabilities && !(HasCapability(a, id) && HasCapability(p, id)) then Some(CapabilityUnavailable)
    else if exists id :: id in req.capabilities && id !in c.capabilities then Some(SelectionInvalid)
    else if exists id :: id in req.schemas && !CommonBinding(a, p, id) then Some(SchemaUnavailable)
    else if exists id :: id in req.schemas && id !in c.schemas then Some(SelectionInvalid)
    else None
  }

  // ---------------------------------------------------------------- the manager

  datatype Attempt = Attempt(authority: Offer, peer: Offer, proposal: Option<Contract>, authorityValidated: bool, peerValidated: bool)

  datatype Status = AwaitingProposal | AwaitingValidation(authorityValidated: bool, peerValidated: bool) | Established

  datatype Manager = Manager(offerLimits: OfferLimits, maxAttempts: nat, maxAggregate: usize, reserved: usize,
                             attempts: map<u64, Attempt>, established: map<u64, Contract>)
  {
    function PerAttempt(): nat {
      3 * offerLimits.maxAccountedBytes
    }

    predicate Knows(connection: u64) {
      connection in attempts || connection in established
    }
  }

  function StatusOf(t: Attempt): Status {
    if t.authorityValidated && t.peerValidated then Established
    else if t.proposal.Some? then AwaitingValidation(t.authorityValidated, t.peerValidated)
    else AwaitingProposal
  }

  function Lookup(m: Manager, connection: u64): Result<Attempt, ManagerError> {
    if connection in m.established then Err(Negotiation(AlreadyEstablished))
    else if connection !in m.attempts then Err(UnknownConnection)
    else Ok(m.attempts[connection])
  }

  function Start(m: Manager, connection: u64, a: Offer, p: Offer): Result<Manager, ManagerError> {
    if m.Knows(connection) then Err(ConnectionAlreadyKnown)
    else if |m.attempts| >= m.maxAttempts then Err(AttemptLimitExceeded)
    else if m.reserved + m.PerAttempt() > m.maxAggregate then Err(AggregateLimitExceeded)
    else match AttemptError(a, p, m.offerLimits)
      case Some(e) => Err(Negotiation(e))
      case None => Ok(m.(attempts := m.attempts[connection := Attempt(a, p, None, false, false)], reserved := m.reserved + m.PerAttempt()))
  }

  function Propose(m: Manager, connection: u64, c: Contract, req: Requirements): Result<Manager, ManagerError> {
    var t :- Lookup(m, connection);
    if StatusOf(t).Established? then Err(Negotiation(AlreadyEstablished))
    else if t.proposal.Some? then Err(Negotiation(AlreadyProposed))
    else match SelectionError(t.authority, t.peer, c, req, m.offerLimits)
      case Some(e) => Err(Negotiation(e))
      case None => Ok(m.(attempts := m.attempts[connection := t.(proposal := Some(c))]))
  }

  /** One side's validation; the second one promotes the attempt, whose reservation shrinks to the
      contract's own size. */
  function Validate(m: Manager, connection: u64, authority: bool): Result<(Manager, Status), ManagerError>
    requires ManagerInv(m)
  {
    var t :- Lookup(m, connection);
    if t.proposal.None? then Err(Negotiation(NoProposal))
    else
      var marked := if authority then t.(authorityValidated := true) else t.(peerValidated := true);
      var noted := m.attempts[connection := marked];
      if !StatusOf(marked).Established? then Ok((m.(attempts := noted), StatusOf(marked)))
      else
        PromotionFits(m, connection);
        Ok((m.(attempts := noted - {connection}, established := m.established[connection := t.proposal.value],
               reserved := m.reserved - m.PerAttempt() + ProposalBytes(t.proposal.value)), Established))
  }

  function Terminate(m: Manager, connection: u64): Result<Manager, ManagerError>
    requires ManagerInv(m)
  {
    if connection in m.attempts then
      PromotionFits(m, connection);
      Ok(m.(attempts := m.attempts - {connection}, reserved := m.reserved - m.PerAttempt()))
    else if connection in m.established then
      EstablishedFits(m, connection);
      Ok(m.(established := m.established - {connection}, reserved := m.reserved - ProposalBytes(m.established[connection])))
    else Err(UnknownConnection)
  }

  // ---------------------------------------------------------------- what the reservation stands for

  ghost function Charged(established: map<u64, Contract>): nat
    decreases |established|
  {
    if established == map[] then 0
    else
      var k :| k in established;
      assert |(established - {k}).Keys| < |established.Keys| by { assert (established - {k}).Keys == established.Keys - {k}; }
      ProposalBytes(established[k]) + Charged(established - {k})
  }

  lemma {:induction false} ChargedRemove(established: map<u64, Contract>, k: u64)
    requires k in established
    ensures Charged(established) == ProposalBytes(established[k]) + Charged(established - {k})
    decreases |established|
  {
    var j :| j in established && Charged(established) == ProposalBytes(established[j]) + Charged(established - {j});
    if k != j {
      assert (established - {k}).Keys == established.Keys - {k} && (established - {j}).Keys == established.Keys - {j};
      ChargedRemove(established - {j}, k);
      ChargedRemove(established - {k}, j);
      assert established - {k} - {j} == established - {j} - {k};
    }
  }

  lemma ChargedInsert(established: map<u64, Contract>, k: u64, c: Contract)
    requires k !in established
    ensures Charged(established[k := c]) == Charged(established) + ProposalBytes(c)
  {
    ChargedRemove(established[k := c], k);
    assert established[k := c] - {k} == established;
  }

  ghost predicate AttemptOk(lim: OfferLimits, t: Attempt) {
    && ValidOffer(t.authority, lim) && ValidOffer(t.peer, lim)
    && (t.proposal.Some? ==> ContractWithin(t.proposal.value, lim) && Selects(t.authority, t.peer, t.proposal.value))
    && (t.proposal.None? ==> !t.authorityValidated && !t.peerValidated)
    && !(t.authorityValidated && t.peerValidated)
  }

  /** The reserved bytes are three offers for each attempt plus the contracts established, and within the
      aggregate limit. */
  ghost predicate ManagerInv(m: Manager) {
    && |m.attempts| <= m.maxAttempts && (forall k :: k in m.attempts ==> k !in m.established)
    && m.reserved == Owed(|m.attempts|, m.PerAttempt()) + Charged(m.established) && m.reserved <= m.maxAggregate
    && (forall k :: k in m.attempts ==> AttemptOk(m.offerLimits, m.attempts[k]))
    && (forall k :: k in m.established ==> ProposalBytes(m.established[k]) <= m.offerLimits.maxAccountedBytes)
  }

  function Owed(attempts: nat, each: nat): nat {
    attempts * each
  }

  lemma OwedMore(attempts: nat, each: nat)
    ensures Owed(attempts + 1, each) == Owed(attempts, each) + each
  {
  }

  lemma PromotionFits(m: Manager, connection: u64)
    requires ManagerInv(m) && connection in m.attempts
    ensures |m.attempts - {connection}| == |m.attempts| - 1
    ensures m.reserved == Owed(|m.attempts| - 1, m.PerAttempt()) + m.PerAttempt() + Charged(m.established)
    ensures m.attempts[connection].proposal.Some? ==> ProposalBytes(m.attempts[connection].proposal.value) <= m.PerAttempt()
  {
    hide ValidOffer, Selects, Charged, Owed;
    assert (m.attempts - {connection}).Keys == m.attempts.Keys - {connection};
    assert AttemptOk(m.offerLimits, m.attempts[connection]);
    OwedMore(|m.attempts| - 1, m.PerAttempt());
  }

  lemma EstablishedFits(m: Manager, connection: u64)
    requires ManagerInv(m) && connection in m.established
    ensures m.reserved >= ProposalBytes(m.established[connection])
  {
    hide AttemptOk, Charged, ProposalBytes, Owed;
    ChargedRemove(m.established, connection);
  }

  /** An attempt that starts has two valid offers and nothing proposed. */
  lemma StartedShape(m: Manager, connection: u64, a: Offer, p: Offer)
    requires Start(m, connection, a, p).Ok?
    ensures !m.Knows(connection) && |m.attempts| < m.maxAttempts && m.reserved + m.PerAttempt() <= m.maxAggregate
    ensures ValidOffer(a, m.offerLimits) && ValidOffer(p, m.offerLimits)
    ensures Start(m, connection, a, p).value
            == m.(attempts := m.attempts[connection := Attempt(a, p, None, false, false)], reserved := m.reserved + m.PerAttempt())
  {
    hide ValidOffer, RequirementsError;
  }

  lemma AttemptAdded(m: Manager, connection: u64, t: Attempt)
    requires ManagerInv(m) && !m.Knows(connection) && AttemptOk(m.offerLimits, t)
    requires |m.attempts| < m.maxAttempts && m.reserved + m.PerAttempt() <= m.maxAggregate
    ensures ManagerInv(m.(attempts := m.attempts[connection := t], reserved := m.reserved + m.PerAttempt()))
  {
    hide AttemptOk, Charged, ProposalBytes, Owed;
    OneMoreAttempt(m.attempts, connection, t);
    OwedMore(|m.attempts|, m.PerAttempt());
  }

  lemma OneMoreAttempt(attempts: map<u64, Attempt>, connection: u64, t: Attempt)
    requires connection !in attempts
    ensures |attempts[connection := t]| == |attempts| + 1 && attempts[connection := t].Keys == attempts.Keys + {connection}
  {
  }

  lemma StartKeeps(m: Manager, connection: u64, a: Offer, p: Offer)
    requires ManagerInv(m) && Start(m, connection, a, p).Ok?
    ensures ManagerInv(Start(m, connection, a, p).value)
  {
    hide ManagerInv, ValidOffer, Start;
    StartedShape(m, connection, a, p);
    AttemptAdded(m, connection, Attempt(a, p, None, false, false));
  }

  lemma ProposeKeeps(m: Manager, connection: u64, c: Contract, req: Requirements)
    requires ManagerInv(m) && Propose(m, connection, c, req).Ok?
    ensures ManagerInv(Propose(m, connection, c, req).value)
    ensures Selects(m.attempts[connection].authority, m.attempts[connection].peer, c)
    ensures req.capabilities <= c.capabilities && req.schemas <= c.schemas.Keys
  {
    hide ValidOffer, Charged, Owed, Selects, CommonBinding, HasCapability, ContractWithin;
    var after := Propose(m, connection, c, req).value;
    assert after.attempts.Keys == m.attempts.Keys;
    assert AttemptOk(m.offerLimits, m.attempts[connection]);
    forall k | k in after.attempts ensures AttemptOk(after.offerLimits, after.attempts[k]) {
      assert AttemptOk(m.offerLimits, m.attempts[k]);
    }
  }

  lemma AttemptReplaced(m: Manager, connection: u64, t: Attempt)
    requires ManagerInv(m) && connection in m.attempts && AttemptOk(m.offerLimits, t)
    ensures ManagerInv(m.(attempts := m.attempts[connection := t]))
  {
    hide AttemptOk, Charged, Owed, ProposalBytes;
    assert m.attempts[connection := t].Keys == m.attempts.Keys;
    assert |m.attempts[connection := t]| == |m.attempts|;
  }

  lemma AttemptPromoted(m: Manager, connection: u64, c: Contract)
    requires ManagerInv(m) && connection in m.attempts && ProposalBytes(c) <= m.offerLimits.maxAccountedBytes && m.reserved >= m.PerAttempt()
    ensures ManagerInv(m.(attempts := m.attempts - {connection}, established := m.established[connection := c],
                          reserved := m.reserved - m.PerAttempt() + ProposalBytes(c)))
  {
    hide AttemptOk, Charged, Owed, ProposalBytes;
    PromotionFits(m, connection);
    ChargedInsert(m.established, connection, c);
    assert (m.attempts - {connection}).Keys == m.attempts.Keys - {connection};
  }

  lemma ValidateKeeps(m: Manager, connection: u64, authority: bool)
    requires ManagerInv(m) && Validate(m, connection, authority).Ok?
    ensures ManagerInv(Validate(m, connection, authority).value.0)
  {
    hide ValidOffer, Charged, Owed, Selects;
    var t := m.attempts[connection];
    assert AttemptOk(m.offerLimits, t);
    PromotionFits(m, connection);
    var marked := if authority then t.(authorityValidated := true) else t.(peerValidated := true);
    if StatusOf(marked).Established? {
      AttemptPromoted(m, connection, t.proposal.value);
      assert m.attempts[connection := marked] - {connection} == m.attempts - {connection};
    } else {
      assert AttemptOk(m.offerLimits, marked);
      hide ManagerInv, AttemptOk;
      AttemptReplaced(m, connection, marked);
    }
  }

  lemma AttemptRemoved(m: Manager, connection: u64)
    requires ManagerInv(m) && connection in m.attempts && m.reserved >= m.PerAttempt()
    ensures ManagerInv(m.(attempts := m.attempts - {connection}, reserved := m.reserved - m.PerAttempt()))
  {
    hide AttemptOk, Charged, Owed, ProposalBytes;
    PromotionFits(m, connection);
    assert (m.attempts - {connection}).Keys == m.attempts.Keys - {connection};
  }

  lemma EstablishedRemoved(m: Manager, connection: u64)
    requires ManagerInv(m) && connection in m.established && m.reserved >= ProposalBytes(m.established[connection])
    ensures ManagerInv(m.(established := m.established - {connection}, reserved := m.reserved - ProposalBytes(m.established[connection])))
  {
    hide AttemptOk, Charged, Owed, ProposalBytes;
    ChargedRemove(m.established, connection);
    assert (m.established - {connection}).Keys == m.established.Keys - {connection};
  }

  lemma OneOrTheOther(m: Manager, connection: u64)
    requires ManagerInv(m)
    ensures connection in m.attempts ==> connection !in m.established
  {
    hide AttemptOk, Charged, Owed, ProposalBytes;
  }

  lemma TerminatedShape(m: Manager, connection: u64)
    requires ManagerInv(m) && Terminate(m, connection).Ok?
    ensures connection in m.attempts ==>
              m.reserved >= m.PerAttempt() && Terminate(m, connection).value == m.(attempts := m.attempts - {connection}, reserved := m.reserved - m.PerAttempt())
    ensures connection !in m.attempts ==>
              && connection in m.established && m.reserved >= ProposalBytes(m.established[connection])
              && Terminate(m, connection).value
                 == m.(established := m.established - {connection}, reserved := m.reserved - ProposalBytes(m.established[connection]))
    ensures Terminate(m, connection).value.Knows(connection) ==> connection in m.attempts && connection in m.established
  {
    hide ManagerInv, ProposalBytes;
    if connection in m.attempts {
      PromotionFits(m, connection);
    } else {
      EstablishedFits(m, connection);
    }
  }

  lemma TerminateKeeps(m: Manager, connection: u64)
    requires ManagerInv(m) && Terminate(m, connection).Ok?
    ensures ManagerInv(Terminate(m, connection).value)
    ensures !Terminate(m, connection).value.Knows(connection)
  {
    hide *;
    OneOrTheOther(m, connection);
    TerminatedShape(m, connection);
    if connection in m.attempts {
      AttemptRemoved(m, connection);
    } else {
      EstablishedRemoved(m, connection);
    }
  }

  /** A valid unlabelled offer is one its receiver's decoder takes, under the same limits. */
  lemma ValidIsWithin(o: Offer, lim: OfferLimits)
    requires ValidOffer(o, lim)
    ensures OfferWithin(o, lim)
  {
    forall s | s in o.schemas ensures SchemaWithin(s, lim) {
      assert ValidSchema(s, lim);
      forall c | c in s.contracts ensures SchemaContractWithin(c, lim) {
        assert ValidContractOffer(c, lim);
      }
    }
  }
}
