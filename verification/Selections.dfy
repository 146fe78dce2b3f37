/** When an attempt starts and when a contract is accepted, told by what the two offers contain. */
module Selections {
  import opened Basics
  import opened Offers
  import opened ProposalCodec
  import opened Managers

  // ---------------------------------------------------------------- what offers contain

  predicate OffersCapability(o: Offer, capability: u128) {
    exists c :: c in o.capabilities && c.id == capability
  }

  /** The offer can read and write the schema in this contract and codec. */
  predicate Speaks(o: Offer, schema: u128, contract: u128, codec: u128) {
    exists s, c :: s in o.schemas && s.id == schema && c in s.contracts && c.id == contract && codec in c.codecs
  }

  /** Some contract and codec of the schema is in both offers. */
  predicate BothSpeak(a: Offer, p: Offer, schema: u128) {
    exists contract, codec :: Speaks(a, schema, contract, codec) && Speaks(p, schema, contract, codec)
  }

  predicate ShareProtocol(a: Offer, p: Offer) {
    exists q :: q in a.protocols && q in p.protocols
  }

  /** The other side offers every capability that this side requires. */
  predicate MeetsCapabilities(requiring: Offer, other: Offer) {
    forall c :: c in requiring.capabilities && c.requirement == Required ==> OffersCapability(other, c.id)
  }

  predicate MeetsSchemas(requiring: Offer, other: Offer) {
    forall s :: s in requiring.schemas && s.requirement == Required ==> BothSpeak(requiring, other, s.id)
  }

  predicate Compatible(a: Offer, p: Offer) {
    && ShareProtocol(a, p)
    && MeetsCapabilities(a, p) && MeetsSchemas(a, p) && MeetsCapabilities(p, a) && MeetsSchemas(p, a)
  }

  // ---------------------------------------------------------------- what lookups find

  lemma {:induction false} CapabilityFound(capabilities: seq<Capability>, id: u128)
    ensures FindCapability(capabilities, id).Some? <==> exists c :: c in capabilities && c.id == id
  {
    if capabilities != [] {
      CapabilityFound(capabilities[1..], id);
      assert capabilities == [capabilities[0]] + capabilities[1..];
    }
  }

  lemma {:induction false} SchemaFound(schemas: seq<Schema>, id: u128)
    ensures var found := FindSchema(schemas, id);
            && (found.Some? ==> found.value in schemas && found.value.id == id)
            && (found.None? ==> forall s :: s in schemas ==> s.id != id)
  {
    if schemas != [] {
      SchemaFound(schemas[1..], id);
      assert schemas == [schemas[0]] + schemas[1..];
    }
  }

  predicate OneOfEach(schemas: seq<Schema>) {
    forall i, j :: 0 <= i < j < |schemas| ==> schemas[i].id != schemas[j].id
  }

  lemma ValidHasOneOfEach(o: Offer, lim: OfferLimits)
    requires ValidOffer(o, lim)
    ensures OneOfEach(o.schemas)
  {
    var key := (s: Schema) => s.id;
    assert DistinctBy(o.schemas, key);
    forall i, j | 0 <= i < j < |o.schemas| ensures o.schemas[i].id != o.schemas[j].id {
      assert key(o.schemas[i]) != key(o.schemas[j]);
    }
  }

  lemma BindingFound(o: Offer, id: u128, x: Selected)
    requires OneOfEach(o.schemas)
    ensures SupportsBinding(o, id, x) <==> Speaks(o, id, x.contract, x.codec)
  {
    SchemaFound(o.schemas, id);
  }

  lemma CommonFound(a: Offer, p: Offer, id: u128)
    requires OneOfEach(a.schemas) && OneOfEach(p.schemas)
    ensures CommonBinding(a, p, id) <==> BothSpeak(a, p, id)
  {
    hide OneOfEach, CommonBinding, BothSpeak;
    if CommonBinding(a, p, id) {
      CommonIsSpoken(a, p, id);
    }
    if BothSpeak(a, p, id) {
      SpokenIsCommon(a, p, id);
    }
  }

  lemma CommonIsSpoken(a: Offer, p: Offer, id: u128)
    requires CommonBinding(a, p, id)
    ensures BothSpeak(a, p, id)
  {
    SchemaFound(a.schemas, id);
    SchemaFound(p.schemas, id);
    hide FindSchema;
    var s, t := FindSchema(a.schemas, id).value, FindSchema(p.schemas, id).value;
    var c, d :| c in s.contracts && d in t.contracts && c.id == d.id && exists k :: k in c.codecs && k in d.codecs;
    var k :| k in c.codecs && k in d.codecs;
    assert Speaks(a, id, c.id, k) && Speaks(p, id, c.id, k);
  }

  lemma SpokenIsCommon(a: Offer, p: Offer, id: u128)
    requires OneOfEach(a.schemas) && OneOfEach(p.schemas) && BothSpeak(a, p, id)
    ensures CommonBinding(a, p, id)
  {
    hide FindSchema;
    var contract, codec :| Speaks(a, id, contract, codec) && Speaks(p, id, contract, codec);
    var s, c :| s in a.schemas && s.id == id && c in s.contracts && c.id == contract && codec in c.codecs;
    var t, d :| t in p.schemas && t.id == id && d in t.contracts && d.id == contract && codec in d.codecs;
    FindsTheOne(a.schemas, s);
    FindsTheOne(p.schemas, t);
    assert codec in c.codecs && codec in d.codecs;
  }

  lemma FindsTheOne(schemas: seq<Schema>, s: Schema)
    requires OneOfEach(schemas) && s in schemas
    ensures FindSchema(schemas, s.id) == Some(s)
  {
    SchemaFound(schemas, s.id);
  }

  lemma CapabilityHad(o: Offer, id: u128)
    ensures HasCapability(o, id) <==> OffersCapability(o, id)
  {
    CapabilityFound(o.capabilities, id);
  }

  // ---------------------------------------------------------------- starting

  lemma RequirementsAnswer(a: Offer, p: Offer)
    requires OneOfEach(a.schemas) && OneOfEach(p.schemas)
    ensures RequirementsError(a, p) ==
              if !MeetsCapabilities(a, p) then Some(CapabilityUnavailable) else if !MeetsSchemas(a, p) then Some(SchemaUnavailable) else None
  {
    hide HasCapability, CommonBinding, BothSpeak, OffersCapability;
    forall c | c in a.capabilities ensures HasCapability(p, c.id) <==> OffersCapability(p, c.id) {
      CapabilityHad(p, c.id);
    }
    forall s | s in a.schemas ensures CommonBinding(a, p, s.id) <==> BothSpeak(a, p, s.id) {
      CommonFound(a, p, s.id);
    }
  }

  lemma BothSpeakIsMutual(a: Offer, p: Offer, id: u128)
    ensures BothSpeak(a, p, id) <==> BothSpeak(p, a, id)
  {
    hide Speaks;
  }

  /** An attempt starts exactly if the connection is new, there is room for an attempt and for its
      reservation, both offers are valid, and they share a protocol and give each other what each requires.
      A refusal names the first of these, in this order, that is not so, and changes nothing. */
  lemma StartAnswers(m: Manager, connection: u64, a: Offer, p: Offer)
    ensures var r := Start(m, connection, a, p);
            var admitted := !m.Knows(connection) && |m.attempts| < m.maxAttempts && m.reserved + 3 * m.offerLimits.maxAccountedBytes <= m.maxAggregate;
            var valid := ValidOffer(a, m.offerLimits) && ValidOffer(p, m.offerLimits);
            && (r.Ok? <==> admitted && valid && Compatible(a, p))
            && (r == Err(ConnectionAlreadyKnown) <==> connection in m.attempts || connection in m.established)
            && (r == Err(AttemptLimitExceeded) <==> !m.Knows(connection) && |m.attempts| >= m.maxAttempts)
            && (r == Err(AggregateLimitExceeded) <==>
                  !m.Knows(connection) && |m.attempts| < m.maxAttempts && m.reserved + 3 * m.offerLimits.maxAccountedBytes > m.maxAggregate)
            && (r == Err(Negotiation(AuthorityOfferInvalid)) <==> admitted && !ValidOffer(a, m.offerLimits))
            && (r == Err(Negotiation(PeerOfferInvalid)) <==> admitted && ValidOffer(a, m.offerLimits) && !ValidOffer(p, m.offerLimits))
            && (r == Err(Negotiation(ProtocolsIncompatible)) <==> admitted && valid && !ShareProtocol(a, p))
            && (r == Err(Negotiation(CapabilityUnavailable)) <==>
                  admitted && valid && ShareProtocol(a, p)
                  && (!MeetsCapabilities(a, p) || (MeetsSchemas(a, p) && !MeetsCapabilities(p, a))))
            && (r == Err(Negotiation(SchemaUnavailable)) <==>
                  admitted && valid && ShareProtocol(a, p) && MeetsCapabilities(a, p)
                  && (!MeetsSchemas(a, p) || (MeetsCapabilities(p, a) && !MeetsSchemas(p, a))))
            && (r.Ok? ==>
                  r.value == m.(attempts := m.attempts[connection := Attempt(a, p, None, false, false)],
                                reserved := m.reserved + 3 * m.offerLimits.maxAccountedBytes))
  {
    hide ValidOffer, RequirementsError, MeetsCapabilities, MeetsSchemas;
    if ValidOffer(a, m.offerLimits) && ValidOffer(p, m.offerLimits) {
      ValidHasOneOfEach(a, m.offerLimits);
      ValidHasOneOfEach(p, m.offerLimits);
      RequirementsAnswer(a, p);
      RequirementsAnswer(p, a);
    }
  }

  // ---------------------------------------------------------------- proposing

  /** Both offers support all that the contract selects. */
  predicate Supported(a: Offer, p: Offer, c: Contract) {
    && (forall id :: id in c.capabilities ==> OffersCapability(a, id) && OffersCapability(p, id))
    && (forall id :: id in c.schemas ==>
          Speaks(a, id, c.schemas[id].contract, c.schemas[id].codec) && Speaks(p, id, c.schemas[id].contract, c.schemas[id].codec))
  }

  /** The contract selects all that the offer requires. */
  predicate Gives(c: Contract, o: Offer) {
    && (forall q :: q in o.capabilities && q.requirement == Required ==> q.id in c.capabilities)
    && (forall s :: s in o.schemas && s.requirement == Required ==> s.id in c.schemas)
  }

  predicate Suits(a: Offer, p: Offer, c: Contract) {
    c.protocol in a.protocols && c.protocol in p.protocols && Supported(a, p, c) && Gives(c, a) && Gives(c, p)
  }

  lemma SelectsIsSuits(a: Offer, p: Offer, c: Contract)
    requires OneOfEach(a.schemas) && OneOfEach(p.schemas)
    ensures Selects(a, p, c) <==> Suits(a, p, c)
  {
    hide HasCapability, SupportsBinding, OffersCapability, Speaks;
    forall id | id in c.capabilities ensures (HasCapability(a, id) <==> OffersCapability(a, id)) && (HasCapability(p, id) <==> OffersCapability(p, id)) {
      CapabilityHad(a, id);
      CapabilityHad(p, id);
    }
    forall id | id in c.schemas
      ensures SupportsBinding(a, id, c.schemas[id]) <==> Speaks(a, id, c.schemas[id].contract, c.schemas[id].codec)
      ensures SupportsBinding(p, id, c.schemas[id]) <==> Speaks(p, id, c.schemas[id].contract, c.schemas[id].codec)
    {
      BindingFound(a, id, c.schemas[id]);
      BindingFound(p, id, c.schemas[id]);
    }
  }

  /** What the host itself requires can be selected at all. */
  predicate Available(a: Offer, p: Offer, req: Requirements) {
    && (forall id :: id in req.capabilities ==> OffersCapability(a, id) && OffersCapability(p, id))
    && (forall id :: id in req.schemas ==> BothSpeak(a, p, id))
  }

  lemma SelectedIsAvailable(a: Offer, p: Offer, c: Contract, req: Requirements)
    requires Supported(a, p, c) && req.capabilities <= c.capabilities && req.schemas <= c.schemas.Keys
    ensures Available(a, p, req)
  {
    hide Speaks, OffersCapability;
    forall id | id in req.schemas ensures BothSpeak(a, p, id) {
      assert id in c.schemas;
    }
  }

  lemma SelectionAnswer(a: Offer, p: Offer, c: Contract, req: Requirements, lim: OfferLimits)
    requires OneOfEach(a.schemas) && OneOfEach(p.schemas)
    ensures var e := SelectionError(a, p, c, req, lim);
            var common := c.protocol in a.protocols && c.protocol in p.protocols;
            var fits := ContractWithin(c, lim);
            var capabilities := forall id :: id in req.capabilities ==> OffersCapability(a, id) && OffersCapability(p, id);
            && (e.None? <==> fits && Suits(a, p, c) && req.capabilities <= c.capabilities && req.schemas <= c.schemas.Keys)
            && (e == Some(SelectionTooLarge) <==> common && !fits)
            && (e == Some(CapabilityUnavailable) <==> fits && Suits(a, p, c) && !capabilities)
            && (e == Some(SchemaUnavailable) <==>
                  fits && Suits(a, p, c) && req.capabilities <= c.capabilities && !Available(a, p, req))
            && (e.None? || e == Some(SelectionTooLarge) || e == Some(CapabilityUnavailable) || e == Some(SchemaUnavailable) || e == Some(SelectionInvalid))
  {
    hide HasCapability, CommonBinding, BothSpeak, OffersCapability, Selects, ContractWithin, Supported, Gives;
    SelectsIsSuits(a, p, c);
    forall id | id in req.capabilities ensures (HasCapability(a, id) <==> OffersCapability(a, id)) && (HasCapability(p, id) <==> OffersCapability(p, id)) {
      CapabilityHad(a, id);
      CapabilityHad(p, id);
    }
    forall id | id in req.schemas ensures CommonBinding(a, p, id) <==> BothSpeak(a, p, id) {
      CommonFound(a, p, id);
    }
    SelectionCapabilities(a, p, c, req);
    if Suits(a, p, c) && req.capabilities <= c.capabilities && req.schemas <= c.schemas.Keys {
      SelectedIsAvailable(a, p, c, req);
    }
  }

  lemma SelectionCapabilities(a: Offer, p: Offer, c: Contract, req: Requirements)
    ensures Suits(a, p, c) && req.capabilities <= c.capabilities ==> forall id :: id in req.capabilities ==> OffersCapability(a, id) && OffersCapability(p, id)
  {
    hide OffersCapability, Speaks, Gives;
  }

  /** A proposal is accepted exactly if an attempt waits for one, the contract is within the limits and suits
      both offers, and it selects what the host itself requires. Each refusal has its own condition. */
  lemma ProposeAnswers(m: Manager, connection: u64, c: Contract, req: Requirements)
    requires ManagerInv(m)
    ensures var r := Propose(m, connection, c, req);
            && (r == Err(Negotiation(AlreadyEstablished)) <==> connection in m.established)
            && (r == Err(UnknownConnection) <==> !m.Knows(connection))
            && (connection in m.attempts ==>
                  var t := m.attempts[connection];
                  var a, p := t.authority, t.peer;
                  var fits := ContractWithin(c, m.offerLimits);
                  var waiting := t.proposal.None?;
                  && (r == Err(Negotiation(AlreadyProposed)) <==> !waiting)
                  && (r.Ok? <==> waiting && fits && Suits(a, p, c) && req.capabilities <= c.capabilities && req.schemas <= c.schemas.Keys)
                  && (r == Err(Negotiation(SelectionTooLarge)) <==> waiting && c.protocol in a.protocols && c.protocol in p.protocols && !fits)
                  && (r == Err(Negotiation(CapabilityUnavailable)) <==>
                        waiting && fits && Suits(a, p, c) && !Available(a, p, req.(schemas := {})))
                  && (r == Err(Negotiation(SchemaUnavailable)) <==>
                        waiting && fits && Suits(a, p, c) && req.capabilities <= c.capabilities && !Available(a, p, req))
                  && (r.Ok? ==> r.value == m.(attempts := m.attempts[connection := t.(proposal := Some(c))])))
            && (r.Err? ==> r.error in {Negotiation(AlreadyEstablished), UnknownConnection, Negotiation(AlreadyProposed), Negotiation(SelectionTooLarge),
                                       Negotiation(CapabilityUnavailable), Negotiation(SchemaUnavailable), Negotiation(SelectionInvalid)})
  {
    hide ValidOffer, Charged, Owed, Selects, SelectionError, ContractWithin, Suits, BothSpeak, OffersCapability;
    if connection in m.attempts {
      var t := m.attempts[connection];
      assert AttemptOk(m.offerLimits, t) && connection !in m.established;
      ValidHasOneOfEach(t.authority, m.offerLimits);
      ValidHasOneOfEach(t.peer, m.offerLimits);
      SelectionAnswer(t.authority, t.peer, c, req, m.offerLimits);
    }
  }

  /** A validation counts exactly if something was proposed; the second of the two establishes the contract
      proposed, the first one reports whose was given. */
  lemma ValidateAnswers(m: Manager, connection: u64, authority: bool)
    requires ManagerInv(m)
    ensures var r := Validate(m, connection, authority);
            && (r == Err(Negotiation(AlreadyEstablished)) <==> connection in m.established)
            && (r == Err(UnknownConnection) <==> !m.Knows(connection))
            && (connection in m.attempts ==>
                  var t := m.attempts[connection];
                  var other := if authority then t.peerValidated else t.authorityValidated;
                  && (r == Err(Negotiation(NoProposal)) <==> t.proposal.None?)
                  && (r.Ok? <==> t.proposal.Some?)
                  && (r.Ok? && !other ==>
                        && r.value.1 == AwaitingValidation(authority, !authority)
                        && r.value.0 == m.(attempts := m.attempts[connection := t.(authorityValidated := authority, peerValidated := !authority)]))
                  && (r.Ok? && other ==>
                        && r.value.1 == Established && r.value.0.attempts == m.attempts - {connection}
                        && r.value.0.established == m.established[connection := t.proposal.value]
                        && r.value.0.reserved == m.reserved - 3 * m.offerLimits.maxAccountedBytes + ProposalBytes(t.proposal.value)))
  {
    hide ValidOffer, Charged, Owed, Selects, ProposalBytes;
    if connection in m.attempts {
      var t := m.attempts[connection];
      assert AttemptOk(m.offerLimits, t) && connection !in m.established;
      var marked := if authority then t.(authorityValidated := true) else t.(peerValidated := true);
      assert m.attempts[connection := marked] - {connection} == m.attempts - {connection};
    }
  }
}
