/** The body of NEGOTIATION_OFFER. */
module OfferCodec {
  import opened Basics
  import opened Wire
  import opened Offers
  import opened NegotiationBody

  // ---------------------------------------------------------------- encoding

  function WriteProtocol(p: Protocol): seq<u8> {
    IdBytes(p.id) + IdBytes(p.revision)
  }

  function WriteCapability(c: Capability): seq<u8> {
    IdBytes(c.id) + [Flag(c.requirement)]
  }

  /** The counts a varint can carry. */
  predicate ContractEncodable(c: SchemaContract) {
    |c.codecs| <= MAX_VARINT
  }

  predicate SchemaEncodable(s: Schema) {
    |s.contracts| <= MAX_VARINT && forall c :: c in s.contracts ==> ContractEncodable(c)
  }

  predicate Encodable(o: Offer) {
    && |o.protocols| <= MAX_VARINT && |o.capabilities| <= MAX_VARINT && |o.schemas| <= MAX_VARINT
    && forall s :: s in o.schemas ==> SchemaEncodable(s)
  }

  function WriteContract(c: SchemaContract): seq<u8> {
    if ContractEncodable(c) then IdBytes(c.id) + WriteList(IdBytes, c.codecs) else []
  }

  function WriteSchema(s: Schema): seq<u8> {
    if SchemaEncodable(s) then IdBytes(s.id) + [Flag(s.requirement)] + WriteList(WriteContract, s.contracts) else []
  }

  function OfferBody(o: Offer): seq<u8>
    requires Encodable(o)
  {
    WriteList(WriteProtocol, o.protocols) + WriteList(WriteCapability, o.capabilities) + WriteList(WriteSchema, o.schemas)
  }

  function ContractLength(c: SchemaContract): nat
    requires ContractEncodable(c)
  {
    16 + |Varint(|c.codecs|)| + 16 * |c.codecs|
  }

  function ContractsLength(contracts: seq<SchemaContract>): nat
    requires forall c :: c in contracts ==> ContractEncodable(c)
  {
    if contracts == [] then 0 else ContractLength(contracts[0]) + ContractsLength(contracts[1..])
  }

  function SchemasLength(schemas: seq<Schema>): nat
    requires forall s :: s in schemas ==> SchemaEncodable(s)
  {
    if schemas == [] then 0
    else
      assert SchemaEncodable(schemas[0]);
      17 + |Varint(|schemas[0].contracts|)| + ContractsLength(schemas[0].contracts) + SchemasLength(schemas[1..])
  }

  /** The length computed before encoding. */
  function OfferLength(o: Offer): nat
    requires Encodable(o)
  {
    |Varint(|o.protocols|)| + 32 * |o.protocols| + |Varint(|o.capabilities|)| + 17 * |o.capabilities| + |Varint(|o.schemas|)| + SchemasLength(o.schemas)
  }

  function EncodeOffer(o: Offer, maxBody: u64): Result<seq<u8>, NegotiationOutcome> {
    if o.diagnosticLabel.Some? then Err(MalformedOffer)
    else if !Encodable(o) || OfferLength(o) > maxBody then Err(ResourceLimitExceeded)
    else Ok(OfferBody(o))
  }

  // ---------------------------------------------------------------- decoding

  function ReadProtocol(c: Cursor): Parsed<Protocol> {
    var id :- ReadId(c);
    var revision :- ReadId(id.1);
    Ok((Offers.Protocol(id.0, revision.0), revision.1))
  }

  function ReadCapability(c: Cursor): Parsed<Capability> {
    var id :- ReadId(c);
    var requirement :- ReadRequirement(id.1);
    Ok((Capability(id.0, requirement.0), requirement.1))
  }

  function ReadContract(lim: OfferLimits, b: Budget, c: Cursor): Parsed<SchemaContract> {
    var id :- ReadId(c);
    var codecs :- ReadList(ReadId, lim.maxCodecsPerContract, 16, b, id.1);
    Ok((SchemaContract(id.0, codecs.0), codecs.1))
  }

  function ReadSchema(lim: OfferLimits, b: Budget, c: Cursor): Parsed<Schema> {
    var id :- ReadId(c);
    var requirement :- ReadRequirement(id.1);
    var contracts :- ReadList(c => ReadContract(lim, b, c), lim.maxContractsPerSchema, 16, b, requirement.1);
    Ok((Schema(id.0, requirement.0, contracts.0), contracts.1))
  }

  function OfferBudget(lim: OfferLimits): Budget {
    Budget(lim.maxAccountedBytes, MalformedOffer)
  }

  function ReadOffer(lim: OfferLimits, c: Cursor): Parsed<Offer> {
    var b := OfferBudget(lim);
    var protocols :- ReadList(ReadProtocol, lim.maxProtocols, 32, b, c);
    var capabilities :- ReadList(ReadCapability, lim.maxCapabilities, 17, b, protocols.1);
    var schemas :- ReadList(c => ReadSchema(lim, b, c), lim.maxSchemas, 17, b, capabilities.1);
    Ok((Offer(protocols.0, capabilities.0, schemas.0, None), schemas.1))
  }

  function DecodeOffer(body: seq<u8>, lim: OfferLimits): Result<Offer, DecodeError> {
    var r :- ReadOffer(lim, Cursor(body, 0));
    if r.1.rest == [] then Ok(r.0) else Err(Malformed(TrailingBytes))
  }

  // ---------------------------------------------------------------- each item is lossless

  function Free<T>(x: T): nat { 0 }

  function Always<T>(x: T): bool { true }

  function ContractCost(c: SchemaContract): nat {
    |c.codecs| * 16
  }

  function SchemaCost(s: Schema): nat {
    |s.contracts| * 16 + SumOf(ContractCost, s.contracts)
  }

  predicate ContractFits(lim: OfferLimits, c: SchemaContract) {
    SchemaContractWithin(c, lim) && ContractEncodable(c)
  }

  predicate SchemaFits(lim: OfferLimits, s: Schema) {
    SchemaWithin(s, lim) && SchemaEncodable(s)
  }

  lemma IdIsLossless(b: Budget)
    ensures Reads(ReadId, IdBytes, Free, Always, b)
  {
    hide ReadId, IdBytes;
    forall x: u128, rest, used: nat ensures ReadId(Cursor(IdBytes(x) + rest, used)) == Ok((x, Cursor(rest, used))) {
      IdReads(x, rest, used);
    }
    forall c: Cursor | ReadId(c).Ok?
      ensures c.rest == IdBytes(ReadId(c).value.0) + ReadId(c).value.1.rest && ReadId(c).value.1.used == c.used
    {
      IdWasWritten(c);
    }
  }

  lemma ProtocolIsLossless(b: Budget)
    ensures Reads(ReadProtocol, WriteProtocol, Free, Always, b)
  {
    hide ReadId, IdBytes;
    forall x: Protocol, rest, used: nat ensures ReadProtocol(Cursor(WriteProtocol(x) + rest, used)) == Ok((x, Cursor(rest, used))) {
      IdReads(x.id, IdBytes(x.revision) + rest, used);
      IdReads(x.revision, rest, used);
      assert WriteProtocol(x) + rest == IdBytes(x.id) + (IdBytes(x.revision) + rest);
    }
    forall c: Cursor | ReadProtocol(c).Ok?
      ensures c.rest == WriteProtocol(ReadProtocol(c).value.0) + ReadProtocol(c).value.1.rest && ReadProtocol(c).value.1.used == c.used
    {
      IdWasWritten(c);
      IdWasWritten(ReadId(c).value.1);
    }
  }

  lemma CapabilityIsLossless(b: Budget)
    ensures Reads(ReadCapability, WriteCapability, Free, Always, b)
  {
    hide ReadId, IdBytes, ReadRequirement, Flag;
    forall x: Capability, rest, used: nat ensures ReadCapability(Cursor(WriteCapability(x) + rest, used)) == Ok((x, Cursor(rest, used))) {
      IdReads(x.id, [Flag(x.requirement)] + rest, used);
      RequirementReads(x.requirement, rest, used);
      assert WriteCapability(x) + rest == IdBytes(x.id) + ([Flag(x.requirement)] + rest);
    }
    forall c: Cursor | ReadCapability(c).Ok?
      ensures c.rest == WriteCapability(ReadCapability(c).value.0) + ReadCapability(c).value.1.rest && ReadCapability(c).value.1.used == c.used
    {
      IdWasWritten(c);
      RequirementWasWritten(ReadId(c).value.1);
    }
  }

  lemma FreeSum<T>(xs: seq<T>)
    ensures SumOf(Free<T>, xs) == 0
  {
  }

  lemma ContractReads(lim: OfferLimits, b: Budget, x: SchemaContract, rest: seq<u8>, used: nat)
    requires ContractFits(lim, x) && used + ContractCost(x) <= b.limit
    ensures ReadContract(lim, b, Cursor(WriteContract(x) + rest, used)) == Ok((x, Cursor(rest, used + ContractCost(x))))
  {
    hide ReadId, IdBytes, ReadList, WriteList, Reads;
    var tail := WriteList(IdBytes, x.codecs) + rest;
    assert WriteContract(x) + rest == IdBytes(x.id) + tail;
    IdReads(x.id, tail, used);
    IdIsLossless(b);
    FreeSum(x.codecs);
    ListReads(ReadId, IdBytes, Free, Always, b, lim.maxCodecsPerContract, 16, x.codecs, rest, used);
  }

  lemma ContractWasWritten(lim: OfferLimits, b: Budget, c: Cursor)
    requires c.used <= b.limit && ReadContract(lim, b, c).Ok?
    ensures var (x, after) := ReadContract(lim, b, c).value;
            ContractFits(lim, x) && c.rest == WriteContract(x) + after.rest && after.used == c.used + ContractCost(x) <= b.limit
  {
    hide ReadId, IdBytes, ReadList, WriteList, Reads;
    IdWasWritten(c);
    var id := ReadId(c).value;
    IdIsLossless(b);
    ListWasWritten(ReadId, IdBytes, Free, Always, b, lim.maxCodecsPerContract, 16, id.1);
    var codecs := ReadList(ReadId, lim.maxCodecsPerContract, 16, b, id.1).value;
    FreeSum(codecs.0);
    assert c.rest == IdBytes(id.0) + (WriteList(IdBytes, codecs.0) + codecs.1.rest);
  }

  lemma ContractIsLossless(lim: OfferLimits, b: Budget)
    ensures Reads(c => ReadContract(lim, b, c), WriteContract, ContractCost, x => ContractFits(lim, x), b)
  {
    hide ReadContract, WriteContract, ContractCost, ContractFits;
    forall x, rest, used: nat | ContractFits(lim, x) && used + ContractCost(x) <= b.limit
      ensures ReadContract(lim, b, Cursor(WriteContract(x) + rest, used)) == Ok((x, Cursor(rest, used + ContractCost(x))))
    {
      ContractReads(lim, b, x, rest, used);
    }
    forall c: Cursor | c.used <= b.limit && ReadContract(lim, b, c).Ok?
      ensures var r := ReadContract(lim, b, c).value;
              ContractFits(lim, r.0) && c.rest == WriteContract(r.0) + r.1.rest && r.1.used == c.used + ContractCost(r.0) <= b.limit
    {
      ContractWasWritten(lim, b, c);
    }
  }

  lemma SchemaReads(lim: OfferLimits, b: Budget, x: Schema, rest: seq<u8>, used: nat)
    requires SchemaFits(lim, x) && used + SchemaCost(x) <= b.limit
    ensures ReadSchema(lim, b, Cursor(WriteSchema(x) + rest, used)) == Ok((x, Cursor(rest, used + SchemaCost(x))))
  {
    hide ReadId, IdBytes, ReadRequirement, Flag, ReadList, WriteList, Reads, ReadContract, WriteContract, SumOf;
    var tail := WriteList(WriteContract, x.contracts) + rest;
    assert WriteSchema(x) + rest == IdBytes(x.id) + ([Flag(x.requirement)] + tail);
    IdReads(x.id, [Flag(x.requirement)] + tail, used);
    RequirementReads(x.requirement, tail, used);
    ContractIsLossless(lim, b);
    var item := c => ReadContract(lim, b, c);
    ListReads(item, WriteContract, ContractCost, c => ContractFits(lim, c), b, lim.maxContractsPerSchema, 16, x.contracts, rest, used);
  }

  lemma SchemaWasWritten(lim: OfferLimits, b: Budget, c: Cursor)
    requires c.used <= b.limit && ReadSchema(lim, b, c).Ok?
    ensures var (x, after) := ReadSchema(lim, b, c).value;
            SchemaFits(lim, x) && c.rest == WriteSchema(x) + after.rest && after.used == c.used + SchemaCost(x) <= b.limit
  {
    hide ReadId, IdBytes, ReadRequirement, Flag, ReadList, WriteList, Reads, ReadContract, WriteContract, SumOf;
    IdWasWritten(c);
    var id := ReadId(c).value;
    RequirementWasWritten(id.1);
    var requirement := ReadRequirement(id.1).value;
    ContractIsLossless(lim, b);
    var item := c => ReadContract(lim, b, c);
    ListWasWritten(item, WriteContract, ContractCost, c => ContractFits(lim, c), b, lim.maxContractsPerSchema, 16, requirement.1);
    var contracts := ReadList(item, lim.maxContractsPerSchema, 16, b, requirement.1).value;
    assert c.rest == IdBytes(id.0) + ([Flag(requirement.0)] + (WriteList(WriteContract, contracts.0) + contracts.1.rest));
  }

  lemma SchemaIsLossless(lim: OfferLimits, b: Budget)
    ensures Reads(c => ReadSchema(lim, b, c), WriteSchema, SchemaCost, x => SchemaFits(lim, x), b)
  {
    hide ReadSchema, WriteSchema, SchemaCost, SchemaFits;
    forall x, rest, used: nat | SchemaFits(lim, x) && used + SchemaCost(x) <= b.limit
      ensures ReadSchema(lim, b, Cursor(WriteSchema(x) + rest, used)) == Ok((x, Cursor(rest, used + SchemaCost(x))))
    {
      SchemaReads(lim, b, x, rest, used);
    }
    forall c: Cursor | c.used <= b.limit && ReadSchema(lim, b, c).Ok?
      ensures var r := ReadSchema(lim, b, c).value;
              SchemaFits(lim, r.0) && c.rest == WriteSchema(r.0) + r.1.rest && r.1.used == c.used + SchemaCost(r.0) <= b.limit
    {
      SchemaWasWritten(lim, b, c);
    }
  }

  // ---------------------------------------------------------------- accounting

  lemma {:induction false} ContractsCost(contracts: seq<SchemaContract>)
    ensures SumOf(ContractCost, contracts) == ContractsBytes(contracts)
  {
    if contracts != [] {
      ContractsCost(contracts[1..]);
    }
  }

  /** What the decoder charges is the offer's accounting size. */
  lemma {:induction false} SchemasCost(schemas: seq<Schema>)
    ensures SumOf(SchemaCost, schemas) == SchemasBytes(schemas)
  {
    if schemas != [] {
      ContractsCost(schemas[0].contracts);
      SchemasCost(schemas[1..]);
    }
  }

  predicate OfferFits(lim: OfferLimits, o: Offer) {
    o.diagnosticLabel.None? && OfferWithin(o, lim) && Encodable(o)
  }

  lemma OfferReads(lim: OfferLimits, o: Offer, rest: seq<u8>)
    requires OfferFits(lim, o)
    ensures ReadOffer(lim, Cursor(OfferBody(o) + rest, 0)) == Ok((o, Cursor(rest, AccountedBytes(o))))
  {
    hide ReadProtocol, ReadCapability, ReadSchema, WriteProtocol, WriteCapability, WriteSchema, ReadList, WriteList, Reads, SumOf, SchemaCost;
    var b := OfferBudget(lim);
    var third := WriteList(WriteSchema, o.schemas) + rest;
    var second := WriteList(WriteCapability, o.capabilities) + third;
    assert OfferBody(o) + rest == WriteList(WriteProtocol, o.protocols) + second;
    SchemasCost(o.schemas);
    FreeSum(o.protocols);
    FreeSum(o.capabilities);
    ProtocolIsLossless(b);
    ListReads(ReadProtocol, WriteProtocol, Free, Always, b, lim.maxProtocols, 32, o.protocols, second, 0);
    CapabilityIsLossless(b);
    var used := |o.protocols| * 32;
    ListReads(ReadCapability, WriteCapability, Free, Always, b, lim.maxCapabilities, 17, o.capabilities, third, used);
    SchemaIsLossless(lim, b);
    ListReads(c => ReadSchema(lim, b, c), WriteSchema, SchemaCost, s => SchemaFits(lim, s), b, lim.maxSchemas, 17, o.schemas, rest, used + |o.capabilities| * 17);
  }

  lemma OfferWasWritten(lim: OfferLimits, c: Cursor)
    requires c.used == 0 && ReadOffer(lim, c).Ok?
    ensures var (o, after) := ReadOffer(lim, c).value;
            OfferFits(lim, o) && c.rest == OfferBody(o) + after.rest && after.used == AccountedBytes(o)
  {
    hide ReadProtocol, ReadCapability, ReadSchema, WriteProtocol, WriteCapability, WriteSchema, ReadList, WriteList, Reads, SumOf, SchemaCost;
    var b := OfferBudget(lim);
    ProtocolIsLossless(b);
    ListWasWritten(ReadProtocol, WriteProtocol, Free, Always, b, lim.maxProtocols, 32, c);
    var protocols := ReadList(ReadProtocol, lim.maxProtocols, 32, b, c).value;
    FreeSum(protocols.0);
    CapabilityIsLossless(b);
    ListWasWritten(ReadCapability, WriteCapability, Free, Always, b, lim.maxCapabilities, 17, protocols.1);
    var capabilities := ReadList(ReadCapability, lim.maxCapabilities, 17, b, protocols.1).value;
    FreeSum(capabilities.0);
    SchemaIsLossless(lim, b);
    var item := c => ReadSchema(lim, b, c);
    ListWasWritten(item, WriteSchema, SchemaCost, s => SchemaFits(lim, s), b, lim.maxSchemas, 17, capabilities.1);
    var schemas := ReadList(item, lim.maxSchemas, 17, b, capabilities.1).value;
    SchemasCost(schemas.0);
    assert c.rest == WriteList(WriteProtocol, protocols.0)
                     + (WriteList(WriteCapability, capabilities.0) + (WriteList(WriteSchema, schemas.0) + schemas.1.rest));
  }

  /** A body decodes to an offer exactly when the offer is unlabelled, within the limits and its accounting
      size within the budget, and the body is its one encoding. */
  lemma OfferBijection(body: seq<u8>, lim: OfferLimits, o: Offer)
    ensures DecodeOffer(body, lim) == Ok(o) <==> OfferFits(lim, o) && OfferBody(o) == body
  {
    hide ReadOffer, OfferWithin, Encodable, OfferBody;
    if OfferFits(lim, o) && OfferBody(o) == body {
      OfferReads(lim, o, []);
      assert body + [] == body;
    }
    if DecodeOffer(body, lim) == Ok(o) {
      OfferWasWritten(lim, Cursor(body, 0));
      assert OfferBody(o) + [] == body;
    }
  }

  // ---------------------------------------------------------------- the length computed up front

  lemma {:induction false} FixedWidth<T>(write: T -> seq<u8>, width: nat, xs: seq<T>)
    requires forall x :: |write(x)| == width
    ensures |WriteMany(write, xs)| == width * |xs|
  {
    if xs != [] {
      FixedWidth(write, width, xs[1..]);
    }
  }

  lemma {:induction false} ContractsLengthIsExact(contracts: seq<SchemaContract>)
    requires forall c :: c in contracts ==> ContractEncodable(c)
    ensures |WriteMany(WriteContract, contracts)| == ContractsLength(contracts)
  {
    if contracts != [] {
      assert ContractEncodable(contracts[0]);
      FixedWidth(IdBytes, 16, contracts[0].codecs);
      ContractsLengthIsExact(contracts[1..]);
    }
  }

  lemma {:induction false} SchemasLengthIsExact(schemas: seq<Schema>)
    requires forall s :: s in schemas ==> SchemaEncodable(s)
    ensures |WriteMany(WriteSchema, schemas)| == SchemasLength(schemas)
  {
    if schemas != [] {
      assert SchemaEncodable(schemas[0]);
      ContractsLengthIsExact(schemas[0].contracts);
      SchemasLengthIsExact(schemas[1..]);
    }
  }

  lemma OfferLengthIsExact(o: Offer)
    requires Encodable(o)
    ensures |OfferBody(o)| == OfferLength(o)
  {
    FixedWidth(WriteProtocol, 32, o.protocols);
    FixedWidth(WriteCapability, 17, o.capabilities);
    SchemasLengthIsExact(o.schemas);
  }

  /** An offer that encodes decodes back to itself exactly when it is within the receiver's limits, and an
      accepted body always encodes again to the same octets within its own length. */
  lemma OfferRoundTrip(o: Offer, maxBody: u64, lim: OfferLimits)
    requires EncodeOffer(o, maxBody).Ok?
    ensures |EncodeOffer(o, maxBody).value| <= maxBody
    ensures DecodeOffer(EncodeOffer(o, maxBody).value, lim) == Ok(o) <==> OfferWithin(o, lim)
  {
    hide DecodeOffer, OfferBody, OfferLength, OfferWithin, Encodable;
    OfferBijection(OfferBody(o), lim, o);
    OfferLengthIsExact(o);
  }

  lemma AcceptedBodyEncodesAgain(body: seq<u8>, lim: OfferLimits)
    requires |body| <= U64_MAX && DecodeOffer(body, lim).Ok?
    ensures EncodeOffer(DecodeOffer(body, lim).value, |body|) == Ok(body)
  {
    hide DecodeOffer, OfferBody, OfferLength, OfferWithin, Encodable;
    OfferBijection(body, lim, DecodeOffer(body, lim).value);
    OfferLengthIsExact(DecodeOffer(body, lim).value);
  }
}
