/** What the negotiation decoders say of a body that is well written but not acceptable: over the limits, or
    with a repetition in it. */
module CodecAnswers {
  import opened Basics
  import opened Wire
  import opened Offers
  import opened NegotiationBody
  import opened OfferCodec
  import opened ProposalCodec

  /** `item` refuses what `write` wrote of a value that does not fit or goes over the budget, with the outcome
      of the budget. */
  ghost predicate Refuses<T(!new)>(item: Cursor -> Parsed<T>, write: T -> seq<u8>, cost: T -> nat, fits: T -> bool, written: T -> bool, b: Budget) {
    forall x, rest, used: nat :: written(x) && used <= b.limit && !(fits(x) && used + cost(x) <= b.limit) ==>
      item(Cursor(write(x) + rest, used)) == Err(Failure(b.exceeded))
  }

  lemma OneRefused<T(!new)>(item: Cursor -> Parsed<T>, write: T -> seq<u8>, cost: T -> nat, fits: T -> bool, written: T -> bool, b: Budget,
                            x: T, rest: seq<u8>, used: nat)
    requires Refuses(item, write, cost, fits, written, b)
    requires written(x) && used <= b.limit && !(fits(x) && used + cost(x) <= b.limit)
    ensures item(Cursor(write(x) + rest, used)) == Err(Failure(b.exceeded))
  {
  }

  lemma {:induction false} ManyRefused<T(!new)>(item: Cursor -> Parsed<T>, write: T -> seq<u8>, cost: T -> nat, fits: T -> bool, written: T -> bool,
                                                b: Budget, xs: seq<T>, rest: seq<u8>, used: nat)
    requires Reads(item, write, cost, fits, b) && Refuses(item, write, cost, fits, written, b)
    requires (forall x :: x in xs ==> written(x)) && used <= b.limit
    requires !((forall x :: x in xs ==> fits(x)) && used + SumOf(cost, xs) <= b.limit)
    ensures ReadMany(item, |xs|, Cursor(WriteMany(write, xs) + rest, used)) == Err(Failure(b.exceeded))
  {
    hide Reads, Refuses;
    var tail := WriteMany(write, xs[1..]) + rest;
    assert WriteMany(write, xs) + rest == write(xs[0]) + tail;
    assert xs == [xs[0]] + xs[1..];
    if fits(xs[0]) && used + cost(xs[0]) <= b.limit {
      OneReads(item, write, cost, fits, b, xs[0], tail, used);
      ManyRefused(item, write, cost, fits, written, b, xs[1..], rest, used + cost(xs[0]));
    } else {
      OneRefused(item, write, cost, fits, written, b, xs[0], tail, used);
    }
  }

  lemma CountIsRead(n: nat, rest: seq<u8>, used: nat, max: usize, exceeded: NegotiationOutcome)
    requires n <= MAX_VARINT
    ensures ReadCount(Cursor(Varint(n) + rest, used), max, exceeded) ==
              if n > max then Err(Failure(exceeded)) else Ok((n, Cursor(rest, used)))
  {
    hide Varint, DecodeVarint;
    DecodeVarintAppend(n, rest);
    assert (Varint(n) + rest)[|Varint(n)|..] == rest;
  }

  lemma ListRefused<T(!new)>(item: Cursor -> Parsed<T>, write: T -> seq<u8>, cost: T -> nat, fits: T -> bool, written: T -> bool, b: Budget,
                             max: usize, width: nat, xs: seq<T>, rest: seq<u8>, used: nat)
    requires Reads(item, write, cost, fits, b) && Refuses(item, write, cost, fits, written, b)
    requires |xs| <= MAX_VARINT && (forall x :: x in xs ==> written(x)) && used <= b.limit
    requires !(|xs| <= max && (forall x :: x in xs ==> fits(x)) && used + |xs| * width + SumOf(cost, xs) <= b.limit)
    ensures ReadList(item, max, width, b, Cursor(WriteList(write, xs) + rest, used)) == Err(Failure(b.exceeded))
  {
    hide Reads, Refuses, ReadCount, ReadMany, WriteMany, SumOf, Varint;
    var tail := WriteMany(write, xs) + rest;
    assert WriteList(write, xs) + rest == Varint(|xs|) + tail;
    CountIsRead(|xs|, tail, used, max, b.exceeded);
    if |xs| <= max && used + |xs| * width <= b.limit {
      ManyRefused(item, write, cost, fits, written, b, xs, rest, used + |xs| * width);
    }
  }

  // ---------------------------------------------------------------- offers

  lemma FreeIsNeverRefused<T(!new)>(item: Cursor -> Parsed<T>, write: T -> seq<u8>, b: Budget)
    ensures Refuses(item, write, Free, Always, Always, b)
  {
  }

  lemma ContractRefused(lim: OfferLimits, b: Budget, x: SchemaContract, rest: seq<u8>, used: nat)
    requires ContractEncodable(x) && used <= b.limit && !(ContractFits(lim, x) && used + ContractCost(x) <= b.limit)
    ensures ReadContract(lim, b, Cursor(WriteContract(x) + rest, used)) == Err(Failure(b.exceeded))
  {
    hide ReadId, IdBytes, ReadList, WriteList, Reads, Refuses;
    var tail := WriteList(IdBytes, x.codecs) + rest;
    assert WriteContract(x) + rest == IdBytes(x.id) + tail;
    IdReads(x.id, tail, used);
    IdIsLossless(b);
    FreeIsNeverRefused(ReadId, IdBytes, b);
    FreeSum(x.codecs);
    ListRefused(ReadId, IdBytes, Free, Always, Always, b, lim.maxCodecsPerContract, 16, x.codecs, rest, used);
  }

  lemma ContractsAreRefused(lim: OfferLimits, b: Budget)
    ensures Refuses(c => ReadContract(lim, b, c), WriteContract, ContractCost, x => ContractFits(lim, x), ContractEncodable, b)
  {
    hide ReadContract, WriteContract, ContractCost, ContractFits, ContractEncodable;
    forall x, rest, used: nat | ContractEncodable(x) && used <= b.limit && !(ContractFits(lim, x) && used + ContractCost(x) <= b.limit)
      ensures ReadContract(lim, b, Cursor(WriteContract(x) + rest, used)) == Err(Failure(b.exceeded))
    {
      ContractRefused(lim, b, x, rest, used);
    }
  }

  lemma SchemaRefused(lim: OfferLimits, b: Budget, x: Schema, rest: seq<u8>, used: nat)
    requires SchemaEncodable(x) && used <= b.limit && !(SchemaFits(lim, x) && used + SchemaCost(x) <= b.limit)
    ensures ReadSchema(lim, b, Cursor(WriteSchema(x) + rest, used)) == Err(Failure(b.exceeded))
  {
    hide ReadId, IdBytes, ReadRequirement, Flag, ReadList, WriteList, Reads, Refuses, ReadContract, WriteContract, SumOf;
    var tail := WriteList(WriteContract, x.contracts) + rest;
    assert WriteSchema(x) + rest == IdBytes(x.id) + ([Flag(x.requirement)] + tail);
    IdReads(x.id, [Flag(x.requirement)] + tail, used);
    RequirementReads(x.requirement, tail, used);
    ContractIsLossless(lim, b);
    ContractsAreRefused(lim, b);
    var item := c => ReadContract(lim, b, c);
    ListRefused(item, WriteContract, ContractCost, c => ContractFits(lim, c), ContractEncodable, b, lim.maxContractsPerSchema, 16, x.contracts, rest, used);
  }

  lemma SchemasAreRefused(lim: OfferLimits, b: Budget)
    ensures Refuses(c => ReadSchema(lim, b, c), WriteSchema, SchemaCost, x => SchemaFits(lim, x), SchemaEncodable, b)
  {
    hide ReadSchema, WriteSchema, SchemaCost, SchemaFits, SchemaEncodable;
    forall x, rest, used: nat | SchemaEncodable(x) && used <= b.limit && !(SchemaFits(lim, x) && used + SchemaCost(x) <= b.limit)
      ensures ReadSchema(lim, b, Cursor(WriteSchema(x) + rest, used)) == Err(Failure(b.exceeded))
    {
      SchemaRefused(lim, b, x, rest, used);
    }
  }

  /** An offer over any limit of the receiver is refused as a malformed offer, wherever the limit is passed. */
  lemma OfferRefused(lim: OfferLimits, o: Offer, rest: seq<u8>)
    requires Encodable(o) && !OfferWithin(o, lim)
    ensures ReadOffer(lim, Cursor(OfferBody(o) + rest, 0)) == Err(Failure(MalformedOffer))
  {
    hide ReadProtocol, ReadCapability, ReadSchema, WriteProtocol, WriteCapability, WriteSchema, ReadList, WriteList, Reads, Refuses, SumOf, SchemaCost;
    var b := OfferBudget(lim);
    var third := WriteList(WriteSchema, o.schemas) + rest;
    var second := WriteList(WriteCapability, o.capabilities) + third;
    assert OfferBody(o) + rest == WriteList(WriteProtocol, o.protocols) + second;
    SchemasCost(o.schemas);
    FreeSum(o.protocols);
    FreeSum(o.capabilities);
    ProtocolIsLossless(b);
    FreeIsNeverRefused(ReadProtocol, WriteProtocol, b);
    CapabilityIsLossless(b);
    FreeIsNeverRefused(ReadCapability, WriteCapability, b);
    SchemaIsLossless(lim, b);
    SchemasAreRefused(lim, b);
    var used := |o.protocols| * 32;
    if !(|o.protocols| <= lim.maxProtocols && used <= b.limit) {
      ListRefused(ReadProtocol, WriteProtocol, Free, Always, Always, b, lim.maxProtocols, 32, o.protocols, second, 0);
    } else {
      ListReads(ReadProtocol, WriteProtocol, Free, Always, b, lim.maxProtocols, 32, o.protocols, second, 0);
      var more := used + |o.capabilities| * 17;
      if !(|o.capabilities| <= lim.maxCapabilities && more <= b.limit) {
        ListRefused(ReadCapability, WriteCapability, Free, Always, Always, b, lim.maxCapabilities, 17, o.capabilities, third, used);
      } else {
        ListReads(ReadCapability, WriteCapability, Free, Always, b, lim.maxCapabilities, 17, o.capabilities, third, used);
        var item := c => ReadSchema(lim, b, c);
        ListRefused(item, WriteSchema, SchemaCost, s => SchemaFits(lim, s), SchemaEncodable, b, lim.maxSchemas, 17, o.schemas, rest, more);
      }
    }
  }

  /** Every body that begins with an offer's encoding: the offer if it is within the limits and nothing follows;
      trailing octets if something does; a malformed offer if it is over them. */
  lemma OfferBodyAnswers(lim: OfferLimits, o: Offer, rest: seq<u8>)
    requires Encodable(o) && o.diagnosticLabel == None
    ensures DecodeOffer(OfferBody(o) + rest, lim) ==
              if !OfferWithin(o, lim) then Err(Failure(MalformedOffer))
              else if rest != [] then Err(Malformed(TrailingBytes))
              else Ok(o)
  {
    hide ReadOffer, OfferBody, OfferWithin, Encodable;
    if OfferWithin(o, lim) {
      OfferReads(lim, o, rest);
    } else {
      OfferRefused(lim, o, rest);
    }
  }

  // ---------------------------------------------------------------- proposals

  lemma SizedIsRead(count: nat, max: usize, width: nat, b: Budget, rest: seq<u8>, used: nat)
    requires count <= MAX_VARINT
    ensures ReadSized(max, width, b, Cursor(Varint(count) + rest, used)) ==
              if count > max || used + count * width > b.limit then Err(Failure(b.exceeded)) else Ok((count, Cursor(rest, used + count * width)))
  {
    hide ReadCount, Varint;
    CountIsRead(count, rest, used, max, b.exceeded);
  }

  /** A repetition is noticed as it is read. */
  lemma {:induction false} RepetitionRefused(xs: seq<u128>, seen: seq<u128>, rest: seq<u8>, used: nat)
    requires Distinct(seen) && !Distinct(seen + xs)
    ensures ReadDistinct(|xs|, Cursor(WriteMany(IdBytes, xs) + rest, used), seen) == Err(Failure(InvalidSelection))
  {
    hide ReadId, IdBytes;
    assert seen + [] == seen;
    if xs != [] {
      var tail := WriteMany(IdBytes, xs[1..]) + rest;
      assert WriteMany(IdBytes, xs) + rest == IdBytes(xs[0]) + tail;
      IdReads(xs[0], tail, used);
      assert seen + xs == (seen + [xs[0]]) + xs[1..];
      if xs[0] !in seen {
        RepetitionRefused(xs[1..], seen + [xs[0]], rest, used);
      }
    }
  }

  lemma {:induction false} RebindingRefused(xs: seq<Binding>, seen: seq<Binding>, rest: seq<u8>, used: nat)
    requires Distinct(SchemasOf(seen)) && !Distinct(SchemasOf(seen + xs))
    ensures ReadBindings(|xs|, Cursor(WriteMany(WriteBinding, xs) + rest, used), seen) == Err(Failure(InvalidSelection))
  {
    hide ReadId, IdBytes;
    assert seen + [] == seen;
    if xs != [] {
      var tail := WriteMany(WriteBinding, xs[1..]) + rest;
      var b := xs[0];
      var second := IdBytes(b.selected.contract) + (IdBytes(b.selected.codec) + tail);
      assert WriteMany(WriteBinding, xs) + rest == IdBytes(b.schema) + second;
      IdReads(b.schema, second, used);
      IdReads(b.selected.contract, IdBytes(b.selected.codec) + tail, used);
      IdReads(b.selected.codec, tail, used);
      assert seen + xs == (seen + [b]) + xs[1..];
      if b.schema !in SchemasOf(seen) {
        SchemasAppend(seen, b);
        RebindingRefused(xs[1..], seen + [b], rest, used);
      }
    }
  }

  lemma CapabilitiesAnswer(ids: seq<u128>, max: usize, b: Budget, rest: seq<u8>, used: nat)
    requires |ids| <= MAX_VARINT
    ensures var r := ReadSized(max, 16, b, Cursor(Varint(|ids|) + (WriteMany(IdBytes, ids) + rest), used));
            if |ids| > max || used + |ids| * 16 > b.limit then r == Err(Failure(b.exceeded))
            else
              && r.Ok? && r.value.0 == |ids|
              && ReadDistinct(|ids|, r.value.1, []) ==
                   if Distinct(ids) then Ok((ids, Cursor(rest, used + |ids| * 16))) else Err(Failure(InvalidSelection))
  {
    hide IdBytes, ReadSized, ReadDistinct, WriteMany, Varint, Distinct;
    var after := WriteMany(IdBytes, ids) + rest;
    SizedIsRead(|ids|, max, 16, b, after, used);
    assert [] + ids == ids;
    NothingRepeats();
    if Distinct(ids) {
      DistinctReads(ids, [], rest, used + |ids| * 16);
    } else {
      RepetitionRefused(ids, [], rest, used + |ids| * 16);
    }
  }

  lemma NothingRepeats()
    ensures Distinct([]) && Distinct(SchemasOf([]))
  {
  }

  lemma BindingsAnswer(bindings: seq<Binding>, max: usize, b: Budget, rest: seq<u8>, used: nat)
    requires |bindings| <= MAX_VARINT
    ensures var r := ReadSized(max, 48, b, Cursor(Varint(|bindings|) + (WriteMany(WriteBinding, bindings) + rest), used));
            if |bindings| > max || used + |bindings| * 48 > b.limit then r == Err(Failure(b.exceeded))
            else
              && r.Ok? && r.value.0 == |bindings|
              && ReadBindings(|bindings|, r.value.1, []) ==
                   if Distinct(SchemasOf(bindings)) then Ok((bindings, Cursor(rest, used + |bindings| * 48))) else Err(Failure(InvalidSelection))
  {
    hide IdBytes, ReadSized, ReadBindings, WriteMany, Varint, Distinct, SchemasOf;
    var after := WriteMany(WriteBinding, bindings) + rest;
    SizedIsRead(|bindings|, max, 48, b, after, used);
    assert [] + bindings == bindings;
    NothingRepeats();
    if Distinct(SchemasOf(bindings)) {
      BindingsRead(bindings, [], rest, used + |bindings| * 48);
    } else {
      RebindingRefused(bindings, [], rest, used + |bindings| * 48);
    }
  }

  /** Every body that is written as a proposal: over the limits it exceeds the resources; with a capability or a
      schema repeated it is an invalid selection; otherwise it is the contract, if nothing follows. What comes
      first in the body decides. */
  lemma ProposalBodyAnswers(p: Protocol, e: Enumeration, lim: OfferLimits, rest: seq<u8>)
    requires |e.capabilities| <= MAX_VARINT && |e.bindings| <= MAX_VARINT
    ensures DecodeProposal(ProposalBody(p, e) + rest, lim) ==
              if |e.capabilities| > lim.maxCapabilities || 32 + 16 * |e.capabilities| > lim.maxAccountedBytes then Err(Failure(ResourceLimitExceeded))
              else if !Distinct(e.capabilities) then Err(Failure(InvalidSelection))
              else if |e.bindings| > lim.maxSchemas || 32 + 16 * |e.capabilities| + 48 * |e.bindings| > lim.maxAccountedBytes then Err(Failure(ResourceLimitExceeded))
              else if !Distinct(SchemasOf(e.bindings)) then Err(Failure(InvalidSelection))
              else if rest != [] then Err(Malformed(TrailingBytes))
              else Ok(ContractOf(p, e))
  {
    hide ReadId, IdBytes, ReadSized, ReadDistinct, ReadBindings, WriteMany, Varint, MapOf, SetOf, Distinct, SchemasOf, ContractOf;
    var b := Budget(lim.maxAccountedBytes, ResourceLimitExceeded);
    var fourth := Varint(|e.bindings|) + (WriteMany(WriteBinding, e.bindings) + rest);
    var second := Varint(|e.capabilities|) + (WriteMany(IdBytes, e.capabilities) + fourth);
    var first := IdBytes(p.revision) + second;
    assert ProposalBody(p, e) + rest == IdBytes(p.id) + first;
    IdReads(p.id, first, 0);
    IdReads(p.revision, second, 0);
    CapabilitiesAnswer(e.capabilities, lim.maxCapabilities, b, fourth, 32);
    BindingsAnswer(e.bindings, lim.maxSchemas, b, rest, 32 + |e.capabilities| * 16);
  }

  // ---------------------------------------------------------------- accounting

  /** Octets of the counts in front of the codec lists. */
  function CodecCounts(contracts: seq<SchemaContract>): nat
    requires forall c :: c in contracts ==> ContractEncodable(c)
  {
    if contracts == [] then 0
    else
      assert ContractEncodable(contracts[0]);
      |Varint(|contracts[0].codecs|)| + CodecCounts(contracts[1..])
  }

  /** Octets of the counts within the schemas. */
  function SchemaCounts(schemas: seq<Schema>): nat
    requires forall s :: s in schemas ==> SchemaEncodable(s)
  {
    if schemas == [] then 0
    else
      assert SchemaEncodable(schemas[0]);
      |Varint(|schemas[0].contracts|)| + CodecCounts(schemas[0].contracts) + SchemaCounts(schemas[1..])
  }

  lemma {:induction false} ContractsAccounted(contracts: seq<SchemaContract>)
    requires forall c :: c in contracts ==> ContractEncodable(c)
    ensures ContractsLength(contracts) == |contracts| * 16 + ContractsBytes(contracts) + CodecCounts(contracts)
  {
    hide Varint;
    if contracts != [] {
      ContractsAccounted(contracts[1..]);
    }
  }

  lemma {:induction false} SchemasAccounted(schemas: seq<Schema>)
    requires forall s :: s in schemas ==> SchemaEncodable(s)
    ensures OfferCodec.SchemasLength(schemas) == |schemas| * 17 + SchemasBytes(schemas) + SchemaCounts(schemas)
  {
    hide Varint;
    if schemas != [] {
      assert SchemaEncodable(schemas[0]);
      ContractsAccounted(schemas[0].contracts);
      SchemasAccounted(schemas[1..]);
    }
  }

  /** The accounting size of an offer is the length of its encoding without the counts. */
  lemma AccountingIsEncoding(o: Offer)
    requires Encodable(o)
    ensures |OfferBody(o)| ==
            AccountedBytes(o) + |Varint(|o.protocols|)| + |Varint(|o.capabilities|)| + |Varint(|o.schemas|)| + SchemaCounts(o.schemas)
  {
    hide Varint, OfferBody;
    OfferLengthIsExact(o);
    SchemasAccounted(o.schemas);
  }
}
