/** Decoding and encoding an offer as written: a reader that advances, a budget that is charged, a writer
    that appends, and nested loops over the entries. */
module OfferReaders {
  import opened Basics
  import opened Wire
  import opened Offers
  import opened NegotiationBody
  import opened OfferCodec

  class BodyReader {
    const input: seq<u8>
    var offset: nat

    ghost predicate Valid()
      reads this
    {
      offset <= |input|
    }

    ghost function Rest(): seq<u8>
      requires Valid()
      reads this
    {
      input[offset..]
    }

    constructor (input: seq<u8>)
      ensures Valid() && Rest() == input
    {
      this.input := input;
      offset := 0;
    }

    method NextByte() returns (r: Result<u8, WireFault>)
      requires Valid()
      modifies this
      ensures Valid()
      ensures if old(Rest()) == [] then r == Err(Truncated) else r == Ok(old(Rest())[0]) && Rest() == old(Rest())[1..]
    {
      if offset >= |input| {
        return Err(Truncated);
      }
      r := Ok(input[offset]);
      offset := offset + 1;
    }

    method NextId(ghost used: nat) returns (r: Result<u128, DecodeError>)
      requires Valid()
      modifies this
      ensures Valid()
      ensures match ReadId(Cursor(old(Rest()), used))
              case Err(e) => r == Err(e)
              case Ok((id, after)) => r == Ok(id) && Cursor(Rest(), used) == after
    {
      if |input| - offset < 16 {
        return Err(Malformed(Truncated));
      }
      var bytes := input[offset..offset + 16];
      assert bytes == Rest()[..16];
      WideIsPower();
      r := Ok(FromBigEndian(bytes));
      offset := offset + 16;
    }

    method NextRequirement(ghost used: nat) returns (r: Result<Requirement, DecodeError>)
      requires Valid()
      modifies this
      ensures Valid()
      ensures match ReadRequirement(Cursor(old(Rest()), used))
              case Err(e) => r == Err(e)
              case Ok((requirement, after)) => r == Ok(requirement) && Cursor(Rest(), used) == after
    {
      var flag := NextByte();
      if flag.Err? {
        return Err(Malformed(flag.error));
      }
      if flag.value == 0 {
        return Ok(Optional);
      }
      if flag.value == 1 {
        return Ok(Required);
      }
      return Err(Malformed(UnknownRequirement(flag.value)));
    }

    method NextCount(max: usize, exceeded: NegotiationOutcome, ghost used: nat) returns (r: Result<nat, DecodeError>)
      requires Valid()
      modifies this
      ensures Valid()
      ensures match ReadCount(Cursor(old(Rest()), used), max, exceeded)
              case Err(e) => r == Err(e)
              case Ok((count, after)) => r == Ok(count) && Cursor(Rest(), used) == after
    {
      hide DecodeVarint;
      var decoded := DecodeVarintLoop(input[offset..]);
      match decoded {
        case Err(e) => return Err(Malformed(BadVarint(e)));
        case Ok((count, consumed)) =>
          offset := offset + consumed;
          return if count > max then Err(Failure(exceeded)) else Ok(count);
      }
    }
  }

  class DecodeBudget {
    const budget: Budget
    var used: usize

    /** The accounted size never exceeds the limit, whatever was read. */
    ghost predicate Valid()
      reads this
    {
      used <= budget.limit
    }

    constructor (budget: Budget)
      ensures Valid() && used == 0 && this.budget == budget
    {
      this.budget := budget;
      used := 0;
    }

    method ChargeItems(count: nat, width: nat, ghost rest: seq<u8>) returns (r: Result<(), DecodeError>)
      requires Valid()
      modifies this
      ensures Valid()
      ensures match Charge(Cursor(rest, old(used)), count * width, budget)
              case Err(e) => r == Err(e) && used == old(used)
              case Ok(after) => r == Ok(()) && Cursor(rest, used) == after
    {
      var bytes := count * width;
      if used + bytes > budget.limit {
        return Err(Failure(budget.exceeded));
      }
      used := used + bytes;
      return Ok(());
    }
  }

  // ---------------------------------------------------------------- loops over entries

  function Prepend<T>(xs: seq<T>, p: Parsed<seq<T>>): Parsed<seq<T>> {
    match p case Err(e) => Err(e) case Ok((ys, c)) => Ok((xs + ys, c))
  }

  /** One more entry read. */
  lemma PrependNext<T>(item: Cursor -> Parsed<T>, n: nat, c: Cursor, xs: seq<T>)
    requires n > 0
    ensures item(c).Err? ==> Prepend(xs, ReadMany(item, n, c)) == Err(item(c).error)
    ensures item(c).Ok? ==>
              Prepend(xs, ReadMany(item, n, c)) == Prepend(xs + [item(c).value.0], ReadMany(item, n - 1, item(c).value.1))
  {
    if item(c).Ok? && ReadMany(item, n - 1, item(c).value.1).Ok? {
      var ys := ReadMany(item, n - 1, item(c).value.1).value.0;
      assert xs + ([item(c).value.0] + ys) == (xs + [item(c).value.0]) + ys;
    }
  }

  lemma PrependNone<T>(p: Parsed<seq<T>>)
    ensures Prepend([], p) == p
  {
    if p.Ok? {
      assert [] + p.value.0 == p.value.0;
    }
  }

  lemma PrependDone<T>(item: Cursor -> Parsed<T>, c: Cursor, xs: seq<T>)
    ensures Prepend(xs, ReadMany(item, 0, c)) == Ok((xs, c))
  {
    assert xs + [] == xs;
  }

  class OfferDecoder {
    const limits: OfferLimits
    const reader: BodyReader
    const budget: DecodeBudget

    ghost function Parts(): set<object> {
      {reader, budget}
    }

    ghost predicate Valid()
      reads this, Parts()
    {
      reader.Valid() && budget.Valid() && budget.budget == OfferBudget(limits)
    }

    ghost function At(): Cursor
      reads this, Parts()
      requires Valid()
    {
      Cursor(reader.Rest(), budget.used)
    }

    constructor (body: seq<u8>, limits: OfferLimits)
      ensures Valid() && fresh(reader) && fresh(budget) && At() == Cursor(body, 0) && this.limits == limits
    {
      this.limits := limits;
      reader := new BodyReader(body);
      budget := new DecodeBudget(OfferBudget(limits));
    }

    /** A bounded count and the charge for its entries. */
    method NextSize(max: usize, width: nat) returns (r: Result<nat, DecodeError>)
      requires Valid()
      modifies Parts()
      ensures Valid()
      ensures match ReadCount(old(At()), max, MalformedOffer)
              case Err(e) => r == Err(e)
              case Ok((count, after)) =>
                match Charge(after, count * width, OfferBudget(limits))
                case Err(e) => r == Err(e)
                case Ok(charged) => r == Ok(count) && At() == charged
    {
      hide ReadCount;
      var count := reader.NextCount(max, MalformedOffer, budget.used);
      if count.Err? {
        return Err(count.error);
      }
      var charged := budget.ChargeItems(count.value, width, reader.Rest());
      if charged.Err? {
        return Err(charged.error);
      }
      return Ok(count.value);
    }

    method Protocols() returns (r: Result<seq<Protocol>, DecodeError>)
      requires Valid()
      modifies Parts()
      ensures Valid()
      ensures match ReadList(ReadProtocol, limits.maxProtocols, 32, OfferBudget(limits), old(At()))
              case Err(e) => r == Err(e)
              case Ok((protocols, after)) => r == Ok(protocols) && At() == after
    {
      hide ReadCount, Charge, ReadMany, ReadId, Prepend;
      var count := NextSize(limits.maxProtocols, 32);
      if count.Err? {
        return Err(count.error);
      }
      var protocols := [];
      ghost var start := At();
      PrependNone(ReadMany(ReadProtocol, count.value, start));
      for i := 0 to count.value
        invariant Valid() && |protocols| == i
        invariant ReadMany(ReadProtocol, count.value, start) == Prepend(protocols, ReadMany(ReadProtocol, count.value - i, At()))
      {
        PrependNext(ReadProtocol, count.value - i, At(), protocols);
        var id := reader.NextId(budget.used);
        if id.Err? {
          return Err(id.error);
        }
        var revision := reader.NextId(budget.used);
        if revision.Err? {
          return Err(revision.error);
        }
        protocols := protocols + [Offers.Protocol(id.value, revision.value)];
      }
      PrependDone(ReadProtocol, At(), protocols);
      return Ok(protocols);
    }

    method Capabilities() returns (r: Result<seq<Capability>, DecodeError>)
      requires Valid()
      modifies Parts()
      ensures Valid()
      ensures match ReadList(ReadCapability, limits.maxCapabilities, 17, OfferBudget(limits), old(At()))
              case Err(e) => r == Err(e)
              case Ok((capabilities, after)) => r == Ok(capabilities) && At() == after
    {
      hide ReadCount, Charge, ReadMany, ReadId, ReadRequirement, Prepend;
      var count := NextSize(limits.maxCapabilities, 17);
      if count.Err? {
        return Err(count.error);
      }
      var capabilities := [];
      ghost var start := At();
      PrependNone(ReadMany(ReadCapability, count.value, start));
      for i := 0 to count.value
        invariant Valid() && |capabilities| == i
        invariant ReadMany(ReadCapability, count.value, start) == Prepend(capabilities, ReadMany(ReadCapability, count.value - i, At()))
      {
        PrependNext(ReadCapability, count.value - i, At(), capabilities);
        var id := reader.NextId(budget.used);
        if id.Err? {
          return Err(id.error);
        }
        var requirement := reader.NextRequirement(budget.used);
        if requirement.Err? {
          return Err(requirement.error);
        }
        capabilities := capabilities + [Capability(id.value, requirement.value)];
      }
      PrependDone(ReadCapability, At(), capabilities);
      return Ok(capabilities);
    }

    method Codecs() returns (r: Result<seq<u128>, DecodeError>)
      requires Valid()
      modifies Parts()
      ensures Valid()
      ensures match ReadList(ReadId, limits.maxCodecsPerContract, 16, OfferBudget(limits), old(At()))
              case Err(e) => r == Err(e)
              case Ok((codecs, after)) => r == Ok(codecs) && At() == after
    {
      hide ReadCount, Charge, ReadMany;
      var count := NextSize(limits.maxCodecsPerContract, 16);
      if count.Err? {
        return Err(count.error);
      }
      r := CodecsOf(count.value);
    }

    method CodecsOf(count: nat) returns (r: Result<seq<u128>, DecodeError>)
      requires Valid()
      modifies Parts()
      ensures Valid()
      ensures match ReadMany(ReadId, count, old(At()))
              case Err(e) => r == Err(e)
              case Ok((codecs, after)) => r == Ok(codecs) && At() == after
    {
      hide ReadMany, ReadId, Prepend, ReadCount, Charge, ReadList, DecodeVarint, FromBigEndian, Power256, OfferBudget;
      var codecs := [];
      ghost var start := At();
      PrependNone(ReadMany(ReadId, count, start));
      for i := 0 to count
        invariant Valid() && |codecs| == i
        invariant ReadMany(ReadId, count, start) == Prepend(codecs, ReadMany(ReadId, count - i, At()))
      {
        PrependNext(ReadId, count - i, At(), codecs);
        var id := reader.NextId(budget.used);
        if id.Err? {
          return Err(id.error);
        }
        codecs := codecs + [id.value];
      }
      PrependDone(ReadId, At(), codecs);
      return Ok(codecs);
    }

    method Contracts() returns (r: Result<seq<SchemaContract>, DecodeError>)
      requires Valid()
      modifies Parts()
      ensures Valid()
      ensures match ReadList(c => ReadContract(limits, OfferBudget(limits), c), limits.maxContractsPerSchema, 16, OfferBudget(limits), old(At()))
              case Err(e) => r == Err(e)
              case Ok((contracts, after)) => r == Ok(contracts) && At() == after
    {
      hide ReadCount, Charge, ReadMany, ReadId, Prepend;
      var count := NextSize(limits.maxContractsPerSchema, 16);
      if count.Err? {
        return Err(count.error);
      }
      ghost var item := c => ReadContract(limits, OfferBudget(limits), c);
      var contracts := [];
      ghost var start := At();
      PrependNone(ReadMany(item, count.value, start));
      for i := 0 to count.value
        invariant Valid() && |contracts| == i
        invariant ReadMany(item, count.value, start) == Prepend(contracts, ReadMany(item, count.value - i, At()))
      {
        PrependNext(item, count.value - i, At(), contracts);
        var id := reader.NextId(budget.used);
        if id.Err? {
          return Err(id.error);
        }
        var codecs := Codecs();
        if codecs.Err? {
          return Err(codecs.error);
        }
        contracts := contracts + [SchemaContract(id.value, codecs.value)];
      }
      PrependDone(item, At(), contracts);
      return Ok(contracts);
    }

    method Schemas() returns (r: Result<seq<Schema>, DecodeError>)
      requires Valid()
      modifies Parts()
      ensures Valid()
      ensures match ReadList(c => ReadSchema(limits, OfferBudget(limits), c), limits.maxSchemas, 17, OfferBudget(limits), old(At()))
              case Err(e) => r == Err(e)
              case Ok((schemas, after)) => r == Ok(schemas) && At() == after
    {
      hide ReadCount, Charge, ReadMany;
      var count := NextSize(limits.maxSchemas, 17);
      if count.Err? {
        return Err(count.error);
      }
      r := SchemasOf(count.value);
    }

    method NextSchema() returns (r: Result<Schema, DecodeError>)
      requires Valid()
      modifies Parts()
      ensures Valid()
      ensures match ReadSchema(limits, OfferBudget(limits), old(At()))
              case Err(e) => r == Err(e)
              case Ok((schema, after)) => r == Ok(schema) && At() == after
    {
      hide ReadId, ReadRequirement, ReadList, ReadContract;
      var id := reader.NextId(budget.used);
      if id.Err? {
        return Err(id.error);
      }
      var requirement := reader.NextRequirement(budget.used);
      if requirement.Err? {
        return Err(requirement.error);
      }
      var contracts := Contracts();
      if contracts.Err? {
        return Err(contracts.error);
      }
      return Ok(Schema(id.value, requirement.value, contracts.value));
    }

    method SchemasOf(count: nat) returns (r: Result<seq<Schema>, DecodeError>)
      requires Valid()
      modifies Parts()
      ensures Valid()
      ensures match ReadMany(c => ReadSchema(limits, OfferBudget(limits), c), count, old(At()))
              case Err(e) => r == Err(e)
              case Ok((schemas, after)) => r == Ok(schemas) && At() == after
    {
      hide ReadMany, ReadSchema, Prepend;
      ghost var item := c => ReadSchema(limits, OfferBudget(limits), c);
      var schemas := [];
      ghost var start := At();
      PrependNone(ReadMany(item, count, start));
      for i := 0 to count
        invariant Valid() && |schemas| == i
        invariant ReadMany(item, count, start) == Prepend(schemas, ReadMany(item, count - i, At()))
      {
        PrependNext(item, count - i, At(), schemas);
        var schema := NextSchema();
        if schema.Err? {
          return Err(schema.error);
        }
        schemas := schemas + [schema.value];
      }
      PrependDone(item, At(), schemas);
      return Ok(schemas);
    }

    method Decode() returns (r: Result<Offer, DecodeError>)
      requires Valid() && budget.used == 0
      modifies Parts()
      ensures Valid() && r == DecodeOffer(old(reader.Rest()), limits)
    {
      hide ReadList;
      var protocols := Protocols();
      if protocols.Err? {
        return Err(protocols.error);
      }
      var capabilities := Capabilities();
      if capabilities.Err? {
        return Err(capabilities.error);
      }
      var schemas := Schemas();
      if schemas.Err? {
        return Err(schemas.error);
      }
      if reader.offset != |reader.input| {
        return Err(Malformed(TrailingBytes));
      }
      return Ok(Offer(protocols.value, capabilities.value, schemas.value, None));
    }
  }
}
