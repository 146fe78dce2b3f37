/** Decoding and encoding a proposal as written. */
module ProposalReaders {
  import opened Basics
  import opened Wire
  import opened Offers
  import opened NegotiationBody
  import opened OfferReaders
  import opened OfferWriters
  import opened ProposalCodec

  class ProposalDecoder {
    const limits: OfferLimits
    const reader: BodyReader
    const budget: DecodeBudget

    ghost function Parts(): set<object> {
      {reader, budget}
    }

    ghost predicate Valid()
      reads this, Parts()
    {
      reader.Valid() && budget.Valid() && budget.budget == Budget(limits.maxAccountedBytes, ResourceLimitExceeded)
    }

    ghost function At(): Cursor
      reads this, Parts()
      requires Valid()
    {
      Cursor(reader.Rest(), budget.used)
    }

    constructor (body: seq<u8>, limits: OfferLimits)
      ensures Valid() && fresh(reader) && fresh(budget) && At() == Cursor(body, 0) && this.limits == limits
    {
      this.limits := limits;
      reader := new BodyReader(body);
      budget := new DecodeBudget(Budget(limits.maxAccountedBytes, ResourceLimitExceeded));
    }

    method NextSize(max: usize, width: nat) returns (r: Result<nat, DecodeError>)
      requires Valid()
      modifies Parts()
      ensures Valid()
      ensures match ReadSized(max, width, Budget(limits.maxAccountedBytes, ResourceLimitExceeded), old(At()))
              case Err(e) => r == Err(e)
              case Ok((count, after)) => r == Ok(count) && At() == after
    {
      hide ReadCount;
      var count := reader.NextCount(max, ResourceLimitExceeded, budget.used);
      if count.Err? {
        return Err(count.error);
      }
      var charged := budget.ChargeItems(count.value, width, reader.Rest());
      if charged.Err? {
        return Err(charged.error);
      }
      return Ok(count.value);
    }

    method Capabilities(count: nat) returns (r: Result<seq<u128>, DecodeError>)
      requires Valid()
      modifies Parts()
      ensures Valid()
      ensures match ReadDistinct(count, old(At()), [])
              case Err(e) => r == Err(e)
              case Ok((capabilities, after)) => r == Ok(capabilities) && At() == after
    {
      hide ReadId;
      var capabilities := [];
      for i := 0 to count
        invariant Valid()
        invariant ReadDistinct(count, old(At()), []) == ReadDistinct(count - i, At(), capabilities)
      {
        var id := reader.NextId(budget.used);
        if id.Err? {
          return Err(id.error);
        }
        if id.value in capabilities {
          return Err(Failure(InvalidSelection));
        }
        capabilities := capabilities + [id.value];
      }
      return Ok(capabilities);
    }

    method Bindings(count: nat) returns (r: Result<seq<Binding>, DecodeError>)
      requires Valid()
      modifies Parts()
      ensures Valid()
      ensures match ReadBindings(count, old(At()), [])
              case Err(e) => r == Err(e)
              case Ok((bindings, after)) => r == Ok(bindings) && At() == after
    {
      hide ReadId;
      var bindings := [];
      for i := 0 to count
        invariant Valid()
        invariant ReadBindings(count, old(At()), []) == ReadBindings(count - i, At(), bindings)
      {
        var schema := reader.NextId(budget.used);
        if schema.Err? {
          return Err(schema.error);
        }
        if schema.value in SchemasOf(bindings) {
          return Err(Failure(InvalidSelection));
        }
        var contract := reader.NextId(budget.used);
        if contract.Err? {
          return Err(contract.error);
        }
        var codec := reader.NextId(budget.used);
        if codec.Err? {
          return Err(codec.error);
        }
        bindings := bindings + [Binding(schema.value, Selected(contract.value, codec.value))];
      }
      return Ok(bindings);
    }

    method Decode() returns (r: Result<Contract, DecodeError>)
      requires Valid() && budget.used == 0
      modifies Parts()
      ensures Valid() && r == DecodeProposal(old(reader.Rest()), limits)
    {
      hide ReadId, ReadSized, ReadDistinct, ReadBindings;
      var id := reader.NextId(budget.used);
      if id.Err? {
        return Err(id.error);
      }
      var revision := reader.NextId(budget.used);
      if revision.Err? {
        return Err(revision.error);
      }
      var charged := budget.ChargeItems(1, 32, reader.Rest());
      if charged.Err? {
        return Err(charged.error);
      }
      var capabilityCount := NextSize(limits.maxCapabilities, 16);
      if capabilityCount.Err? {
        return Err(capabilityCount.error);
      }
      var capabilities := Capabilities(capabilityCount.value);
      if capabilities.Err? {
        return Err(capabilities.error);
      }
      var schemaCount := NextSize(limits.maxSchemas, 48);
      if schemaCount.Err? {
        return Err(schemaCount.error);
      }
      var bindings := Bindings(schemaCount.value);
      if bindings.Err? {
        return Err(bindings.error);
      }
      if reader.offset != |reader.input| {
        return Err(Malformed(TrailingBytes));
      }
      return Ok(ContractOf(Offers.Protocol(id.value, revision.value), Enumeration(capabilities.value, bindings.value)));
    }
  }

  // ---------------------------------------------------------------- writing, in whatever order the sets yield

  method WriteCapabilitySet(writer: BodyWriter, capabilities: set<u128>) returns (ghost order: seq<u128>)
    modifies writer
    ensures Distinct(order) && SetOf(order) == capabilities
    ensures writer.body == old(writer.body) + WriteMany(IdBytes, order)
  {
    hide IdBytes;
    order := [];
    var left := capabilities;
    assert writer.body == writer.body + WriteMany(IdBytes, []);
    while left != {}
      invariant left <= capabilities && Distinct(order) && SetOf(order) == capabilities - left
      invariant writer.body == old(writer.body) + WriteMany(IdBytes, order)
      decreases |left|
    {
      var id :| id in left;
      writer.PushId(id);
      SetOfAppend(order, id);
      StaysDistinct(order, id);
      WriteLast(IdBytes, order, id, old(writer.body));
      order := order + [id];
      left := left - {id};
    }
  }

  method PushBinding(writer: BodyWriter, b: Binding)
    modifies writer
    ensures writer.body == old(writer.body) + WriteBinding(b)
  {
    hide IdBytes;
    writer.PushId(b.schema);
    writer.PushId(b.selected.contract);
    writer.PushId(b.selected.codec);
  }

  method WriteSchemaMap(writer: BodyWriter, schemas: map<u128, Selected>) returns (ghost order: seq<Binding>)
    modifies writer
    ensures Distinct(SchemasOf(order)) && MapOf(order) == schemas
    ensures writer.body == old(writer.body) + WriteMany(WriteBinding, order)
  {
    order := [];
    var left := schemas.Keys;
    assert writer.body == writer.body + WriteMany(WriteBinding, []);
    NoneWritten(schemas);
    hide IdBytes, WriteMany, MapOf, SchemasOf, Distinct, Written;
    while left != {}
      invariant left <= schemas.Keys && Distinct(SchemasOf(order)) && Written(MapOf(order), left, schemas)
      invariant writer.body == old(writer.body) + WriteMany(WriteBinding, order)
      decreases |left|
    {
      var schema :| schema in left;
      var b := Binding(schema, schemas[schema]);
      PushBinding(writer, b);
      OneMoreWritten(MapOf(order), left, schemas, schema);
      OneMoreBinding(order, b);
      WriteLast(WriteBinding, order, b, old(writer.body));
      order := order + [b];
      left := left - {schema};
    }
    AllWritten(MapOf(order), schemas);
  }

  /** `done` is the map without the keys that are left. */
  ghost predicate Written(done: map<u128, Selected>, left: set<u128>, schemas: map<u128, Selected>) {
    done.Keys + left == schemas.Keys && done.Keys !! left && forall k :: k in done ==> done[k] == schemas[k]
  }

  lemma NoneWritten(schemas: map<u128, Selected>)
    ensures Written(MapOf([]), schemas.Keys, schemas)
  {
  }

  lemma OneMoreWritten(done: map<u128, Selected>, left: set<u128>, schemas: map<u128, Selected>, k: u128)
    requires Written(done, left, schemas) && k in left
    ensures k in schemas && k !in done && Written(done[k := schemas[k]], left - {k}, schemas)
  {
  }

  lemma AllWritten(done: map<u128, Selected>, schemas: map<u128, Selected>)
    requires Written(done, {}, schemas)
    ensures done == schemas
  {
  }

  lemma OneMoreBinding(order: seq<Binding>, b: Binding)
    requires Distinct(SchemasOf(order)) && b.schema !in MapOf(order)
    ensures Distinct(SchemasOf(order + [b])) && MapOf(order + [b]) == MapOf(order)[b.schema := b.selected]
  {
    MapSize(order);
    SchemasAppend(order, b);
    StaysDistinct(SchemasOf(order), b.schema);
    assert (order + [b])[..|order|] == order;
  }

  lemma StaysDistinct(ids: seq<u128>, id: u128)
    requires Distinct(ids) && id !in SetOf(ids)
    ensures Distinct(ids + [id])
  {
    forall i | 0 <= i < |ids| ensures ids[i] != id {
      assert ids[i] in SetOf(ids);
    }
  }

  lemma {:induction false} WriteAppend<T>(write: T -> seq<u8>, xs: seq<T>, x: T)
    ensures WriteMany(write, xs + [x]) == WriteMany(write, xs) + write(x)
  {
    if xs == [] {
      assert (xs + [x])[1..] == [];
    } else {
      WriteAppend(write, xs[1..], x);
      assert (xs + [x])[1..] == xs[1..] + [x];
    }
  }

  lemma WriteLast<T>(write: T -> seq<u8>, xs: seq<T>, x: T, before: seq<u8>)
    ensures before + WriteMany(write, xs + [x]) == (before + WriteMany(write, xs)) + write(x)
  {
    WriteAppend(write, xs, x);
  }

  /** The body is one of the contract's encodings: which one depends on the order the sets yield. */
  method EncodeProposalBody(c: Contract, maxBody: u64) returns (r: Result<seq<u8>, NegotiationOutcome>, ghost e: Option<Enumeration>)
    ensures r.Ok? <==> |c.capabilities| <= MAX_VARINT && |c.schemas| <= MAX_VARINT && ProposalLength(c) <= maxBody
    ensures r.Ok? ==> e.Some? && Enumerates(e.value, c) && r == EncodeProposal(c, e.value, maxBody)
    ensures r.Err? ==> r.error == ResourceLimitExceeded
  {
    hide IdBytes, WriteMany, Varint, MapOf, Distinct;
    e := None;
    if |c.capabilities| > MAX_VARINT || |c.schemas| > MAX_VARINT || ProposalLength(c) > maxBody {
      r := Err(ResourceLimitExceeded);
      return;
    }
    var writer := new BodyWriter();
    writer.PushId(c.protocol.id);
    writer.PushId(c.protocol.revision);
    writer.PushCount(|c.capabilities|);
    ghost var capabilities := WriteCapabilitySet(writer, c.capabilities);
    writer.PushCount(|c.schemas|);
    ghost var bindings := WriteSchemaMap(writer, c.schemas);
    e := Some(Enumeration(capabilities, bindings));
    DistinctSize(capabilities);
    MapSize(bindings);
    assert writer.body == ProposalBody(c.protocol, e.value);
    r := Ok(writer.body);
  }
}
