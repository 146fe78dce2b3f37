/** Encoding an offer as written: the checked length first, then a writer that appends field by field. */
module OfferWriters {
  import opened Basics
  import opened Wire
  import opened Offers
  import opened NegotiationBody
  import opened OfferCodec

  function CountLen(count: nat): Option<nat> {
    match EncodeVarint(count) case None => None case Some(encoded) => Some(|encoded|)
  }

  /** `total` plus `count` entries of `width` octets, unless that leaves the platform's range. */
  function CheckedAddMul(total: usize, count: nat, width: nat): Option<usize> {
    if total + count * width <= U64_MAX then Some(total + count * width) else None
  }

  function CheckedCount(total: usize, count: nat): Option<usize> {
    match CountLen(count) case None => None case Some(n) => if total + n <= U64_MAX then Some(total + n) else None
  }

  /** The length of the body to be written; none if a count does not fit a varint or the length does not
      fit the platform. */
  method OfferBodyLen(o: Offer) returns (r: Option<usize>)
    ensures r == if Encodable(o) && OfferLength(o) <= U64_MAX then Some(OfferLength(o)) else None
  {
    hide Varint;
    var first := CheckedCount(0, |o.protocols|);
    if first.None? {
      return None;
    }
    var protocols := CheckedAddMul(first.value, |o.protocols|, 32);
    if protocols.None? {
      return None;
    }
    var second := CheckedCount(protocols.value, |o.capabilities|);
    if second.None? {
      return None;
    }
    var capabilities := CheckedAddMul(second.value, |o.capabilities|, 17);
    if capabilities.None? {
      return None;
    }
    var third := CheckedCount(capabilities.value, |o.schemas|);
    if third.None? {
      return None;
    }
    r := SchemasLen(third.value, o.schemas);
  }

  /** `total` plus the length of the schemas. */
  method SchemasLen(start: usize, schemas: seq<Schema>) returns (r: Option<usize>)
    ensures var encodable := forall s :: s in schemas ==> SchemaEncodable(s);
            r == if encodable && start + SchemasLength(schemas) <= U64_MAX then Some(start + SchemasLength(schemas)) else None
  {
    hide Varint, ContractsLength, SchemaEncodable;
    var total: usize := start;
    for i := 0 to |schemas|
      invariant forall s :: s in schemas[..i] ==> SchemaEncodable(s)
      invariant (forall s :: s in schemas ==> SchemaEncodable(s)) ==> total + SchemasLength(schemas[i..]) == start + SchemasLength(schemas)
    {
      assert schemas[i..][0] == schemas[i] && schemas[i..][1..] == schemas[i + 1..];
      assert schemas[..i + 1] == schemas[..i] + [schemas[i]];
      assert schemas[i] in schemas;
      var grown := SchemaLen(total, schemas[i]);
      if grown.None? {
        return None;
      }
      total := grown.value;
    }
    assert schemas[..|schemas|] == schemas;
    return Some(total);
  }

  method SchemaLen(start: usize, s: Schema) returns (r: Option<usize>)
    ensures r == if SchemaEncodable(s) && start + 17 + |Varint(|s.contracts|)| + ContractsLength(s.contracts) <= U64_MAX
                 then Some(start + 17 + |Varint(|s.contracts|)| + ContractsLength(s.contracts)) else None
  {
    hide Varint;
    if start + 17 > U64_MAX {
      return None;
    }
    var counted := CheckedCount(start + 17, |s.contracts|);
    if counted.None? {
      return None;
    }
    var total: usize := counted.value;
    for j := 0 to |s.contracts|
      invariant forall c :: c in s.contracts[..j] ==> ContractEncodable(c)
      invariant SchemaEncodable(s) ==> total + ContractsLength(s.contracts[j..]) == counted.value + ContractsLength(s.contracts)
    {
      var contract := s.contracts[j];
      assert s.contracts[j..][0] == contract && s.contracts[j..][1..] == s.contracts[j + 1..];
      assert s.contracts[..j + 1] == s.contracts[..j] + [contract];
      if total + 16 > U64_MAX {
        return None;
      }
      var codecs := CheckedCount(total + 16, |contract.codecs|);
      if codecs.None? {
        return None;
      }
      var grown := CheckedAddMul(codecs.value, |contract.codecs|, 16);
      if grown.None? {
        return None;
      }
      total := grown.value;
    }
    assert s.contracts[..|s.contracts|] == s.contracts;
    return Some(total);
  }

  class BodyWriter {
    var body: seq<u8>

    constructor ()
      ensures body == []
    {
      body := [];
    }

    method PushByte(value: u8)
      modifies this
      ensures body == old(body) + [value]
    {
      body := body + [value];
    }

    method PushId(id: u128)
      modifies this
      ensures body == old(body) + IdBytes(id)
    {
      body := body + IdBytes(id);
    }

    method PushCount(count: nat)
      requires count <= MAX_VARINT
      modifies this
      ensures body == old(body) + Varint(count)
    {
      body := body + Varint(count);
    }
  }

  lemma WriteNext<T>(write: T -> seq<u8>, xs: seq<T>, i: nat, before: seq<u8>)
    requires i < |xs|
    ensures before + WriteMany(write, xs[i..]) == (before + write(xs[i])) + WriteMany(write, xs[i + 1..])
  {
    assert xs[i..][0] == xs[i] && xs[i..][1..] == xs[i + 1..];
  }

  lemma WriteDone<T>(write: T -> seq<u8>, xs: seq<T>, before: seq<u8>)
    ensures before + WriteMany(write, xs[|xs|..]) == before
  {
  }

  method WriteProtocols(writer: BodyWriter, protocols: seq<Protocol>)
    requires |protocols| <= MAX_VARINT
    modifies writer
    ensures writer.body == old(writer.body) + WriteList(WriteProtocol, protocols)
  {
    hide IdBytes, Varint, WriteMany;
    writer.PushCount(|protocols|);
    assert protocols[0..] == protocols;
    for i := 0 to |protocols|
      invariant writer.body + WriteMany(WriteProtocol, protocols[i..]) == old(writer.body) + WriteList(WriteProtocol, protocols)
    {
      WriteNext(WriteProtocol, protocols, i, writer.body);
      writer.PushId(protocols[i].id);
      writer.PushId(protocols[i].revision);
    }
    WriteDone(WriteProtocol, protocols, writer.body);
  }

  method WriteCapabilities(writer: BodyWriter, capabilities: seq<Capability>)
    requires |capabilities| <= MAX_VARINT
    modifies writer
    ensures writer.body == old(writer.body) + WriteList(WriteCapability, capabilities)
  {
    hide IdBytes, Varint, WriteMany, Flag;
    writer.PushCount(|capabilities|);
    assert capabilities[0..] == capabilities;
    for i := 0 to |capabilities|
      invariant writer.body + WriteMany(WriteCapability, capabilities[i..]) == old(writer.body) + WriteList(WriteCapability, capabilities)
    {
      WriteNext(WriteCapability, capabilities, i, writer.body);
      writer.PushId(capabilities[i].id);
      writer.PushByte(Flag(capabilities[i].requirement));
    }
    WriteDone(WriteCapability, capabilities, writer.body);
  }

  method WriteCodecs(writer: BodyWriter, codecs: seq<u128>)
    requires |codecs| <= MAX_VARINT
    modifies writer
    ensures writer.body == old(writer.body) + WriteList(IdBytes, codecs)
  {
    hide IdBytes, Varint, WriteMany;
    writer.PushCount(|codecs|);
    assert codecs[0..] == codecs;
    for i := 0 to |codecs|
      invariant writer.body + WriteMany(IdBytes, codecs[i..]) == old(writer.body) + WriteList(IdBytes, codecs)
    {
      WriteNext(IdBytes, codecs, i, writer.body);
      writer.PushId(codecs[i]);
    }
    WriteDone(IdBytes, codecs, writer.body);
  }

  method WriteContracts(writer: BodyWriter, contracts: seq<SchemaContract>)
    requires |contracts| <= MAX_VARINT && forall c :: c in contracts ==> ContractEncodable(c)
    modifies writer
    ensures writer.body == old(writer.body) + WriteList(WriteContract, contracts)
  {
    hide IdBytes, Varint, WriteMany;
    writer.PushCount(|contracts|);
    assert contracts[0..] == contracts;
    for i := 0 to |contracts|
      invariant writer.body + WriteMany(WriteContract, contracts[i..]) == old(writer.body) + WriteList(WriteContract, contracts)
    {
      hide WriteList;
      WriteNext(WriteContract, contracts, i, writer.body);
      assert ContractEncodable(contracts[i]);
      writer.PushId(contracts[i].id);
      WriteCodecs(writer, contracts[i].codecs);
    }
    WriteDone(WriteContract, contracts, writer.body);
  }

  method WriteSchemas(writer: BodyWriter, schemas: seq<Schema>)
    requires |schemas| <= MAX_VARINT && forall s :: s in schemas ==> SchemaEncodable(s)
    modifies writer
    ensures writer.body == old(writer.body) + WriteList(WriteSchema, schemas)
  {
    hide IdBytes, Varint, WriteMany, Flag, WriteContract;
    writer.PushCount(|schemas|);
    assert schemas[0..] == schemas;
    for i := 0 to |schemas|
      invariant writer.body + WriteMany(WriteSchema, schemas[i..]) == old(writer.body) + WriteList(WriteSchema, schemas)
    {
      hide WriteList;
      WriteNext(WriteSchema, schemas, i, writer.body);
      assert SchemaEncodable(schemas[i]);
      writer.PushId(schemas[i].id);
      writer.PushByte(Flag(schemas[i].requirement));
      WriteContracts(writer, schemas[i].contracts);
    }
    WriteDone(WriteSchema, schemas, writer.body);
  }

  method EncodeOfferBody(o: Offer, maxBody: u64) returns (r: Result<seq<u8>, NegotiationOutcome>)
    ensures r == EncodeOffer(o, maxBody)
    ensures r.Ok? ==> |r.value| <= maxBody
  {
    hide WriteList, SchemasLength, WriteProtocol, WriteCapability, WriteSchema, OfferLength;
    if o.diagnosticLabel.Some? {
      return Err(MalformedOffer);
    }
    var length := OfferBodyLen(o);
    if length.None? || length.value > maxBody {
      return Err(ResourceLimitExceeded);
    }
    OfferLengthIsExact(o);
    var writer := new BodyWriter();
    WriteProtocols(writer, o.protocols);
    WriteCapabilities(writer, o.capabilities);
    WriteSchemas(writer, o.schemas);
    assert writer.body == OfferBody(o);
    return Ok(writer.body);
  }
}
