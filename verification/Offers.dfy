/** Compatibility offers and negotiated contracts. */
module Offers {
  import opened Basics

  type u128 = x: int | 0 <= x <= 0xFFFF_FFFF_FFFF_FFFF_FFFF_FFFF_FFFF_FFFF

  datatype Protocol = Protocol(id: u128, revision: u128)

  datatype Requirement = Optional | Required

  datatype Capability = Capability(id: u128, requirement: Requirement)

  datatype SchemaContract = SchemaContract(id: u128, codecs: seq<u128>)

  datatype Schema = Schema(id: u128, requirement: Requirement, contracts: seq<SchemaContract>)

  datatype Offer = Offer(protocols: seq<Protocol>, capabilities: seq<Capability>, schemas: seq<Schema>, diagnosticLabel: Option<string>)

  datatype OfferLimits = OfferLimits(maxProtocols: usize, maxCapabilities: usize, maxSchemas: usize, maxContractsPerSchema: usize,
                                     maxCodecsPerContract: usize, maxDiagnosticLabelBytes: usize, maxAccountedBytes: usize)

  datatype NegotiationOutcome =
    | MalformedOffer
    | ProtocolIncompatible
    | RequiredCapabilityUnavailable
    | RequiredSchemaUnavailable
    | ResourceLimitExceeded
    | InvalidSelection

  datatype Selected = Selected(contract: u128, codec: u128)

  /** Capabilities and schema bindings have no order. */
  datatype Contract = Contract(protocol: Protocol, capabilities: set<u128>, schemas: map<u128, Selected>)

  // ---------------------------------------------------------------- accounting

  function ContractsBytes(contracts: seq<SchemaContract>): nat {
    if contracts == [] then 0 else |contracts[0].codecs| * 16 + ContractsBytes(contracts[1..])
  }

  function SchemasBytes(schemas: seq<Schema>): nat {
    if schemas == [] then 0 else |schemas[0].contracts| * 16 + ContractsBytes(schemas[0].contracts) + SchemasBytes(schemas[1..])
  }

  /** The accounting size of an unlabelled offer: identities of 16 octets and requirement flags of one. */
  function AccountedBytes(o: Offer): nat {
    |o.protocols| * 32 + |o.capabilities| * 17 + |o.schemas| * 17 + SchemasBytes(o.schemas)
  }

  predicate SchemaContractWithin(c: SchemaContract, lim: OfferLimits) {
    |c.codecs| <= lim.maxCodecsPerContract
  }

  predicate SchemaWithin(s: Schema, lim: OfferLimits) {
    |s.contracts| <= lim.maxContractsPerSchema && forall c :: c in s.contracts ==> SchemaContractWithin(c, lim)
  }

  /** Every count and the accounting size stay within the limits. */
  predicate OfferWithin(o: Offer, lim: OfferLimits) {
    && |o.protocols| <= lim.maxProtocols && |o.capabilities| <= lim.maxCapabilities && |o.schemas| <= lim.maxSchemas
    && (forall s :: s in o.schemas ==> SchemaWithin(s, lim))
    && AccountedBytes(o) <= lim.maxAccountedBytes
  }
}
