/** The body of NEGOTIATION_PROPOSAL: a contract whose capabilities and schema bindings have no order, so
    any enumeration of them is written, and a repeated entry is refused as soon as it is read. */
module ProposalCodec {
  import opened Basics
  import opened Wire
  import opened Offers
  import opened NegotiationBody

  datatype Binding = Binding(schema: u128, selected: Selected)

  /** The order in which a contract's sets are written. */
  datatype Enumeration = Enumeration(capabilities: seq<u128>, bindings: seq<Binding>)

  predicate Distinct(ids: seq<u128>) {
    forall i, j :: 0 <= i < j < |ids| ==> ids[i] != ids[j]
  }

  function SetOf(ids: seq<u128>): set<u128> {
    set i | 0 <= i < |ids| :: ids[i]
  }

  function SchemasOf(bindings: seq<Binding>): seq<u128> {
    seq(|bindings|, i requires 0 <= i < |bindings| => bindings[i].schema)
  }

  function MapOf(bindings: seq<Binding>): map<u128, Selected> {
    if bindings == [] then map[] else MapOf(bindings[..|bindings| - 1])[bindings[|bindings| - 1].schema := bindings[|bindings| - 1].selected]
  }

  ghost predicate Enumerates(e: Enumeration, c: Contract) {
    && Distinct(e.capabilities) && SetOf(e.capabilities) == c.capabilities
    && Distinct(SchemasOf(e.bindings)) && MapOf(e.bindings) == c.schemas
  }

  lemma SetOfAppend(ids: seq<u128>, id: u128)
    ensures SetOf(ids + [id]) == SetOf(ids) + {id}
  {
    var all := ids + [id];
    assert all[|ids|] == id;
    forall x | x in SetOf(ids) ensures x in SetOf(all) {
      var i :| 0 <= i < |ids| && ids[i] == x;
      assert all[i] == x;
    }
  }

  lemma {:induction false} DistinctSize(ids: seq<u128>)
    requires Distinct(ids)
    ensures |SetOf(ids)| == |ids|
  {
    if ids != [] {
      var front := ids[..|ids| - 1];
      DistinctSize(front);
      assert ids == front + [ids[|ids| - 1]];
      SetOfAppend(front, ids[|ids| - 1]);
    }
  }

  lemma {:induction false} MapKeys(bindings: seq<Binding>)
    ensures MapOf(bindings).Keys == SetOf(SchemasOf(bindings))
  {
    if bindings != [] {
      var front := bindings[..|bindings| - 1];
      var last := bindings[|bindings| - 1];
      MapKeys(front);
      assert bindings == front + [last];
      SchemasAppend(front, last);
      SetOfAppend(SchemasOf(front), last.schema);
    }
  }

  lemma {:induction false} MapSize(bindings: seq<Binding>)
    ensures MapOf(bindings).Keys == SetOf(SchemasOf(bindings))
    ensures Distinct(SchemasOf(bindings)) ==> |MapOf(bindings)| == |bindings|
  {
    hide MapOf, SetOf, SchemasOf, Distinct;
    MapKeys(bindings);
    if Distinct(SchemasOf(bindings)) {
      DistinctSize(SchemasOf(bindings));
      SchemasLength(bindings);
      assert |MapOf(bindings)| == |MapOf(bindings).Keys|;
    }
  }

  lemma SchemasLength(bindings: seq<Binding>)
    ensures |SchemasOf(bindings)| == |bindings|
  {
  }

  // ---------------------------------------------------------------- encoding

  function WriteBinding(b: Binding): seq<u8> {
    IdBytes(b.schema) + IdBytes(b.selected.contract) + IdBytes(b.selected.codec)
  }

  function ProposalBody(p: Protocol, e: Enumeration): seq<u8>
    requires |e.capabilities| <= MAX_VARINT && |e.bindings| <= MAX_VARINT
  {
    IdBytes(p.id) + IdBytes(p.revision) + WriteList(IdBytes, e.capabilities) + WriteList(WriteBinding, e.bindings)
  }

  function ProposalBytes(c: Contract): nat {
    32 + 16 * |c.capabilities| + 48 * |c.schemas|
  }

  function ProposalLength(c: Contract): nat
    requires |c.capabilities| <= MAX_VARINT && |c.schemas| <= MAX_VARINT
  {
    ProposalBytes(c) + |Varint(|c.capabilities|)| + |Varint(|c.schemas|)|
  }

  function EncodeProposal(c: Contract, e: Enumeration, maxBody: u64): Result<seq<u8>, NegotiationOutcome>
    requires Enumerates(e, c)
  {
    DistinctSize(e.capabilities);
    MapSize(e.bindings);
    if |c.capabilities| > MAX_VARINT || |c.schemas| > MAX_VARINT || ProposalLength(c) > maxBody then Err(ResourceLimitExceeded)
    else Ok(ProposalBody(c.protocol, e))
  }

  // ---------------------------------------------------------------- decoding

  function ReadDistinct(n: nat, c: Cursor, seen: seq<u128>): Parsed<seq<u128>> {
    if n == 0 then Ok((seen, c))
    else
      var id :- ReadId(c);
      if id.0 in seen then Err(Failure(InvalidSelection)) else ReadDistinct(n - 1, id.1, seen + [id.0])
  }

  function ReadBindings(n: nat, c: Cursor, seen: seq<Binding>): Parsed<seq<Binding>> {
    if n == 0 then Ok((seen, c))
    else
      var schema :- ReadId(c);
      if schema.0 in SchemasOf(seen) then Err(Failure(InvalidSelection))
      else
        var contract :- ReadId(schema.1);
        var codec :- ReadId(contract.1);
        ReadBindings(n - 1, codec.1, seen + [Binding(schema.0, Selected(contract.0, codec.0))])
  }

  function ReadSized(max: usize, width: nat, b: Budget, c: Cursor): Parsed<nat> {
    var count :- ReadCount(c, max, b.exceeded);
    var charged :- Charge(count.1, count.0 * width, b);
    Ok((count.0, charged))
  }

  function ReadProposal(lim: OfferLimits, c: Cursor): Parsed<(Protocol, Enumeration)> {
    var b := Budget(lim.maxAccountedBytes, ResourceLimitExceeded);
    var id :- ReadId(c);
    var revision :- ReadId(id.1);
    var charged :- Charge(revision.1, 32, b);
    var capabilityCount :- ReadSized(lim.maxCapabilities, 16, b, charged);
    var capabilities :- ReadDistinct(capabilityCount.0, capabilityCount.1, []);
    var schemaCount :- ReadSized(lim.maxSchemas, 48, b, capabilities.1);
    var bindings :- ReadBindings(schemaCount.0, schemaCount.1, []);
    Ok(((Offers.Protocol(id.0, revision.0), Enumeration(capabilities.0, bindings.0)), bindings.1))
  }

  function ContractOf(p: Protocol, e: Enumeration): Contract {
    Contract(p, SetOf(e.capabilities), MapOf(e.bindings))
  }

  function DecodeProposal(body: seq<u8>, lim: OfferLimits): Result<Contract, DecodeError> {
    var r :- ReadProposal(lim, Cursor(body, 0));
    if r.1.rest == [] then Ok(ContractOf(r.0.0, r.0.1)) else Err(Malformed(TrailingBytes))
  }

  // ---------------------------------------------------------------- round trip

  lemma {:induction false} DistinctReads(xs: seq<u128>, seen: seq<u128>, rest: seq<u8>, used: nat)
    requires Distinct(seen + xs)
    ensures ReadDistinct(|xs|, Cursor(WriteMany(IdBytes, xs) + rest, used), seen) == Ok((seen + xs, Cursor(rest, used)))
  {
    hide ReadId, IdBytes;
    if xs == [] {
      assert WriteMany(IdBytes, xs) + rest == rest && seen + xs == seen;
    } else {
      var tail := WriteMany(IdBytes, xs[1..]) + rest;
      assert WriteMany(IdBytes, xs) + rest == IdBytes(xs[0]) + tail;
      IdReads(xs[0], tail, used);
      assert (seen + xs)[|seen|] == xs[0] && forall i :: 0 <= i < |seen| ==> (seen + xs)[i] == seen[i];
      assert seen + xs == (seen + [xs[0]]) + xs[1..];
      DistinctReads(xs[1..], seen + [xs[0]], rest, used);
    }
  }

  lemma {:induction false} DistinctWereWritten(n: nat, c: Cursor, seen: seq<u128>)
    requires Distinct(seen) && ReadDistinct(n, c, seen).Ok?
    ensures var (all, after) := ReadDistinct(n, c, seen).value;
            && seen <= all && |all| == |seen| + n && Distinct(all) && after.used == c.used
            && c.rest == WriteMany(IdBytes, all[|seen|..]) + after.rest
  {
    hide ReadId, IdBytes;
    if n == 0 {
      assert seen[|seen|..] == [];
      assert c.rest == WriteMany(IdBytes, []) + c.rest;
    } else {
      var id := ReadId(c).value;
      IdWasWritten(c);
      DistinctWereWritten(n - 1, id.1, seen + [id.0]);
      var (all, after) := ReadDistinct(n, c, seen).value;
      assert all[|seen|..][0] == id.0 && all[|seen|..][1..] == all[|seen| + 1..];
      assert c.rest == IdBytes(id.0) + (WriteMany(IdBytes, all[|seen| + 1..]) + after.rest);
    }
  }

  lemma SchemasAppend(seen: seq<Binding>, b: Binding)
    ensures SchemasOf(seen + [b]) == SchemasOf(seen) + [b.schema]
  {
  }

  lemma {:induction false} BindingsRead(xs: seq<Binding>, seen: seq<Binding>, rest: seq<u8>, used: nat)
    requires Distinct(SchemasOf(seen + xs))
    ensures ReadBindings(|xs|, Cursor(WriteMany(WriteBinding, xs) + rest, used), seen) == Ok((seen + xs, Cursor(rest, used)))
  {
    hide ReadId, IdBytes;
    if xs == [] {
      assert WriteMany(WriteBinding, xs) + rest == rest && seen + xs == seen;
    } else {
      var tail := WriteMany(WriteBinding, xs[1..]) + rest;
      var b := xs[0];
      var second := IdBytes(b.selected.contract) + (IdBytes(b.selected.codec) + tail);
      assert WriteMany(WriteBinding, xs) + rest == IdBytes(b.schema) + second;
      IdReads(b.schema, second, used);
      IdReads(b.selected.contract, IdBytes(b.selected.codec) + tail, used);
      IdReads(b.selected.codec, tail, used);
      NotSeenBefore(seen, xs);
      assert seen + xs == (seen + [b]) + xs[1..];
      BindingsRead(xs[1..], seen + [b], rest, used);
    }
  }

  lemma NotSeenBefore(seen: seq<Binding>, xs: seq<Binding>)
    requires xs != [] && Distinct(SchemasOf(seen + xs))
    ensures xs[0].schema !in SchemasOf(seen)
  {
    var all := SchemasOf(seen + xs);
    assert all[|seen|] == xs[0].schema;
    assert forall i :: 0 <= i < |seen| ==> all[i] == SchemasOf(seen)[i];
  }

  lemma {:induction false} BindingsWereWritten(n: nat, c: Cursor, seen: seq<Binding>)
    requires Distinct(SchemasOf(seen)) && ReadBindings(n, c, seen).Ok?
    ensures var (all, after) := ReadBindings(n, c, seen).value;
            && seen <= all && |all| == |seen| + n && Distinct(SchemasOf(all)) && after.used == c.used
            && c.rest == WriteMany(WriteBinding, all[|seen|..]) + after.rest
  {
    hide ReadId, IdBytes;
    if n == 0 {
      assert seen[|seen|..] == [];
      assert c.rest == WriteMany(WriteBinding, []) + c.rest;
    } else {
      var schema := ReadId(c).value;
      IdWasWritten(c);
      var contract := ReadId(schema.1).value;
      IdWasWritten(schema.1);
      var codec := ReadId(contract.1).value;
      IdWasWritten(contract.1);
      var b := Binding(schema.0, Selected(contract.0, codec.0));
      SchemasAppend(seen, b);
      BindingsWereWritten(n - 1, codec.1, seen + [b]);
      var (all, after) := ReadBindings(n, c, seen).value;
      assert all[|seen|..][0] == b && all[|seen|..][1..] == all[|seen| + 1..];
      assert c.rest == WriteBinding(b) + (WriteMany(WriteBinding, all[|seen| + 1..]) + after.rest);
    }
  }

  predicate ContractWithin(c: Contract, lim: OfferLimits) {
    |c.capabilities| <= lim.maxCapabilities && |c.schemas| <= lim.maxSchemas && ProposalBytes(c) <= lim.maxAccountedBytes
  }

  lemma SizedReads(count: nat, max: usize, width: nat, b: Budget, rest: seq<u8>, used: nat)
    requires count <= max && count <= MAX_VARINT && used + count * width <= b.limit
    ensures ReadSized(max, width, b, Cursor(Varint(count) + rest, used)) == Ok((count, Cursor(rest, used + count * width)))
  {
    hide ReadCount, Varint;
    CountReads(count, rest, used, max, b.exceeded);
  }

  lemma SizedWasWritten(max: usize, width: nat, b: Budget, c: Cursor)
    requires ReadSized(max, width, b, c).Ok?
    ensures var (count, after) := ReadSized(max, width, b, c).value;
            && count <= max && count <= MAX_VARINT && c.rest == Varint(count) + after.rest && after.used == c.used + count * width <= b.limit
  {
    hide ReadCount, Varint;
    CountWasWritten(c, max, b.exceeded);
  }

  lemma ProposalReads(c: Contract, e: Enumeration, lim: OfferLimits, rest: seq<u8>)
    requires Enumerates(e, c) && ContractWithin(c, lim) && |e.capabilities| <= MAX_VARINT && |e.bindings| <= MAX_VARINT
    ensures ReadProposal(lim, Cursor(ProposalBody(c.protocol, e) + rest, 0)) == Ok(((c.protocol, e), Cursor(rest, ProposalBytes(c))))
  {
    hide ReadId, IdBytes, ReadSized, ReadDistinct, ReadBindings, WriteMany, Varint, Distinct, MapOf, SetOf;
    var b := Budget(lim.maxAccountedBytes, ResourceLimitExceeded);
    DistinctSize(e.capabilities);
    MapSize(e.bindings);
    var fifth := WriteMany(WriteBinding, e.bindings) + rest;
    var fourth := Varint(|e.bindings|) + fifth;
    var third := WriteMany(IdBytes, e.capabilities) + fourth;
    var second := Varint(|e.capabilities|) + third;
    var first := IdBytes(c.protocol.revision) + second;
    assert ProposalBody(c.protocol, e) + rest == IdBytes(c.protocol.id) + first;
    IdReads(c.protocol.id, first, 0);
    IdReads(c.protocol.revision, second, 0);
    SizedReads(|e.capabilities|, lim.maxCapabilities, 16, b, third, 32);
    var used := 32 + |e.capabilities| * 16;
    assert [] + e.capabilities == e.capabilities && [] + e.bindings == e.bindings;
    DistinctReads(e.capabilities, [], fourth, used);
    SizedReads(|e.bindings|, lim.maxSchemas, 48, b, fifth, used);
    BindingsRead(e.bindings, [], rest, used + |e.bindings| * 48);
  }

  lemma ProposalWasWritten(lim: OfferLimits, c: Cursor)
    requires c.used == 0 && ReadProposal(lim, c).Ok?
    ensures var ((p, e), after) := ReadProposal(lim, c).value;
            && |e.capabilities| <= MAX_VARINT && |e.bindings| <= MAX_VARINT
            && Enumerates(e, ContractOf(p, e)) && ContractWithin(ContractOf(p, e), lim)
            && c.rest == ProposalBody(p, e) + after.rest
  {
    hide ReadId, IdBytes, ReadSized, ReadDistinct, ReadBindings, WriteMany, Varint, MapOf, SetOf;
    var b := Budget(lim.maxAccountedBytes, ResourceLimitExceeded);
    IdWasWritten(c);
    var id := ReadId(c).value;
    IdWasWritten(id.1);
    var revision := ReadId(id.1).value;
    var charged := Charge(revision.1, 32, b).value;
    SizedWasWritten(lim.maxCapabilities, 16, b, charged);
    var capabilityCount := ReadSized(lim.maxCapabilities, 16, b, charged).value;
    DistinctWereWritten(capabilityCount.0, capabilityCount.1, []);
    var capabilities := ReadDistinct(capabilityCount.0, capabilityCount.1, []).value;
    SizedWasWritten(lim.maxSchemas, 48, b, capabilities.1);
    var schemaCount := ReadSized(lim.maxSchemas, 48, b, capabilities.1).value;
    BindingsWereWritten(schemaCount.0, schemaCount.1, []);
    var bindings := ReadBindings(schemaCount.0, schemaCount.1, []).value;
    DistinctSize(capabilities.0);
    MapSize(bindings.0);
    assert capabilities.0[0..] == capabilities.0 && bindings.0[0..] == bindings.0;
    assert c.rest == IdBytes(id.0) + (IdBytes(revision.0) + (Varint(|capabilities.0|) + (WriteMany(IdBytes, capabilities.0)
                     + (Varint(|bindings.0|) + (WriteMany(WriteBinding, bindings.0) + bindings.1.rest)))));
    hide Distinct;
  }

  /** Whatever order a contract is written in, it decodes to that contract and to no other, exactly when it
      is within the receiver's limits. */
  lemma ProposalRoundTrip(c: Contract, e: Enumeration, maxBody: u64, lim: OfferLimits)
    requires Enumerates(e, c) && EncodeProposal(c, e, maxBody).Ok?
    ensures DecodeProposal(EncodeProposal(c, e, maxBody).value, lim).Ok? <==> ContractWithin(c, lim)
    ensures DecodeProposal(EncodeProposal(c, e, maxBody).value, lim).Ok? ==> DecodeProposal(EncodeProposal(c, e, maxBody).value, lim) == Ok(c)
  {
    hide ReadProposal, Distinct, MapOf, SetOf, Varint;
    DistinctSize(e.capabilities);
    MapSize(e.bindings);
    var body := ProposalBody(c.protocol, e);
    assert body + [] == body;
    if ContractWithin(c, lim) {
      ProposalReads(c, e, lim, []);
    }
    if DecodeProposal(body, lim).Ok? {
      ProposalWasWritten(lim, Cursor(body, 0));
      var ((q, f), after) := ReadProposal(lim, Cursor(body, 0)).value;
      assert ProposalBody(q, f) + [] == ProposalBody(q, f);
      OneBody(c.protocol, e, q, f);
    }
  }

  /** A body decodes to a contract exactly when it is within the limits and the body writes it in some order. */
  lemma ProposalBijection(body: seq<u8>, lim: OfferLimits, c: Contract)
    ensures DecodeProposal(body, lim) == Ok(c) <==>
              && ContractWithin(c, lim)
              && exists e :: Enumerates(e, c) && |e.capabilities| <= MAX_VARINT && |e.bindings| <= MAX_VARINT && body == ProposalBody(c.protocol, e)
  {
    hide ReadProposal, Distinct, MapOf, SetOf, Varint, ProposalBody;
    assert body + [] == body;
    if DecodeProposal(body, lim) == Ok(c) {
      ProposalWasWritten(lim, Cursor(body, 0));
      var ((p, e), after) := ReadProposal(lim, Cursor(body, 0)).value;
      assert ProposalBody(p, e) + [] == ProposalBody(p, e);
    }
    if ContractWithin(c, lim) {
      forall e | Enumerates(e, c) && |e.capabilities| <= MAX_VARINT && |e.bindings| <= MAX_VARINT && body == ProposalBody(c.protocol, e)
        ensures DecodeProposal(body, lim) == Ok(c)
      {
        ProposalReads(c, e, lim, []);
      }
    }
  }

  /** Two enumerations with the same body are the same. */
  lemma OneBody(p: Protocol, e: Enumeration, q: Protocol, f: Enumeration)
    requires |e.capabilities| <= MAX_VARINT && |e.bindings| <= MAX_VARINT && |f.capabilities| <= MAX_VARINT && |f.bindings| <= MAX_VARINT
    requires ProposalBody(p, e) == ProposalBody(q, f)
    ensures p == q && e == f
  {
    hide ReadId, IdBytes, WriteMany, WriteList;
    var second := IdBytes(p.revision) + (WriteList(IdBytes, e.capabilities) + WriteList(WriteBinding, e.bindings));
    var second' := IdBytes(q.revision) + (WriteList(IdBytes, f.capabilities) + WriteList(WriteBinding, f.bindings));
    assert ProposalBody(p, e) == IdBytes(p.id) + second && ProposalBody(q, f) == IdBytes(q.id) + second';
    IdReads(p.id, second, 0);
    IdReads(q.id, second', 0);
    var third := WriteList(IdBytes, e.capabilities) + WriteList(WriteBinding, e.bindings);
    var third' := WriteList(IdBytes, f.capabilities) + WriteList(WriteBinding, f.bindings);
    IdReads(p.revision, third, 0);
    IdReads(q.revision, third', 0);
    SameLists(e.capabilities, f.capabilities, WriteList(WriteBinding, e.bindings), WriteList(WriteBinding, f.bindings));
    assert WriteList(WriteBinding, e.bindings) + [] == WriteList(WriteBinding, e.bindings);
    assert WriteList(WriteBinding, f.bindings) + [] == WriteList(WriteBinding, f.bindings);
    SameBindingLists(e.bindings, f.bindings, [], []);
  }

  lemma SameLists(xs: seq<u128>, ys: seq<u128>, s: seq<u8>, t: seq<u8>)
    requires |xs| <= MAX_VARINT && |ys| <= MAX_VARINT && WriteList(IdBytes, xs) + s == WriteList(IdBytes, ys) + t
    ensures xs == ys && s == t
  {
    hide IdBytes, WriteMany, Varint, ReadCount;
    assert WriteList(IdBytes, xs) + s == Varint(|xs|) + (WriteMany(IdBytes, xs) + s);
    assert WriteList(IdBytes, ys) + t == Varint(|ys|) + (WriteMany(IdBytes, ys) + t);
    CountReads(|xs|, WriteMany(IdBytes, xs) + s, 0, U64_MAX, MalformedOffer);
    CountReads(|ys|, WriteMany(IdBytes, ys) + t, 0, U64_MAX, MalformedOffer);
    SameIds(xs, ys, s, t);
  }

  lemma {:induction false} SameIds(xs: seq<u128>, ys: seq<u128>, s: seq<u8>, t: seq<u8>)
    requires |xs| == |ys| && WriteMany(IdBytes, xs) + s == WriteMany(IdBytes, ys) + t
    ensures xs == ys && s == t
  {
    hide IdBytes, ReadId;
    if xs == [] {
      assert WriteMany(IdBytes, xs) + s == s && WriteMany(IdBytes, ys) + t == t;
    } else {
      assert WriteMany(IdBytes, xs) + s == IdBytes(xs[0]) + (WriteMany(IdBytes, xs[1..]) + s);
      assert WriteMany(IdBytes, ys) + t == IdBytes(ys[0]) + (WriteMany(IdBytes, ys[1..]) + t);
      IdReads(xs[0], WriteMany(IdBytes, xs[1..]) + s, 0);
      IdReads(ys[0], WriteMany(IdBytes, ys[1..]) + t, 0);
      SameIds(xs[1..], ys[1..], s, t);
      assert xs == [xs[0]] + xs[1..] && ys == [ys[0]] + ys[1..];
    }
  }

  lemma SameBindingLists(xs: seq<Binding>, ys: seq<Binding>, s: seq<u8>, t: seq<u8>)
    requires |xs| <= MAX_VARINT && |ys| <= MAX_VARINT && WriteList(WriteBinding, xs) + s == WriteList(WriteBinding, ys) + t
    ensures xs == ys && s == t
  {
    hide IdBytes, WriteMany, Varint, ReadCount, WriteBinding;
    assert WriteList(WriteBinding, xs) + s == Varint(|xs|) + (WriteMany(WriteBinding, xs) + s);
    assert WriteList(WriteBinding, ys) + t == Varint(|ys|) + (WriteMany(WriteBinding, ys) + t);
    CountReads(|xs|, WriteMany(WriteBinding, xs) + s, 0, U64_MAX, MalformedOffer);
    CountReads(|ys|, WriteMany(WriteBinding, ys) + t, 0, U64_MAX, MalformedOffer);
    SameBindings(xs, ys, s, t);
  }

  lemma {:induction false} SameBindings(xs: seq<Binding>, ys: seq<Binding>, s: seq<u8>, t: seq<u8>)
    requires |xs| == |ys| && WriteMany(WriteBinding, xs) + s == WriteMany(WriteBinding, ys) + t
    ensures xs == ys && s == t
  {
    hide IdBytes, WriteBinding;
    if xs == [] {
      assert WriteMany(WriteBinding, xs) + s == s && WriteMany(WriteBinding, ys) + t == t;
    } else {
      assert WriteMany(WriteBinding, xs) + s == WriteBinding(xs[0]) + (WriteMany(WriteBinding, xs[1..]) + s);
      assert WriteMany(WriteBinding, ys) + t == WriteBinding(ys[0]) + (WriteMany(WriteBinding, ys[1..]) + t);
      SameBinding(xs[0], ys[0], WriteMany(WriteBinding, xs[1..]) + s, WriteMany(WriteBinding, ys[1..]) + t);
      SameBindings(xs[1..], ys[1..], s, t);
      assert xs == [xs[0]] + xs[1..] && ys == [ys[0]] + ys[1..];
    }
  }

  lemma SameBinding(x: Binding, y: Binding, s: seq<u8>, t: seq<u8>)
    requires WriteBinding(x) + s == WriteBinding(y) + t
    ensures x == y && s == t
  {
    hide IdBytes, ReadId;
    var xs := [x.schema, x.selected.contract, x.selected.codec];
    var ys := [y.schema, y.selected.contract, y.selected.codec];
    ThreeIds(x);
    ThreeIds(y);
    SameIds(xs, ys, s, t);
    assert x.schema == xs[0] == ys[0] == y.schema && x.selected.contract == xs[1] == ys[1] && x.selected.codec == xs[2] == ys[2];
  }

  lemma ThreeIds(x: Binding)
    ensures WriteMany(IdBytes, [x.schema, x.selected.contract, x.selected.codec]) == WriteBinding(x)
  {
    hide IdBytes;
    assert [x.schema, x.selected.contract, x.selected.codec][1..] == [x.selected.contract, x.selected.codec];
    assert [x.selected.contract, x.selected.codec][1..] == [x.selected.codec];
    assert WriteMany(IdBytes, [x.selected.codec]) == IdBytes(x.selected.codec) + WriteMany(IdBytes, [x.selected.codec][1..]);
    assert WriteMany(IdBytes, [x.selected.codec]) == IdBytes(x.selected.codec);
  }
}
