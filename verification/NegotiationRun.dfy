/** An authority and a non-authority negotiating over two FIFO control streams. */
module NegotiationRun {
  import opened Basics
  import opened Offers
  import opened NegotiationBody
  import opened OfferCodec
  import opened ProposalCodec
  import opened Negotiation
  import Managers

  /** Both exchanges and their managers, every frame each side sent and how many the other has taken; and
      for the record the offers made, the contract proposed by `a`, validated by `b` and established at `a`. */
  datatype Pair = Pair(a: Exchange, ma: Manager, sentA: seq<Frame>, takenByA: nat, b: Exchange, mb: Manager, sentB: seq<Frame>, takenByB: nat,
                       offerA: Option<Offer>, offerB: Option<Offer>,
                       proposed: Option<Contract>, validated: Option<Contract>, agreed: Option<Contract>)

  datatype Move =
    | OfferByA(offer: Offer)
    | OfferByB(offer: Offer)
    | ProposeByA(contract: Contract, requirements: Managers.Requirements, order: Enumeration)
    | TakeByA(requirements: Managers.Requirements)
    | TakeByB(requirements: Managers.Requirements)
    | AbortByA
    | AbortByB

  ghost predicate Possible(s: Pair, v: Move) {
    match v
    case ProposeByA(c, _, e) => Enumerates(e, c)
    case TakeByA(_) => s.takenByA < |s.sentB|
    case TakeByB(_) => s.takenByB < |s.sentA|
    case _ => true
  }

  /** A local failure is reported to the peer; other errors close the connection without a frame. */
  function Reported(e: Error): seq<Frame> {
    if e.LocalFailure? then [FailureFrame(e.outcome)] else []
  }

  function FrameSent(r: Result<Frame, Error>): seq<Frame> {
    match r case Ok(f) => [f] case Err(e) => Reported(e)
  }

  function ProgressSent(r: Result<Progress, Error>): seq<Frame> {
    match r
    case Err(e) => Reported(e)
    case Ok(Send(f)) => [f]
    case Ok(_) => []
  }

  function SentByA(s: Pair, d: Done<Frame>): Pair {
    s.(a := d.x, ma := d.m, sentA := s.sentA + FrameSent(d.result))
  }

  function SentByB(s: Pair, d: Done<Frame>): Pair {
    s.(b := d.x, mb := d.m, sentB := s.sentB + FrameSent(d.result))
  }

  function OfferedByA(s: Pair, o: Offer, d: Done<Frame>): Pair {
    SentByA(s, d).(offerA := if d.result.Ok? then Some(o) else s.offerA)
  }

  function OfferedByB(s: Pair, o: Offer, d: Done<Frame>): Pair {
    SentByB(s, d).(offerB := if d.result.Ok? then Some(o) else s.offerB)
  }

  function ProposedByA(s: Pair, c: Contract, d: Done<Frame>): Pair {
    SentByA(s, d).(proposed := if d.result.Ok? then Some(c) else s.proposed)
  }

  function TakenByA(s: Pair, d: Done<Progress>): Pair {
    s.(a := d.x, ma := d.m, sentA := s.sentA + ProgressSent(d.result), takenByA := s.takenByA + 1,
       agreed := if s.agreed.None? && d.x.state.Established? && d.x.connection in d.m.established then Some(d.m.established[d.x.connection]) else s.agreed)
  }

  function TakenByB(s: Pair, d: Done<Progress>): Pair {
    s.(b := d.x, mb := d.m, sentB := s.sentB + ProgressSent(d.result), takenByB := s.takenByB + 1,
       validated := if s.validated.None? && d.x.state.AwaitingEstablished? && d.x.connection in d.m.attempts then d.m.attempts[d.x.connection].proposal
                    else s.validated)
  }

  ghost function Next(s: Pair, v: Move): Pair
    requires Possible(s, v) && Managers.ManagerInv(s.ma) && Managers.ManagerInv(s.mb)
  {
    hide Managers.ManagerInv, Enumerates, PrepareOffer, ProposeAuthority, Receive, Abort;
    match v
    case OfferByA(o) => OfferedByA(s, o, PrepareOffer(s.a, s.ma, o))
    case OfferByB(o) => OfferedByB(s, o, PrepareOffer(s.b, s.mb, o))
    case ProposeByA(c, req, e) => ProposedByA(s, c, ProposeAuthority(s.a, s.ma, c, req, e))
    case TakeByA(req) => TakenByA(s, Receive(s.a, s.ma, req, s.sentB[s.takenByA]))
    case TakeByB(req) => TakenByB(s, Receive(s.b, s.mb, req, s.sentA[s.takenByB]))
    case AbortByA => var d := Abort(s.a, s.ma); s.(a := d.x, ma := d.m)
    case AbortByB => var d := Abort(s.b, s.mb); s.(b := d.x, mb := d.m)
  }

  // ---------------------------------------------------------------- the invariant

  /** A frame that carries this offer. */
  predicate CarriesOffer(f: Frame, o: Option<Offer>, lim: OfferLimits) {
    && o.Some? && Managers.ValidOffer(o.value, lim) && o.value.diagnosticLabel.None?
    && Encodable(o.value) && f.body == OfferBody(o.value)
  }

  ghost predicate CarriesContract(f: Frame, c: Option<Contract>) {
    && c.Some?
    && exists e, max: u64 :: Enumerates(e, c.value) && EncodeProposal(c.value, e, max) == Ok(f.body)
  }

  /** The frames of the authority, each in its place unless it is a failure report. */
  ghost predicate ShapeA(s: Pair) {
    && (|s.sentA| > 0 && !s.sentA[0].kind.FailedFrame? ==> s.sentA[0].kind.OfferFrame? && CarriesOffer(s.sentA[0], s.offerA, s.ma.offerLimits))
    && (|s.sentA| > 1 && !s.sentA[1].kind.FailedFrame? ==> s.sentA[1].kind.ProposalFrame? && CarriesContract(s.sentA[1], s.proposed))
    && (|s.sentA| > 2 && !s.sentA[2].kind.FailedFrame? ==> s.sentA[2].kind.EstablishedFrame? && s.agreed.Some?)
  }

  ghost predicate ShapeB(s: Pair) {
    && (|s.sentB| > 0 && !s.sentB[0].kind.FailedFrame? ==> s.sentB[0].kind.OfferFrame? && CarriesOffer(s.sentB[0], s.offerB, s.mb.offerLimits))
    && (|s.sentB| > 1 && !s.sentB[1].kind.FailedFrame? ==> s.sentB[1].kind.ValidatedFrame? && s.validated.Some?)
  }

  ghost predicate Offered(m: Manager, connection: u64, s: Pair) {
    && connection in m.attempts
    && s.offerA == Some(m.attempts[connection].authority) && s.offerB == Some(m.attempts[connection].peer)
  }

  ghost predicate PlaceA(s: Pair) {
    match s.a.state
    case Ready => s.sentA == [] && s.takenByA == 0 && s.offerA.None?
    case AwaitingPeerOffer => |s.sentA| == 1 && s.takenByA == 0 && s.offerA == s.a.localOffer
    case AwaitingAuthoritySelection => |s.sentA| == 1 && s.takenByA == 1 && Offered(s.ma, s.a.connection, s)
    case AwaitingValidated =>
      |s.sentA| == 2 && s.takenByA == 1 && Offered(s.ma, s.a.connection, s) && s.proposed.Some? && s.proposed == s.ma.attempts[s.a.connection].proposal
    case Established => |s.sentA| == 3 && s.a.connection in s.ma.established && s.agreed == Some(s.ma.established[s.a.connection])
    case Failed => true
    case _ => false
  }

  ghost predicate PlaceB(s: Pair) {
    match s.b.state
    case Ready => s.sentB == [] && s.takenByB == 0 && s.offerB.None?
    case AwaitingPeerOffer => |s.sentB| == 1 && s.takenByB == 0 && s.offerB == s.b.localOffer
    case AwaitingProposal => |s.sentB| == 1 && s.takenByB == 1 && Offered(s.mb, s.b.connection, s)
    case AwaitingEstablished =>
      |s.sentB| == 2 && s.takenByB == 2 && Offered(s.mb, s.b.connection, s) && s.validated.Some? && s.validated == s.mb.attempts[s.b.connection].proposal
    case Established => s.b.connection in s.mb.established && s.agreed == Some(s.mb.established[s.b.connection])
    case Failed => true
    case _ => false
  }

  /** The record: what is validated was proposed, what is agreed was validated, and the contract suits both
      offers; each is set only once its predecessor is. */
  ghost predicate RecordOk(s: Pair) {
    && (s.proposed.Some? ==>
          && s.offerA.Some? && s.offerB.Some? && Managers.Selects(s.offerA.value, s.offerB.value, s.proposed.value))
    && (s.validated.Some? ==> s.validated == s.proposed)
    && (s.agreed.Some? ==> s.agreed == s.proposed && s.agreed == s.validated)
    && (s.proposed.Some? ==> |s.sentA| > 1) && (s.validated.Some? ==> |s.sentB| > 1) && (s.agreed.Some? ==> |s.sentA| > 2)
    && (s.offerA.Some? ==> |s.sentA| > 0) && (s.offerB.Some? ==> |s.sentB| > 0)
  }

  ghost predicate PairInv(s: Pair) {
    && s.a.role.Authority? && s.b.role.NonAuthority?
    && ExchangeInv(s.a, s.ma) && ExchangeInv(s.b, s.mb)
    && ShapeA(s) && ShapeB(s) && PlaceA(s) && PlaceB(s) && RecordOk(s)
  }

  // ---------------------------------------------------------------- failing keeps it

  /** A side that fails leaves everything else as it is; the frame it may send is a failure report. */
  lemma AFails(s: Pair, x: Exchange, m: Manager, more: seq<Frame>, taken: nat)
    requires PairInv(s) && x.state.Failed? && ExchangeInv(x, m) && m.offerLimits == s.ma.offerLimits && x.role == s.a.role
    requires |more| <= 1 && (more != [] ==> more[0].kind.FailedFrame?)
    ensures PairInv(s.(a := x, ma := m, sentA := s.sentA + more, takenByA := taken))
  {
    hide ExchangeInv, CarriesOffer, CarriesContract, Managers.Selects, Managers.ManagerInv;
  }

  lemma BFails(s: Pair, x: Exchange, m: Manager, more: seq<Frame>, taken: nat)
    requires PairInv(s) && x.state.Failed? && ExchangeInv(x, m) && m.offerLimits == s.mb.offerLimits && x.role == s.b.role
    requires |more| <= 1 && (more != [] ==> more[0].kind.FailedFrame?)
    ensures PairInv(s.(b := x, mb := m, sentB := s.sentB + more, takenByB := taken))
  {
    hide ExchangeInv, CarriesOffer, CarriesContract, Managers.Selects, Managers.ManagerInv;
  }

  // ---------------------------------------------------------------- offers

  lemma OfferedKeepsA(s: Pair, o: Offer)
    requires PairInv(s)
    ensures PairInv(OfferedByA(s, o, PrepareOffer(s.a, s.ma, o)))
  {
    hide ExchangeInv, PrepareOffer, CarriesContract, Managers.Selects, Managers.ManagerInv, Managers.ValidOffer, OfferBody, Encodable, OfferLength;
    Owned(s.a, s.ma);
    var d := PrepareOffer(s.a, s.ma, o);
    PrepareOfferSound(s.a, s.ma, o);
    if d.result.Err? {
      AFails(s, d.x, d.m, Reported(d.result.error), s.takenByA);
    }
  }

  lemma OfferedKeepsB(s: Pair, o: Offer)
    requires PairInv(s)
    ensures PairInv(OfferedByB(s, o, PrepareOffer(s.b, s.mb, o)))
  {
    hide ExchangeInv, PrepareOffer, CarriesContract, Managers.Selects, Managers.ManagerInv, Managers.ValidOffer, OfferBody, Encodable, OfferLength;
    Owned(s.b, s.mb);
    var d := PrepareOffer(s.b, s.mb, o);
    PrepareOfferSound(s.b, s.mb, o);
    if d.result.Err? {
      BFails(s, d.x, d.m, Reported(d.result.error), s.takenByB);
    }
  }

  /** A received offer is the offer that was sent. */
  lemma OfferArrives(f: Frame, o: Option<Offer>, sender: OfferLimits, receiver: OfferLimits)
    requires CarriesOffer(f, o, sender) && DecodeOffer(f.body, receiver).Ok?
    ensures o.Some? && DecodeOffer(f.body, receiver) == Ok(o.value)
  {
    hide Managers.ValidOffer, DecodeOffer, OfferBody, Encodable, OfferWithin;
    var wide := OfferLimits(U64_MAX, U64_MAX, U64_MAX, U64_MAX, U64_MAX, U64_MAX, U64_MAX);
    var got := DecodeOffer(f.body, receiver).value;
    OfferBijection(f.body, receiver, got);
    Managers.ValidIsWithin(o.value, sender);
    WithinWide(o.value, sender, wide);
    WithinWide(got, receiver, wide);
    OfferBijection(f.body, wide, o.value);
    OfferBijection(f.body, wide, got);
  }

  lemma WithinWide(o: Offer, lim: OfferLimits, wide: OfferLimits)
    requires OfferWithin(o, lim) && wide == OfferLimits(U64_MAX, U64_MAX, U64_MAX, U64_MAX, U64_MAX, U64_MAX, U64_MAX)
    ensures OfferWithin(o, wide)
  {
  }

  // ---------------------------------------------------------------- proposing

  lemma ProposedKeeps(s: Pair, c: Contract, req: Managers.Requirements, e: Enumeration)
    requires PairInv(s) && Enumerates(e, c)
    ensures PairInv(ProposedByA(s, c, ProposeAuthority(s.a, s.ma, c, req, e)))
  {
    hide ExchangeInv, ProposeAuthority, CarriesOffer, EncodeProposal, Enumerates, Managers.Selects, Managers.ManagerInv;
    Owned(s.a, s.ma);
    var d := ProposeAuthority(s.a, s.ma, c, req, e);
    ProposeAuthoritySound(s.a, s.ma, c, req, e);
    if d.result.Err? {
      AFails(s, d.x, d.m, Reported(d.result.error), s.takenByA);
    } else {
      assert EncodeProposal(c, e, s.a.maxFrame) == Ok(d.result.value.body);
      AttemptSelects(d.x, d.m);
    }
  }

  /** The manager only holds proposals that suit both offers. */
  lemma AttemptSelects(x: Exchange, m: Manager)
    requires ExchangeInv(x, m) && x.connection in m.attempts && m.attempts[x.connection].proposal.Some?
    ensures Managers.Selects(m.attempts[x.connection].authority, m.attempts[x.connection].peer, m.attempts[x.connection].proposal.value)
  {
    hide Managers.ValidOffer, Managers.Selects;
    assert Managers.AttemptOk(m.offerLimits, m.attempts[x.connection]);
  }

  // ---------------------------------------------------------------- receiving

  /** A move of the authority that keeps its own part, and the record, keeps everything. */
  lemma AMovesOn(s: Pair, t: Pair)
    requires PairInv(s) && t == s.(a := t.a, ma := t.ma, sentA := t.sentA, takenByA := t.takenByA, agreed := t.agreed)
    requires t.a.role == s.a.role && t.ma.offerLimits == s.ma.offerLimits && ExchangeInv(t.a, t.ma)
    requires ShapeA(t) && PlaceA(t) && RecordOk(t) && (s.agreed.Some? ==> t.agreed == s.agreed)
    ensures PairInv(t)
  {
    hide ExchangeInv, CarriesOffer, CarriesContract, ShapeA, PlaceA, RecordOk;
  }

  lemma BMovesOn(s: Pair, t: Pair)
    requires PairInv(s) && t == s.(b := t.b, mb := t.mb, sentB := t.sentB, takenByB := t.takenByB, validated := t.validated)
    requires t.b.role == s.b.role && t.mb.offerLimits == s.mb.offerLimits && ExchangeInv(t.b, t.mb)
    requires ShapeB(t) && PlaceB(t) && RecordOk(t)
    ensures PairInv(t)
  {
    hide ExchangeInv, CarriesOffer, CarriesContract, ShapeB, PlaceB, RecordOk;
  }

  lemma ATakesOffer(s: Pair, d: Done<Progress>)
    requires PairInv(s) && s.a.state.AwaitingPeerOffer? && s.takenByA < |s.sentB| && s.sentB[s.takenByA].kind.OfferFrame?
    requires Managers.ManagerInv(s.ma) && d == ReceiveOffer(s.a, s.ma, s.sentB[s.takenByA].body) && d.result.Ok?
    ensures PairInv(TakenByA(s, d))
  {
    hide ExchangeInv, ReceiveOffer, CarriesOffer, CarriesContract, Managers.Selects, Managers.ManagerInv, DecodeOffer, DecodeProposal;
    assert s.a.role.Authority? && s.takenByA == 0 && |s.sentA| == 1 && CarriesOffer(s.sentB[0], s.offerB, s.mb.offerLimits) && s.offerA == s.a.localOffer;
    assert s.agreed.None? && s.proposed.None?;
    ReceiveOfferSound(s.a, s.ma, s.sentB[0].body);
    OfferArrives(s.sentB[0], s.offerB, s.mb.offerLimits, s.ma.offerLimits);
    hide PairInv;
    var t := TakenByA(s, d);
    assert t.sentA == s.sentA;
    APart(s);
    AMovesOn(s, t);
  }

  lemma APart(s: Pair)
    requires PairInv(s)
    ensures ShapeA(s) && RecordOk(s) && ExchangeInv(s.a, s.ma) && s.a.role.Authority?
  {
    hide ExchangeInv, ShapeA, ShapeB, PlaceA, PlaceB, RecordOk;
  }

  lemma BPart(s: Pair)
    requires PairInv(s)
    ensures ShapeB(s) && RecordOk(s) && ExchangeInv(s.b, s.mb) && s.b.role.NonAuthority?
  {
    hide ExchangeInv, ShapeA, ShapeB, PlaceA, PlaceB, RecordOk;
  }

  lemma BTakesOffer(s: Pair, d: Done<Progress>)
    requires PairInv(s) && s.b.state.AwaitingPeerOffer? && s.takenByB < |s.sentA| && s.sentA[s.takenByB].kind.OfferFrame?
    requires Managers.ManagerInv(s.mb) && d == ReceiveOffer(s.b, s.mb, s.sentA[s.takenByB].body) && d.result.Ok?
    ensures PairInv(TakenByB(s, d))
  {
    hide ExchangeInv, ReceiveOffer, CarriesOffer, CarriesContract, Managers.Selects, Managers.ManagerInv, DecodeOffer, DecodeProposal;
    assert s.b.role.NonAuthority? && s.takenByB == 0 && |s.sentB| == 1 && CarriesOffer(s.sentA[0], s.offerA, s.ma.offerLimits) && s.offerB == s.b.localOffer;
    ReceiveOfferSound(s.b, s.mb, s.sentA[0].body);
    OfferArrives(s.sentA[0], s.offerA, s.ma.offerLimits, s.mb.offerLimits);
    hide PairInv;
    var t := TakenByB(s, d);
    assert t.sentB == s.sentB;
    BPart(s);
    BMovesOn(s, t);
  }

  /** A received contract is the contract that was proposed. */
  lemma ContractArrives(f: Frame, c: Option<Contract>, receiver: OfferLimits)
    requires CarriesContract(f, c) && DecodeProposal(f.body, receiver).Ok?
    ensures c.Some? && DecodeProposal(f.body, receiver) == Ok(c.value)
  {
    hide Enumerates, DecodeProposal, EncodeProposal;
    var e, max: u64 :| Enumerates(e, c.value) && EncodeProposal(c.value, e, max) == Ok(f.body);
    ProposalRoundTrip(c.value, e, max, receiver);
  }

  lemma BTakesProposal(s: Pair, req: Managers.Requirements, d: Done<Progress>)
    requires PairInv(s) && s.b.state.AwaitingProposal? && s.takenByB < |s.sentA| && s.sentA[s.takenByB].kind.ProposalFrame?
    requires Managers.ManagerInv(s.mb) && d == ReceiveProposal(s.b, s.mb, req, s.sentA[s.takenByB].body) && d.result.Ok?
    ensures PairInv(TakenByB(s, d))
  {
    hide ExchangeInv, ReceiveProposal, CarriesOffer, CarriesContract, Managers.Selects, Managers.ManagerInv, DecodeOffer, DecodeProposal;
    assert s.takenByB == 1 && |s.sentB| == 1 && CarriesContract(s.sentA[1], s.proposed) && Offered(s.mb, s.b.connection, s);
    assert s.validated.None? && s.agreed.None?;
    ReceiveProposalSound(s.b, s.mb, req, s.sentA[1].body);
    ContractArrives(s.sentA[1], s.proposed, s.mb.offerLimits);
    hide PairInv;
    var t := TakenByB(s, d);
    assert t.sentB == s.sentB + [Frame(ValidatedFrame, [])];
    BPart(s);
    assert t.validated == s.proposed;
    BMovesOn(s, t);
  }

  lemma ATakesValidated(s: Pair, d: Done<Progress>)
    requires PairInv(s) && s.a.state.AwaitingValidated? && s.takenByA < |s.sentB| && s.sentB[s.takenByA].kind.ValidatedFrame?
    requires Managers.ManagerInv(s.ma) && d == ReceiveAcknowledgement(s.a, s.ma, ValidatedFrame, s.sentB[s.takenByA].body) && d.result.Ok?
    ensures PairInv(TakenByA(s, d))
  {
    hide ExchangeInv, ReceiveAcknowledgement, CarriesOffer, CarriesContract, Managers.Selects, Managers.ManagerInv, DecodeOffer, DecodeProposal;
    assert s.takenByA == 1 && |s.sentA| == 2 && s.validated.Some? && s.proposed == s.ma.attempts[s.a.connection].proposal;
    assert s.agreed.None?;
    AcknowledgementSound(s.a, s.ma, ValidatedFrame, s.sentB[1].body);
    hide PairInv;
    var t := TakenByA(s, d);
    assert t.sentA == s.sentA + [Frame(EstablishedFrame, [])];
    APart(s);
    assert t.agreed == s.proposed;
    AMovesOn(s, t);
  }

  lemma BTakesEstablished(s: Pair, d: Done<Progress>)
    requires PairInv(s) && s.b.state.AwaitingEstablished? && s.takenByB < |s.sentA| && s.sentA[s.takenByB].kind.EstablishedFrame?
    requires Managers.ManagerInv(s.mb) && d == ReceiveAcknowledgement(s.b, s.mb, EstablishedFrame, s.sentA[s.takenByB].body) && d.result.Ok?
    ensures PairInv(TakenByB(s, d))
  {
    hide ExchangeInv, ReceiveAcknowledgement, CarriesOffer, CarriesContract, Managers.Selects, Managers.ManagerInv, DecodeOffer, DecodeProposal;
    assert s.takenByB == 2 && s.agreed.Some? && s.validated == s.mb.attempts[s.b.connection].proposal;
    AcknowledgementSound(s.b, s.mb, EstablishedFrame, s.sentA[2].body);
    hide PairInv;
    var t := TakenByB(s, d);
    assert t.sentB == s.sentB;
    BPart(s);
    BMovesOn(s, t);
  }

  lemma ATakes(s: Pair, req: Managers.Requirements)
    requires PairInv(s) && s.takenByA < |s.sentB| && Managers.ManagerInv(s.ma)
    ensures PairInv(TakenByA(s, Receive(s.a, s.ma, req, s.sentB[s.takenByA])))
  {
    hide *;
    var f := s.sentB[s.takenByA];
    var d := Receive(s.a, s.ma, req, f);
    APart(s);
    ReceiveSound(s.a, s.ma, req, f);
    AuthorityStates(s);
    if d.result.Err? || d.x.state.Failed? {
      AFailsTaking(s, d);
    } else if s.a.state.AwaitingPeerOffer? {
      ATakesOffer(s, d);
    } else {
      ATakesValidated(s, d);
    }
  }

  lemma AFailsTaking(s: Pair, d: Done<Progress>)
    requires PairInv(s) && Sound(s.a, s.ma, d) && (d.result.Err? || d.x.state.Failed?)
    requires d.result.Ok? ==> (d.x.state.Failed? <==> d.result.value.RemoteFailed?)
    ensures PairInv(TakenByA(s, d))
  {
    hide PairInv, ExchangeInv;
    AFails(s, d.x, d.m, ProgressSent(d.result), s.takenByA + 1);
  }

  lemma BFailsTaking(s: Pair, d: Done<Progress>)
    requires PairInv(s) && Sound(s.b, s.mb, d) && (d.result.Err? || d.x.state.Failed?)
    requires d.result.Ok? ==> (d.x.state.Failed? <==> d.result.value.RemoteFailed?)
    ensures PairInv(TakenByB(s, d))
  {
    hide PairInv, ExchangeInv;
    BFails(s, d.x, d.m, ProgressSent(d.result), s.takenByB + 1);
  }

  lemma AuthorityStates(s: Pair)
    requires PairInv(s)
    ensures !s.a.state.AwaitingProposal? && !s.a.state.AwaitingEstablished? && !s.b.state.AwaitingValidated? && !s.b.state.AwaitingAuthoritySelection?
  {
    hide ExchangeInv, ShapeA, ShapeB, RecordOk;
  }

  lemma BTakes(s: Pair, req: Managers.Requirements)
    requires PairInv(s) && s.takenByB < |s.sentA| && Managers.ManagerInv(s.mb)
    ensures PairInv(TakenByB(s, Receive(s.b, s.mb, req, s.sentA[s.takenByB])))
  {
    hide *;
    var f := s.sentA[s.takenByB];
    var d := Receive(s.b, s.mb, req, f);
    BPart(s);
    ReceiveSound(s.b, s.mb, req, f);
    AuthorityStates(s);
    if d.result.Err? || d.x.state.Failed? {
      BFailsTaking(s, d);
    } else if s.b.state.AwaitingPeerOffer? {
      BTakesOffer(s, d);
    } else if s.b.state.AwaitingProposal? {
      BTakesProposal(s, req, d);
    } else {
      BTakesEstablished(s, d);
    }
  }

  lemma AAborts(s: Pair)
    requires PairInv(s) && Managers.ManagerInv(s.ma) && Managers.ManagerInv(s.mb)
    ensures PairInv(Next(s, AbortByA))
  {
    hide PairInv, ExchangeInv, Abort, Managers.ManagerInv;
    APart(s);
    AbortSound(s.a, s.ma);
    assert s.sentA + [] == s.sentA;
    AFails(s, Abort(s.a, s.ma).x, Abort(s.a, s.ma).m, [], s.takenByA);
  }

  lemma BAborts(s: Pair)
    requires PairInv(s) && Managers.ManagerInv(s.ma) && Managers.ManagerInv(s.mb)
    ensures PairInv(Next(s, AbortByB))
  {
    hide PairInv, ExchangeInv, Abort, Managers.ManagerInv;
    BPart(s);
    AbortSound(s.b, s.mb);
    assert s.sentB + [] == s.sentB;
    BFails(s, Abort(s.b, s.mb).x, Abort(s.b, s.mb).m, [], s.takenByB);
  }

  lemma PairManagers(s: Pair)
    requires PairInv(s)
    ensures Managers.ManagerInv(s.ma) && Managers.ManagerInv(s.mb)
  {
    hide ShapeA, ShapeB, PlaceA, PlaceB, RecordOk;
    Owned(s.a, s.ma);
    Owned(s.b, s.mb);
  }

  lemma NextKeeps(s: Pair, v: Move)
    requires PairInv(s) && Possible(s, v) && Managers.ManagerInv(s.ma) && Managers.ManagerInv(s.mb)
    ensures PairInv(Next(s, v))
  {
    hide PairInv, PrepareOffer, ProposeAuthority, Receive, Abort, Managers.ManagerInv, Enumerates;
    match v
    case OfferByA(o) => OfferedKeepsA(s, o);
    case OfferByB(o) => OfferedKeepsB(s, o);
    case ProposeByA(c, req, e) => ProposedKeeps(s, c, req, e);
    case TakeByA(req) => ATakes(s, req);
    case TakeByB(req) => BTakes(s, req);
    case AbortByA => AAborts(s);
    case AbortByB => BAborts(s);
  }

  // ---------------------------------------------------------------- every run

  /** The managers' invariants only make `Next` defined; `PairManagers` shows that they always hold. */
  ghost predicate Run(s: Pair, moves: seq<Move>, last: Pair)
    decreases |moves|
  {
    if moves == [] then s == last
    else Possible(s, moves[0]) && Managers.ManagerInv(s.ma) && Managers.ManagerInv(s.mb) && Run(Next(s, moves[0]), moves[1..], last)
  }

  ghost predicate Initial(s: Pair) {
    && Managers.ManagerInv(s.ma) && Managers.ManagerInv(s.mb) && !s.ma.Knows(s.a.connection) && !s.mb.Knows(s.b.connection)
    && s.a == NewExchange(s.a.connection, Authority, s.a.maxFrame) && s.b == NewExchange(s.b.connection, NonAuthority, s.b.maxFrame)
    && s == Pair(s.a, s.ma, [], 0, s.b, s.mb, [], 0, None, None, None, None, None)
  }

  lemma {:induction false} RunKeeps(s: Pair, moves: seq<Move>, last: Pair)
    requires PairInv(s) && Run(s, moves, last)
    ensures PairInv(last)
    decreases |moves|
  {
    hide PairInv, Next, Possible, Managers.ManagerInv;
    if moves != [] {
      NextKeeps(s, moves[0]);
      RunKeeps(Next(s, moves[0]), moves[1..], last);
    }
  }

  /** In every run: the non-authority is established only after the authority was, on the contract the
      authority proposed and the non-authority validated; that contract suits both offers; and a side that
      failed left nothing in its manager. */
  lemma AgreementHolds(s: Pair, moves: seq<Move>, last: Pair)
    requires Initial(s) && Run(s, moves, last)
    ensures last.b.state.Established? ==>
              last.agreed.Some? && last.b.connection in last.mb.established && last.mb.established[last.b.connection] == last.agreed.value
    ensures last.a.state.Established? ==>
              last.agreed.Some? && last.a.connection in last.ma.established && last.ma.established[last.a.connection] == last.agreed.value
    ensures last.agreed.Some? ==>
              && last.validated == last.agreed && last.proposed == last.agreed
              && last.offerA.Some? && last.offerB.Some? && Managers.Selects(last.offerA.value, last.offerB.value, last.agreed.value)
    ensures last.a.state.Failed? ==> !last.ma.Knows(last.a.connection)
    ensures last.b.state.Failed? ==> !last.mb.Knows(last.b.connection)
  {
    hide Run, Managers.ManagerInv, Managers.Selects;
    assert PairInv(s);
    RunKeeps(s, moves, last);
  }
}
