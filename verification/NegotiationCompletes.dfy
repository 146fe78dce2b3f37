/** Two exchanges that take their turns: exactly when both end established. */
module NegotiationCompletes {
  import opened Basics
  import opened Offers
  import opened OfferCodec
  import opened ProposalCodec
  import opened Negotiation
  import opened NegotiationRun
  import opened Selections
  import opened NegotiationAnswers
  import Managers

  /** What both hosts bring along: their offers, the contract the authority will propose, what each host
      requires itself, and the order in which the contract is written. */
  datatype Plan = Plan(offerA: Offer, offerB: Offer, contract: Contract, requiredA: Managers.Requirements, requiredB: Managers.Requirements,
                       order: Enumeration)

  /** Offers both ways, the proposal, and the two acknowledgements. */
  function Turns(plan: Plan): seq<Move> {
    [OfferByA(plan.offerA), OfferByB(plan.offerB), TakeByA(plan.requiredA), TakeByB(plan.requiredB),
     ProposeByA(plan.contract, plan.requiredA, plan.order), TakeByB(plan.requiredB), TakeByA(plan.requiredA), TakeByB(plan.requiredB)]
  }

  predicate Sendable(o: Offer, lim: OfferLimits, maxFrame: u64) {
    Managers.ValidOffer(o, lim) && o.diagnosticLabel == None && EncodeOffer(o, maxFrame).Ok?
  }

  /** Both offers are valid at this end, which has room for an attempt. */
  predicate Meets(m: Manager, plan: Plan) {
    HasRoom(m) && Managers.ValidOffer(plan.offerA, m.offerLimits) && Managers.ValidOffer(plan.offerB, m.offerLimits) && Compatible(plan.offerA, plan.offerB)
  }

  /** The contract is within this end's limits, suits both offers and gives the host what it requires. */
  predicate Accepts(m: Manager, plan: Plan, req: Managers.Requirements) {
    && ContractWithin(plan.contract, m.offerLimits) && Suits(plan.offerA, plan.offerB, plan.contract)
    && req.capabilities <= plan.contract.capabilities && req.schemas <= plan.contract.schemas.Keys
  }

  ghost predicate CanAgree(s: Pair, plan: Plan)
    requires Enumerates(plan.order, plan.contract)
  {
    && Sendable(plan.offerA, s.ma.offerLimits, s.a.maxFrame) && Sendable(plan.offerB, s.mb.offerLimits, s.b.maxFrame)
    && Meets(s.ma, plan) && Meets(s.mb, plan)
    && Accepts(s.ma, plan, plan.requiredA) && EncodeProposal(plan.contract, plan.order, s.a.maxFrame).Ok?
    && Accepts(s.mb, plan, plan.requiredB)
  }

  // ---------------------------------------------------------------- failing is for good

  lemma FailedStays(s: Pair, v: Move)
    requires Possible(s, v) && Managers.ManagerInv(s.ma) && Managers.ManagerInv(s.mb)
    ensures s.a.state.Failed? ==> Next(s, v).a.state.Failed?
    ensures s.b.state.Failed? ==> Next(s, v).b.state.Failed?
  {
    hide Managers.ManagerInv, Managers.Terminate, Managers.Propose, Managers.Validate, Managers.Start, DecodeOffer, DecodeProposal, EncodeProposal, EncodeOffer,
         Enumerates, Managers.ValidOffer;
  }

  lemma {:induction false} FailedToTheEnd(s: Pair, moves: seq<Move>, last: Pair)
    requires Run(s, moves, last) && (s.a.state.Failed? || s.b.state.Failed?)
    ensures last.a.state.Failed? || last.b.state.Failed?
    decreases |moves|
  {
    hide Next, Possible, Managers.ManagerInv;
    if moves != [] {
      FailedStays(s, moves[0]);
      FailedToTheEnd(Next(s, moves[0]), moves[1..], last);
    }
  }

  // ---------------------------------------------------------------- turn by turn

  ghost predicate Turn(s: Pair, v: Move) {
    PairInv(s) && Managers.ManagerInv(s.ma) && Managers.ManagerInv(s.mb) && Possible(s, v)
  }

  lemma FirstOffer(s: Pair, plan: Plan)
    requires Turn(s, OfferByA(plan.offerA)) && s.a.state.Ready? && s.sentA == []
    ensures var t := Next(s, OfferByA(plan.offerA));
            if Sendable(plan.offerA, s.ma.offerLimits, s.a.maxFrame) then
              && t == s.(a := s.a.(localOffer := Some(plan.offerA), state := AwaitingPeerOffer), offerA := Some(plan.offerA),
                         sentA := [Frame(OfferFrame, EncodeOffer(plan.offerA, s.a.maxFrame).value)])
            else t.a.state.Failed?
  {
    hide PairInv, ExchangeInv, PrepareOffer, Managers.ManagerInv, Managers.ValidOffer, EncodeOffer;
    assert ExchangeInv(s.a, s.ma) by { APart(s); }
    OfferingAnswer(s.a, s.ma, plan.offerA);
    PrepareOfferSound(s.a, s.ma, plan.offerA);
  }

  lemma SecondOffer(s: Pair, plan: Plan)
    requires Turn(s, OfferByB(plan.offerB)) && s.b.state.Ready? && s.sentB == []
    ensures var t := Next(s, OfferByB(plan.offerB));
            if Sendable(plan.offerB, s.mb.offerLimits, s.b.maxFrame) then
              && t == s.(b := s.b.(localOffer := Some(plan.offerB), state := AwaitingPeerOffer), offerB := Some(plan.offerB),
                         sentB := [Frame(OfferFrame, EncodeOffer(plan.offerB, s.b.maxFrame).value)])
            else t.b.state.Failed?
  {
    hide PairInv, ExchangeInv, PrepareOffer, Managers.ManagerInv, Managers.ValidOffer, EncodeOffer;
    assert ExchangeInv(s.b, s.mb) by { BPart(s); }
    OfferingAnswer(s.b, s.mb, plan.offerB);
    PrepareOfferSound(s.b, s.mb, plan.offerB);
  }

  /** An offer sent in its turn reads as itself if it is valid here, and never as another one. */
  lemma SentOfferReads(f: Frame, o: Offer, sender: OfferLimits, lim: OfferLimits)
    requires CarriesOffer(f, Some(o), sender)
    ensures DecodeOffer(f.body, lim).Ok? ==> DecodeOffer(f.body, lim) == Ok(o)
    ensures Managers.ValidOffer(o, lim) ==> DecodeOffer(f.body, lim) == Ok(o)
  {
    hide Managers.ValidOffer, DecodeOffer, OfferBody, Encodable, OfferWithin;
    if DecodeOffer(f.body, lim).Ok? {
      OfferArrives(f, Some(o), sender, lim);
    }
    if Managers.ValidOffer(o, lim) {
      Managers.ValidIsWithin(o, lim);
      OfferBijection(f.body, lim, o);
    }
  }

  /** An exchange that waits for the peer's offer and gets it. */
  lemma TakesOffer(x: Exchange, m: Manager, req: Managers.Requirements, f: Frame, peer: Offer, sender: OfferLimits)
    requires ExchangeInv(x, m) && x.state.AwaitingPeerOffer? && f.kind.OfferFrame? && CarriesOffer(f, Some(peer), sender)
    ensures x.localOffer.Some?
    ensures var d := Receive(x, m, req, f);
            var a := if x.role.Authority? then x.localOffer.value else peer;
            var p := if x.role.Authority? then peer else x.localOffer.value;
            if HasRoom(m) && Managers.ValidOffer(a, m.offerLimits) && Managers.ValidOffer(p, m.offerLimits) && Compatible(a, p) then
              && d.result == Ok(if x.role.Authority? then AuthoritySelectionRequired else Waiting)
              && d.x.state == (if x.role.Authority? then AwaitingAuthoritySelection else AwaitingProposal)
              && d.x.connection == x.connection && d.x.role == x.role && d.x.maxFrame == x.maxFrame && d.m.offerLimits == m.offerLimits
              && x.connection in d.m.attempts && d.m.attempts[x.connection].authority == a && d.m.attempts[x.connection].peer == p
            else d.x.state.Failed?
  {
    hide ExchangeInv, CarriesOffer, Managers.ManagerInv, Managers.ValidOffer, Compatible, HasRoom, ReceiveOffer, DecodeOffer, Leave, OthersKept;
    SentOfferReads(f, peer, sender, m.offerLimits);
    Owned(x, m);
    ReceiveSound(x, m, req, f);
    ReceiveOfferSound(x, m, f.body);
    if DecodeOffer(f.body, m.offerLimits).Ok? {
      OfferAnswer(x, m, f.body);
    } else {
      HasLocalOffer(x, m);
    }
    LimitsKept(x, m, ReceiveOffer(x, m, f.body));
  }

  lemma HasLocalOffer(x: Exchange, m: Manager)
    requires ExchangeInv(x, m) && x.state.AwaitingPeerOffer?
    ensures x.localOffer.Some?
  {
    hide Managers.ManagerInv;
  }

  lemma LimitsKept<R>(x: Exchange, m: Manager, d: Done<R>)
    requires Sound(x, m, d)
    ensures d.m.offerLimits == m.offerLimits
  {
    hide ExchangeInv;
  }

  /** The pair so far: both offers are out, nothing is proposed yet. */
  ghost predicate OffersOut(s: Pair, plan: Plan) {
    && s.offerA == Some(plan.offerA) && s.offerB == Some(plan.offerB) && |s.sentA| == 1 && |s.sentB| == 1
    && s.sentA[0].kind.OfferFrame? && s.sentB[0].kind.OfferFrame?
  }

  lemma OffersCarried(s: Pair, plan: Plan)
    requires PairInv(s) && OffersOut(s, plan)
    ensures CarriesOffer(s.sentA[0], Some(plan.offerA), s.ma.offerLimits) && CarriesOffer(s.sentB[0], Some(plan.offerB), s.mb.offerLimits)
  {
    hide ExchangeInv, CarriesOffer, PlaceA, PlaceB, RecordOk, CarriesContract;
  }

  lemma AuthorityTakesOffer(s: Pair, plan: Plan)
    requires Turn(s, TakeByA(plan.requiredA)) && OffersOut(s, plan) && s.takenByA == 0 && s.a.role.Authority?
    requires s.a.state.AwaitingPeerOffer? && s.a.localOffer == Some(plan.offerA)
    ensures var t := Next(s, TakeByA(plan.requiredA));
            if Meets(s.ma, plan) then
              && t == s.(a := t.a, ma := t.ma, takenByA := 1) && t.a.state.AwaitingAuthoritySelection?
              && t.a.connection == s.a.connection && t.a.role == s.a.role && t.a.maxFrame == s.a.maxFrame && t.ma.offerLimits == s.ma.offerLimits
              && t.a.connection in t.ma.attempts
              && t.ma.attempts[t.a.connection].authority == plan.offerA && t.ma.attempts[t.a.connection].peer == plan.offerB
            else t.a.state.Failed?
  {
    hide PairInv, ExchangeInv, CarriesOffer, Managers.ManagerInv, Receive, Managers.ValidOffer, Compatible, HasRoom;
    OffersCarried(s, plan);
    APart(s);
    TakesOffer(s.a, s.ma, plan.requiredA, s.sentB[0], plan.offerB, s.mb.offerLimits);
    assert s.sentA + [] == s.sentA;
  }

  lemma OtherTakesOffer(s: Pair, plan: Plan)
    requires Turn(s, TakeByB(plan.requiredB)) && OffersOut(s, plan) && s.takenByB == 0 && s.b.role.NonAuthority?
    requires s.b.state.AwaitingPeerOffer? && s.b.localOffer == Some(plan.offerB)
    ensures var t := Next(s, TakeByB(plan.requiredB));
            if Meets(s.mb, plan) then
              && t == s.(b := t.b, mb := t.mb, takenByB := 1) && t.b.state.AwaitingProposal?
              && t.b.connection == s.b.connection && t.b.role == s.b.role && t.mb.offerLimits == s.mb.offerLimits && t.b.connection in t.mb.attempts
              && t.mb.attempts[t.b.connection].authority == plan.offerA && t.mb.attempts[t.b.connection].peer == plan.offerB
            else t.b.state.Failed?
  {
    hide PairInv, ExchangeInv, CarriesOffer, Managers.ManagerInv, Receive, Managers.ValidOffer, Compatible, HasRoom;
    OffersCarried(s, plan);
    BPart(s);
    TakesOffer(s.b, s.mb, plan.requiredB, s.sentA[0], plan.offerA, s.ma.offerLimits);
    assert s.sentB + [] == s.sentB;
  }

  lemma AuthorityProposes(s: Pair, plan: Plan)
    requires Turn(s, ProposeByA(plan.contract, plan.requiredA, plan.order)) && |s.sentA| == 1
    requires s.a.role.Authority? && s.a.state.AwaitingAuthoritySelection? && s.a.connection in s.ma.attempts
    requires s.ma.attempts[s.a.connection].authority == plan.offerA && s.ma.attempts[s.a.connection].peer == plan.offerB
    ensures var t := Next(s, ProposeByA(plan.contract, plan.requiredA, plan.order));
            if Accepts(s.ma, plan, plan.requiredA) && EncodeProposal(plan.contract, plan.order, s.a.maxFrame).Ok? then
              && t == s.(a := s.a.(state := AwaitingValidated), ma := t.ma, sentA := t.sentA, proposed := Some(plan.contract))
              && t.sentA == s.sentA + [Frame(ProposalFrame, EncodeProposal(plan.contract, plan.order, s.a.maxFrame).value)]
            else t.a.state.Failed?
  {
    hide PairInv, ExchangeInv, Managers.ManagerInv, ProposeAuthority, EncodeProposal, Enumerates, ContractWithin, Suits, Judged;
    APart(s);
    ProposingAnswer(s.a, s.ma, plan.contract, plan.requiredA, plan.order);
    ProposeAuthoritySound(s.a, s.ma, plan.contract, plan.requiredA, plan.order);
  }

  /** The contract sent reads as itself exactly if it is within the limits here. */
  lemma SentContractReads(c: Contract, e: Enumeration, maxFrame: u64, lim: OfferLimits)
    requires Enumerates(e, c) && EncodeProposal(c, e, maxFrame).Ok?
    ensures var r := DecodeProposal(EncodeProposal(c, e, maxFrame).value, lim);
            (r.Ok? <==> ContractWithin(c, lim)) && (r.Ok? ==> r == Ok(c))
  {
    hide Enumerates, DecodeProposal, EncodeProposal, ContractWithin;
    ProposalRoundTrip(c, e, maxFrame, lim);
  }

  lemma OtherTakesProposal(s: Pair, plan: Plan, maxFrame: u64)
    requires Turn(s, TakeByB(plan.requiredB)) && s.b.role.NonAuthority? && s.b.state.AwaitingProposal? && s.b.connection in s.mb.attempts
    requires s.mb.attempts[s.b.connection].authority == plan.offerA && s.mb.attempts[s.b.connection].peer == plan.offerB
    requires Enumerates(plan.order, plan.contract) && EncodeProposal(plan.contract, plan.order, maxFrame).Ok?
    requires s.takenByB == 1 && |s.sentA| == 2
    requires s.sentA[1] == Frame(ProposalFrame, EncodeProposal(plan.contract, plan.order, maxFrame).value)
    ensures var t := Next(s, TakeByB(plan.requiredB));
            if Accepts(s.mb, plan, plan.requiredB) then
              && t == s.(b := s.b.(state := AwaitingEstablished), mb := t.mb, sentB := s.sentB + [Frame(ValidatedFrame, [])], takenByB := 2, validated := t.validated)
            else t.b.state.Failed?
  {
    hide PairInv, ExchangeInv, Managers.ManagerInv, ReceiveProposal, EncodeProposal, DecodeProposal, Enumerates, ContractWithin, Suits, Judged, Leave;
    BPart(s);
    var f := s.sentA[1];
    SentContractReads(plan.contract, plan.order, maxFrame, s.mb.offerLimits);
    ReceiveSound(s.b, s.mb, plan.requiredB, f);
    ReceiveProposalSound(s.b, s.mb, plan.requiredB, f.body);
    if DecodeProposal(f.body, s.mb.offerLimits).Ok? {
      ProposalAnswer(s.b, s.mb, plan.requiredB, f.body);
    }
  }

  lemma AuthorityCompletes(s: Pair, plan: Plan)
    requires Turn(s, TakeByA(plan.requiredA)) && s.a.state.AwaitingValidated?
    requires s.takenByA == 1 && |s.sentB| == 2 && s.sentB[1] == Frame(ValidatedFrame, [])
    ensures var t := Next(s, TakeByA(plan.requiredA));
            t == s.(a := s.a.(state := Established), ma := t.ma, sentA := s.sentA + [Frame(EstablishedFrame, [])], takenByA := 2, agreed := t.agreed)
  {
    hide PairInv, ExchangeInv, Managers.ManagerInv, ReceiveAcknowledgement;
    APart(s);
    AcknowledgementAnswer(s.a, s.ma, ValidatedFrame, []);
    AcknowledgementSound(s.a, s.ma, ValidatedFrame, []);
  }

  lemma OtherCompletes(s: Pair, plan: Plan)
    requires Turn(s, TakeByB(plan.requiredB)) && s.b.state.AwaitingEstablished?
    requires s.takenByB == 2 && |s.sentA| == 3 && s.sentA[2] == Frame(EstablishedFrame, [])
    ensures var t := Next(s, TakeByB(plan.requiredB)); t.b.state.Established? && t.a == s.a
  {
    hide PairInv, ExchangeInv, Managers.ManagerInv, ReceiveAcknowledgement;
    BPart(s);
    AcknowledgementAnswer(s.b, s.mb, EstablishedFrame, []);
    AcknowledgementSound(s.b, s.mb, EstablishedFrame, []);
  }

  // ---------------------------------------------------------------- the whole exchange

  ghost predicate BothEstablished(s: Pair) {
    s.a.state.Established? && s.b.state.Established?
  }

  /** The moves are possible one after the other and leave both sides established. */
  ghost predicate Reaches(s: Pair, moves: seq<Move>) {
    exists last :: Run(s, moves, last) && BothEstablished(last)
  }

  /** One move, and then the others; a side that failed never recovers. */
  lemma OneMove(s: Pair, moves: seq<Move>)
    requires moves != [] && PairInv(s)
    ensures Reaches(s, moves) <==> Turn(s, moves[0]) && Reaches(Next(s, moves[0]), moves[1..])
    ensures Turn(s, moves[0]) <==> Possible(s, moves[0])
    ensures Turn(s, moves[0]) ==> PairInv(Next(s, moves[0]))
    ensures Turn(s, moves[0]) && (Next(s, moves[0]).a.state.Failed? || Next(s, moves[0]).b.state.Failed?) ==> !Reaches(s, moves)
  {
    hide PairInv, Next, Possible, Managers.ManagerInv;
    PairManagers(s);
    if Turn(s, moves[0]) {
      NextKeeps(s, moves[0]);
      var t := Next(s, moves[0]);
      if Reaches(t, moves[1..]) {
        var last :| Run(t, moves[1..], last) && BothEstablished(last);
        assert Run(s, moves, last);
        if t.a.state.Failed? || t.b.state.Failed? {
          FailedToTheEnd(t, moves[1..], last);
        }
      }
    }
  }

  /** From here on the contract decides. */
  ghost predicate Met(s: Pair, plan: Plan) {
    && PairInv(s) && s.a.role.Authority? && s.b.role.NonAuthority? && s.takenByA == 1 && s.takenByB == 1 && |s.sentA| == 1 && |s.sentB| == 1
    && s.a.state.AwaitingAuthoritySelection? && s.a.connection in s.ma.attempts
    && s.ma.attempts[s.a.connection].authority == plan.offerA && s.ma.attempts[s.a.connection].peer == plan.offerB
    && s.b.state.AwaitingProposal? && s.b.connection in s.mb.attempts
    && s.mb.attempts[s.b.connection].authority == plan.offerA && s.mb.attempts[s.b.connection].peer == plan.offerB
  }

  lemma Acknowledged(s: Pair, plan: Plan)
    requires PairInv(s) && s.a.state.AwaitingValidated? && s.b.state.AwaitingEstablished?
    requires s.takenByA == 1 && s.takenByB == 2 && |s.sentA| == 2 && |s.sentB| == 2 && s.sentB[1] == Frame(ValidatedFrame, [])
    ensures Reaches(s, [TakeByA(plan.requiredA), TakeByB(plan.requiredB)])
  {
    hide PairInv, Next, Managers.ManagerInv;
    var moves := [TakeByA(plan.requiredA), TakeByB(plan.requiredB)];
    OneMove(s, moves);
    AuthorityCompletes(s, plan);
    var t := Next(s, moves[0]);
    OneMove(t, moves[1..]);
    OtherCompletes(t, plan);
    var last := Next(t, moves[1]);
    assert moves[1..][1..] == [];
    assert Run(last, [], last) && BothEstablished(last);
  }

  lemma ContractDecides(s: Pair, plan: Plan)
    requires Met(s, plan) && Enumerates(plan.order, plan.contract)
    ensures Reaches(s, Turns(plan)[4..]) <==>
              Accepts(s.ma, plan, plan.requiredA) && EncodeProposal(plan.contract, plan.order, s.a.maxFrame).Ok? && Accepts(s.mb, plan, plan.requiredB)
  {
    hide PairInv, Next, Managers.ManagerInv, Accepts, EncodeProposal, Enumerates, Reaches;
    var moves := Turns(plan)[4..];
    OneMove(s, moves);
    AuthorityProposes(s, plan);
    if Accepts(s.ma, plan, plan.requiredA) && EncodeProposal(plan.contract, plan.order, s.a.maxFrame).Ok? {
      var t := Next(s, moves[0]);
      OneMove(t, moves[1..]);
      OtherTakesProposal(t, plan, s.a.maxFrame);
      if Accepts(s.mb, plan, plan.requiredB) {
        Acknowledged(Next(t, moves[1]), plan);
        assert moves[1..][1..] == [TakeByA(plan.requiredA), TakeByB(plan.requiredB)];
      }
    }
  }

  ghost predicate BothOffered(s: Pair, plan: Plan) {
    && PairInv(s) && OffersOut(s, plan) && s.a.role.Authority? && s.b.role.NonAuthority? && s.takenByA == 0 && s.takenByB == 0
    && s.a.state.AwaitingPeerOffer? && s.a.localOffer == Some(plan.offerA) && s.b.state.AwaitingPeerOffer? && s.b.localOffer == Some(plan.offerB)
  }

  lemma OffersDecide(s: Pair, plan: Plan)
    requires BothOffered(s, plan) && Enumerates(plan.order, plan.contract)
    ensures Reaches(s, Turns(plan)[2..]) <==>
              && Meets(s.ma, plan) && Meets(s.mb, plan)
              && Accepts(s.ma, plan, plan.requiredA) && EncodeProposal(plan.contract, plan.order, s.a.maxFrame).Ok? && Accepts(s.mb, plan, plan.requiredB)
  {
    hide PairInv, Next, Managers.ManagerInv, Meets, EncodeProposal, Enumerates, Reaches, Suits, ContractWithin;
    var moves := Turns(plan)[2..];
    OneMove(s, moves);
    AuthorityTakesOffer(s, plan);
    if Meets(s.ma, plan) {
      var t := Next(s, moves[0]);
      OneMove(t, moves[1..]);
      OtherTakesOffer(t, plan);
      if Meets(s.mb, plan) {
        ContractDecides(Next(t, moves[1]), plan);
        assert moves[1..][1..] == Turns(plan)[4..];
      }
    }
  }

  /** Two new exchanges that take their turns end with both established exactly if: each offer may be sent;
      at each end both offers are valid and compatible and there is room; and at each end the contract is within
      the limits, suits both offers and gives the host what it requires. */
  lemma AgreementExactly(s: Pair, plan: Plan)
    requires Initial(s) && Enumerates(plan.order, plan.contract)
    ensures Reaches(s, Turns(plan)) <==> CanAgree(s, plan)
  {
    hide PairInv, Next, Managers.ManagerInv, Meets, Accepts, Sendable, EncodeProposal, EncodeOffer, Enumerates, Reaches;
    assert PairInv(s) by { InitialPair(s); }
    var moves := Turns(plan);
    OneMove(s, moves);
    FirstOffer(s, plan);
    if Sendable(plan.offerA, s.ma.offerLimits, s.a.maxFrame) {
      var t := Next(s, moves[0]);
      OneMove(t, moves[1..]);
      SecondOffer(t, plan);
      if Sendable(plan.offerB, s.mb.offerLimits, s.b.maxFrame) {
        OffersDecide(Next(t, moves[1]), plan);
        assert moves[1..][1..] == Turns(plan)[2..];
      }
    }
  }

  lemma InitialPair(s: Pair)
    requires Initial(s)
    ensures PairInv(s)
  {
    hide Managers.ManagerInv;
  }

  // ---------------------------------------------------------------- it happens

  const LIMITS: OfferLimits := OfferLimits(4, 4, 4, 4, 4, 0, 1000)
  const FIRST: Protocol := Protocol(1, 0)
  const SECOND: Protocol := Protocol(2, 0)
  const PLAN: Plan := Plan(Offer([FIRST, SECOND], [], [], None), Offer([SECOND], [], [], None), Contract(SECOND, {}, map[]),
                           Managers.Requirements({}, {}), Managers.Requirements({}, {}), Enumeration([], []))

  function Fresh(): Manager {
    Managers.Manager(LIMITS, 1, 10000, 0, map[], map[])
  }

  function Start(): Pair {
    Pair(NewExchange(1, Authority, 1000), Fresh(), [], 0, NewExchange(1, NonAuthority, 1000), Fresh(), [], 0, None, None, None, None, None)
  }

  lemma PlainOffer(o: Offer)
    requires 0 < |o.protocols| <= 4 && o.capabilities == [] && o.schemas == [] && o.diagnosticLabel == None
    requires forall i, j :: 0 <= i < j < |o.protocols| ==> o.protocols[i] != o.protocols[j]
    ensures Managers.ValidOffer(o, LIMITS) && Sendable(o, LIMITS, 1000)
  {
  }

  lemma PlainContract()
    ensures Enumerates(PLAN.order, PLAN.contract) && ContractWithin(PLAN.contract, LIMITS) && EncodeProposal(PLAN.contract, PLAN.order, 1000).Ok?
  {
  }

  lemma FreshPair()
    ensures Initial(Start())
  {
  }

  lemma PlanSuits()
    ensures Compatible(PLAN.offerA, PLAN.offerB) && Suits(PLAN.offerA, PLAN.offerB, PLAN.contract) && HasRoom(Fresh())
  {
    assert SECOND in PLAN.offerA.protocols && SECOND in PLAN.offerB.protocols;
  }

  /** Offers that have one protocol in common, though not all, lead to an established contract. */
  lemma AgreementHappens()
    ensures Enumerates(PLAN.order, PLAN.contract) && Initial(Start()) && Reaches(Start(), Turns(PLAN))
  {
    hide Enumerates, EncodeProposal, Sendable, Managers.ValidOffer, ContractWithin, Reaches, Initial, Compatible, Suits, HasRoom, Turns;
    PlainContract();
    PlainOffer(PLAN.offerA);
    PlainOffer(PLAN.offerB);
    FreshPair();
    PlanSuits();
    AgreementExactly(Start(), PLAN);
  }
}
