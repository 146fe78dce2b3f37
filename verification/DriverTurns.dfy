/** Whose turn it is: the driver's polls serve the categories of work in rotation, so that no category with
    work waits for more than the other seven. */
module DriverTurns {
  import opened Basics
  import opened Wire
  import opened Delivery
  import opened Core
  import opened CoreInvariant
  import opened ControlBody
  import opened Registry
  import opened FlowControls
  import opened FailureReports
  import opened FlowNode
  import opened Driver

  /** How many categories a poll tries before this one when it begins at the cursor. */
  function Distance(cursor: nat, category: nat): nat
    requires category < CATEGORIES
  {
    var first := cursor % CATEGORIES;
    if first <= category then category - first else category + CATEGORIES - first
  }

  /** A received frame that can be processed now: the sender is free for a reply, and an OPEN finds no
      other request pending. */
  predicate Processable(m: Machine, frame: ControlFrame) {
    m.sender.ReadyToSend? && (frame.frameType.OpenFlow? ==> m.control.pendingIn.None?)
  }

  predicate ReceiveReady(m: Machine, polls: Polls) {
    || (m.receiver.Deferred? && Processable(m, m.receiver.frame))
    || (m.receiver.Listening? && (polls.receive.ReceiveFails? || (polls.receive.Arrives? && Processable(m, polls.receive.frame))))
  }

  /** The category has something to do in this poll: the send in flight has ended; a frame can be
      processed or receiving fails; a data category has moved, while the sender is free. */
  predicate Ready(m: Machine, polls: Polls, category: nat) {
    if category == 0 then m.sender.Sending? && !polls.send.SendPending?
    else if category == 1 then !polls.peerClosed && ReceiveReady(m, polls)
    else m.phase.Active? && m.sender.ReadyToSend? && polls.data(category).DataMoves?
  }

  /** The first category with something to do, counting from the cursor. */
  predicate Turn(m: Machine, polls: Polls, category: nat) {
    && category < CATEGORIES && Ready(m, polls, category)
    && forall j: nat :: j < CATEGORIES && j != category && Ready(m, polls, j) ==> Distance(m.cursor, category) < Distance(m.cursor, j)
  }

  /** A clean close by the peer does not put received control ahead of the rotation. */
  predicate NoneAhead(m: Machine, polls: Polls) {
    polls.peerClosed ==> !ReceiveReady(m, polls)
  }

  /** A frame that arrived but cannot be processed yet is the only change that leaves a poll going. */
  predicate SameButReceived(m: Machine, at: Machine) {
    at == m.(receiver := at.receiver, log := at.log)
  }

  // ---------------------------------------------------------------- what a category does

  lemma {:induction false} EffectsAreNeverQuiet(m: Machine, effects: seq<Effect>)
    ensures !RunEffects(m, effects).1.Quiet?
    decreases |effects|
  {
    hide DoEffect;
    if effects != [] && DoEffect(m, effects[0]).1.Quiet? {
      EffectsAreNeverQuiet(DoEffect(m, effects[0]).0, effects[1..]);
    }
  }

  lemma ProcessingIsNeverQuiet(m: Machine, frame: ControlFrame, routing: Routing)
    ensures !ProcessFrame(m, frame, routing).1.Quiet?
  {
    hide ReceiveControl, FlowFailure, FrameOf;
  }

  lemma ReceivingIsReady(m: Machine, polls: Polls)
    ensures var r := PollReceive(m, polls.receive, polls.routing);
            && (r.1.Quiet? <==> !ReceiveReady(m, polls))
            && (r.1.Quiet? ==> SameButReceived(m, r.0) && !ReceiveReady(r.0, polls))
  {
    hide ProcessFrame;
    if m.receiver.Deferred? {
      ProcessingIsNeverQuiet(m, m.receiver.frame, polls.routing);
    } else if m.receiver.Listening? && polls.receive.Arrives? {
      ProcessingIsNeverQuiet(m.(log := m.log.(arrived := m.log.arrived + [polls.receive.frame])), polls.receive.frame, polls.routing);
    }
  }

  /** Nothing that keeps a poll going changes whose turn it is. */
  ghost predicate SameTurns(m: Machine, at: Machine, polls: Polls) {
    SameButReceived(m, at) && forall j :: Ready(at, polls, j) <==> Ready(m, polls, j)
  }

  /** A category lets the poll go on exactly if it has nothing to do, and leaves the others their work. */
  lemma CategoryIsReady(m: Machine, category: nat, polls: Polls)
    requires m.phase.Active?
    ensures var r := Category(m, category, polls);
            && (r.1.Quiet? <==> !Ready(m, polls, category))
            && (r.1.Quiet? ==> SameTurns(m, r.0, polls))
  {
    hide PollReceive, RunEffects;
    ReceivingIsReady(m, polls);
    if category > 1 && polls.data(category).DataMoves? {
      EffectsAreNeverQuiet(m, polls.data(category).effects);
    }
  }

  // ---------------------------------------------------------------- the rotation

  /** The poll's result is this category's own, and the cursor is where the category left it. */
  ghost predicate Serves(m: Machine, polls: Polls, r: (Machine, Step), category: nat) {
    exists at :: SameButReceived(m, at) && r == (Category(at, category, polls).0.(cursor := r.0.cursor), Category(at, category, polls).1)
  }

  /** From the category at which the rotation stands, the first one with work is served and comes last from
      then on. */
  lemma {:induction false} RotationServes(m: Machine, start: nat, offset: nat, polls: Polls, category: nat)
    requires m.phase.Active? && start < CATEGORIES && offset <= CATEGORIES
    requires category < CATEGORIES && Ready(m, polls, category) && offset <= Distance(start, category)
    requires forall j: nat :: j < CATEGORIES && Ready(m, polls, j) ==> Distance(start, category) <= Distance(start, j)
    ensures var r := Rotate(m, start, offset, polls);
            && Serves(m, polls, r, category) && !r.1.Quiet?
            && Distance(r.0.cursor, category) == 7
    decreases CATEGORIES - offset
  {
    hide Category, Ready;
    var index := (start + offset) % CATEGORIES;
    assert Distance(start, index) == offset;
    CategoryIsReady(m, index, polls);
    if index != category {
      RotationServes(Category(m, index, polls).0, start, offset + 1, polls, category);
      ServesAfter(m, Category(m, index, polls).0, polls, Rotate(m, start, offset, polls), category);
    }
  }

  lemma ServesAfter(m: Machine, next: Machine, polls: Polls, r: (Machine, Step), category: nat)
    requires SameButReceived(m, next) && Serves(next, polls, r, category)
    ensures Serves(m, polls, r, category)
  {
    hide Category;
    var at :| SameButReceived(next, at) && r == (Category(at, category, polls).0.(cursor := r.0.cursor), Category(at, category, polls).1);
    assert SameButReceived(m, at);
  }

  lemma {:induction false} RotationIdles(m: Machine, start: nat, offset: nat, polls: Polls)
    requires m.phase.Active? && start < CATEGORIES && offset <= CATEGORIES
    requires forall j: nat :: j < CATEGORIES ==> !Ready(m, polls, j)
    ensures var r := Rotate(m, start, offset, polls);
            r.1.Quiet? && SameButReceived(m, r.0.(cursor := m.cursor)) && Distance(r.0.cursor, start) == 7
    decreases CATEGORIES - offset
  {
    hide Category, Ready;
    if offset < CATEGORIES {
      CategoryIsReady(m, (start + offset) % CATEGORIES, polls);
      RotationIdles(Category(m, (start + offset) % CATEGORIES, polls).0, start, offset + 1, polls);
    }
  }

  // ---------------------------------------------------------------- one poll

  /** A poll of an active driver serves the category whose turn it is, and that category then comes after
      all seven others. */
  lemma TurnIsServed(m: Machine, polls: Polls, category: nat)
    requires m.phase.Active? && NoneAhead(m, polls) && Turn(m, polls, category)
    ensures var r := PollStep(m, polls);
            && Serves(m, polls, r, category) && !r.1.Quiet?
            && (forall j: nat :: j < CATEGORIES && j != category ==> Distance(r.0.cursor, j) < Distance(r.0.cursor, category))
  {
    hide Rotate, PollReceive, Ready;
    if polls.peerClosed {
      ReceivingIsReady(m, polls);
      var at := PollReceive(m, polls.receive, polls.routing).0;
      AheadKeepsTurns(m, at, polls);
      RotationServes(at, at.cursor % CATEGORIES, 0, polls, category);
      ServesAfter(m, at, polls, PollStep(m, polls), category);
    } else {
      RotationServes(m, m.cursor % CATEGORIES, 0, polls, category);
    }
  }

  lemma AheadKeepsTurns(m: Machine, at: Machine, polls: Polls)
    requires polls.peerClosed && SameButReceived(m, at)
    ensures SameTurns(m, at, polls)
  {
  }

  /** With nothing to do a poll is quiet, and the category that came first comes last in the next one. */
  lemma IdlePollTurns(m: Machine, polls: Polls)
    requires m.phase.Active? && NoneAhead(m, polls) && forall j: nat :: j < CATEGORIES ==> !Ready(m, polls, j)
    ensures var r := PollStep(m, polls);
            && r.1.Quiet? && SameButReceived(m, r.0.(cursor := m.cursor))
            && (forall j: nat :: j < CATEGORIES && Distance(m.cursor, j) > 0 ==> Distance(r.0.cursor, j) == Distance(m.cursor, j) - 1)
  {
    hide Rotate, PollReceive, Ready;
    if polls.peerClosed {
      ReceivingIsReady(m, polls);
      var at := PollReceive(m, polls.receive, polls.routing).0;
      AheadKeepsTurns(m, at, polls);
      RotationIdles(at, at.cursor % CATEGORIES, 0, polls);
    } else {
      RotationIdles(m, m.cursor % CATEGORIES, 0, polls);
    }
  }

  /** The exception: after a clean close by the peer a frame that can be received goes ahead of the rotation,
      which then begins at the category behind control receive, wherever it stood. */
  lemma ReceiveGoesAhead(m: Machine, polls: Polls)
    requires m.phase.Active? && !NoneAhead(m, polls)
    ensures var r := PollStep(m, polls);
            var ahead := PollReceive(m, polls.receive, polls.routing);
            r == (ahead.0.(cursor := r.0.cursor), ahead.1) && !r.1.Quiet? && r.0.cursor == 2
  {
    hide Rotate, PollReceive;
    ReceivingIsReady(m, polls);
  }

  // ---------------------------------------------------------------- waiting

  lemma SomeTurn(m: Machine, polls: Polls, category: nat) returns (first: nat)
    requires category < CATEGORIES && Ready(m, polls, category)
    ensures Turn(m, polls, first) && Distance(m.cursor, first) <= Distance(m.cursor, category)
    decreases Distance(m.cursor, category)
  {
    hide Ready;
    if j: nat :| j < CATEGORIES && j != category && Ready(m, polls, j) && Distance(m.cursor, j) <= Distance(m.cursor, category) {
      first := SomeTurn(m, polls, j);
    } else {
      first := category;
    }
  }

  /** While a category has work, a poll serves it or brings its turn nearer by serving another one. */
  lemma WaitShortens(m: Machine, polls: Polls, category: nat)
    requires m.phase.Active? && NoneAhead(m, polls) && category < CATEGORIES && Ready(m, polls, category)
    ensures var r := PollStep(m, polls);
            !r.1.Quiet? && (Turn(m, polls, category) || Distance(r.0.cursor, category) < Distance(m.cursor, category))
  {
    hide Ready, PollStep;
    var first := SomeTurn(m, polls, category);
    TurnIsServed(m, polls, first);
    if first != category {
      LastIsBehind(PollStep(m, polls).0.cursor, first);
      Nearer(m.cursor, PollStep(m, polls).0.cursor, first, category);
    }
  }

  /** Coming after all others means that the cursor is right behind. */
  lemma LastIsBehind(cursor: nat, category: nat)
    requires category < CATEGORIES
    requires forall j: nat :: j < CATEGORIES && j != category ==> Distance(cursor, j) < Distance(cursor, category)
    ensures cursor % CATEGORIES == (category + 1) % CATEGORIES
  {
    var last := (cursor + 7) % CATEGORIES;
    assert Distance(cursor, last) == 7;
  }

  lemma Nearer(cursor: nat, after: nat, first: nat, category: nat)
    requires first < CATEGORIES && category < CATEGORIES && after % CATEGORIES == (first + 1) % CATEGORIES
    requires Distance(cursor, first) < Distance(cursor, category)
    ensures Distance(after, category) < Distance(cursor, category)
  {
  }

  /** The machine after some polls. */
  ghost function AfterPolls(m: Machine, polls: seq<Polls>): Machine {
    if polls == [] then m else PollStep(AfterPolls(m, polls[..|polls| - 1]), polls[|polls| - 1]).0
  }

  /** Throughout these polls the driver is active, the category has work, and nothing goes ahead. */
  ghost predicate Waits(m: Machine, polls: seq<Polls>, category: nat) {
    forall k :: 0 <= k < |polls| ==>
      var at := AfterPolls(m, polls[..k]);
      at.phase.Active? && NoneAhead(at, polls[k]) && Ready(at, polls[k], category)
  }

  ghost predicate TurnAt(m: Machine, polls: seq<Polls>, category: nat, k: nat)
    requires k < |polls|
  {
    Turn(AfterPolls(m, polls[..k]), polls[k], category)
  }

  lemma {:induction false} StillWaiting(m: Machine, polls: seq<Polls>, category: nat)
    requires category < CATEGORIES && Waits(m, polls, category)
    requires forall k :: 0 <= k < |polls| ==> !TurnAt(m, polls, category, k)
    ensures Distance(AfterPolls(m, polls).cursor, category) + |polls| <= Distance(m.cursor, category)
  {
    hide Ready, PollStep, Turn;
    if polls != [] {
      var n := |polls| - 1;
      var front := polls[..n];
      forall k | 0 <= k < n ensures front[..k] == polls[..k] && front[k] == polls[k] {
      }
      forall k | 0 <= k < n ensures !TurnAt(m, front, category, k) {
        assert !TurnAt(m, polls, category, k);
      }
      StillWaiting(m, front, category);
      assert !TurnAt(m, polls, category, n);
      WaitShortens(AfterPolls(m, front), polls[n], category);
    }
  }

  /** A category that has work throughout eight polls is served by one of them, from any cursor. */
  lemma ServedWithinEight(m: Machine, polls: seq<Polls>, category: nat)
    requires category < CATEGORIES && |polls| == 8 && Waits(m, polls, category)
    ensures exists k :: 0 <= k < 8 && Serves(AfterPolls(m, polls[..k]), polls[k], PollStep(AfterPolls(m, polls[..k]), polls[k]), category)
  {
    hide Ready, PollStep, Turn, Serves;
    if forall k :: 0 <= k < |polls| ==> !TurnAt(m, polls, category, k) {
      StillWaiting(m, polls, category);
      assert false;
    }
    var k :| 0 <= k < |polls| && TurnAt(m, polls, category, k);
    TurnIsServed(AfterPolls(m, polls[..k]), polls[k], category);
  }
}
