/** Runs with true reports only, in which one crash leaves a distribution that cannot be resumed. */
module ResumeWitness {
  import opened Common
  import opened LedgerModel
  import opened LedgerInvariants
  import opened Distribution
  import opened Resumption
  import opened TrueReports

  const FIRST: Account := "friend001"
  const SECOND: Account := "friend002"

  const SAMPLE_GENESIS := Genesis("sample", 100, map[SENDER := 100, FIRST := 0, SECOND := 0], {})
  const SAMPLE_PLAN := Plan(SAMPLE_GENESIS, [FIRST, SECOND], 5, 10)

  const SAMPLE_WORLD :=
    World(SAMPLE_PLAN, NEW_JOURNAL, None, [], [],
          NewLedger(Some(SAMPLE_GENESIS), SAMPLE_GENESIS.allocations), SAMPLE_GENESIS.allocations, 0, {})

  /** Some run in which every report was true ends in this world. */
  ghost predicate Reached(w: World) {
    exists e :: IsRun(e) && ReportsTrue(e) && e.worlds[|e.steps|] == w
  }

  lemma StartReached(w: World)
    requires Start(w)
    ensures Reached(w)
  {
    hide Start;
    var e := Execution([w], []);
    assert IsRun(e) && ReportsTrue(e) && e.worlds[|e.steps|] == w;
  }

  lemma StepReached(w: World, step: Step, w': World)
    requires Reached(w) && Next(w, step, w') && SeesTruth(w, step)
    ensures Reached(w')
  {
    hide Next, Start, SeesTruth;
    var e :| IsRun(e) && ReportsTrue(e) && e.worlds[|e.steps|] == w;
    var longer := Execution(e.worlds + [w'], e.steps + [step]);
    forall k | 0 <= k < |longer.steps|
      ensures Next(longer.worlds[k], longer.steps[k], longer.worlds[k + 1])
      ensures SeesTruth(longer.worlds[k], longer.steps[k])
    {
      if k < |e.steps| {
        assert Next(e.worlds[k], e.steps[k], e.worlds[k + 1]) && SeesTruth(e.worlds[k], e.steps[k]);
      }
    }
    assert IsRun(longer) && ReportsTrue(longer) && longer.worlds[|longer.steps|] == w';
  }

  lemma SampleStarts()
    ensures Start(SAMPLE_WORLD)
  {
    var m: map<Account, int> := map[];
    SumUpdate(m, SENDER, 100);
    SumUpdate(m[SENDER := 100], FIRST, 0);
    SumUpdate(m[SENDER := 100][FIRST := 0], SECOND, 0);
    assert SAMPLE_GENESIS.allocations == m[SENDER := 100][FIRST := 0][SECOND := 0];
    assert Sum(SAMPLE_GENESIS.allocations) == 100;
    NewLedgerInv(Some(SAMPLE_GENESIS), SAMPLE_GENESIS.allocations);
    hide Inv, NothingOverdue;
  }

  /** The world after a turn on the true ledger has sent a request that was applied and answered. */
  function Answered(w: World, r: Request, j: Journal, l: LedgerState): World {
    var offer := r.op.Offer?;
    var n := |w.ledger.branches|;
    var answer := Result(if offer && n < |l.branches| then Some(l.branches[n].id) else None);
    w.(journal := Settled(j, r.recipient, r.call, answer).0,
       requests := w.requests + [r],
       fates := w.fates + [Done(if offer then Some(|w.ledger.branches|) else None)],
       ledger := l)
  }

  lemma HonestRound(w: World, recipient: Account, clock: int, j: Journal, r: Request, l: LedgerState)
    requires Reached(w) && w.waiting == None && recipient in w.plan.recipients && |w.fates| == |w.requests|
    requires FundTurn(w.plan, w.journal, recipient, w.ledger, clock) == Send(j, r)
    requires Execute(w.ledger, r.op) == Ok(l) && (r.op.Offer? ==> |l.branches| == |w.ledger.branches| + 1)
    requires r.op.Offer? <==> r.call == OfferCall
    ensures Reached(Answered(w, r, j, l))
  {
    hide FundTurn, Execute, Reached;
    var n := |w.requests|;
    var sent := w.(journal := j, waiting := Some(n), requests := w.requests + [r], fates := w.fates + [Open]);
    StepReached(w, TakeTurn(recipient, w.ledger, clock), sent);
    var branch := if r.op.Offer? then Some(|w.ledger.branches|) else None;
    var applied := sent.(ledger := l, fates := sent.fates[n := Done(branch)]);
    StepReached(sent, Apply(n), applied);
    var answer := Result(if r.op.Offer? then Some(l.branches[|w.ledger.branches|].id) else None);
    var done := applied.(journal := Settled(j, r.recipient, r.call, answer).0, waiting := None);
    StepReached(applied, Deliver(answer), done);
    assert done == Answered(w, r, j, l);
  }

  /** A turn on a report with exactly one faucet branch for the recipient, and nothing unresolved. */
  lemma TurnOn(plan: Plan, j: Journal, recipient: Account, view: LedgerState, clock: int, b: Branch)
    requires j.inFlight == None && view.branches == [b] && b.sender == SENDER && b.receiver == recipient
    requires b.value == plan.amount && (recipient in j.known ==> j.known[recipient] == b.id)
    ensures var turn := FundTurn(plan, j, recipient, view, clock);
            && (b.state.Offered? ==>
                  turn == SendCall(j, recipient, recipient, AcceptCall, Accept(b.id, recipient), clock))
            && (b.state.Accepted? ==>
                  turn == SendCall(j, SENDER, recipient, CommitCall, Commit(b.id, SENDER, EMPTY_PAYLOAD), clock))
  {
    OneFaucetBranch(b, recipient);
    hide FaucetBranches;
  }

  /** A turn on a report without a faucet branch for the recipient, with funds to spare. */
  lemma TurnWithout(plan: Plan, j: Journal, recipient: Account, view: LedgerState, clock: int)
    requires j.inFlight == None && recipient !in j.known && Get(view.balances, recipient) == 0
    requires view.branches == [] || (|view.branches| == 1 && view.branches[0].receiver != recipient)
    requires Available(view, SENDER) >= 2 * plan.amount
    ensures FundTurn(plan, j, recipient, view, clock)
         == SendCall(j, SENDER, recipient, OfferCall, Offer(SENDER, recipient, plan.amount, OFFER_TTL), clock)
  {
    if view.branches != [] {
      assert view.branches == [view.branches[0]];
      OneFaucetBranch(view.branches[0], recipient);
    }
    hide FaucetBranches;
  }

  function AfterOffer(w: World): LedgerState {
    var b := NewBranch(w.ledger, SENDER, FIRST, 5, OFFER_TTL);
    w.ledger.(branches := [b], locked := map[SENDER := 10])
  }

  function Recorded(l: LedgerState, b: Branch): LedgerState {
    l.(branches := [b])
  }

  /** The first recipient's offer, as the run leaves the world: one offered branch, known, nothing under way. */
  lemma OfferRound(w: World)
    requires Reached(w) && w == SAMPLE_WORLD
    ensures var l := AfterOffer(w);
            Reached(w.(journal := Journal(map[SENDER := 0], map[FIRST := l.branches[0].id], None),
                       requests := [Request(SENDER, 0, FIRST, OfferCall, Offer(SENDER, FIRST, 5, OFFER_TTL))],
                       fates := [Done(Some(0))], ledger := l))
  {
    hide Reached;
    var l := AfterOffer(w);
    TurnWithout(w.plan, w.journal, FIRST, w.ledger, 0);
    hide FundTurn;
    var op := Offer(SENDER, FIRST, 5, OFFER_TTL);
    var r := Request(SENDER, 0, FIRST, OfferCall, op);
    var j := Reserve(w.journal, SENDER, FIRST, OfferCall, 0);
    assert Find([], l.branches[0].id) == None;
    assert Put([], l.branches[0]) == l.branches;
    assert Execute(w.ledger, op) == Ok(l);
    HonestRound(w, FIRST, 0, j, r, l);
    assert j.lastNonces == map[SENDER := 0];
    assert Settled(j, FIRST, OfferCall, Result(Some(l.branches[0].id))).0
        == Journal(map[SENDER := 0], map[FIRST := l.branches[0].id], None);
    assert w.requests + [r] == [r] && w.fates + [Done(Some(0))] == [Done(Some(0))];
  }

  /** An accepting or committing round on the first recipient's branch. */
  lemma MoveRound(w: World, b: Branch, b': Branch, clock: int, j: Journal, r: Request)
    requires Reached(w) && w.plan == SAMPLE_PLAN && w.waiting == None && |w.fates| == |w.requests|
    requires w.ledger.branches == [b] && w.journal.inFlight == None
    requires FundTurn(w.plan, w.journal, FIRST, w.ledger, clock) == Send(j, r)
    requires r.recipient == FIRST && r.call != OfferCall && !r.op.Offer?
    requires Execute(w.ledger, r.op) == Ok(Recorded(w.ledger, b'))
    ensures Reached(w.(journal := j.(inFlight := None), requests := w.requests + [r],
                       fates := w.fates + [Done(None)], ledger := Recorded(w.ledger, b')))
  {
    hide FundTurn, Execute, Reached;
    HonestRound(w, FIRST, clock, j, r, Recorded(w.ledger, b'));
  }

  /** The first recipient's branch, in the state it has reached. */
  function FirstBranch(state: BranchState): Branch {
    var offered := NewBranch(SAMPLE_WORLD.ledger, SENDER, FIRST, 5, OFFER_TTL);
    if state.Offered? then offered
    else if state.Accepted? then offered.(state := Accepted, acceptedRound := Some(0))
    else offered.(state := Committed, acceptedRound := Some(0), committedRound := Some(0),
                  tx := Some(TxDigest(EMPTY_PAYLOAD)))
  }

  function LedgerWith(state: BranchState): LedgerState {
    SAMPLE_WORLD.ledger.(branches := [FirstBranch(state)], locked := map[SENDER := 10])
  }

  function OfferRequest(): Request {
    Request(SENDER, 0, FIRST, OfferCall, Offer(SENDER, FIRST, 5, OFFER_TTL))
  }

  function AcceptRequest(): Request {
    Request(FIRST, 1, FIRST, AcceptCall, Accept(FirstBranch(Offered).id, FIRST))
  }

  function CommitRequest(): Request {
    Request(SENDER, 2, FIRST, CommitCall, Commit(FirstBranch(Offered).id, SENDER, EMPTY_PAYLOAD))
  }

  function FirstKnown(nonces: map<Account, int>): Journal {
    Journal(nonces, map[FIRST := FirstBranch(Offered).id], None)
  }

  function OfferedWorld(): World {
    SAMPLE_WORLD.(journal := FirstKnown(map[SENDER := 0]), requests := [OfferRequest()],
                  fates := [Done(Some(0))], ledger := LedgerWith(Offered))
  }

  function AcceptedWorld(): World {
    OfferedWorld().(journal := FirstKnown(map[SENDER := 0, FIRST := 1]),
                    requests := [OfferRequest(), AcceptRequest()],
                    fates := [Done(Some(0)), Done(None)], ledger := LedgerWith(Accepted))
  }

  function CommittedWorld(): World {
    AcceptedWorld().(journal := FirstKnown(map[SENDER := 2, FIRST := 1]),
                     requests := [OfferRequest(), AcceptRequest(), CommitRequest()],
                     fates := [Done(Some(0)), Done(None), Done(None)], ledger := LedgerWith(Committed))
  }

  lemma AcceptRound()
    requires Reached(OfferedWorld())
    ensures Reached(AcceptedWorld())
  {
    hide Reached;
    var w, b := OfferedWorld(), FirstBranch(Offered);
    TurnOn(w.plan, w.journal, FIRST, w.ledger, 1, b);
    assert Find(w.ledger.branches, b.id) == Some(0);
    var r := AcceptRequest();
    var j := Reserve(w.journal, FIRST, FIRST, AcceptCall, 1);
    assert w.ledger.branches[0 := FirstBranch(Accepted)] == [FirstBranch(Accepted)];
    assert Execute(w.ledger, r.op) == Ok(Recorded(w.ledger, FirstBranch(Accepted)));
    hide FundTurn, Execute;
    MoveRound(w, b, FirstBranch(Accepted), 1, j, r);
    var next := AcceptedWorld();
    assert w.requests + [r] == next.requests && w.fates + [Done(None)] == next.fates;
    assert j.(inFlight := None) == next.journal;
  }

  lemma CommitRound()
    requires Reached(AcceptedWorld())
    ensures Reached(CommittedWorld())
  {
    hide Reached;
    var w, b := AcceptedWorld(), FirstBranch(Accepted);
    TurnOn(w.plan, w.journal, FIRST, w.ledger, 2, b);
    assert Find(w.ledger.branches, b.id) == Some(0);
    var r := CommitRequest();
    var j := Reserve(w.journal, SENDER, FIRST, CommitCall, 2);
    assert w.ledger.branches[0 := FirstBranch(Committed)] == [FirstBranch(Committed)];
    assert Execute(w.ledger, r.op) == Ok(Recorded(w.ledger, FirstBranch(Committed)));
    hide FundTurn, Execute;
    MoveRound(w, b, FirstBranch(Committed), 2, j, r);
    var next := CommittedWorld();
    assert w.requests + [r] == next.requests && w.fates + [Done(None)] == next.fates;
    assert j.(inFlight := None) == next.journal;
  }

  /** From its start the sample run pays the first recipient without a single fault. */
  lemma FirstIsPaid()
    ensures Reached(CommittedWorld())
  {
    SampleStarts();
    StartReached(SAMPLE_WORLD);
    hide Reached;
    OfferRound(SAMPLE_WORLD);
    assert AfterOffer(SAMPLE_WORLD) == LedgerWith(Offered);
    AcceptRound();
    CommitRound();
  }

  /**
   A reachable world that cannot be resumed: every report was true and the first recipient
   is paid, but a crash came before the answer to the second recipient's offer.
   */
  lemma CrashLeavesSecondUnresolved() returns (w: World)
    ensures Reached(w) && w.plan.recipients == [FIRST, SECOND] && w.waiting == None
    ensures BlockedFor(w.journal, w.plan.recipients[0])
    ensures w.journal.inFlight.value.recipient == SECOND && w.journal.inFlight.value.call == OfferCall
  {
    hide Reached;
    FirstIsPaid();
    var paid := CommittedWorld();
    TurnWithout(paid.plan, paid.journal, SECOND, paid.ledger, 3);
    hide FundTurn;
    var op := Offer(SENDER, SECOND, 5, OFFER_TTL);
    var j := Reserve(paid.journal, SENDER, SECOND, OfferCall, 3);
    var r := Request(SENDER, NextNonce(paid.journal, SENDER, 3), SECOND, OfferCall, op);
    var sent := paid.(journal := j, waiting := Some(|paid.requests|),
                      requests := paid.requests + [r], fates := paid.fates + [Open]);
    StepReached(paid, TakeTurn(SECOND, paid.ledger, 3), sent);
    w := sent.(waiting := None);
    StepReached(sent, Crash, w);
  }

  /** The first recipient's offer is reserved and the process stops before anything comes back. */
  function LostOfferWorld(fate: Fate): World {
    SAMPLE_WORLD.(journal := Journal(map[SENDER := 0], map[], Some(Pending(FIRST, OfferCall, 0))),
                  requests := [OfferRequest()], fates := [fate])
  }

  lemma LostOfferSent()
    requires Reached(SAMPLE_WORLD)
    ensures Reached(LostOfferWorld(Open).(waiting := Some(0)))
  {
    hide Reached;
    var w := SAMPLE_WORLD;
    var sent := LostOfferWorld(Open).(waiting := Some(0));
    TurnWithout(w.plan, w.journal, FIRST, w.ledger, 0);
    hide FundTurn;
    assert w.requests + [OfferRequest()] == sent.requests && w.fates + [Open] == sent.fates;
    assert Reserve(w.journal, SENDER, FIRST, OfferCall, 0) == sent.journal by {
      assert sent.journal.lastNonces == map[SENDER := 0];
    }
    StepReached(w, TakeTurn(FIRST, w.ledger, 0), sent);
  }

  lemma LostOfferReached()
    ensures Reached(LostOfferWorld(Open)) && Reached(LostOfferWorld(Refused))
  {
    hide Reached;
    SampleStarts();
    StartReached(SAMPLE_WORLD);
    hide Start;
    LostOfferSent();
    var lost := LostOfferWorld(Open);
    StepReached(lost.(waiting := Some(0)), Crash, lost);
    LostOfferRefused();
  }

  lemma LostOfferRefused()
    requires Reached(LostOfferWorld(Open))
    ensures Reached(LostOfferWorld(Refused))
  {
    hide Reached;
    var lost := LostOfferWorld(Open);
    assert lost.fates[0 := Refused] == LostOfferWorld(Refused).fates;
    StepReached(lost, Refuse(0), LostOfferWorld(Refused));
  }

  /**
   A reachable world in which nothing is owed to a later recipient and every report was true,
   and which still cannot be resumed: the first recipient's own offer was reserved, a crash came
   before the request was applied, and whatever the clock says the first turn stops.
   */
  lemma LostOfferStops() returns (w: World)
    ensures Reached(w) && w.plan.recipients == [FIRST, SECOND] && w.waiting == None
    ensures !BlockedFor(w.journal, FIRST) && w.journal.inFlight.Some? && w.fates == [Open]
    ensures forall clock :: FundTurn(w.plan, w.journal, FIRST, w.ledger, clock) == Stop(w.journal)
  {
    w := LostOfferWorld(Open);
    LostOfferReached();
    hide Reached;
    assert FaucetBranches(w.ledger.branches, FIRST) == [];
    assert BranchIn(w.plan, w.journal, FIRST, w.ledger) == Ok(None);
  }

  /** The situation of which `RefusedOfferIsFinal` says that it never ends is a reachable one. */
  lemma RefusedOfferReached() returns (w: World)
    ensures Reached(w) && w.plan.recipients == [FIRST, SECOND]
    ensures RefusedUnheard(w, FIRST) && OnlyOurs(w, FIRST)
  {
    hide Reached;
    w := LostOfferWorld(Refused);
    LostOfferReached();
  }
}
