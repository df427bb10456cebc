/** Resuming a distribution when every status report is true: exactly when the next turn goes on. */
module TrueReports {
  import opened Common
  import opened LedgerModel
  import opened LedgerInvariants
  import LedgerTheorems
  import opened Distribution
  import opened Resumption

  // ----- One turn over any report -----

  /** Nothing is under way, and the report lets the recipient's payment be started or carried on. */
  predicate MayProceed(plan: Plan, view: LedgerState, recipient: Account, branch: Option<Branch>) {
    match branch
    case None => Get(view.balances, recipient) == 0 && Available(view, SENDER) >= 2 * plan.amount
    case Some(b) => !b.state.Cancelled? && !b.state.Expired?
  }

  /**
   A turn does something if and only if the report holds one fitting branch for the recipient, or
   none where none is known, and either nothing is under way and the payment may proceed, or what
   is under way is the recipient's and the report shows that it happened.
   */
  lemma TurnMovesIff(plan: Plan, j: Journal, recipient: Account, view: LedgerState, clock: int)
    ensures FundTurn(plan, j, recipient, view, clock) != Stop(j) <==>
              && BranchIn(plan, j, recipient, view).Ok?
              && var branch := BranchIn(plan, j, recipient, view).value;
              && if j.inFlight.None? then MayProceed(plan, view, recipient, branch)
                 else j.inFlight.value.recipient == recipient && Reached(j.inFlight.value.call, branch)
  {
    hide FaucetBranches, Available;
  }

  // ----- What a true report shows -----

  predicate FaucetTo(b: Branch, recipient: Account) {
    b.sender == SENDER && b.receiver == recipient
  }

  ghost predicate PaidAt(w: World, recipient: Account, k: nat) {
    k < |w.ledger.branches| && FaucetTo(w.ledger.branches[k], recipient)
  }

  /** No faucet branch to this account was there before the plan, and no other client offered one. */
  ghost predicate OnlyOurs(w: World, recipient: Account) {
    forall k: nat :: PaidAt(w, recipient, k) ==> w.base <= k && k !in w.foreign
  }

  /** The journal's known branches are on the ledger. */
  ghost predicate KnownTrue(w: World) {
    forall r :: r in w.journal.known ==>
      exists k: nat :: PaidAt(w, r, k) && w.ledger.branches[k].id == w.journal.known[r]
  }

  lemma {:induction false} NoFaucetBranch(bs: seq<Branch>, recipient: Account)
    requires forall k :: 0 <= k < |bs| ==> !FaucetTo(bs[k], recipient)
    ensures FaucetBranches(bs, recipient) == []
  {
    if bs != [] {
      NoFaucetBranch(bs[..|bs| - 1], recipient);
    }
  }

  lemma {:induction false} SingleFaucetBranch(bs: seq<Branch>, recipient: Account, k: nat)
    requires k < |bs| && FaucetTo(bs[k], recipient)
    requires forall l :: 0 <= l < |bs| && l != k ==> !FaucetTo(bs[l], recipient)
    ensures FaucetBranches(bs, recipient) == [bs[k]]
  {
    if k == |bs| - 1 {
      NoFaucetBranch(bs[..k], recipient);
    } else {
      SingleFaucetBranch(bs[..|bs| - 1], recipient, k);
    }
  }

  lemma {:induction false} FaucetBranchesAre(bs: seq<Branch>, recipient: Account, b: Branch)
    requires b in FaucetBranches(bs, recipient)
    ensures exists k :: 0 <= k < |bs| && bs[k] == b && FaucetTo(bs[k], recipient)
  {
    var n := |bs| - 1;
    if bs[n] != b || !FaucetTo(bs[n], recipient) {
      FaucetBranchesAre(bs[..n], recipient, b);
      var k :| 0 <= k < n && bs[..n][k] == b && FaucetTo(bs[..n][k], recipient);
      assert bs[k] == b;
    }
  }

  lemma OursPays(w: World, recipient: Account, k: nat) returns (i: nat)
    requires WorldOk(w) && OnlyOurs(w, recipient) && PaidAt(w, recipient, k)
    ensures MadeBy(w, i, k) && w.requests[i].recipient == recipient
    ensures w.ledger.branches[k].value == w.plan.amount
  {
    assert k !in w.foreign && w.base <= k;
    assert Ours(w, k);
    i :| MadeBy(w, i, k);
    assert Pays(w, k, w.requests[i].recipient);
  }

  lemma OursIsUnique(w: World, recipient: Account, k: nat, l: nat)
    requires WorldOk(w) && OnlyOurs(w, recipient) && PaidAt(w, recipient, k) && PaidAt(w, recipient, l)
    ensures k == l
  {
    hide LedgerOk, JournalFits, NoncesFit, PlanOk, MadeFits, OffersFit, Ours;
    if k < l {
      NewBranchesDiffer(w, k, l);
    } else if l < k {
      NewBranchesDiffer(w, l, k);
    }
  }

  /** A true report is never contradictory: it shows the plan's one branch for the recipient, or none. */
  lemma TrueReportIsClear(w: World, recipient: Account)
    requires WorldOk(w) && OnlyOurs(w, recipient) && KnownTrue(w)
    ensures (forall k: nat :: !PaidAt(w, recipient, k)) ==>
              BranchIn(w.plan, w.journal, recipient, w.ledger) == Ok(None)
    ensures forall k: nat :: PaidAt(w, recipient, k) ==>
              BranchIn(w.plan, w.journal, recipient, w.ledger) == Ok(Some(w.ledger.branches[k]))
  {
    hide WorldOk, OnlyOurs;
    if forall k: nat :: !PaidAt(w, recipient, k) {
      forall k | 0 <= k < |w.ledger.branches|
        ensures !FaucetTo(w.ledger.branches[k], recipient)
      {
        assert !PaidAt(w, recipient, k);
      }
      NoFaucetBranch(w.ledger.branches, recipient);
    } else {
      var k: nat :| PaidAt(w, recipient, k);
      forall l: nat | PaidAt(w, recipient, l)
        ensures l == k
      {
        OursIsUnique(w, recipient, k, l);
      }
      forall l | 0 <= l < |w.ledger.branches| && l != k
        ensures !FaucetTo(w.ledger.branches[l], recipient)
      {
        assert !PaidAt(w, recipient, l);
      }
      SingleFaucetBranch(w.ledger.branches, recipient, k);
      var _ := OursPays(w, recipient, k);
    }
  }

  /** The offer under way has made its branch if and only if the recipient has one. */
  lemma PendingOfferDone(w: World, recipient: Account)
    requires WorldOk(w) && OnlyOurs(w, recipient) && w.journal.inFlight.Some?
    requires w.journal.inFlight.value.recipient == recipient && w.journal.inFlight.value.call == OfferCall
    ensures w.fates != []
    ensures w.fates[|w.fates| - 1].Done? <==> exists k: nat :: PaidAt(w, recipient, k)
  {
    hide LedgerOk, NoncesFit, PlanOk, OnlyOurs, Ours;
    var last := |w.requests| - 1;
    assert w.requests[last].call == OfferCall && w.requests[last].recipient == recipient;
    if w.fates[last].Done? {
      assert Pays(w, w.fates[last].branch.value, recipient);
      assert PaidAt(w, recipient, w.fates[last].branch.value);
    }
    hide JournalFits, MadeFits;
    if exists k: nat :: PaidAt(w, recipient, k) {
      var k: nat :| PaidAt(w, recipient, k);
      var i := OursPays(w, recipient, k);
      if i != last {
        OffersDiffer(w, i, last);
      }
    }
  }

  /** The faucet's branch to this account on the cluster's ledger. */
  ghost function BranchOf(w: World, recipient: Account): Option<Branch> {
    if exists k: nat :: PaidAt(w, recipient, k) then
      var k: nat :| PaidAt(w, recipient, k);
      Some(w.ledger.branches[k])
    else None
  }

  /**
   What a true report lets a recipient's turn do. With nothing under way: start the payment if
   the recipient is empty and the faucet can stake it, or carry it on while it is alive. With an
   operation of this recipient under way: go on if it has happened.
   */
  ghost predicate CanGoOn(w: World, recipient: Account) {
    var branch := BranchOf(w, recipient);
    match w.journal.inFlight
    case None => MayProceed(w.plan, w.ledger, recipient, branch)
    case Some(pending) =>
      && pending.recipient == recipient
      && match pending.call
         case OfferCall => w.fates != [] && w.fates[|w.fates| - 1].Done?
         case AcceptCall => branch.Some? && branch.value.state in {Accepted, Committed, Final}
         case CommitCall => branch.Some? && branch.value.state in {Committed, Final}
  }

  /**
   On a true report, and where nobody else pays the recipient from the faucet, a turn does
   something if and only if the ledger and the fate of the last request let it.
   */
  lemma TrueTurnMovesIff(w: World, recipient: Account, clock: int)
    requires WorldOk(w) && OnlyOurs(w, recipient) && KnownTrue(w)
    ensures FundTurn(w.plan, w.journal, recipient, w.ledger, clock) != Stop(w.journal) <==> CanGoOn(w, recipient)
  {
    hide WorldOk, OnlyOurs, KnownTrue, FundTurn, BranchIn, MayProceed;
    TurnMovesIff(w.plan, w.journal, recipient, w.ledger, clock);
    TrueBranch(w, recipient);
    if w.journal.inFlight.Some? && w.journal.inFlight.value.recipient == recipient
       && w.journal.inFlight.value.call == OfferCall {
      PendingOfferDone(w, recipient);
    }
    hide PaidAt;
  }

  lemma TrueBranch(w: World, recipient: Account)
    requires WorldOk(w) && OnlyOurs(w, recipient) && KnownTrue(w)
    ensures BranchIn(w.plan, w.journal, recipient, w.ledger) == Ok(BranchOf(w, recipient))
  {
    hide WorldOk, OnlyOurs, KnownTrue, BranchIn;
    TrueReportIsClear(w, recipient);
  }

  // ----- Runs with true reports -----

  /** The report a step works from, if any, is the ledger of that moment. */
  predicate SeesTruth(w: World, step: Step) {
    match step
    case TakeTurn(_, view, _) => view == w.ledger
    case ReconcileThenCrash(_, view) => view == w.ledger
    case _ => true
  }

  ghost predicate ReportsTrue(e: Execution) {
    |e.worlds| == |e.steps| + 1 && forall k :: 0 <= k < |e.steps| ==> SeesTruth(e.worlds[k], e.steps[k])
  }

  /** Every known branch was known before or is in the report. */
  ghost predicate LearnsFrom(j: Journal, j': Journal, view: LedgerState) {
    forall r :: r in j'.known ==>
      || (r in j.known && j.known[r] == j'.known[r])
      || exists k :: 0 <= k < |view.branches| && FaucetTo(view.branches[k], r) && view.branches[k].id == j'.known[r]
  }

  lemma ReconcileLearns(plan: Plan, j: Journal, recipient: Account, view: LedgerState)
    requires Reconcile(plan, j, recipient, view).Ok?
    ensures LearnsFrom(j, Reconcile(plan, j, recipient, view).value, view)
  {
    var found := FaucetBranches(view.branches, recipient);
    if j.inFlight.Some? {
      assert |found| == 1;
      FaucetBranchesAre(view.branches, recipient, found[0]);
    }
    hide FaucetBranches;
  }

  lemma TurnLearns(plan: Plan, j: Journal, recipient: Account, view: LedgerState, clock: int)
    ensures LearnsFrom(j, FundTurn(plan, j, recipient, view, clock).journal, view)
  {
    if Reconcile(plan, j, recipient, view).Ok? {
      ReconcileLearns(plan, j, recipient, view);
    }
    hide Reconcile, BranchIn, Available;
  }

  /** The ledger keeps every branch where it is. */
  lemma LedgerExtends(w: World, step: Step, w': World)
    requires WorldOk(w) && Next(w, step, w')
    ensures LedgerTheorems.Extends(w.ledger, w'.ledger)
    ensures w'.base == w.base && w.foreign <= w'.foreign
  {
    assert LedgerOk(w);
    hide WorldOk, FundTurn, Reconcile, Settled, Honest;
    SameLedgerExtends(w.ledger);
    if step.Apply? { LedgerStep(w, w.requests[step.request].op); }
    if step.Other? { LedgerStep(w, step.op); }
    hide LedgerOk, Execute, LedgerTheorems.Extends;
  }

  lemma KnownStep(w: World, step: Step, w': World)
    requires WorldOk(w) && KnownTrue(w) && Next(w, step, w') && SeesTruth(w, step)
    ensures KnownTrue(w')
  {
    LedgerExtends(w, step, w');
    forall r | r in w'.journal.known
      ensures exists k: nat :: PaidAt(w', r, k) && w'.ledger.branches[k].id == w'.journal.known[r]
    {
      var k := KnownAt(w, step, w', r);
      hide Next, WorldOk, KnownTrue;
      assert LedgerTheorems.SameBranch(w.ledger.branches[k], w'.ledger.branches[k]);
      assert PaidAt(w', r, k);
    }
  }

  /** Where, before a step, the branch was that is known after it. */
  lemma KnownAt(w: World, step: Step, w': World, r: Account) returns (k: nat)
    requires WorldOk(w) && KnownTrue(w) && Next(w, step, w') && SeesTruth(w, step) && r in w'.journal.known
    ensures PaidAt(w, r, k) && w.ledger.branches[k].id == w'.journal.known[r]
  {
    if r in w.journal.known && w.journal.known[r] == w'.journal.known[r] {
      hide Next, WorldOk;
      k := WasKnown(w, r);
    } else if step.Deliver? {
      k := KnownByAnswer(w, step, w', r);
    } else {
      hide WorldOk, KnownTrue;
      k := KnownByReport(w, step, w', r);
    }
  }

  lemma KnownByAnswer(w: World, step: Step, w': World, r: Account) returns (k: nat)
    requires WorldOk(w) && Next(w, step, w') && step.Deliver?
    requires r in w'.journal.known && !(r in w.journal.known && w.journal.known[r] == w'.journal.known[r])
    ensures PaidAt(w, r, k) && w.ledger.branches[k].id == w'.journal.known[r]
  {
    hide LedgerOk, NoncesFit, OffersFit, PlanOk, Ours;
    var i := w.waiting.value;
    k := w.fates[i].branch.value;
    assert Pays(w, k, w.requests[i].recipient);
  }

  lemma KnownByReport(w: World, step: Step, w': World, r: Account) returns (k: nat)
    requires Next(w, step, w') && SeesTruth(w, step) && !step.Deliver?
    requires r in w'.journal.known && !(r in w.journal.known && w.journal.known[r] == w'.journal.known[r])
    ensures PaidAt(w, r, k) && w.ledger.branches[k].id == w'.journal.known[r]
  {
    hide FundTurn, Reconcile, Execute;
    if step.TakeTurn? {
      TurnLearns(w.plan, w.journal, step.recipient, step.view, step.clock);
    }
    if step.ReconcileThenCrash? {
      ReconcileLearns(w.plan, w.journal, step.recipient, step.view);
    }
    assert LearnsFrom(w.journal, w'.journal, w.ledger);
    hide Next;
    k :| 0 <= k < |w.ledger.branches| && FaucetTo(w.ledger.branches[k], r)
         && w.ledger.branches[k].id == w'.journal.known[r];
  }

  lemma WasKnown(w: World, r: Account) returns (k: nat)
    requires KnownTrue(w) && r in w.journal.known
    ensures PaidAt(w, r, k) && w.ledger.branches[k].id == w.journal.known[r]
  {
    k :| PaidAt(w, r, k) && w.ledger.branches[k].id == w.journal.known[r];
  }

  lemma {:induction false} TrueRunKnows(e: Execution, n: nat)
    requires IsRun(e) && ReportsTrue(e) && n < |e.worlds|
    ensures KnownTrue(e.worlds[n])
  {
    if n > 0 {
      TrueRunKnows(e, n - 1);
      RunKeepsWorld(e, n - 1);
      assert Next(e.worlds[n - 1], e.steps[n - 1], e.worlds[n]) && SeesTruth(e.worlds[n - 1], e.steps[n - 1]);
      hide Next, SeesTruth, KnownTrue, WorldOk;
      KnownStep(e.worlds[n - 1], e.steps[n - 1], e.worlds[n]);
    }
  }

  /**
   When a distribution can be resumed: at every point of every run with true reports, if nobody
   else pays the first recipient from the faucet, the turn a restart begins with does something
   exactly when the ledger and the fate of the last request let it.
   */
  lemma RestartMovesIff(e: Execution, n: nat, clock: int)
    requires IsRun(e) && ReportsTrue(e) && n < |e.worlds|
    requires e.worlds[n].plan.recipients != [] && OnlyOurs(e.worlds[n], e.worlds[n].plan.recipients[0])
    ensures var w := e.worlds[n];
            var first := w.plan.recipients[0];
            FundTurn(w.plan, w.journal, first, w.ledger, clock) != Stop(w.journal) <==> CanGoOn(w, first)
  {
    var w := e.worlds[n];
    RunKeepsWorld(e, n);
    TrueRunKnows(e, n);
    hide IsRun, ReportsTrue, WorldOk, KnownTrue;
    TrueTurnMovesIff(w, w.plan.recipients[0], clock);
  }

  // ----- A refusal whose answer was lost -----

  /** The recipient's offer is under way, unanswered, and the cluster has refused it. */
  ghost predicate RefusedUnheard(w: World, recipient: Account) {
    && w.waiting == None && w.journal.inFlight.Some?
    && w.journal.inFlight.value.recipient == recipient && w.journal.inFlight.value.call == OfferCall
    && w.fates != [] && w.fates[|w.fates| - 1].Refused?
  }

  lemma OnlyOursBefore(w: World, step: Step, w': World, recipient: Account)
    requires WorldOk(w) && Next(w, step, w') && OnlyOurs(w', recipient)
    ensures OnlyOurs(w, recipient)
  {
    LedgerExtends(w, step, w');
    hide WorldOk, Next;
    forall k: nat | PaidAt(w, recipient, k)
      ensures w.base <= k && k !in w.foreign
    {
      assert LedgerTheorems.SameBranch(w.ledger.branches[k], w'.ledger.branches[k]);
      assert PaidAt(w', recipient, k);
    }
  }

  lemma StoppedMeansUnreconciled(plan: Plan, j: Journal, recipient: Account, view: LedgerState, clock: int)
    requires j.inFlight.Some? && FundTurn(plan, j, recipient, view, clock) == Stop(j)
    ensures Reconcile(plan, j, recipient, view).Err?
  {
    hide BranchIn;
  }

  lemma RefusedStep(w: World, step: Step, w': World, recipient: Account)
    requires WorldOk(w) && KnownTrue(w) && OnlyOurs(w, recipient) && RefusedUnheard(w, recipient)
    requires Next(w, step, w') && SeesTruth(w, step)
    ensures RefusedUnheard(w', recipient)
    ensures w'.plan == w.plan && w'.journal == w.journal && w'.requests == w.requests
  {
    hide WorldOk, KnownTrue, OnlyOurs, FundTurn, Reconcile, Execute;
    if Subject(step) == Some(recipient) {
      TrueTurnMovesIff(w, recipient, if step.TakeTurn? then step.clock else 0);
      assert !CanGoOn(w, recipient);
      StoppedMeansUnreconciled(w.plan, w.journal, recipient, w.ledger, if step.TakeTurn? then step.clock else 0);
    } else {
      OneStepOfOthers(w, step, w');
    }
    hide Honest;
  }

  /**
   An offer that the cluster refused, but whose refusal a crash kept from being heard, ends the
   distribution: with true reports, and as long as nobody else pays the recipient, every later
   turn for the recipient stops, and nothing is ever sent again.
   */
  lemma {:induction false} RefusedOfferIsFinal(e: Execution, m: nat, n: nat, recipient: Account)
    requires IsRun(e) && ReportsTrue(e) && m <= n < |e.worlds|
    requires RefusedUnheard(e.worlds[m], recipient) && OnlyOurs(e.worlds[n], recipient)
    ensures Stuck(e, m, n) && RefusedUnheard(e.worlds[n], recipient)
    ensures var w := e.worlds[n];
            forall clock :: FundTurn(w.plan, w.journal, recipient, w.ledger, clock) == Stop(w.journal)
    decreases n
  {
    var w := e.worlds[n];
    RunKeepsWorld(e, n);
    TrueRunKnows(e, n);
    if m < n {
      var before := e.worlds[n - 1];
      RunKeepsWorld(e, n - 1);
      TrueRunKnows(e, n - 1);
      assert Next(before, e.steps[n - 1], w) && SeesTruth(before, e.steps[n - 1]);
      hide IsRun, ReportsTrue, WorldOk, KnownTrue, OnlyOurs, RefusedUnheard, FundTurn, Next, SeesTruth;
      OnlyOursBefore(before, e.steps[n - 1], w, recipient);
      RefusedOfferIsFinal(e, m, n - 1, recipient);
      RefusedStep(before, e.steps[n - 1], w, recipient);
    }
    hide IsRun, ReportsTrue, WorldOk, KnownTrue, OnlyOurs, FundTurn;
    forall clock
      ensures FundTurn(w.plan, w.journal, recipient, w.ledger, clock) == Stop(w.journal)
    {
      TrueTurnMovesIff(w, recipient, clock);
    }
  }
}
