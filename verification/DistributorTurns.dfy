/** Exactly what a turn of the distributor does on a report, and a restart after everything was paid. */
module Turns {
  import opened Common
  import opened LedgerModel
  import opened LedgerInvariants
  import LedgerCalls
  import opened Distribution
  import opened Resumption
  import opened TrueReports

  // ----- What a report shows -----

  /** Branch `k` of the report is the recipient's only faucet branch, of the plan's amount, and the known one. */
  ghost predicate Fitting(plan: Plan, j: Journal, recipient: Account, view: LedgerState, k: nat) {
    && k < |view.branches| && FaucetTo(view.branches[k], recipient) && view.branches[k].value == plan.amount
    && (forall l :: 0 <= l < |view.branches| && FaucetTo(view.branches[l], recipient) ==> l == k)
    && (recipient in j.known ==> j.known[recipient] == view.branches[k].id)
  }

  /** The report has no faucet branch for the recipient, and none is known. */
  ghost predicate Unpaid(j: Journal, recipient: Account, view: LedgerState) {
    && recipient !in j.known
    && forall l :: 0 <= l < |view.branches| ==> !FaucetTo(view.branches[l], recipient)
  }

  lemma {:induction false} FaucetCount(bs: seq<Branch>, recipient: Account, k: nat, l: nat)
    requires k < l < |bs| && FaucetTo(bs[k], recipient) && FaucetTo(bs[l], recipient)
    ensures |FaucetBranches(bs, recipient)| >= 2
  {
    var n := |bs| - 1;
    if l == n {
      HasFaucetBranch(bs[..n], recipient, k);
    } else {
      FaucetCount(bs[..n], recipient, k, l);
    }
  }

  lemma {:induction false} HasFaucetBranch(bs: seq<Branch>, recipient: Account, k: nat)
    requires k < |bs| && FaucetTo(bs[k], recipient)
    ensures |FaucetBranches(bs, recipient)| >= 1
  {
    if k < |bs| - 1 {
      HasFaucetBranch(bs[..|bs| - 1], recipient, k);
    }
  }

  lemma FittingIsOne(plan: Plan, j: Journal, recipient: Account, view: LedgerState, k: nat)
    requires k < |view.branches| && FaucetTo(view.branches[k], recipient)
    requires |FaucetBranches(view.branches, recipient)| <= 1
    ensures FaucetBranches(view.branches, recipient) == [view.branches[k]]
    ensures forall l :: 0 <= l < |view.branches| && FaucetTo(view.branches[l], recipient) ==> l == k
  {
    forall l | 0 <= l < |view.branches| && FaucetTo(view.branches[l], recipient)
      ensures l == k
    {
      if k < l { FaucetCount(view.branches, recipient, k, l); }
      if l < k { FaucetCount(view.branches, recipient, l, k); }
    }
    SingleFaucetBranch(view.branches, recipient, k);
  }

  /** The recipient's one branch of a report, none, or a refusal. */
  lemma BranchInIff(plan: Plan, j: Journal, recipient: Account, view: LedgerState)
    ensures BranchIn(plan, j, recipient, view) == Ok(None) <==> Unpaid(j, recipient, view)
    ensures forall k: nat :: Fitting(plan, j, recipient, view, k) ==>
              BranchIn(plan, j, recipient, view) == Ok(Some(view.branches[k]))
    ensures BranchIn(plan, j, recipient, view).Ok? && BranchIn(plan, j, recipient, view).value.Some? ==>
              exists k: nat :: Fitting(plan, j, recipient, view, k)
  {
    var bs := view.branches;
    if k: nat :| k < |bs| && FaucetTo(bs[k], recipient) {
      forall l: nat | Fitting(plan, j, recipient, view, l)
        ensures FaucetBranches(bs, recipient) == [bs[l]]
      {
        SingleFaucetBranch(bs, recipient, l);
      }
      HasFaucetBranch(bs, recipient, k);
      if |FaucetBranches(bs, recipient)| <= 1 {
        FittingIsOne(plan, j, recipient, view, k);
        assert bs[k].value == plan.amount && (recipient in j.known ==> j.known[recipient] == bs[k].id) ==>
                 Fitting(plan, j, recipient, view, k);
      }
      hide FaucetBranches, FaucetTo;
    } else {
      NoFaucetBranch(bs, recipient);
    }
  }

  // ----- One turn -----

  /** The clock, unless it is not past the actor's last nonce: then the next one. */
  lemma NonceIs(j: Journal, actor: Account, clock: int)
    ensures var nonce := NextNonce(j, actor, clock);
            var last := if actor in j.lastNonces then j.lastNonces[actor] else -1;
            nonce >= clock && nonce > last && (nonce == clock || nonce == last + 1)
  {
  }

  /** The turn sends exactly this request, and has saved its nonce and the operation before. */
  ghost predicate Sends(turn: Turn, j: Journal, actor: Account, recipient: Account, call: Call, op: Op, clock: int) {
    var nonce := NextNonce(j, actor, clock);
    && turn.Send? && turn.request == Request(actor, nonce, recipient, call, op)
    && turn.journal == Journal(j.lastNonces[actor := nonce], j.known, Some(Pending(recipient, call, nonce)))
  }

  /**
   A turn with nothing under way, on any report at all: the recipient is funded exactly when its
   one fitting branch is Committed or Final, is sent an acceptance exactly on Offered, a commitment
   exactly on Accepted and an offer exactly when it has no branch, no balance, and the faucet can
   stake the amount; in every other case the turn stops and changes nothing.
   */
  lemma TurnExact(plan: Plan, j: Journal, recipient: Account, view: LedgerState, clock: int)
    requires j.inFlight.None?
    ensures var turn := FundTurn(plan, j, recipient, view, clock);
            && (turn == Funded(j) <==>
                  exists k: nat :: Fitting(plan, j, recipient, view, k)
                                   && (view.branches[k].state.Committed? || view.branches[k].state.Final?))
            && (forall k: nat :: Fitting(plan, j, recipient, view, k) ==>
                  var b := view.branches[k];
                  && (b.state.Offered? <==>
                        Sends(turn, j, recipient, recipient, AcceptCall, Accept(b.id, recipient), clock))
                  && (b.state.Accepted? <==>
                        Sends(turn, j, SENDER, recipient, CommitCall, Commit(b.id, SENDER, "{}"), clock)))
            && (Sends(turn, j, SENDER, recipient, OfferCall, Offer(SENDER, recipient, plan.amount, 3600), clock) <==>
                  && Unpaid(j, recipient, view) && Get(view.balances, recipient) == 0
                  && Get(view.balances, SENDER) - Get(view.locked, SENDER) >= 2 * plan.amount)
            && (turn.Stop? || turn == Funded(j) || turn.Send?)
            && (turn.Stop? ==> turn == Stop(j))
            && (turn.Send? ==>
                  || Sends(turn, j, SENDER, recipient, OfferCall, Offer(SENDER, recipient, plan.amount, 3600), clock)
                  || exists k: nat :: Fitting(plan, j, recipient, view, k)
                                      && (view.branches[k].state.Offered? || view.branches[k].state.Accepted?))
  {
    BranchInIff(plan, j, recipient, view);
    hide BranchIn, Fitting, Unpaid;
  }

  /** The pending call has happened: this branch has at least the state it asks for. */
  predicate Happened(call: Call, state: BranchState) {
    match call
    case OfferCall => true
    case AcceptCall => state.Accepted? || state.Committed? || state.Final?
    case CommitCall => state.Committed? || state.Final?
  }

  /** The report shows, at branch `k`, that the recipient's pending call has happened. */
  ghost predicate Shows(plan: Plan, j: Journal, recipient: Account, view: LedgerState, k: nat) {
    && Fitting(plan, j, recipient, view, k) && j.inFlight.Some? && j.inFlight.value.recipient == recipient
    && Happened(j.inFlight.value.call, view.branches[k].state)
  }

  /**
   A turn with something under way: if it is the recipient's and the report shows that it happened,
   the branch is recorded and the turn goes on as with nothing under way; otherwise it stops.
   */
  lemma PendingTurnExact(plan: Plan, j: Journal, recipient: Account, view: LedgerState, clock: int)
    requires j.inFlight.Some?
    ensures forall k: nat :: Shows(plan, j, recipient, view, k) ==>
              var j' := Journal(j.lastNonces, j.known[recipient := view.branches[k].id], None);
              && Reconcile(plan, j, recipient, view) == Ok(j')
              && FundTurn(plan, j, recipient, view, clock) == FundTurn(plan, j', recipient, view, clock)
    ensures (forall k: nat :: !Shows(plan, j, recipient, view, k)) ==>
              FundTurn(plan, j, recipient, view, clock) == Stop(j)
  {
    BranchInIff(plan, j, recipient, view);
    hide BranchIn, Unpaid;
    if BranchIn(plan, j, recipient, view).Ok? && BranchIn(plan, j, recipient, view).value.Some? {
      var k: nat :| Fitting(plan, j, recipient, view, k);
      assert Shows(plan, j, recipient, view, k) <==>
               j.inFlight.value.recipient == recipient && Happened(j.inFlight.value.call, view.branches[k].state);
    }
  }

  /** Only a usable result or INVALID_REQUEST resolves a call; an offer's result makes its branch known. */
  lemma SettledIs(j: Journal, recipient: Account, call: Call, answer: Answer)
    ensures var (j', ok) := Settled(j, recipient, call, answer);
            && (ok <==> answer.Result? && (call == OfferCall ==> answer.branchId.Some?))
            && j'.lastNonces == j.lastNonces
            && j'.inFlight == (if ok || answer.InvalidRequest? then None else j.inFlight)
            && j'.known == if ok && call == OfferCall then j.known[recipient := answer.branchId.value] else j.known
  {
  }

  // ----- A restart after everything was paid -----

  predicate Paid(state: BranchState) {
    state.Committed? || state.Final?
  }

  /** The recipient has a faucet branch that is committed or final. */
  ghost predicate IsPaid(w: World, recipient: Account) {
    exists k: nat :: PaidAt(w, recipient, k) && Paid(w.ledger.branches[k].state)
  }

  ghost predicate AllPaid(w: World) {
    forall r :: r in w.plan.recipients ==> IsPaid(w, r)
  }

  lemma PaidBranchFits(w: World, recipient: Account, k: nat, j: Journal)
    requires WorldOk(w) && OnlyOurs(w, recipient) && PaidAt(w, recipient, k)
    requires recipient in j.known ==> j.known[recipient] == w.ledger.branches[k].id
    ensures Fitting(w.plan, j, recipient, w.ledger, k)
  {
    hide WorldOk, OnlyOurs;
    forall l | 0 <= l < |w.ledger.branches| && FaucetTo(w.ledger.branches[l], recipient)
      ensures l == k
    {
      assert PaidAt(w, recipient, l);
      OursIsUnique(w, recipient, k, l);
    }
    var _ := OursPays(w, recipient, k);
  }

  /** On a true report a paid recipient is passed, if what is under way, if anything, is its own. */
  lemma PaidIsPassed(w: World, recipient: Account, clock: int)
    requires WorldOk(w) && OnlyOurs(w, recipient) && KnownTrue(w) && IsPaid(w, recipient)
    requires !BlockedFor(w.journal, recipient)
    ensures var turn := FundTurn(w.plan, w.journal, recipient, w.ledger, clock);
            turn.Funded? && turn.journal.inFlight.None?
  {
    var k: nat :| PaidAt(w, recipient, k) && Paid(w.ledger.branches[k].state);
    var j := w.journal;
    hide WorldOk, OnlyOurs, FundTurn;
    if recipient in j.known {
      var l: nat :| PaidAt(w, recipient, l) && w.ledger.branches[l].id == j.known[recipient];
      OursIsUnique(w, recipient, k, l);
    }
    hide KnownTrue, Fitting;
    PaidBranchFits(w, recipient, k, j);
    if j.inFlight.None? {
      TurnExact(w.plan, j, recipient, w.ledger, clock);
    } else {
      assert Shows(w.plan, j, recipient, w.ledger, k);
      PendingTurnExact(w.plan, j, recipient, w.ledger, clock);
      var j' := Journal(j.lastNonces, j.known[recipient := w.ledger.branches[k].id], None);
      PaidBranchFits(w, recipient, k, j');
      TurnExact(w.plan, j', recipient, w.ledger, clock);
    }
  }

  lemma PaidStays(w: World, step: Step, w': World, recipient: Account)
    requires WorldOk(w) && Next(w, step, w') && IsPaid(w, recipient)
    ensures IsPaid(w', recipient)
  {
    var k: nat :| PaidAt(w, recipient, k) && Paid(w.ledger.branches[k].state);
    assert Inv(w.ledger, w.opening) && NothingOverdue(w.ledger);
    hide WorldOk, FundTurn, Reconcile, Settled, Honest, Inv, NothingOverdue, Execute;
    if step.Apply? { CallKeepsPaid(w.ledger, w.opening, w.requests[step.request].op, k); }
    if step.Other? { CallKeepsPaid(w.ledger, w.opening, step.op, k); }
    assert PaidAt(w', recipient, k) && Paid(w'.ledger.branches[k].state);
  }

  lemma CallKeepsPaid(l: LedgerState, opening: map<Account, int>, op: Op, k: nat)
    requires Inv(l, opening) && NothingOverdue(l) && Execute(l, op).Ok?
    requires k < |l.branches| && Paid(l.branches[k].state)
    ensures var l' := Execute(l, op).value;
            && k < |l'.branches| && Paid(l'.branches[k].state)
            && l'.branches[k].sender == l.branches[k].sender && l'.branches[k].receiver == l.branches[k].receiver
  {
    assert BranchesOk(l);
    hide Inv, BranchesOk, NothingOverdue, Execute;
    LedgerCalls.CallMoves(l, op, k);
    if LedgerCalls.Names(op, l.branches[k].id) { LedgerCalls.NamedIsOpen(l, op, k); }
  }

  /** No request is awaited, and what is under way, if anything, is the first recipient's. */
  ghost predicate Restartable(w: World) {
    && w.waiting == None && w.plan.recipients != []
    && (w.journal.inFlight.Some? ==> w.journal.inFlight.value.recipient == w.plan.recipients[0])
  }

  /** Where a restarted run stands when everybody has been paid. */
  ghost predicate Passing(e: Execution, m: nat, n: nat)
    requires |e.worlds| == |e.steps| + 1 && m <= n < |e.worlds|
  {
    && e.worlds[n].requests == e.worlds[m].requests && e.worlds[n].plan == e.worlds[m].plan
    && Restartable(e.worlds[n]) && AllPaid(e.worlds[n])
    && (Cursor(e, m, n) > 0 ==> e.worlds[n].journal.inFlight.None?)
  }

  ghost predicate OnlyOursForAll(w: World) {
    forall r :: r in w.plan.recipients ==> OnlyOurs(w, r)
  }

  /** The turn a run takes at this step passes its recipient. */
  ghost predicate Passes(w: World, step: Step) {
    step.TakeTurn? ==> FundTurn(w.plan, w.journal, step.recipient, step.view, step.clock).Funded?
  }

  lemma PassingStep(w: World, step: Step, w': World, at: nat)
    requires WorldOk(w) && KnownTrue(w) && OnlyOursForAll(w) && Restartable(w) && AllPaid(w)
    requires Next(w, step, w') && SeesTruth(w, step) && (at > 0 ==> w.journal.inFlight.None?)
    requires Subject(step).Some? ==>
               at < |w.plan.recipients| && Subject(step) == Some(w.plan.recipients[at])
    ensures w'.requests == w.requests && w'.plan == w.plan && Restartable(w') && AllPaid(w') && Passes(w, step)
    ensures step.TakeTurn? || at > 0 ==> w'.journal.inFlight.None?
  {
    forall r | r in w.plan.recipients
      ensures IsPaid(w', r)
    {
      PaidStays(w, step, w', r);
    }
    if step.TakeTurn? {
      assert OnlyOurs(w, step.recipient) && IsPaid(w, step.recipient);
      PaidIsPassed(w, step.recipient, step.clock);
    }
    if step.ReconcileThenCrash? {
      ReconcileIs(w.plan, w.journal, step.recipient, step.view);
    }
    hide WorldOk, KnownTrue, OnlyOursForAll, IsPaid, FundTurn, Reconcile, Execute, Honest, Settled;
  }

  lemma OnlyOursForAllBefore(w: World, step: Step, w': World)
    requires WorldOk(w) && Next(w, step, w') && OnlyOursForAll(w')
    ensures OnlyOursForAll(w)
  {
    NextKeepsWorld(w, step, w');
    hide WorldOk, Next, OnlyOurs;
    forall r | r in w.plan.recipients
      ensures OnlyOurs(w, r)
    {
      OnlyOursBefore(w, step, w', r);
    }
  }

  /** The run moves on by one exactly on a passed recipient, and never past where it was otherwise. */
  lemma CursorStep(e: Execution, m: nat, n: nat)
    requires |e.worlds| == |e.steps| + 1 && m <= n < |e.steps|
    ensures e.steps[n].TakeTurn? && Passes(e.worlds[n], e.steps[n]) ==> Cursor(e, m, n + 1) == Cursor(e, m, n) + 1
    ensures !e.steps[n].TakeTurn? ==> Cursor(e, m, n + 1) <= Cursor(e, m, n)
  {
    hide FundTurn, Settled;
  }

  lemma StepFacts(e: Execution, m: nat, n: nat)
    requires |e.worlds| == |e.steps| + 1 && m <= n < |e.steps| && IsRun(e) && ReportsTrue(e) && InRunOrder(e, m)
    ensures WorldOk(e.worlds[n]) && KnownTrue(e.worlds[n])
    ensures Next(e.worlds[n], e.steps[n], e.worlds[n + 1]) && SeesTruth(e.worlds[n], e.steps[n])
    ensures Subject(e.steps[n]).Some? ==>
              var at := Cursor(e, m, n);
              at < |e.worlds[n].plan.recipients| && Subject(e.steps[n]) == Some(e.worlds[n].plan.recipients[at])
  {
    hide WorldOk, KnownTrue, Next, SeesTruth, Start;
    RunKeepsWorld(e, n);
    TrueRunKnows(e, n);
  }

  lemma {:induction false} RunPassing(e: Execution, m: nat, n: nat)
    requires |e.worlds| == |e.steps| + 1 && m <= n < |e.worlds| && IsRun(e) && ReportsTrue(e) && InRunOrder(e, m)
    requires Restartable(e.worlds[m]) && AllPaid(e.worlds[m]) && OnlyOursForAll(e.worlds[n])
    ensures Passing(e, m, n)
    decreases n
  {
    hide *;
    if m == n {
      PassingStart(e, m);
    } else {
      StepFacts(e, m, n - 1);
      OnlyOursForAllBefore(e.worlds[n - 1], e.steps[n - 1], e.worlds[n]);
      RunPassing(e, m, n - 1);
      assert Passing(e, m, n - 1);
      PassingOn(e, m, n - 1);
    }
  }

  lemma PassingStart(e: Execution, m: nat)
    requires |e.worlds| == |e.steps| + 1 && m < |e.worlds| && Restartable(e.worlds[m]) && AllPaid(e.worlds[m])
    ensures Passing(e, m, m)
  {
    hide Restartable, AllPaid;
  }

  lemma PassingOn(e: Execution, m: nat, n: nat)
    requires |e.worlds| == |e.steps| + 1 && m <= n < |e.steps| && Passing(e, m, n)
    requires WorldOk(e.worlds[n]) && KnownTrue(e.worlds[n]) && OnlyOursForAll(e.worlds[n])
    requires Next(e.worlds[n], e.steps[n], e.worlds[n + 1]) && SeesTruth(e.worlds[n], e.steps[n])
    requires Subject(e.steps[n]).Some? ==>
               var at := Cursor(e, m, n);
               at < |e.worlds[n].plan.recipients| && Subject(e.steps[n]) == Some(e.worlds[n].plan.recipients[at])
    ensures Passing(e, m, n + 1)
  {
    hide WorldOk, KnownTrue, OnlyOursForAll, Next, SeesTruth, Restartable, AllPaid, Subject, Cursor, Passes;
    PassingStep(e.worlds[n], e.steps[n], e.worlds[n + 1], Cursor(e, m, n));
    CursorStep(e, m, n);
  }

  /**
   Once every recipient's payment is committed or final, a restart has nothing left to do and does
   nothing: with true reports and turns in run order, over any further steps, crashes and restarts
   included, every turn passes its recipient and no request is ever sent.
   */
  lemma PaidRunPasses(e: Execution, m: nat, n: nat)
    requires IsRun(e) && ReportsTrue(e) && m <= n < |e.worlds| && InRunOrder(e, m)
    requires Restartable(e.worlds[m]) && AllPaid(e.worlds[m]) && OnlyOursForAll(e.worlds[n])
    ensures Passing(e, m, n)
    ensures n < |e.steps| ==> Passes(e.worlds[n], e.steps[n])
    ensures n < |e.steps| && e.steps[n].TakeTurn? ==> Cursor(e, m, n + 1) == Cursor(e, m, n) + 1
  {
    RunPassing(e, m, n);
    assert |e.worlds| == |e.steps| + 1;
    hide IsRun, ReportsTrue, WorldOk, KnownTrue, Next, OnlyOursForAll, Restartable, AllPaid, InRunOrder, SeesTruth;
    hide Subject;
    if n < |e.steps| {
      StepFacts(e, m, n);
      PassingStep(e.worlds[n], e.steps[n], e.worlds[n + 1], Cursor(e, m, n));
      hide Passes;
      CursorStep(e, m, n);
    }
  }
}
