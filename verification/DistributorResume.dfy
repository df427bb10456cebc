/** When an interrupted distribution can go on: `run` starts again with the first recipient. */
module Resumption {
  import opened Common
  import opened LedgerModel
  import opened LedgerInvariants
  import opened Distribution

  // ----- The exact condition on one turn -----

  /** The operation under way belongs to someone else. */
  predicate BlockedFor(j: Journal, recipient: Account) {
    j.inFlight.Some? && j.inFlight.value.recipient != recipient
  }

  /** A report in which the recipient has one committed faucet branch, the known one if there is one. */
  function PaidReport(plan: Plan, j: Journal, recipient: Account): LedgerState {
    var newId := BranchId(0, BalancesGenesis(map[]), 0, recipient, 0, SENDER, plan.amount);
    var id := if recipient in j.known then j.known[recipient] else newId;
    var b := Branch(id, SENDER, recipient, plan.amount, plan.amount, 0, OFFER_TTL, 0, BalancesGenesis(map[]),
                    Committed, Some(0), Some(0), Some(TxDigest(EMPTY_PAYLOAD)));
    NewLedger(None, map[]).(branches := [b])
  }

  lemma OneFaucetBranch(b: Branch, recipient: Account)
    ensures FaucetBranches([b], recipient) == if b.sender == SENDER && b.receiver == recipient then [b] else []
  {
    assert [b][..0] == [];
  }

  lemma PaidReportFunds(plan: Plan, j: Journal, recipient: Account, clock: int)
    requires !BlockedFor(j, recipient)
    ensures FundTurn(plan, j, recipient, PaidReport(plan, j, recipient), clock).Funded?
  {
    var view := PaidReport(plan, j, recipient);
    OneFaucetBranch(view.branches[0], recipient);
    hide FaucetBranches;
    assert Reconcile(plan, j, recipient, view).Ok?;
  }

  /**
   A turn leaves the journal alone, sends nothing and funds nothing, whatever the status
   says, if and only if an operation for another recipient is unresolved.
   */
  lemma BlockedIff(plan: Plan, j: Journal, recipient: Account)
    ensures (forall view, clock :: FundTurn(plan, j, recipient, view, clock) == Stop(j)) <==> BlockedFor(j, recipient)
  {
    if BlockedFor(j, recipient) {
      forall view, clock
        ensures FundTurn(plan, j, recipient, view, clock) == Stop(j)
      {
      }
    } else {
      PaidReportFunds(plan, j, recipient, 0);
    }
  }

  // ----- Runs -----

  /** The recipient a step works on, if any. */
  function Subject(step: Step): Option<Account> {
    match step
    case TakeTurn(recipient, _, _) => Some(recipient)
    case ReconcileThenCrash(recipient, _) => Some(recipient)
    case _ => None
  }

  ghost predicate Steps(e: Execution) {
    |e.worlds| == |e.steps| + 1 && forall k :: 0 <= k < |e.steps| ==> Next(e.worlds[k], e.steps[k], e.worlds[k + 1])
  }

  /** Nothing is awaited, and the operation under way is as it was in world `m`, like everything sent. */
  ghost predicate Stuck(e: Execution, m: nat, n: nat)
    requires m < |e.worlds| && n < |e.worlds|
  {
    && e.worlds[n].waiting == None && e.worlds[n].plan == e.worlds[m].plan
    && e.worlds[n].journal == e.worlds[m].journal && e.worlds[n].requests == e.worlds[m].requests
  }

  lemma OneStepOfOthers(w: World, step: Step, w': World)
    requires Next(w, step, w') && w.waiting == None && w.journal.inFlight.Some?
    requires Subject(step) != Some(w.journal.inFlight.value.recipient)
    ensures w'.waiting == None && w'.plan == w.plan && w'.journal == w.journal && w'.requests == w.requests
  {
    hide Execute, BranchIn, NextNonce, SendCall;
  }

  /**
   While every turn is for a recipient other than the one with the unresolved operation,
   neither the journal nor what has been sent ever changes.
   */
  lemma {:induction false} OthersChangeNothing(e: Execution, m: nat, n: nat)
    requires Steps(e) && m <= n < |e.worlds|
    requires e.worlds[m].waiting == None && e.worlds[m].journal.inFlight.Some?
    requires forall k :: m <= k < n ==> Subject(e.steps[k]) != Some(e.worlds[m].journal.inFlight.value.recipient)
    ensures Stuck(e, m, n)
    decreases n
  {
    if m < n {
      OthersChangeNothing(e, m, n - 1);
      assert Next(e.worlds[n - 1], e.steps[n - 1], e.worlds[n]);
      hide Next;
      OneStepOfOthers(e.worlds[n - 1], e.steps[n - 1], e.worlds[n]);
    }
  }

  /**
   Where `run` stands among the recipients, having been started at world `m`: it moves on
   when one is funded, and any stop, failure or crash means starting again with the first.
   */
  ghost function Cursor(e: Execution, m: nat, n: nat): nat
    requires |e.worlds| == |e.steps| + 1 && m <= n < |e.worlds|
    decreases n
  {
    if n == m then 0
    else
      var w, at := e.worlds[n - 1], Cursor(e, m, n - 1);
      match e.steps[n - 1]
      case TakeTurn(recipient, view, clock) =>
        (match FundTurn(w.plan, w.journal, recipient, view, clock)
         case Stop(_) => 0
         case Funded(_) => at + 1
         case Send(_, _) => at)
      case ReconcileThenCrash(_, _) => 0
      case Crash => 0
      case Deliver(answer) =>
        if w.waiting.Some? && w.waiting.value < |w.requests|
           && var r := w.requests[w.waiting.value]; Settled(w.journal, r.recipient, r.call, answer).1
        then at else 0
      case _ => at
  }

  /** From world `m` on, turns are taken in the order in which `run` takes them. */
  ghost predicate InRunOrder(e: Execution, m: nat)
    requires |e.worlds| == |e.steps| + 1 && m < |e.worlds|
  {
    forall k :: m <= k < |e.steps| && Subject(e.steps[k]).Some? ==>
      var at := Cursor(e, m, k);
      at < |e.worlds[k].plan.recipients| && Subject(e.steps[k]) == Some(e.worlds[k].plan.recipients[at])
  }

  /**
   Whatever the status reports say and however often it is started again, a distribution
   whose unresolved operation is for a later recipient never gets past the first one.
   */
  lemma {:induction false} RestartStaysStopped(e: Execution, m: nat, n: nat)
    requires Steps(e) && m <= n < |e.worlds| && InRunOrder(e, m)
    requires e.worlds[m].waiting == None && e.worlds[m].plan.recipients != []
    requires BlockedFor(e.worlds[m].journal, e.worlds[m].plan.recipients[0])
    ensures Stuck(e, m, n) && Cursor(e, m, n) == 0
    decreases n
  {
    assert |e.worlds| == |e.steps| + 1;
    assert BlockedFor(e.worlds[m].journal, e.worlds[m].plan.recipients[0]);
    hide *;
    if m == n {
      StoppedAtFirst(e, m);
    } else {
      RestartStaysStopped(e, m, n - 1);
      StoppedStep(e, m, n - 1);
    }
  }

  lemma StoppedAtFirst(e: Execution, m: nat)
    requires |e.worlds| == |e.steps| + 1 && m < |e.worlds| && e.worlds[m].waiting == None
    ensures Stuck(e, m, m) && Cursor(e, m, m) == 0
  {
  }

  lemma StoppedStep(e: Execution, m: nat, n: nat)
    requires Steps(e) && m <= n < |e.steps| && InRunOrder(e, m)
    requires Stuck(e, m, n) && Cursor(e, m, n) == 0
    requires e.worlds[m].waiting == None && e.worlds[m].plan.recipients != []
    requires BlockedFor(e.worlds[m].journal, e.worlds[m].plan.recipients[0])
    ensures Stuck(e, m, n + 1) && Cursor(e, m, n + 1) == 0
  {
    var w, step, w' := e.worlds[n], e.steps[n], e.worlds[n + 1];
    assert Next(w, step, w');
    assert Subject(step).Some? ==> Subject(step) == Some(w.plan.recipients[0]);
    hide Next, InRunOrder, Steps;
    OneStepOfOthers(w, step, w');
    if step.TakeTurn? { StoppedTurn(w.plan, w.journal, step.recipient, step.view, step.clock); }
    if step.Deliver? { NothingToDeliver(w, step, w'); }
    hide FundTurn;
  }

  lemma StoppedTurn(plan: Plan, j: Journal, recipient: Account, view: LedgerState, clock: int)
    requires BlockedFor(j, recipient)
    ensures FundTurn(plan, j, recipient, view, clock) == Stop(j)
  {
  }

  lemma NothingToDeliver(w: World, step: Step, w': World)
    requires step.Deliver? && w.waiting == None
    ensures !Next(w, step, w')
  {
  }

  /** A restart can do something, under some report, exactly when nothing is unresolved beyond the first recipient. */
  lemma RestartCanMoveIff(plan: Plan, j: Journal)
    requires plan.recipients != []
    ensures (exists view, clock :: FundTurn(plan, j, plan.recipients[0], view, clock) != Stop(j))
            <==> (j.inFlight.Some? ==> j.inFlight.value.recipient == plan.recipients[0])
  {
    BlockedIff(plan, j, plan.recipients[0]);
  }
}
