/** What the ledger invariant means for clients: deadlines, heads and balances. */
module LedgerTheorems {
  import opened Common
  import opened LedgerModel
  import opened LedgerInvariants

  // ---------------------------------------------------------------- time

  /** Advancing in two calls is advancing in one; the reported changes concatenate. */
  lemma {:induction false} AdvanceComposes(l: LedgerState, m: nat, n: nat)
    ensures var first := AdvanceBy(l, m);
            var second := AdvanceBy(first.ledger, n);
            AdvanceBy(l, m + n) == Advanced(second.ledger, first.changed + second.changed)
    decreases m
  {
    if m == 0 {
      assert [] + AdvanceBy(l, n).changed == AdvanceBy(l, n).changed;
    } else {
      AdvanceComposes(Tick(l).ledger, m - 1, n);
      var first := AdvanceBy(Tick(l).ledger, m - 1);
      assert Tick(l).changed + (first.changed + AdvanceBy(first.ledger, n).changed)
          == (Tick(l).changed + first.changed) + AdvanceBy(first.ledger, n).changed;
    }
  }

  /** Every committed branch says when it was committed. */
  ghost predicate RoundsKnown(l: LedgerState) {
    forall i :: 0 <= i < |l.branches| ==> !RoundMissing(l.branches[i])
  }

  lemma {:induction false} TrySettleFromIff(l: LedgerState, i: nat)
    requires i <= |l.branches|
    ensures TrySettleFrom(l, i).failed <==> exists j :: i <= j < |l.branches| && RoundMissing(l.branches[j])
    ensures !TrySettleFrom(l, i).failed ==>
              TrySettleFrom(l, i) == Attempted(SettleFrom(l, i).ledger, SettleFrom(l, i).changed, false)
    decreases |l.branches| - i
  {
    if i < |l.branches| && !RoundMissing(l.branches[i]) {
      TrySettleFromIff(Settle(l, i), i + 1);
      assert forall j :: i < j < |l.branches| ==> Settle(l, i).branches[j] == l.branches[j];
      assert |Settle(l, i).branches| == |l.branches|;
      hide Settle;
    }
  }

  lemma {:induction false} SettleFromKeepsRounds(l: LedgerState, i: nat)
    requires i <= |l.branches| && RoundsKnown(l)
    ensures RoundsKnown(SettleFrom(l, i).ledger)
    decreases |l.branches| - i
  {
    if i < |l.branches| {
      assert !RoundMissing(l.branches[i]);
      assert RoundsKnown(Settle(l, i));
      hide Settle, RoundsKnown;
      SettleFromKeepsRounds(Settle(l, i), i + 1);
    }
  }

  /**
   An advance of at least one round runs to its end if and only if every committed branch
   says when it was committed, and it then is the round-by-round advance.
   */
  lemma {:induction false} AdvanceSucceedsIff(l: LedgerState, n: nat)
    requires n >= 1
    ensures !TryAdvance(l, n).failed <==> RoundsKnown(l)
    ensures RoundsKnown(l) ==>
              TryAdvance(l, n) == Attempted(AdvanceBy(l, n).ledger, AdvanceBy(l, n).changed, false)
              && RoundsKnown(AdvanceBy(l, n).ledger)
    decreases n
  {
    var ticked := l.(round := l.round + 1);
    TrySettleFromIff(ticked, 0);
    assert RoundsKnown(ticked) <==> RoundsKnown(l);
    if RoundsKnown(l) {
      SettleFromKeepsRounds(ticked, 0);
      hide RoundsKnown, SettleFrom, TrySettleFrom;
      if n > 1 {
        AdvanceSucceedsIff(Tick(l).ledger, n - 1);
      }
    }
  }

  /** In every ledger a run can reach, an advance of at least one round succeeds. */
  lemma ReachableAdvances(genesis: Option<Genesis>, balances: map<Account, int>, ops: seq<Op>, n: int)
    requires Initial(genesis, balances) && n >= 1
    ensures var l := Run(NewLedger(genesis, balances), ops);
            Execute(l, Advance(n)) == Ok(AdvanceBy(l, n).ledger)
  {
    var l := Run(NewLedger(genesis, balances), ops);
    RunKeepsInvariant(genesis, balances, ops);
    InvariantKnowsRounds(l);
    hide Inv, Run;
    AdvanceSucceedsIff(l, n);
  }

  lemma InvariantKnowsRounds(l: LedgerState)
    requires BranchesOk(l)
    ensures RoundsKnown(l)
  {
    forall i | 0 <= i < |l.branches|
      ensures !RoundMissing(l.branches[i])
    {
      assert BranchOk(l, i);
    }
  }

  /** A branch's state once its deadline has been checked at `round`. */
  function StateAt(b: Branch, round: int): BranchState {
    if !Overdue(b, round) then b.state
    else if b.state.Committed? then Final
    else Expired
  }

  /** Branches do not interfere: one visit changes each branch by its own deadline alone. */
  lemma {:induction false} SettleFromStates(l: LedgerState, i: nat)
    requires i <= |l.branches|
    ensures |SettleFrom(l, i).ledger.branches| == |l.branches| && SettleFrom(l, i).ledger.round == l.round
    ensures forall j :: 0 <= j < |l.branches| ==>
              SettleFrom(l, i).ledger.branches[j] ==
                if j < i then l.branches[j] else l.branches[j].(state := StateAt(l.branches[j], l.round))
    decreases |l.branches| - i
  {
    if i < |l.branches| {
      SettleFromStates(Settle(l, i), i + 1);
    }
  }

  /**
   Exact deadlines: with no further calls, a committed branch is FINAL after `n` rounds
   if and only if three rounds have passed since its commit, and an open one has expired
   if and only if its expiry round has come.
   */
  lemma {:induction false} ExactDeadlines(l: LedgerState, n: nat, i: nat)
    requires NothingOverdue(l) && i < |l.branches|
    ensures i < |AdvanceBy(l, n).ledger.branches|
    ensures AdvanceBy(l, n).ledger.branches[i] == l.branches[i].(state := StateAt(l.branches[i], l.round + n))
    decreases n
  {
    assert !Overdue(l.branches[i], l.round);
    if n > 0 {
      SettleFromStates(l.(round := l.round + 1), 0);
      var t := Tick(l).ledger;
      assert t.branches[i] == l.branches[i].(state := StateAt(l.branches[i], l.round + 1));
      assert NothingOverdue(t);
      ExactDeadlines(t, n - 1, i);
    }
  }

  /** For every ledger a run can reach: the round in which each live branch settles. */
  lemma {:induction false} SettlesExactlyOnTime(
    genesis: Option<Genesis>, balances: map<Account, int>, ops: seq<Op>, n: nat, i: nat)
    requires Initial(genesis, balances)
    requires i < |Run(NewLedger(genesis, balances), ops).branches|
    ensures var l := Run(NewLedger(genesis, balances), ops);
            var b := l.branches[i];
            var after := AdvanceBy(l, n).ledger.branches;
            && i < |after|
            && (b.state.Committed? ==>
                  b.committedRound.Some? && l.round < b.committedRound.value + FINALITY_ROUNDS
                  && (after[i].state.Final? <==> l.round + n >= b.committedRound.value + FINALITY_ROUNDS)
                  && (after[i].state.Committed? <==> l.round + n < b.committedRound.value + FINALITY_ROUNDS))
            && (b.state.Offered? || b.state.Accepted? ==>
                  l.round < b.expiresRound
                  && (after[i].state.Expired? <==> l.round + n >= b.expiresRound)
                  && (after[i].state == b.state <==> l.round + n < b.expiresRound))
            && (!b.Active() ==> after[i] == b)
  {
    var l := Run(NewLedger(genesis, balances), ops);
    RunKeepsInvariant(genesis, balances, ops);
    ExactDeadlines(l, n, i);
    assert BranchOk(l, i) && !Overdue(l.branches[i], l.round);
  }

  // ---------------------------------------------------------------- heads

  /**
   Equal heads mean equal money: two ledgers from any two runs whose canonical digests
   agree have the same genesis, height, block history, finalised list and balances.
   */
  lemma HeadDeterminesBalances(
    g1: Option<Genesis>, b1: map<Account, int>, ops1: seq<Op>,
    g2: Option<Genesis>, b2: map<Account, int>, ops2: seq<Op>)
    requires Initial(g1, b1) && Initial(g2, b2)
    requires Run(NewLedger(g1, b1), ops1).digest == Run(NewLedger(g2, b2), ops2).digest
    ensures var l1, l2 := Run(NewLedger(g1, b1), ops1), Run(NewLedger(g2, b2), ops2);
            && l1.balances == l2.balances && l1.height == l2.height && l1.history == l2.history
            && l1.finalized == l2.finalized && l1.genesis == l2.genesis
  {
    RunKeepsInvariant(g1, b1, ops1);
    RunKeepsInvariant(g2, b2, ops2);
  }

  // ---------------------------------------------------------------- money

  /** The simulator's safety conditions and the double-entry books, after every run. */
  lemma RunIsSolvent(genesis: Option<Genesis>, balances: map<Account, int>, ops: seq<Op>)
    requires Initial(genesis, balances)
    ensures var l := Run(NewLedger(genesis, balances), ops);
            && Sum(l.balances) == Sum(balances)
            && (forall a :: Get(l.locked, a) == Total(l.branches, HeldFor(a)))
            && (forall a :: 0 <= Get(l.locked, a) <= Get(l.balances, a))
            && (forall a :: Get(l.balances, a) == Get(balances, a) + Total(l.branches, PaidTo(a)))
            && (forall i :: 0 <= i < |l.branches| ==>
                  l.branches[i].stake == l.branches[i].value
                  && l.branches[i].originHeight in l.history
                  && l.history[l.branches[i].originHeight] == l.branches[i].originDigest)
            && l.height in l.history && l.history[l.height] == l.digest
  {
    RunKeepsInvariant(genesis, balances, ops);
    var l := Run(NewLedger(genesis, balances), ops);
    forall i | 0 <= i < |l.branches|
      ensures l.branches[i].stake == l.branches[i].value
              && l.branches[i].originHeight in l.history
              && l.history[l.branches[i].originHeight] == l.branches[i].originDigest
    {
      assert BranchOk(l, i);
    }
  }

  // ---------------------------------------------------------------- monotone branches

  /** The parts of a branch that never change. */
  predicate SameBranch(b: Branch, b': Branch) {
    b'.id == b.id && b'.sender == b.sender && b'.receiver == b.receiver && b'.value == b.value
  }

  /** Every branch of `l` is still there in `l'`, at its place and for the same payment. */
  ghost predicate Extends(l: LedgerState, l': LedgerState) {
    && |l.branches| <= |l'.branches|
    && forall i :: 0 <= i < |l.branches| ==> SameBranch(l.branches[i], l'.branches[i])
  }

  lemma {:induction false} SettleFromExtends(l: LedgerState, n: nat)
    ensures Extends(l, AdvanceBy(l, n).ledger)
    ensures |AdvanceBy(l, n).ledger.branches| == |l.branches|
    decreases n
  {
    if n > 0 {
      SettleFromStates(l.(round := l.round + 1), 0);
      SettleFromExtends(Tick(l).ledger, n - 1);
    }
  }

  /** No call removes a branch; only an offer adds one, and it adds exactly its own. */
  lemma ExecuteExtends(l: LedgerState, op: Op)
    requires BranchesOk(l) && Execute(l, op).Ok?
    ensures Extends(l, Execute(l, op).value)
    ensures var l' := Execute(l, op).value;
            if op.Offer? then l'.branches == l.branches + [NewBranch(l, op.sender, op.receiver, op.value, op.ttl)]
            else |l'.branches| == |l.branches|
  {
    match op
    case Offer(s, r, v, ttl) => OfferAppends(l, s, r, v, ttl);
    case Advance(n) => SettleFromExtends(l, n);
    case _ =>
  }
}
