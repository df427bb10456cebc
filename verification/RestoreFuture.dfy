/** What an accepted snapshot is worth later: which calls on the restored ledger keep it solvent. */
module RestoreFuture {
  import opened Common
  import opened LedgerModel
  import opened LedgerInvariants
  import opened LedgerTheorems
  import opened LedgerObject
  import opened Restore

  ghost predicate StakesMatch(bs: seq<Branch>) {
    forall i :: 0 <= i < |bs| ==> bs[i].value > 0 && bs[i].stake == bs[i].value
  }

  ghost predicate Funded(l: LedgerState) {
    Solvent(l) && StakesMatch(l.branches) && DistinctIds(l.branches)
  }

  // ----- What acceptance gives -----

  /** Whatever the snapshot's origin, acceptance makes the restored ledger funded. */
  lemma AcceptedIsFunded(s: Snapshot, expected: Option<Genesis>)
    requires FromSnapshot(s, expected).Ok?
    ensures Funded(FromSnapshot(s, expected).value)
  {
    var l := Loaded(s);
    AcceptedIsSolvent(s, expected);
    CollapseIsDistinct(s.branches);
    assert l.branches == Collapse(s.branches);
    hide Total, Sum, GenesisRespected, GenesisValid, Collapse, Solvent;
    forall i | 0 <= i < |l.branches|
      ensures l.branches[i].value > 0 && l.branches[i].stake == l.branches[i].value
    {
      assert BranchAcceptable(l, l.branches[i]);
    }
  }

  /** A funded branch's lock is part of its sender's locked funds. */
  lemma LockCovers(l: LedgerState, i: nat)
    requires Solvent(l) && StakesMatch(l.branches) && i < |l.branches| && l.branches[i].Active()
    ensures 2 * l.branches[i].value <= Get(l.locked, l.branches[i].sender) <= Get(l.balances, l.branches[i].sender)
  {
    var a := l.branches[i].sender;
    forall j | 0 <= j < |l.branches|
      ensures HeldFor(a)(l.branches[j]) >= 0
    {
    }
    TotalNonNegative(l.branches, HeldFor(a), i);
  }

  /** On a funded ledger no visit meets a missing lock or balance entry. */
  lemma FundedHasEntries(l: LedgerState)
    requires Funded(l)
    ensures EntriesPresent(l)
  {
    forall i | 0 <= i < |l.branches| && l.branches[i].Active()
      ensures l.branches[i].sender in l.locked && l.branches[i].sender in l.balances
    {
      LockCovers(l, i);
    }
    hide Solvent, StakesMatch, DistinctIds;
  }

  /**
   The clock of a funded ledger: an advance of any number of rounds runs to its end if and only
   if every committed branch says when it was committed, which the validator does not ask for.
   It is then the round-by-round advance, and leaves a funded ledger of the same supply.
   */
  lemma FundedAdvancesIff(l: LedgerState, n: nat)
    requires Funded(l) && n >= 1
    ensures EntriesPresent(l)
    ensures Execute(l, Advance(n)).Ok? <==> RoundsKnown(l)
    ensures !TryAdvance(l, n).failed <==> RoundsKnown(l)
    ensures RoundsKnown(l) ==>
              var t := AdvanceBy(l, n);
              && TryAdvance(l, n) == Attempted(t.ledger, t.changed, false) && Execute(l, Advance(n)) == Ok(t.ledger)
              && Funded(t.ledger) && Sum(t.ledger.balances) == Sum(l.balances)
  {
    FundedHasEntries(l);
    AdvanceSucceedsIff(l, n);
    AdvanceKeepsFunded(l, n);
    hide Funded, RoundsKnown, EntriesPresent, AdvanceBy, TryAdvance, Sum;
  }

  // ----- What each call keeps -----

  lemma SwapSolvent(l: LedgerState, l': LedgerState, i: nat, b: Branch)
    requires Solvent(l) && i < |l.branches| && l'.branches == l.branches[i := b] && l'.balances == l.balances
    requires forall a :: Get(l'.locked, a) == Get(l.locked, a) - Held(l.branches[i], a) + Held(b, a)
    requires forall a :: 0 <= Get(l'.locked, a) <= Get(l'.balances, a)
    ensures Solvent(l')
  {
    SumsShift(l.branches, i, b);
    hide Total;
  }

  lemma SwapKeepsShape(bs: seq<Branch>, i: nat, b: Branch)
    requires StakesMatch(bs) && DistinctIds(bs) && i < |bs|
    requires b.id == bs[i].id && b.value == bs[i].value && b.stake == bs[i].stake
    ensures StakesMatch(bs[i := b]) && DistinctIds(bs[i := b])
  {
  }

  /** A branch that stays active, or one that is closed with its lock released. */
  lemma MoveKeepsFunded(l: LedgerState, i: nat, b: Branch)
    requires Funded(l) && i < |l.branches| && l.branches[i].Active() && b.Active()
    requires b == l.branches[i].(state := b.state, acceptedRound := b.acceptedRound,
                                 committedRound := b.committedRound, tx := b.tx)
    ensures Funded(l.(branches := l.branches[i := b]))
  {
    var l' := l.(branches := l.branches[i := b]);
    SwapKeepsShape(l.branches, i, b);
    assert forall a :: Held(b, a) == Held(l.branches[i], a);
    hide DistinctIds, StakesMatch;
    SwapSolvent(l, l', i, b);
  }

  lemma CloseKeepsFunded(l: LedgerState, i: nat, s: BranchState)
    requires Funded(l) && i < |l.branches| && l.branches[i].Active() && (s.Cancelled? || s.Expired?)
    ensures Funded(l.(branches := l.branches[i := l.branches[i].(state := s)],
                      locked := Unlock(l.locked, l.branches[i])))
  {
    var former, b := l.branches[i], l.branches[i].(state := s);
    var l' := l.(branches := l.branches[i := b], locked := Unlock(l.locked, former));
    LockCovers(l, i);
    SwapKeepsShape(l.branches, i, b);
    assert former.value > 0 && former.stake == former.value;
    hide DistinctIds, StakesMatch;
    assert forall a :: Get(l'.locked, a) == Get(l.locked, a) - Held(former, a) + Held(b, a);
    assert forall a :: 0 <= Get(l'.locked, a) <= Get(l'.balances, a);
    SwapSolvent(l, l', i, b);
  }

  /** A transfer moves money and makes none, whoever the parties are. */
  lemma TransferBalances(balances: map<Account, int>, sender: Account, receiver: Account, value: int)
    ensures Sum(Transfer(balances, sender, receiver, value)) == Sum(balances)
    ensures forall a :: Get(Transfer(balances, sender, receiver, value), a)
              == Get(balances, a) - (if a == sender then value else 0) + (if a == receiver then value else 0)
  {
    hide Sum;
    var debited := balances[sender := Get(balances, sender) - value];
    SumUpdate(balances, sender, Get(balances, sender) - value);
    SumUpdate(debited, receiver, Get(debited, receiver) + value);
  }

  lemma FinalizeKeepsFunded(l: LedgerState, i: nat)
    requires Funded(l) && i < |l.branches| && l.branches[i].state.Committed? && Overdue(l.branches[i], l.round)
    ensures Funded(Settle(l, i)) && Sum(Settle(l, i).balances) == Sum(l.balances)
  {
    var b, l' := l.branches[i], Settle(l, i);
    var done := b.(state := Final);
    LockCovers(l, i);
    SwapKeepsShape(l.branches, i, done);
    TransferBalances(l.balances, b.sender, b.receiver, b.value);
    assert b.value > 0 && b.stake == b.value;
    assert l'.branches == l.branches[i := done] && l'.locked == Unlock(l.locked, b);
    assert l'.balances == Transfer(l.balances, b.sender, b.receiver, b.value);
    hide DistinctIds, StakesMatch, Sum, Settle, Transfer, Overdue;
    SumsShift(l.branches, i, done);
    hide Total;
    assert forall a :: Get(l'.locked, a) == Get(l.locked, a) - Held(b, a);
    assert forall a :: Get(l'.balances, a) >= Get(l'.locked, a) >= 0;
    assert forall a :: a in l'.balances ==> l'.balances[a] == Get(l'.balances, a);
  }

  lemma SettleKeepsFunded(l: LedgerState, i: nat)
    requires Funded(l) && i < |l.branches|
    ensures Funded(Settle(l, i)) && Sum(Settle(l, i).balances) == Sum(l.balances)
  {
    var b := l.branches[i];
    if Overdue(b, l.round) {
      if b.state.Committed? {
        FinalizeKeepsFunded(l, i);
      } else {
        CloseKeepsFunded(l, i, Expired);
      }
    }
    hide Funded, Sum, Transfer, Unlock;
  }

  lemma {:induction false} SettleFromKeepsFunded(l: LedgerState, i: nat)
    requires Funded(l) && i <= |l.branches|
    ensures var t := SettleFrom(l, i).ledger;
            Funded(t) && Sum(t.balances) == Sum(l.balances)
    decreases |l.branches| - i
  {
    hide Funded, Sum;
    if i < |l.branches| {
      SettleKeepsFunded(l, i);
      SettleFromKeepsFunded(Settle(l, i), i + 1);
    }
  }

  lemma {:induction false} AdvanceKeepsFunded(l: LedgerState, n: nat)
    requires Funded(l)
    ensures var t := AdvanceBy(l, n).ledger;
            Funded(t) && Sum(t.balances) == Sum(l.balances)
    decreases n
  {
    if n > 0 {
      var ticked := l.(round := l.round + 1);
      assert Funded(ticked);
      hide Funded, Sum;
      SettleFromKeepsFunded(ticked, 0);
      AdvanceKeepsFunded(Tick(l).ledger, n - 1);
    }
  }

  /** The branch an offer would overwrite, if a saved branch already has the new one's id. */
  function Overwritten(l: LedgerState, op: Op): Option<nat>
    ensures Overwritten(l, op).Some? ==> Overwritten(l, op).value < |l.branches|
  {
    match op
    case Offer(s, r, v, ttl) => Find(l.branches, NewBranch(l, s, r, v, ttl).id)
    case _ => None
  }

  predicate OverwritesActive(l: LedgerState, op: Op) {
    Overwritten(l, op).Some? && l.branches[Overwritten(l, op).value].Active()
  }

  lemma OfferOver(l: LedgerState, l': LedgerState, i: nat, b: Branch)
    requires Funded(l) && i < |l.branches| && l'.branches == l.branches[i := b] && l'.balances == l.balances
    requires b.state.Offered? && b.value > 0 && b.stake == b.value && Available(l, b.sender) >= b.value * 2
    requires l'.locked == l.locked[b.sender := Get(l.locked, b.sender) + b.value * 2]
    ensures Solvent(l') <==> !l.branches[i].Active()
  {
    var former := l.branches[i];
    assert former.value > 0 && former.stake == former.value;
    SumsShift(l.branches, i, b);
    hide Total, StakesMatch, DistinctIds;
    assert forall a :: Get(l'.locked, a) == Get(l.locked, a) + Held(b, a);
    if former.Active() {
      assert Held(former, former.sender) > 0;
      assert Get(l'.locked, former.sender) != Total(l'.branches, HeldFor(former.sender));
    }
  }

  lemma OfferBeside(l: LedgerState, l': LedgerState, b: Branch)
    requires Funded(l) && l'.branches == l.branches + [b] && l'.balances == l.balances
    requires b.state.Offered? && b.value > 0 && b.stake == b.value && Available(l, b.sender) >= b.value * 2
    requires l'.locked == l.locked[b.sender := Get(l.locked, b.sender) + b.value * 2]
    ensures Solvent(l')
  {
    forall a
      ensures Total(l'.branches, HeldFor(a)) == Total(l.branches, HeldFor(a)) + Held(b, a)
    {
      TotalAppend(l.branches, b, HeldFor(a));
    }
    hide Total, StakesMatch, DistinctIds;
    assert forall a :: Get(l'.locked, a) == Get(l.locked, a) + Held(b, a);
  }

  /** An offer leaves a funded ledger solvent if and only if it does not overwrite an active branch. */
  lemma OfferSolventIff(l: LedgerState, op: Op)
    requires Funded(l) && op.Offer? && Execute(l, op).Ok?
    ensures Solvent(Execute(l, op).value) <==> !OverwritesActive(l, op)
    ensures StakesMatch(Execute(l, op).value.branches) && DistinctIds(Execute(l, op).value.branches)
    ensures Execute(l, op).value.balances == l.balances
  {
    var b := NewBranch(l, op.sender, op.receiver, op.value, op.ttl);
    var l' := Execute(l, op).value;
    PutKeepsDistinct(l.branches, b);
    if Overwritten(l, op).Some? {
      OfferOver(l, l', Overwritten(l, op).value, b);
    } else {
      OfferBeside(l, l', b);
    }
    hide Solvent, Funded, DistinctIds;
  }

  lemma RegisterKeepsFunded(l: LedgerState, account: Account)
    requires Funded(l) && DoRegister(l, account).Ok?
    ensures Funded(DoRegister(l, account).value) && Sum(DoRegister(l, account).value.balances) == Sum(l.balances)
  {
    var l' := DoRegister(l, account).value;
    SumUpdate(l.balances, account, 0);
    hide Sum, Total, Registrable;
    assert forall a :: Get(l'.balances, a) == Get(l.balances, a);
  }

  lemma PartyKeepsFunded(l: LedgerState, op: Op)
    requires Funded(l) && (op.Accept? || op.Commit? || op.Cancel?) && Execute(l, op).Ok?
    ensures Funded(Execute(l, op).value) && Execute(l, op).value.balances == l.balances
  {
    var i := Find(l.branches, op.branchId).value;
    if op.Cancel? {
      CloseKeepsFunded(l, i, Cancelled);
    } else {
      MoveKeepsFunded(l, i, Execute(l, op).value.branches[i]);
    }
    hide Funded;
  }

  lemma ExecuteKeepsFunded(l: LedgerState, op: Op)
    requires Funded(l) && Execute(l, op).Ok? && !OverwritesActive(l, op)
    ensures Funded(Execute(l, op).value) && Sum(Execute(l, op).value.balances) == Sum(l.balances)
  {
    match op
    case Offer(_, _, _, _) => OfferSolventIff(l, op);
    case Advance(n) => AdvanceKeepsFunded(l, n);
    case Register(a) => RegisterKeepsFunded(l, a);
    case _ => PartyKeepsFunded(l, op);
  }

  lemma ExecuteKeepsRounds(l: LedgerState, op: Op)
    requires RoundsKnown(l) && Execute(l, op).Ok?
    ensures RoundsKnown(Execute(l, op).value)
  {
    if op.Advance? {
      AdvanceSucceedsIff(l, op.rounds);
    }
  }

  // ----- Runs from an accepted snapshot -----

  /** No call that succeeds overwrites an active branch. */
  ghost predicate NeverOverwrites(l: LedgerState, ops: seq<Op>) {
    forall k :: 0 <= k < |ops| ==>
      Execute(Run(l, ops[..k]), ops[k]).Ok? ==> !OverwritesActive(Run(l, ops[..k]), ops[k])
  }

  lemma {:induction false} RunKeepsFunded(l: LedgerState, ops: seq<Op>)
    requires Funded(l) && RoundsKnown(l) && NeverOverwrites(l, ops)
    ensures Funded(Run(l, ops)) && RoundsKnown(Run(l, ops)) && Sum(Run(l, ops).balances) == Sum(l.balances)
  {
    if ops != [] {
      var front := ops[..|ops| - 1];
      assert forall k :: 0 <= k < |front| ==> front[..k] == ops[..k];
      hide Funded, RoundsKnown, Sum, Execute, OverwritesActive;
      RunKeepsFunded(l, front);
      var before := Run(l, front);
      if Execute(before, ops[|ops| - 1]).Ok? {
        ExecuteKeepsFunded(before, ops[|ops| - 1]);
        ExecuteKeepsRounds(before, ops[|ops| - 1]);
      }
    }
  }

  /**
   An accepted snapshot stays good, forged or not: if its committed branches say when they
   were committed, then after any calls that overwrite no active branch the ledger is solvent,
   has the supply it was restored with, and its clock can go on.
   */
  lemma AcceptedStaysSolvent(s: Snapshot, expected: Option<Genesis>, ops: seq<Op>)
    requires FromSnapshot(s, expected).Ok?
    requires RoundsKnown(FromSnapshot(s, expected).value)
    requires NeverOverwrites(FromSnapshot(s, expected).value, ops)
    ensures var l := FromSnapshot(s, expected).value;
            var t := Run(l, ops);
            && Solvent(t) && Settleable(t) && Sum(t.balances) == Sum(l.balances)
            && forall n :: n >= 1 ==> Execute(t, Advance(n)).Ok?
  {
    AcceptedIsFunded(s, expected);
    var l := FromSnapshot(s, expected).value;
    hide FromSnapshot, Run, NeverOverwrites;
    RunKeepsFunded(l, ops);
    FundedHasEntries(Run(l, ops));
    hide EntriesPresent, Funded, Execute;
    forall n | n >= 1
      ensures Execute(Run(l, ops), Advance(n)).Ok?
    {
      FundedAdvancesIff(Run(l, ops), n);
    }
  }

  // ----- Neither condition can be left out -----

  const ROOT := BalancesGenesis(map[])

  /** A snapshot with one branch of five units between two accounts. */
  function OneBranchSnapshot(b: Branch, history: map<int, Digest>): Snapshot {
    Snapshot(LEDGER_SCHEMA, None, 0, 0, ROOT, map["ann" := 100, "bob" := 0], map["ann" := 10], [b], [], history)
  }

  function ForgedBranch(nonce: int, state: BranchState): Branch {
    Branch(BranchId(nonce, ROOT, 0, "bob", 0, "ann", 5), "ann", "bob", 5, 5, 0, 3, 0, ROOT, state, Some(0), None, None)
  }

  lemma OneBranchAccepted(b: Branch, history: map<int, Digest>)
    requires b.Active() && b.sender == "ann" && b.value == 5 && b.stake == 5
    requires 0 in history && history[0] == ROOT
    requires b.originHeight in history && b.originDigest == history[b.originHeight]
    ensures FromSnapshot(OneBranchSnapshot(b, history), None) == Ok(Loaded(OneBranchSnapshot(b, history)))
    ensures Loaded(OneBranchSnapshot(b, history)).branches == [b]
  {
    var s := OneBranchSnapshot(b, history);
    assert Collapse([]) == [] && [b][..0] == [];
    assert Find([], b.id) == None;
    var l := Loaded(s);
    assert l.branches == [b];
    forall a
      ensures Get(l.locked, a) == Total(l.branches, HeldFor(a))
    {
      assert Total([b][..0], HeldFor(a)) == 0;
    }
    hide Total, Collapse;
  }

  /** An accepted snapshot with a commit that has no round: every later advance fails. */
  lemma RoundsMatter(n: nat)
    requires n >= 1
    ensures var s := OneBranchSnapshot(ForgedBranch(0, Committed), map[0 := ROOT]);
            && FromSnapshot(s, None).Ok?
            && TryAdvance(FromSnapshot(s, None).value, n).failed
            && Execute(FromSnapshot(s, None).value, Advance(n)).Err?
  {
    var b := ForgedBranch(0, Committed);
    OneBranchAccepted(b, map[0 := ROOT]);
    AcceptedIsFunded(OneBranchSnapshot(b, map[0 := ROOT]), None);
    hide FromSnapshot, Funded, OneBranchSnapshot, TryAdvance, Execute;
    var l := Loaded(OneBranchSnapshot(b, map[0 := ROOT]));
    assert RoundMissing(l.branches[0]);
    FundedAdvancesIff(l, n);
  }

  lemma CollidingOffer(l: LedgerState, b: Branch, op: Op)
    requires Funded(l) && l.branches == [b] && b.Active() && l.genesis.None?
    requires op.Offer? && op.value > 0 && op.ttl >= FINALITY_ROUNDS && op.sender != op.receiver
    requires op.receiver in l.balances && Available(l, op.sender) >= op.value * 2
    requires NewBranch(l, op.sender, op.receiver, op.value, op.ttl).id == b.id
    ensures Execute(l, op).Ok? && !Solvent(Execute(l, op).value)
  {
    assert Find([b], b.id) == Some(0);
    hide Funded, Solvent, Find;
    assert Execute(l, op).Ok? by { hide Put; }
    OfferSolventIff(l, op);
  }

  /** An accepted snapshot that holds the very id the next offer will get: that offer breaks solvency. */
  lemma FreshIdsMatter()
    ensures var s := OneBranchSnapshot(ForgedBranch(1, Offered), map[0 := ROOT]);
            var op := Offer("ann", "bob", 5, 3);
            && FromSnapshot(s, None).Ok?
            && Execute(FromSnapshot(s, None).value, op).Ok?
            && !Solvent(Execute(FromSnapshot(s, None).value, op).value)
  {
    var b := ForgedBranch(1, Offered);
    OneBranchAccepted(b, map[0 := ROOT]);
    AcceptedIsFunded(OneBranchSnapshot(b, map[0 := ROOT]), None);
    var l := Loaded(OneBranchSnapshot(b, map[0 := ROOT]));
    assert l.branches == [b];
    hide FromSnapshot, Funded, Collapse, Execute, Solvent;
    CollidingOffer(l, b, Offer("ann", "bob", 5, 3));
  }
}
