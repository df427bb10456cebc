/** Where restore refuses a state the ledger itself reached, and how a caller avoids it. */
module RestoreLimits {
  import opened Common
  import opened LedgerModel
  import opened LedgerInvariants
  import opened LedgerTheorems
  import opened Restore

  const PAYER: Account := "payer"
  const RESERVE: Account := "reserve"

  const SAMPLE_GENESIS := Genesis("sample", 110, map[PAYER := 100, RESERVE := 10], {RESERVE})

  /** The id of the first branch of the sample network: ten units from the payer to the reserve. */
  const SAMPLE_ID := BranchId(0, ConfiguredGenesis(SAMPLE_GENESIS), 0, RESERVE, 0, PAYER, 10)

  const SAMPLE_OPS: seq<Op> :=
    [Offer(PAYER, RESERVE, 10, 3), Accept(SAMPLE_ID, RESERVE), Commit(SAMPLE_ID, PAYER, "{}"), Advance(3)]

  lemma RunSnoc(l: LedgerState, ops: seq<Op>, op: Op)
    requires Execute(Run(l, ops), op).Ok?
    ensures Run(l, ops + [op]) == Execute(Run(l, ops), op).value
  {
    assert (ops + [op])[..|ops|] == ops;
  }

  lemma SampleGenesisValid()
    ensures GenesisValid(SAMPLE_GENESIS) && Initial(Some(SAMPLE_GENESIS), SAMPLE_GENESIS.allocations)
  {
    var m: map<Account, int> := map[];
    SumUpdate(m, PAYER, 100);
    SumUpdate(m[PAYER := 100], RESERVE, 10);
    assert SAMPLE_GENESIS.allocations == m[PAYER := 100][RESERVE := 10];
  }

  lemma SampleCommits()
    ensures var l := Run(NewLedger(Some(SAMPLE_GENESIS), SAMPLE_GENESIS.allocations), SAMPLE_OPS[..3]);
            && l.genesis == Some(SAMPLE_GENESIS) && l.round == 0 && |l.branches| == 1
            && l.branches[0].state.Committed? && l.branches[0].committedRound == Some(0)
            && l.branches[0].receiver == RESERVE
  {
    var l0 := NewLedger(Some(SAMPLE_GENESIS), SAMPLE_GENESIS.allocations);
    assert Run(l0, []) == l0;
    RunSnoc(l0, [], SAMPLE_OPS[0]);
    var l1 := Execute(l0, SAMPLE_OPS[0]).value;
    assert l1.branches == [NewBranch(l0, PAYER, RESERVE, 10, 3)];
    assert [] + [SAMPLE_OPS[0]] == SAMPLE_OPS[..1];
    assert Find(l1.branches, SAMPLE_ID) == Some(0);
    RunSnoc(l0, SAMPLE_OPS[..1], SAMPLE_OPS[1]);
    var l2 := Execute(l1, SAMPLE_OPS[1]).value;
    assert SAMPLE_OPS[..1] + [SAMPLE_OPS[1]] == SAMPLE_OPS[..2];
    assert Find(l2.branches, SAMPLE_ID) == Some(0);
    RunSnoc(l0, SAMPLE_OPS[..2], SAMPLE_OPS[2]);
    assert SAMPLE_OPS[..2] + [SAMPLE_OPS[2]] == SAMPLE_OPS[..3];
  }

  /**
   The ledger lets an ordinary account pay a genesis-locked one, but the validator wants a
   locked account's balance unchanged: after this four-call run a restart is refused.
   */
  lemma RestoreCanRefuse()
    ensures Initial(Some(SAMPLE_GENESIS), SAMPLE_GENESIS.allocations)
    ensures var l := Run(NewLedger(Some(SAMPLE_GENESIS), SAMPLE_GENESIS.allocations), SAMPLE_OPS);
            FromSnapshot(SnapshotOf(l), Some(SAMPLE_GENESIS)).Err?
  {
    var l0 := NewLedger(Some(SAMPLE_GENESIS), SAMPLE_GENESIS.allocations);
    SampleGenesisValid();
    SampleCommits();
    var l3 := Run(l0, SAMPLE_OPS[..3]);
    RunKeepsInvariant(Some(SAMPLE_GENESIS), SAMPLE_GENESIS.allocations, SAMPLE_OPS[..3]);
    hide Inv, Run, FromSnapshot, GenesisValid;
    ExactDeadlines(l3, 3, 0);
    ReachableAdvances(Some(SAMPLE_GENESIS), SAMPLE_GENESIS.allocations, SAMPLE_OPS[..3], 3);
    hide AdvanceBy, TryAdvance, Execute;
    RunSnoc(l0, SAMPLE_OPS[..3], SAMPLE_OPS[3]);
    assert SAMPLE_OPS[..3] + [SAMPLE_OPS[3]] == SAMPLE_OPS;
    var l := Run(l0, SAMPLE_OPS);
    assert l.branches[0].state.Final? && l.branches[0].receiver == RESERVE;
    RunKeepsGenesis(Some(SAMPLE_GENESIS), SAMPLE_GENESIS.allocations, SAMPLE_OPS);
    RunKeepsInvariant(Some(SAMPLE_GENESIS), SAMPLE_GENESIS.allocations, SAMPLE_OPS);
    RestoreExact(l, SAMPLE_GENESIS.allocations);
    assert !ReserveUntouched(l);
  }

  // ----- The caller's side -----

  /** No call of the run offers anything to a locked account. */
  predicate SparesReserve(genesis: Option<Genesis>, ops: seq<Op>) {
    genesis.Some? ==>
      forall k :: 0 <= k < |ops| && ops[k].Offer? ==> ops[k].receiver !in genesis.value.lockedAccounts
  }

  ghost predicate NoneToReserve(genesis: Option<Genesis>, l: LedgerState) {
    genesis.Some? ==>
      forall i :: 0 <= i < |l.branches| ==> l.branches[i].receiver !in genesis.value.lockedAccounts
  }

  lemma ExecuteSpares(l: LedgerState, op: Op, genesis: Option<Genesis>)
    requires BranchesOk(l) && Execute(l, op).Ok? && NoneToReserve(genesis, l)
    requires op.Offer? && genesis.Some? ==> op.receiver !in genesis.value.lockedAccounts
    ensures NoneToReserve(genesis, Execute(l, op).value)
  {
    ExecuteExtends(l, op);
    var l' := Execute(l, op).value;
    hide Execute, BranchesOk;
    forall i | 0 <= i < |l'.branches| && genesis.Some?
      ensures l'.branches[i].receiver !in genesis.value.lockedAccounts
    {
      if i < |l.branches| { assert SameBranch(l.branches[i], l'.branches[i]); }
    }
  }

  lemma {:induction false} RunSpares(genesis: Option<Genesis>, balances: map<Account, int>, ops: seq<Op>)
    requires Initial(genesis, balances) && SparesReserve(genesis, ops)
    ensures NoneToReserve(genesis, Run(NewLedger(genesis, balances), ops))
  {
    if ops != [] {
      var front := ops[..|ops| - 1];
      RunSpares(genesis, balances, front);
      RunKeepsInvariant(genesis, balances, front);
      var before := Run(NewLedger(genesis, balances), front);
      assert BranchesOk(before);
      hide Inv, Execute, BranchesOk;
      if Execute(before, ops[|ops| - 1]).Ok? {
        ExecuteSpares(before, ops[|ops| - 1], genesis);
      }
    }
  }

  /** A run whose offers spare the reserve can always be saved and restored unchanged. */
  lemma SparingRunsRestore(genesis: Option<Genesis>, balances: map<Account, int>, ops: seq<Op>)
    requires Initial(genesis, balances) && SparesReserve(genesis, ops)
    ensures var l := Run(NewLedger(genesis, balances), ops);
            FromSnapshot(SnapshotOf(l), genesis) == Ok(l)
  {
    RunSpares(genesis, balances, ops);
    RunKeepsInvariant(genesis, balances, ops);
    RunKeepsGenesis(genesis, balances, ops);
    hide Inv, Run, FromSnapshot, Initial;
    RestoreExact(Run(NewLedger(genesis, balances), ops), balances);
  }
}
