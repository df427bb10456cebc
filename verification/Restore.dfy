/** Saving a ledger and restoring it behind the trust-boundary checks. */
module Restore {
  import opened Common
  import opened LedgerModel
  import opened LedgerInvariants

  /** The saved document, already parsed from JSON. */
  datatype Snapshot = Snapshot(
    schema: string,
    genesis: Option<Genesis>,
    round: int,
    headHeight: int,
    headDigest: Digest,
    balances: map<Account, int>,
    locked: map<Account, int>,
    branches: seq<Branch>,
    finalized: seq<Receipt>,
    history: map<int, Digest>)

  function SnapshotOf(l: LedgerState): Snapshot {
    Snapshot(LEDGER_SCHEMA, l.genesis, l.round, l.height, l.digest, l.balances, l.locked,
             l.branches, l.finalized, l.history)
  }

  /** `branches[id] = branch` for each saved branch in turn. */
  function Collapse(bs: seq<Branch>): seq<Branch> {
    if bs == [] then [] else Put(Collapse(bs[..|bs| - 1]), bs[|bs| - 1])
  }

  function Loaded(s: Snapshot): LedgerState {
    LedgerState(s.genesis, s.round, s.balances, s.locked, Collapse(s.branches), s.finalized,
                s.headHeight, s.headDigest, s.history)
  }

  /** The configured network's rules: supply, untouched reserve, reserve never a sender. */
  ghost predicate GenesisRespected(l: LedgerState, g: Genesis) {
    && 0 in l.history && l.history[0] == ConfiguredGenesis(g)
    && Sum(l.balances) == Sum(g.allocations)
    && (forall a :: a in g.lockedAccounts && a in g.allocations ==>
          a in l.balances && l.balances[a] == g.allocations[a])
    && (forall i :: 0 <= i < |l.branches| ==> l.branches[i].sender !in g.lockedAccounts)
  }

  /** What the validator demands of one saved branch. */
  predicate BranchAcceptable(l: LedgerState, b: Branch) {
    && b.value > 0 && b.stake == b.value
    && b.originHeight in l.history && l.history[b.originHeight] == b.originDigest
  }

  /** What the validator demands of a loaded ledger. */
  ghost predicate Acceptable(l: LedgerState) {
    && (l.genesis.Some? ==> GenesisRespected(l, l.genesis.value))
    && l.round >= 0 && l.height >= 0
    && l.height in l.history && l.history[l.height] == l.digest
    && (forall a :: a in l.balances ==> l.balances[a] >= 0)
    && (forall i :: 0 <= i < |l.branches| ==> BranchAcceptable(l, l.branches[i]))
    && (forall a :: Get(l.locked, a) == Total(l.branches, HeldFor(a)))
    && (forall a :: a in l.balances || a in l.locked ==> Available(l, a) >= 0)
  }

  // ----- The validator's refusals, in the order of its tests -----

  /** Why a genesis document is refused, if it is. */
  ghost function GenesisFault(g: Genesis): Option<string> {
    if !NetworkIdOk(g.networkId) then Some("invalid network id")
    else if g.maxSupply <= 0 || g.allocations == map[] then Some("invalid genesis supply")
    else if (exists a :: a in g.allocations && (a == "" || g.allocations[a] < 0)) || Sum(g.allocations) > g.maxSupply
      then Some("invalid genesis allocation")
    else if !(g.lockedAccounts <= g.allocations.Keys) then Some("invalid locked accounts")
    else None
  }

  ghost function NetworkFault(l: LedgerState, g: Genesis): Option<string> {
    if !(0 in l.history && l.history[0] == ConfiguredGenesis(g)) then Some("snapshot genesis digest mismatch")
    else if Sum(l.balances) != Sum(g.allocations) then Some("snapshot violates genesis supply")
    else if exists a :: a in g.lockedAccounts && a in g.allocations
                        && !(a in l.balances && l.balances[a] == g.allocations[a])
      then Some("snapshot changed locked reserve")
    else if exists i :: 0 <= i < |l.branches| && l.branches[i].sender in g.lockedAccounts
      then Some("locked reserve appears in branch history")
    else None
  }

  function BranchFault(l: LedgerState, b: Branch): Option<string> {
    if b.value <= 0 || b.stake != b.value then Some("snapshot violates equal branch stake")
    else if !(b.originHeight in l.history && l.history[b.originHeight] == b.originDigest)
      then Some("branch origin is not canonical")
    else None
  }

  /** The fault of the first bad branch among the first `n`. */
  function BranchesFault(l: LedgerState, n: nat): Option<string>
    requires n <= |l.branches|
  {
    if n == 0 then None
    else if BranchesFault(l, n - 1).Some? then BranchesFault(l, n - 1)
    else BranchFault(l, l.branches[n - 1])
  }

  ghost function BooksFault(l: LedgerState): Option<string> {
    if l.round < 0 || l.height < 0 then Some("negative snapshot counter")
    else if !(l.height in l.history && l.history[l.height] == l.digest)
      then Some("canonical head is not present in history")
    else if exists a :: a in l.balances && l.balances[a] < 0 then Some("snapshot contains a negative balance")
    else if BranchesFault(l, |l.branches|).Some? then BranchesFault(l, |l.branches|)
    else if exists a :: Get(l.locked, a) != Total(l.branches, HeldFor(a))
      then Some("snapshot locked funds do not match active branches")
    else if exists a :: (a in l.balances || a in l.locked) && Available(l, a) < 0
      then Some("snapshot over-locks an account")
    else None
  }

  /** The first test that a loaded ledger fails, if any. */
  ghost function Fault(l: LedgerState): Option<string> {
    if l.genesis.Some? && NetworkFault(l, l.genesis.value).Some? then NetworkFault(l, l.genesis.value)
    else BooksFault(l)
  }

  lemma {:induction false} BranchesFaultIff(l: LedgerState, n: nat)
    requires n <= |l.branches|
    ensures BranchesFault(l, n).None? <==> forall i :: 0 <= i < n ==> BranchAcceptable(l, l.branches[i])
  {
    if n > 0 { BranchesFaultIff(l, n - 1); }
  }

  lemma {:induction false} FaultStays(l: LedgerState, m: nat, n: nat)
    requires m <= n <= |l.branches| && BranchesFault(l, m).Some?
    ensures BranchesFault(l, n) == BranchesFault(l, m)
    decreases n
  {
    if m < n { FaultStays(l, m, n - 1); }
  }

  /** A genesis document is used exactly if it has a short plain name, a positive cap and sound allocations. */
  lemma GenesisIff(g: Genesis)
    ensures GenesisFault(g).None? <==>
              && 1 <= |g.networkId| <= 64
              && (forall c :: c in g.networkId ==>
                    'a' <= c <= 'z' || 'A' <= c <= 'Z' || '0' <= c <= '9' || c == '-' || c == '_')
              && g.maxSupply > 0 && g.allocations != map[]
              && (forall a :: a in g.allocations ==> a != "" && g.allocations[a] >= 0)
              && Sum(g.allocations) <= g.maxSupply
              && forall a :: a in g.lockedAccounts ==> a in g.allocations
    ensures GenesisValid(g) <==> GenesisFault(g).None?
  {
    hide Sum;
    assert (forall i :: 0 <= i < |g.networkId| ==> NetworkChar(g.networkId[i])) <==>
           (forall c :: c in g.networkId ==> NetworkChar(c));
  }

  /** The tests, taken in order, find no fault exactly on what the validator demands as a whole. */
  lemma FaultIff(l: LedgerState)
    ensures Fault(l).None? <==> Acceptable(l)
  {
    BranchesFaultIff(l, |l.branches|);
    hide Total, Sum, BranchesFault;
  }

  function Said(fault: Option<string>): string {
    if fault.Some? then fault.value else ""
  }

  ghost function FromSnapshot(s: Snapshot, expected: Option<Genesis>): Outcome<LedgerState> {
    if s.schema != LEDGER_SCHEMA then Err("unsupported ledger snapshot schema")
    else if s.genesis.Some? && !GenesisValid(s.genesis.value) then Err(Said(GenesisFault(s.genesis.value)))
    else if expected.Some? && s.genesis != expected then Err("snapshot genesis differs from configured network")
    else if !Acceptable(Loaded(s)) then Err(Said(Fault(Loaded(s))))
    else Ok(Loaded(s))
  }

  /** No payment to a genesis-locked account has been finalised. */
  ghost predicate ReserveUntouched(l: LedgerState) {
    l.genesis.Some? ==>
      forall i :: 0 <= i < |l.branches| && l.branches[i].state.Final?
                  ==> l.branches[i].receiver !in l.genesis.value.lockedAccounts
  }

  lemma {:induction false} CollapseDistinct(bs: seq<Branch>)
    requires forall i, j :: 0 <= i < j < |bs| ==> bs[i].id != bs[j].id
    ensures Collapse(bs) == bs
  {
    if bs != [] {
      var front := bs[..|bs| - 1];
      assert forall i, j :: 0 <= i < j < |front| ==> front[i] == bs[i] && front[j] == bs[j];
      CollapseDistinct(front);
      assert Find(front, bs[|bs| - 1].id) == None by {
        forall i | 0 <= i < |front|
          ensures front[i].id != bs[|bs| - 1].id
        {
          assert front[i] == bs[i];
        }
      }
      assert bs == front + [bs[|bs| - 1]];
    }
  }

  /** The branch is saved, and no later one has its id. */
  ghost predicate LastSaved(bs: seq<Branch>, b: Branch) {
    exists i :: 0 <= i < |bs| && bs[i] == b && forall j :: i < j < |bs| ==> bs[j].id != b.id
  }

  lemma LastSavedStep(bs: seq<Branch>, b: Branch)
    requires bs != []
    ensures LastSaved(bs, b) <==>
              b == bs[|bs| - 1] || (b.id != bs[|bs| - 1].id && LastSaved(bs[..|bs| - 1], b))
  {
    var n := |bs| - 1;
    assert forall j :: 0 <= j < n ==> bs[..n][j] == bs[j];
    if LastSaved(bs[..n], b) && b.id != bs[n].id {
      var i :| 0 <= i < n && bs[..n][i] == b && forall j :: i < j < n ==> bs[..n][j].id != b.id;
      assert bs[i] == b && forall j :: i < j < n ==> bs[..n][j] == bs[j];
    }
  }

  /** Loading keeps, of several saved branches with one id, exactly the last. */
  lemma {:induction false} CollapseIs(bs: seq<Branch>, b: Branch)
    ensures b in Collapse(bs) <==> LastSaved(bs, b)
  {
    hide Put, LastSaved;
    if bs == [] {
      NothingSaved(b);
    } else {
      var n := |bs| - 1;
      CollapseIs(bs[..n], b);
      CollapseIsDistinct(bs[..n]);
      hide DistinctIds;
      PutIs(Collapse(bs[..n]), bs[n], b);
      LastSavedStep(bs, b);
    }
  }

  lemma NothingSaved(b: Branch)
    ensures !LastSaved([], b)
  {
  }

  ghost predicate DistinctIds(bs: seq<Branch>) {
    forall i, j :: 0 <= i < j < |bs| ==> bs[i].id != bs[j].id
  }

  lemma PutKeepsDistinct(bs: seq<Branch>, b: Branch)
    requires DistinctIds(bs)
    ensures DistinctIds(Put(bs, b))
  {
    var r := Find(bs, b.id);
    if r.Some? {
      var put := bs[r.value := b];
      forall i, j | 0 <= i < j < |put|
        ensures put[i].id != put[j].id
      {
        assert bs[i].id != bs[j].id;
      }
    }
  }

  lemma {:induction false} CollapseIsDistinct(bs: seq<Branch>)
    ensures DistinctIds(Collapse(bs))
  {
    if bs != [] {
      CollapseIsDistinct(bs[..|bs| - 1]);
      PutKeepsDistinct(Collapse(bs[..|bs| - 1]), bs[|bs| - 1]);
    }
  }

  lemma PutIs(bs: seq<Branch>, put: Branch, b: Branch)
    requires DistinctIds(bs)
    ensures b in Put(bs, put) <==> b == put || (b in bs && b.id != put.id)
  {
    var r := Find(bs, put.id);
    hide Find;
    if r.Some? {
      var after := bs[r.value := put];
      assert after[r.value] == put;
      forall i | 0 <= i < |bs| && i != r.value
        ensures after[i] == bs[i] && bs[i].id != put.id
      {
        assert bs[r.value].id == put.id;
      }
      if b in bs && b.id != put.id {
        var i :| 0 <= i < |bs| && bs[i] == b;
        assert after[i] == b;
      }
    }
  }

  lemma LoadedSame(l: LedgerState)
    requires BranchesOk(l)
    ensures Loaded(SnapshotOf(l)) == l
  {
    forall i, j | 0 <= i < j < |l.branches|
      ensures l.branches[i].id != l.branches[j].id
    {
      assert BranchOk(l, i) && BranchOk(l, j);
    }
    CollapseDistinct(l.branches);
  }

  /** A locked account's balance has moved from its allocation iff it was paid. */
  lemma {:induction false} ReserveMoved(bs: seq<Branch>, a: Account)
    requires forall i :: 0 <= i < |bs| ==> bs[i].value > 0 && bs[i].sender != a
    ensures Total(bs, PaidTo(a)) >= 0
    ensures Total(bs, PaidTo(a)) == 0 <==>
              forall i :: 0 <= i < |bs| && bs[i].state.Final? ==> bs[i].receiver != a
  {
    if bs != [] {
      var n := |bs| - 1;
      assert forall i :: 0 <= i < n ==> bs[..n][i] == bs[i];
      ReserveMoved(bs[..n], a);
      if forall i :: 0 <= i < n && bs[..n][i].state.Final? ==> bs[..n][i].receiver != a {
        assert forall i :: 0 <= i < n && bs[i].state.Final? ==> bs[i].receiver != a;
      } else {
        var i :| 0 <= i < n && bs[..n][i].state.Final? && bs[..n][i].receiver == a;
        assert bs[i].state.Final? && bs[i].receiver == a;
      }
    }
  }

  ghost predicate ReserveKept(l: LedgerState, g: Genesis) {
    forall a :: a in g.lockedAccounts && a in g.allocations ==> a in l.balances && l.balances[a] == g.allocations[a]
  }

  lemma ReserveKeptIffUntouched(l: LedgerState)
    requires l.genesis.Some? && BranchesOk(l) && Accounted(l, l.genesis.value.allocations)
    requires l.genesis.value.lockedAccounts <= l.genesis.value.allocations.Keys
    ensures ReserveKept(l, l.genesis.value) <==> ReserveUntouched(l)
  {
    var g := l.genesis.value;
    forall a | a in g.lockedAccounts
      ensures (a in l.balances && l.balances[a] == g.allocations[a]) <==>
                forall i :: 0 <= i < |l.branches| && l.branches[i].state.Final? ==> l.branches[i].receiver != a
    {
      forall i | 0 <= i < |l.branches|
        ensures l.branches[i].value > 0 && l.branches[i].sender != a
      {
        assert BranchOk(l, i);
      }
      ReserveMoved(l.branches, a);
      assert Get(l.balances, a) == Get(g.allocations, a) + Total(l.branches, PaidTo(a));
    }
  }

  ghost predicate SenderRules(l: LedgerState) {
    forall i :: 0 <= i < |l.branches| ==>
      BranchAcceptable(l, l.branches[i])
      && (l.genesis.Some? ==> l.branches[i].sender !in l.genesis.value.lockedAccounts)
  }

  lemma BranchesAcceptable(l: LedgerState)
    requires BranchesOk(l)
    ensures SenderRules(l)
  {
    forall i | 0 <= i < |l.branches|
      ensures BranchAcceptable(l, l.branches[i])
              && (l.genesis.Some? ==> l.branches[i].sender !in l.genesis.value.lockedAccounts)
    {
      assert BranchOk(l, i);
    }
  }

  /** The root of a replayable history is the genesis block. */
  lemma {:induction false} HistoryRoot(d: Digest)
    ensures 0 in HistoryAt(d) && HistoryAt(d)[0] == GenesisDigest(GenesisAt(d), BalancesAt(HistoryAt(d)[0]))
  {
    match d
    case TransferBlock(_, _, parent, _) => HistoryRoot(parent);
    case RegisterBlock(_, _, parent) => HistoryRoot(parent);
    case _ =>
  }

  /**
   Restore is exact: the snapshot of a ledger that any run reached is accepted if and only
   if no payment to a genesis-locked account has been finalised, and then it gives back
   that very ledger.
   */
  lemma RestoreExact(l: LedgerState, initial: map<Account, int>)
    requires Inv(l, initial) && Initial(l.genesis, initial)
    ensures FromSnapshot(SnapshotOf(l), None).Ok? <==> ReserveUntouched(l)
    ensures ReserveUntouched(l) ==> FromSnapshot(SnapshotOf(l), None) == Ok(l)
    ensures FromSnapshot(SnapshotOf(l), l.genesis) == FromSnapshot(SnapshotOf(l), None)
  {
    hide Total, Sum, Fault, GenesisFault, Collapse;
    LoadedSame(l);
    BranchesAcceptable(l);
    HistoryRoot(l.digest);
    if l.genesis.Some? {
      ReserveKeptIffUntouched(l);
    }
    hide BranchesOk, ReceiptsExact, ReserveUntouched, GenesisValid, Accounted, HistoryAt, BalancesAt, ReceiptsAt;
    assert Acceptable(l) <==> (l.genesis.Some? ==> ReserveKept(l, l.genesis.value)) by {
      assert forall a :: Available(l, a) == Get(l.balances, a) - Get(l.locked, a);
    }
  }

  /** The same statement over runs from any genesis or initial balances. */
  lemma RunRestores(genesis: Option<Genesis>, balances: map<Account, int>, ops: seq<Op>)
    requires Initial(genesis, balances)
    ensures var l := Run(NewLedger(genesis, balances), ops);
            && (FromSnapshot(SnapshotOf(l), None).Ok? <==> ReserveUntouched(l))
            && (ReserveUntouched(l) ==> FromSnapshot(SnapshotOf(l), None) == Ok(l))
  {
    RunKeepsInvariant(genesis, balances, ops);
    RunKeepsGenesis(genesis, balances, ops);
    RestoreExact(Run(NewLedger(genesis, balances), ops), balances);
  }

  lemma {:induction false} SettleKeepsGenesis(l: LedgerState, i: nat)
    requires i <= |l.branches|
    ensures SettleFrom(l, i).ledger.genesis == l.genesis
    decreases |l.branches| - i
  {
    if i < |l.branches| { SettleKeepsGenesis(Settle(l, i), i + 1); }
  }

  lemma {:induction false} AdvanceKeepsGenesis(l: LedgerState, n: nat)
    ensures AdvanceBy(l, n).ledger.genesis == l.genesis
    decreases n
  {
    if n > 0 {
      SettleKeepsGenesis(l.(round := l.round + 1), 0);
      AdvanceKeepsGenesis(Tick(l).ledger, n - 1);
    }
  }

  lemma ExecuteKeepsGenesis(l: LedgerState, op: Op)
    requires Execute(l, op).Ok?
    ensures Execute(l, op).value.genesis == l.genesis
  {
    if op.Advance? { AdvanceKeepsGenesis(l, op.rounds); }
  }

  lemma {:induction false} RunKeepsGenesis(genesis: Option<Genesis>, balances: map<Account, int>, ops: seq<Op>)
    ensures Run(NewLedger(genesis, balances), ops).genesis == genesis
  {
    if ops != [] {
      RunKeepsGenesis(genesis, balances, ops[..|ops| - 1]);
      var before := Run(NewLedger(genesis, balances), ops[..|ops| - 1]);
      if Execute(before, ops[|ops| - 1]).Ok? {
        ExecuteKeepsGenesis(before, ops[|ops| - 1]);
      }
    }
  }

  /**
   Restore is sound: whatever snapshot the validator accepts, the restored ledger's locks
   are exactly its active branches' value plus stake and no account owes more than it has.
   */
  lemma AcceptedIsSolvent(s: Snapshot, expected: Option<Genesis>)
    requires FromSnapshot(s, expected).Ok?
    ensures Solvent(FromSnapshot(s, expected).value)
    ensures s.genesis.Some? ==> Sum(FromSnapshot(s, expected).value.balances) == Sum(s.genesis.value.allocations)
    ensures expected.Some? ==> s.genesis == expected
  {
    var l := Loaded(s);
    forall a
      ensures 0 <= Get(l.locked, a) <= Get(l.balances, a)
    {
      forall j | 0 <= j < |l.branches|
        ensures HeldFor(a)(l.branches[j]) >= 0
      {
        assert BranchAcceptable(l, l.branches[j]);
      }
      if |l.branches| > 0 {
        TotalNonNegative(l.branches, HeldFor(a), 0);
      }
      assert a in l.balances || a in l.locked ==> Available(l, a) >= 0;
    }
  }

  /** An accepted snapshot's active senders have lock entries and cover their stakes. */
  lemma AcceptedSenderCovered(l: LedgerState, i: nat)
    requires Acceptable(l) && i < |l.branches| && l.branches[i].Active()
    ensures l.branches[i].sender in l.locked && l.branches[i].sender in l.balances
    ensures Get(l.balances, l.branches[i].sender) >= 2 * l.branches[i].value
  {
    var a := l.branches[i].sender;
    forall j | 0 <= j < |l.branches|
      ensures HeldFor(a)(l.branches[j]) >= 0
    {
      assert BranchAcceptable(l, l.branches[j]);
    }
    assert BranchAcceptable(l, l.branches[i]);
    TotalNonNegative(l.branches, HeldFor(a), i);
  }
}
