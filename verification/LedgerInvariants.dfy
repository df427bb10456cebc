/** What every call keeps true of a ledger, and what that means for runs. */
module LedgerInvariants {
  import opened Common
  import opened LedgerModel

  // ---------------------------------------------------------------- sums over branches

  ghost function Total(bs: seq<Branch>, f: Branch -> int): int {
    if bs == [] then 0 else Total(bs[..|bs| - 1], f) + f(bs[|bs| - 1])
  }

  /** Funds that a branch keeps locked for account `a`: value plus stake while it is active. */
  function Held(b: Branch, a: Account): int {
    if b.Active() && b.sender == a then b.value + b.stake else 0
  }

  /** What a branch has added to (or taken from) account `a`. */
  function Paid(b: Branch, a: Account): int {
    if !b.state.Final? then 0
    else (if b.receiver == a then b.value else 0) - (if b.sender == a then b.value else 0)
  }

  ghost function HeldFor(a: Account): Branch -> int { (b: Branch) => Held(b, a) }

  ghost function PaidTo(a: Account): Branch -> int { (b: Branch) => Paid(b, a) }

  lemma {:induction false} TotalReplace(bs: seq<Branch>, i: nat, b: Branch, f: Branch -> int)
    requires i < |bs|
    ensures Total(bs[i := b], f) == Total(bs, f) - f(bs[i]) + f(b)
  {
    var n := |bs| - 1;
    if i == n {
      assert bs[i := b][..n] == bs[..n];
    } else {
      TotalReplace(bs[..n], i, b, f);
      assert bs[i := b][..n] == bs[..n][i := b];
    }
  }

  lemma TotalAppend(bs: seq<Branch>, b: Branch, f: Branch -> int)
    ensures Total(bs + [b], f) == Total(bs, f) + f(b)
  {
    assert (bs + [b])[..|bs|] == bs;
  }

  lemma {:induction false} TotalNonNegative(bs: seq<Branch>, f: Branch -> int, i: nat)
    requires forall j :: 0 <= j < |bs| ==> f(bs[j]) >= 0
    requires i < |bs|
    ensures Total(bs, f) >= f(bs[i])
  {
    var n := |bs| - 1;
    if i < n {
      TotalNonNegative(bs[..n], f, i);
    } else if n > 0 {
      TotalNonNegative(bs[..n], f, 0);
    }
  }

  // ---------------------------------------------------------------- the invariant

  /** The facts about branch `i` that no later call can undo. */
  ghost predicate BranchOk(l: LedgerState, i: nat)
    requires i < |l.branches|
  {
    var b := l.branches[i];
    && b.id == BranchId(i, b.originDigest, b.originHeight, b.receiver, b.createdRound, b.sender, b.value)
    && b.value > 0 && b.stake == b.value && b.sender != b.receiver
    && b.sender in l.balances && b.receiver in l.balances
    && (l.genesis.Some? ==> b.sender !in l.genesis.value.lockedAccounts)
    && 0 <= b.createdRound <= l.round && b.createdRound + FINALITY_ROUNDS <= b.expiresRound
    && (b.state.Accepted? ==> b.acceptedRound.Some?)
    && (b.state.Committed? || b.state.Final? ==>
          b.committedRound.Some? && b.tx.Some? && b.createdRound <= b.committedRound.value <= l.round)
    && b.originHeight in l.history && l.history[b.originHeight] == b.originDigest
    && (b.Active() ==> b.sender in l.locked)
  }

  /** Locked funds are exactly the active branches' value plus stake, and are covered. */
  ghost predicate Solvent(l: LedgerState) {
    && (forall a :: a in l.balances ==> l.balances[a] >= 0)
    && (forall a :: Get(l.locked, a) == Total(l.branches, HeldFor(a)))
    && (forall a :: 0 <= Get(l.locked, a) <= Get(l.balances, a))
  }

  ghost predicate HistoryOk(l: LedgerState) {
    && l.height >= 0
    && (forall h :: h in l.history <==> 0 <= h <= l.height)
    && l.history[l.height] == l.digest
  }

  ghost predicate BranchesOk(l: LedgerState) {
    forall i :: 0 <= i < |l.branches| ==> BranchOk(l, i)
  }

  ghost predicate WellFormed(l: LedgerState) {
    l.round >= 0 && HistoryOk(l) && Solvent(l) && BranchesOk(l)
  }

  /** No active branch has outlived its deadline: holds between calls. */
  ghost predicate NothingOverdue(l: LedgerState) {
    forall i :: 0 <= i < |l.branches| ==> !Overdue(l.branches[i], l.round)
  }

  /** The receipts of `finalized` are those of the FINAL branches, each once. */
  ghost predicate ReceiptsExact(l: LedgerState) {
    && (forall j, k :: 0 <= j < k < |l.finalized| ==> l.finalized[j] != l.finalized[k])
    && (forall i :: 0 <= i < |l.branches| && l.branches[i].state.Final?
          ==> Receipt(l.branches[i].id, l.branches[i].tx) in l.finalized)
    && (forall r :: r in l.finalized ==>
          exists i :: 0 <= i < |l.branches| && l.branches[i].state.Final?
                      && r == Receipt(l.branches[i].id, l.branches[i].tx))
  }

  /** The books relative to the ledger's starting balances. */
  ghost predicate Accounted(l: LedgerState, initial: map<Account, int>) {
    && (forall a :: Get(l.balances, a) == Get(initial, a) + Total(l.branches, PaidTo(a)))
    && Sum(l.balances) == Sum(initial)
    && initial.Keys <= l.balances.Keys
    && l.height == |l.finalized| + |l.balances.Keys| - |initial.Keys|
  }

  /** Everything a head digest commits to, read back from the digest alone. */
  function BalancesAt(d: Digest): map<Account, int> {
    match d
    case BalancesGenesis(b) => b
    case ConfiguredGenesis(g) => g.allocations
    case TransferBlock(id, _, parent, _) => Transfer(BalancesAt(parent), id.sender, id.receiver, id.value)
    case RegisterBlock(a, _, parent) => BalancesAt(parent)[a := 0]
  }

  function HeightAt(d: Digest): nat {
    match d
    case BalancesGenesis(_) => 0
    case ConfiguredGenesis(_) => 0
    case TransferBlock(_, _, parent, _) => HeightAt(parent) + 1
    case RegisterBlock(_, _, parent) => HeightAt(parent) + 1
  }

  function HistoryAt(d: Digest): map<int, Digest> {
    match d
    case BalancesGenesis(_) => map[0 := d]
    case ConfiguredGenesis(_) => map[0 := d]
    case TransferBlock(_, _, parent, _) => HistoryAt(parent)[HeightAt(d) := d]
    case RegisterBlock(_, _, parent) => HistoryAt(parent)[HeightAt(d) := d]
  }

  function ReceiptsAt(d: Digest): seq<Receipt> {
    match d
    case BalancesGenesis(_) => []
    case ConfiguredGenesis(_) => []
    case TransferBlock(id, _, parent, tx) => ReceiptsAt(parent) + [Receipt(id, tx)]
    case RegisterBlock(_, _, parent) => ReceiptsAt(parent)
  }

  function GenesisAt(d: Digest): Option<Genesis> {
    match d
    case BalancesGenesis(_) => None
    case ConfiguredGenesis(g) => Some(g)
    case TransferBlock(_, _, parent, _) => GenesisAt(parent)
    case RegisterBlock(_, _, parent) => GenesisAt(parent)
  }

  ghost predicate Chained(l: LedgerState) {
    && l.balances == BalancesAt(l.digest)
    && l.height == HeightAt(l.digest)
    && l.history == HistoryAt(l.digest)
    && l.finalized == ReceiptsAt(l.digest)
    && l.genesis == GenesisAt(l.digest)
  }

  /** The invariant of a ledger that started from `initial`. */
  ghost predicate Inv(l: LedgerState, initial: map<Account, int>) {
    WellFormed(l) && ReceiptsExact(l) && Accounted(l, initial) && Chained(l)
  }

  ghost predicate Initial(genesis: Option<Genesis>, balances: map<Account, int>) {
    && (forall a :: a in balances ==> balances[a] >= 0)
    && (genesis.Some? ==> GenesisValid(genesis.value) && genesis.value.allocations == balances)
  }

  lemma NewLedgerInv(genesis: Option<Genesis>, balances: map<Account, int>)
    requires Initial(genesis, balances)
    ensures Inv(NewLedger(genesis, balances), balances)
    ensures NothingOverdue(NewLedger(genesis, balances))
  {
  }

  // ---------------------------------------------------------------- each call keeps it

  /** A fresh branch id never collides, so an offer appends. */
  lemma OfferAppends(l: LedgerState, sender: Account, receiver: Account, value: int, ttl: int)
    requires BranchesOk(l)
    ensures var b := NewBranch(l, sender, receiver, value, ttl); Put(l.branches, b) == l.branches + [b]
  {
    var b := NewBranch(l, sender, receiver, value, ttl);
    forall i | 0 <= i < |l.branches|
      ensures l.branches[i].id != b.id
    {
      assert BranchOk(l, i);
    }
  }

  /** `l'` has every account, lock entry and block of `l`, and is no earlier. */
  ghost predicate Grows(l: LedgerState, l': LedgerState) {
    && l'.genesis == l.genesis && l.round <= l'.round && |l.branches| <= |l'.branches|
    && l.balances.Keys <= l'.balances.Keys && l.locked.Keys <= l'.locked.Keys
    && forall h :: h in l.history ==> h in l'.history && l'.history[h] == l.history[h]
  }

  /** What has been said of an untouched branch stays true as the ledger around it grows. */
  lemma BranchesStay(l: LedgerState, l': LedgerState)
    requires BranchesOk(l) && Grows(l, l')
    requires forall i :: 0 <= i < |l'.branches| ==>
               (i < |l.branches| && l'.branches[i] == l.branches[i]) || BranchOk(l', i)
    ensures BranchesOk(l')
  {
    forall i | 0 <= i < |l'.branches|
      ensures BranchOk(l', i)
    {
      if i < |l.branches| && l'.branches[i] == l.branches[i] {
        assert BranchOk(l, i);
      }
    }
  }

  /** Appending a block keeps the history contiguous and the head replayable. */
  lemma BlockKeepsChain(l: LedgerState, l': LedgerState, block: Digest)
    requires HistoryOk(l) && Chained(l)
    requires block.TransferBlock? || block.RegisterBlock?
    requires block.parent == l.digest && block.height == l.height + 1
    requires l'.height == l.height + 1 && l'.digest == block && l'.history == l.history[l.height + 1 := block]
    requires l'.genesis == l.genesis && l'.balances == BalancesAt(block) && l'.finalized == ReceiptsAt(block)
    ensures HistoryOk(l') && Chained(l')
    ensures forall h :: h in l.history ==> h in l'.history && l'.history[h] == l.history[h]
  {
    assert HeightAt(block) == HeightAt(l.digest) + 1 && GenesisAt(block) == GenesisAt(l.digest);
    assert HistoryAt(block) == HistoryAt(l.digest)[HeightAt(block) := block];
    hide HeightAt, HistoryAt, BalancesAt, ReceiptsAt, GenesisAt;
  }

  /** Replacing branch `i` shifts every sum by the difference of the two versions. */
  lemma SumsShift(bs: seq<Branch>, i: nat, b: Branch)
    requires i < |bs|
    ensures forall a :: Total(bs[i := b], HeldFor(a)) == Total(bs, HeldFor(a)) - Held(bs[i], a) + Held(b, a)
    ensures forall a :: Total(bs[i := b], PaidTo(a)) == Total(bs, PaidTo(a)) - Paid(bs[i], a) + Paid(b, a)
  {
    forall a
      ensures Total(bs[i := b], HeldFor(a)) == Total(bs, HeldFor(a)) - Held(bs[i], a) + Held(b, a)
      ensures Total(bs[i := b], PaidTo(a)) == Total(bs, PaidTo(a)) - Paid(bs[i], a) + Paid(b, a)
    {
      TotalReplace(bs, i, b, HeldFor(a));
      TotalReplace(bs, i, b, PaidTo(a));
    }
  }

  /** Receipts stay exact when no FINAL branch is touched and none appears. */
  lemma ReceiptsSurvive(l: LedgerState, l': LedgerState)
    requires ReceiptsExact(l) && l'.finalized == l.finalized
    requires |l'.branches| >= |l.branches|
    requires forall j :: 0 <= j < |l.branches| && (l.branches[j].state.Final? || l'.branches[j].state.Final?)
                         ==> l'.branches[j] == l.branches[j]
    requires forall j :: |l.branches| <= j < |l'.branches| ==> !l'.branches[j].state.Final?
    ensures ReceiptsExact(l')
  {
    forall r | r in l'.finalized
      ensures exists i :: 0 <= i < |l'.branches| && l'.branches[i].state.Final?
                          && r == Receipt(l'.branches[i].id, l'.branches[i].tx)
    {
      var i :| 0 <= i < |l.branches| && l.branches[i].state.Final? && r == Receipt(l.branches[i].id, l.branches[i].tx);
      assert l'.branches[i] == l.branches[i];
    }
  }

  lemma OfferFunds(l: LedgerState, l': LedgerState, initial: map<Account, int>, b: Branch)
    requires Solvent(l) && Accounted(l, initial)
    requires b.state.Offered? && b.value > 0 && b.stake == b.value && Available(l, b.sender) >= b.value * 2
    requires l' == l.(branches := l.branches + [b],
                      locked := l.locked[b.sender := Get(l.locked, b.sender) + b.value * 2])
    ensures Solvent(l') && Accounted(l', initial)
  {
    hide Total, Sum;
    forall a
      ensures Total(l'.branches, HeldFor(a)) == Total(l.branches, HeldFor(a)) + Held(b, a)
      ensures Total(l'.branches, PaidTo(a)) == Total(l.branches, PaidTo(a))
      ensures Get(l'.locked, a) == Get(l.locked, a) + Held(b, a)
    {
      TotalAppend(l.branches, b, HeldFor(a));
      TotalAppend(l.branches, b, PaidTo(a));
    }
    assert Accounted(l', initial) by { hide Solvent; }
    hide Accounted;
  }

  lemma OfferKeeps(l: LedgerState, initial: map<Account, int>, sender: Account, receiver: Account, value: int, ttl: int)
    requires Inv(l, initial)
    requires DoOffer(l, sender, receiver, value, ttl).Ok?
    ensures Inv(DoOffer(l, sender, receiver, value, ttl).value, initial)
  {
    OfferAppends(l, sender, receiver, value, ttl);
    var b := NewBranch(l, sender, receiver, value, ttl);
    var l' := DoOffer(l, sender, receiver, value, ttl).value;
    assert Get(l.locked, sender) >= 0;
    OfferBranches(l, sender, receiver, value, ttl);
    hide Solvent, Accounted, ReceiptsExact, BranchesOk, BranchOk;
    OfferFunds(l, l', initial, b);
    ReceiptsSurvive(l, l');
  }

  lemma OfferBranches(l: LedgerState, sender: Account, receiver: Account, value: int, ttl: int)
    requires WellFormed(l) && DoOffer(l, sender, receiver, value, ttl).Ok?
    ensures BranchesOk(DoOffer(l, sender, receiver, value, ttl).value)
  {
    OfferAppends(l, sender, receiver, value, ttl);
    var l' := DoOffer(l, sender, receiver, value, ttl).value;
    assert Get(l.locked, sender) >= 0 && l.history[l.height] == l.digest;
    hide Solvent, BranchesOk, Put;
    assert BranchOk(l', |l.branches|);
    BranchesStay(l, l');
  }

  /** Replacing one branch by a later version of itself that holds and pays the same. */
  lemma ReplaceFunds(l: LedgerState, l': LedgerState, initial: map<Account, int>, i: nat, b: Branch)
    requires Solvent(l) && Accounted(l, initial) && i < |l.branches|
    requires forall a :: Held(b, a) == Held(l.branches[i], a) && Paid(b, a) == Paid(l.branches[i], a)
    requires l' == l.(branches := l.branches[i := b])
    ensures Solvent(l') && Accounted(l', initial)
  {
    SumsShift(l.branches, i, b);
  }

  lemma ReplaceKeeps(l: LedgerState, initial: map<Account, int>, i: nat, b: Branch)
    requires Inv(l, initial) && i < |l.branches|
    requires !l.branches[i].state.Final? && !b.state.Final?
    requires forall a :: Held(b, a) == Held(l.branches[i], a)
    requires BranchOk(l.(branches := l.branches[i := b]), i)
    ensures Inv(l.(branches := l.branches[i := b]), initial)
  {
    hide Solvent, Accounted, ReceiptsExact, BranchesOk;
    var l' := l.(branches := l.branches[i := b]);
    ReplaceFunds(l, l', initial, i, b);
    ReceiptsSurvive(l, l');
    BranchesStay(l, l');
  }

  /** One active branch never holds more than its sender has locked. */
  lemma HeldCovered(l: LedgerState, i: nat)
    requires WellFormed(l) && i < |l.branches| && l.branches[i].Active()
    ensures 2 * l.branches[i].value <= Get(l.locked, l.branches[i].sender) <= Get(l.balances, l.branches[i].sender)
  {
    var a := l.branches[i].sender;
    forall j | 0 <= j < |l.branches|
      ensures HeldFor(a)(l.branches[j]) >= 0
    {
      assert BranchOk(l, j);
    }
    assert BranchOk(l, i);
    TotalNonNegative(l.branches, HeldFor(a), i);
  }

  /** Closing a branch without payment releases exactly what it held. */
  lemma CloseFunds(l: LedgerState, l': LedgerState, initial: map<Account, int>, i: nat, b: Branch)
    requires WellFormed(l) && Accounted(l, initial) && i < |l.branches| && l.branches[i].Active()
    requires !b.Active() && !b.state.Final?
    requires l' == l.(branches := l.branches[i := b], locked := Unlock(l.locked, l.branches[i]))
    ensures Solvent(l') && Accounted(l', initial)
  {
    HeldCovered(l, i);
    SumsShift(l.branches, i, b);
    assert BranchOk(l, i);
    hide BranchesOk;
    assert forall a :: Get(l'.locked, a) == Get(l.locked, a) - Held(l.branches[i], a);
  }

  lemma CloseKeeps(l: LedgerState, initial: map<Account, int>, i: nat, s: BranchState)
    requires Inv(l, initial) && i < |l.branches| && l.branches[i].Active()
    requires s.Cancelled? || s.Expired?
    ensures var b := l.branches[i];
            Inv(l.(branches := l.branches[i := b.(state := s)], locked := Unlock(l.locked, b)), initial)
  {
    var b := l.branches[i];
    var l' := l.(branches := l.branches[i := b.(state := s)], locked := Unlock(l.locked, b));
    assert BranchOk(l, i);
    hide Solvent, Accounted, ReceiptsExact, BranchesOk;
    CloseFunds(l, l', initial, i, b.(state := s));
    ReceiptsSurvive(l, l');
    BranchesStay(l, l');
  }

  lemma ReceiptAdded(l: LedgerState, l': LedgerState, i: nat)
    requires BranchesOk(l) && ReceiptsExact(l) && i < |l.branches| && !l.branches[i].state.Final?
    requires l'.branches == l.branches[i := l.branches[i].(state := Final)]
    requires l'.finalized == l.finalized + [Receipt(l.branches[i].id, l.branches[i].tx)]
    ensures ReceiptsExact(l')
  {
    var r := Receipt(l.branches[i].id, l.branches[i].tx);
    forall k | 0 <= k < |l.branches| && l.branches[k].state.Final?
      ensures r != Receipt(l.branches[k].id, l.branches[k].tx)
    {
      assert BranchOk(l, i) && BranchOk(l, k);
    }
    forall x | x in l.finalized
      ensures x != r && x in l'.finalized
    {
      var k :| 0 <= k < |l.branches| && l.branches[k].state.Final? && x == Receipt(l.branches[k].id, l.branches[k].tx);
    }
    assert l'.finalized[|l.finalized|] == r;
    forall j, k | 0 <= j < k < |l'.finalized|
      ensures l'.finalized[j] != l'.finalized[k]
    {
      assert l'.finalized[j] == l.finalized[j] && l.finalized[j] in l.finalized;
    }
    forall k | 0 <= k < |l'.branches| && l'.branches[k].state.Final?
      ensures Receipt(l'.branches[k].id, l'.branches[k].tx) in l'.finalized
    {
      if k != i { assert l.branches[k] == l'.branches[k]; }
    }
    forall x | x in l'.finalized
      ensures exists j :: 0 <= j < |l'.branches| && l'.branches[j].state.Final?
                          && x == Receipt(l'.branches[j].id, l'.branches[j].tx)
    {
      if x == r {
        assert l'.branches[i].state.Final?;
      } else {
        var k :| 0 <= k < |l.branches| && l.branches[k].state.Final?
                 && x == Receipt(l.branches[k].id, l.branches[k].tx);
        assert l'.branches[k] == l.branches[k];
      }
    }
  }

  /** A transfer between two existing accounts leaves the supply as it was. */
  lemma TransferConserves(balances: map<Account, int>, sender: Account, receiver: Account, value: int)
    requires sender in balances && receiver in balances && sender != receiver
    ensures Sum(Transfer(balances, sender, receiver, value)) == Sum(balances)
    ensures Transfer(balances, sender, receiver, value).Keys == balances.Keys
  {
    hide Sum;
    var debited := balances[sender := Get(balances, sender) - value];
    SumUpdate(balances, sender, Get(balances, sender) - value);
    SumUpdate(debited, receiver, Get(debited, receiver) + value);
  }

  /** Finalising moves exactly `value` and releases value plus stake. */
  lemma FinalizeSolvent(l: LedgerState, i: nat)
    requires WellFormed(l) && i < |l.branches|
    requires l.branches[i].state.Committed? && Overdue(l.branches[i], l.round)
    ensures Solvent(Settle(l, i))
  {
    var b, l' := l.branches[i], Settle(l, i);
    assert BranchOk(l, i);
    HeldCovered(l, i);
    SumsShift(l.branches, i, b.(state := Final));
    hide BranchesOk, Total;
    assert forall a :: Get(l'.locked, a) == Get(l.locked, a) - Held(b, a);
    assert forall a :: Get(l'.balances, a) == Get(l.balances, a) + Paid(b.(state := Final), a);
  }

  lemma FinalizeBooks(l: LedgerState, initial: map<Account, int>, i: nat)
    requires i < |l.branches| && BranchOk(l, i) && Accounted(l, initial)
    requires l.branches[i].state.Committed? && Overdue(l.branches[i], l.round)
    ensures Accounted(Settle(l, i), initial) && Settle(l, i).balances.Keys == l.balances.Keys
  {
    hide Sum, Total;
    var b, l' := l.branches[i], Settle(l, i);
    assert b.sender in l.balances && b.receiver in l.balances && b.sender != b.receiver;
    hide BranchOk;
    TransferConserves(l.balances, b.sender, b.receiver, b.value);
    SumsShift(l.branches, i, b.(state := Final));
    assert l'.branches == l.branches[i := b.(state := Final)] && l'.height == l.height + 1;
    assert l'.balances == Transfer(l.balances, b.sender, b.receiver, b.value) && |l'.finalized| == |l.finalized| + 1;
    hide Overdue, Settle;
    assert forall a :: Get(l'.balances, a) == Get(l.balances, a) + Paid(b.(state := Final), a);
    assert Sum(l'.balances) == Sum(initial);
    assert l'.balances.Keys == l.balances.Keys;
  }

  lemma FinalizeKeeps(l: LedgerState, initial: map<Account, int>, i: nat)
    requires Inv(l, initial) && i < |l.branches|
    requires l.branches[i].state.Committed? && Overdue(l.branches[i], l.round)
    ensures Inv(Settle(l, i), initial)
  {
    var l' := Settle(l, i);
    assert BranchOk(l, i);
    assert l'.round == l.round && l'.branches == l.branches[i := l.branches[i].(state := Final)]
           && l'.finalized == l.finalized + [Receipt(l.branches[i].id, l.branches[i].tx)];
    hide Settle, Overdue, Solvent, Accounted, ReceiptsExact, BranchesOk, BranchOk, HistoryOk, Chained;
    FinalizeSolvent(l, i);
    FinalizeBooks(l, initial, i);
    ReceiptAdded(l, l', i);
    FinalizeChain(l, i);
    FinalizeBranches(l, i);
  }

  lemma FinalizeChain(l: LedgerState, i: nat)
    requires HistoryOk(l) && Chained(l) && i < |l.branches| && BranchOk(l, i)
    requires l.branches[i].state.Committed? && Overdue(l.branches[i], l.round)
    ensures HistoryOk(Settle(l, i)) && Chained(Settle(l, i))
  {
    var l' := Settle(l, i);
    hide Overdue, Transfer, Unlock, HistoryOk;
    BlockKeepsChain(l, l', l'.digest);
  }

  lemma FinalizeBranches(l: LedgerState, i: nat)
    requires WellFormed(l) && i < |l.branches|
    requires l.branches[i].state.Committed? && Overdue(l.branches[i], l.round)
    ensures BranchesOk(Settle(l, i))
  {
    var l' := Settle(l, i);
    assert BranchOk(l, i);
    hide Solvent, BranchesOk, Overdue;
    assert l.height + 1 !in l.history;
    assert Grows(l, l');
    assert BranchOk(l', i);
    BranchesStay(l, l');
  }

  lemma RegisterFunds(l: LedgerState, l': LedgerState, initial: map<Account, int>, account: Account)
    requires Solvent(l) && Accounted(l, initial) && account !in l.balances
    requires l'.balances == l.balances[account := 0] && l'.locked == l.locked && l'.branches == l.branches
    requires l'.finalized == l.finalized && l'.height == l.height + 1
    ensures Solvent(l') && Accounted(l', initial)
  {
    hide Sum, Total;
    assert forall a :: Get(l'.balances, a) == Get(l.balances, a);
    assert Solvent(l') by { hide Accounted; }
    hide Solvent;
    SumUpdate(l.balances, account, 0);
    assert l'.balances.Keys == l.balances.Keys + {account};
  }

  lemma RegisterKeeps(l: LedgerState, initial: map<Account, int>, account: Account)
    requires Inv(l, initial) && DoRegister(l, account).Ok?
    ensures Inv(DoRegister(l, account).value, initial)
  {
    var l' := DoRegister(l, account).value;
    hide Solvent, Accounted, ReceiptsExact, BranchesOk, Registrable;
    hide Chained, HistoryOk;
    RegisterFunds(l, l', initial, account);
    ReceiptsSurvive(l, l');
    RegisterChain(l, account);
    BranchesStay(l, l');
  }

  lemma RegisterChain(l: LedgerState, account: Account)
    requires HistoryOk(l) && Chained(l) && DoRegister(l, account).Ok?
    ensures HistoryOk(DoRegister(l, account).value) && Chained(DoRegister(l, account).value)
    ensures forall h :: h in l.history ==>
              h in DoRegister(l, account).value.history && DoRegister(l, account).value.history[h] == l.history[h]
  {
    hide Registrable;
    BlockKeepsChain(l, DoRegister(l, account).value, DoRegister(l, account).value.digest);
  }

  lemma SettleKeeps(l: LedgerState, initial: map<Account, int>, i: nat)
    requires Inv(l, initial) && i < |l.branches|
    ensures Inv(Settle(l, i), initial)
    ensures forall j :: 0 <= j < |l.branches| && j != i ==> Settle(l, i).branches[j] == l.branches[j]
    ensures !Overdue(Settle(l, i).branches[i], l.round)
    ensures Settle(l, i).round == l.round && |Settle(l, i).branches| == |l.branches|
  {
    hide Inv;
    if Overdue(l.branches[i], l.round) {
      if l.branches[i].state.Committed? {
        FinalizeKeeps(l, initial, i);
      } else {
        CloseKeeps(l, initial, i, Expired);
      }
    }
  }

  lemma {:induction false} SettleFromKeeps(l: LedgerState, initial: map<Account, int>, i: nat)
    requires Inv(l, initial) && i <= |l.branches|
    requires forall j :: 0 <= j < i ==> !Overdue(l.branches[j], l.round)
    ensures Inv(SettleFrom(l, i).ledger, initial)
    ensures NothingOverdue(SettleFrom(l, i).ledger)
    ensures SettleFrom(l, i).ledger.round == l.round && |SettleFrom(l, i).ledger.branches| == |l.branches|
    decreases |l.branches| - i
  {
    hide Inv;
    if i < |l.branches| {
      SettleKeeps(l, initial, i);
      SettleFromKeeps(Settle(l, i), initial, i + 1);
    }
  }

  lemma RoundKeeps(l: LedgerState, initial: map<Account, int>)
    requires Inv(l, initial)
    ensures Inv(l.(round := l.round + 1), initial)
  {
    var l' := l.(round := l.round + 1);
    hide ReceiptsExact, BranchesOk;
    ReceiptsSurvive(l, l');
    BranchesStay(l, l');
  }

  lemma TickKeeps(l: LedgerState, initial: map<Account, int>)
    requires Inv(l, initial)
    ensures Inv(Tick(l).ledger, initial) && NothingOverdue(Tick(l).ledger)
    ensures Tick(l).ledger.round == l.round + 1 && |Tick(l).ledger.branches| == |l.branches|
  {
    hide Inv, NothingOverdue;
    RoundKeeps(l, initial);
    SettleFromKeeps(l.(round := l.round + 1), initial, 0);
  }

  lemma {:induction false} AdvanceKeeps(l: LedgerState, initial: map<Account, int>, rounds: nat)
    requires Inv(l, initial) && NothingOverdue(l)
    ensures Inv(AdvanceBy(l, rounds).ledger, initial) && NothingOverdue(AdvanceBy(l, rounds).ledger)
    ensures AdvanceBy(l, rounds).ledger.round == l.round + rounds
    ensures |AdvanceBy(l, rounds).ledger.branches| == |l.branches|
    decreases rounds
  {
    hide Inv, NothingOverdue;
    if rounds > 0 {
      TickKeeps(l, initial);
      AdvanceKeeps(Tick(l).ledger, initial, rounds - 1);
    }
  }

  /** A party's move on one live branch: only its state, rounds and commitment change. */
  lemma MoveKeeps(l: LedgerState, initial: map<Account, int>, op: Op)
    requires Inv(l, initial) && NothingOverdue(l)
    requires (op.Accept? || op.Commit?) && Execute(l, op).Ok?
    ensures Inv(Execute(l, op).value, initial) && NothingOverdue(Execute(l, op).value)
  {
    var i := Find(l.branches, op.branchId).value;
    assert BranchOk(l, i);
    ReplaceKeeps(l, initial, i, Execute(l, op).value.branches[i]);
  }

  lemma ExecuteKeeps(l: LedgerState, initial: map<Account, int>, op: Op)
    requires Inv(l, initial) && NothingOverdue(l)
    requires Execute(l, op).Ok?
    ensures Inv(Execute(l, op).value, initial) && NothingOverdue(Execute(l, op).value)
  {
    hide Inv, NothingOverdue, AdvanceBy, TryAdvance, DoOffer, DoCancel, DoRegister;
    if op.Accept? || op.Commit? {
      MoveKeeps(l, initial, op);
    } else if op.Offer? {
      OfferKeeps(l, initial, op.sender, op.receiver, op.value, op.ttl);
      OfferKeepsDeadlines(l, op.sender, op.receiver, op.value, op.ttl);
    } else if op.Cancel? {
      CancelKeeps(l, initial, op.branchId, op.actor);
    } else if op.Advance? {
      AdvanceKeeps(l, initial, op.rounds);
    } else {
      RegisterKeeps(l, initial, op.account);
      RegisterKeepsDeadlines(l, op.account);
    }
  }

  lemma OfferKeepsDeadlines(l: LedgerState, sender: Account, receiver: Account, value: int, ttl: int)
    requires NothingOverdue(l) && DoOffer(l, sender, receiver, value, ttl).Ok?
    ensures NothingOverdue(DoOffer(l, sender, receiver, value, ttl).value)
  {
  }

  lemma RegisterKeepsDeadlines(l: LedgerState, account: Account)
    requires NothingOverdue(l) && DoRegister(l, account).Ok?
    ensures NothingOverdue(DoRegister(l, account).value)
  {
    hide Registrable, Overdue;
  }

  lemma CancelKeeps(l: LedgerState, initial: map<Account, int>, id: BranchId, actor: Account)
    requires Inv(l, initial) && NothingOverdue(l) && DoCancel(l, id, actor).Ok?
    ensures Inv(DoCancel(l, id, actor).value, initial) && NothingOverdue(DoCancel(l, id, actor).value)
  {
    hide Inv, Unlock;
    CloseKeeps(l, initial, Find(l.branches, id).value, Cancelled);
  }

  /** Main result: the invariant holds after any sequence of calls, refused ones included. */
  lemma {:induction false} RunKeepsInvariant(genesis: Option<Genesis>, balances: map<Account, int>, ops: seq<Op>)
    requires Initial(genesis, balances)
    ensures Inv(Run(NewLedger(genesis, balances), ops), balances)
    ensures NothingOverdue(Run(NewLedger(genesis, balances), ops))
  {
    if ops == [] {
      NewLedgerInv(genesis, balances);
    } else {
      hide Inv, NothingOverdue;
      RunKeepsInvariant(genesis, balances, ops[..|ops| - 1]);
      var before := Run(NewLedger(genesis, balances), ops[..|ops| - 1]);
      if Execute(before, ops[|ops| - 1]).Ok? {
        ExecuteKeeps(before, balances, ops[|ops| - 1]);
      }
    }
  }
}
