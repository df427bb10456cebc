/** The mutable ledger object: each method is proved against the step functions. */
module LedgerObject {
  import opened Common
  import opened LedgerModel
  import opened LedgerInvariants
  import opened LedgerTheorems
  import opened Restore

  /** The dictionary entries that settling this one branch reads are there. */
  predicate EntryPresent(l: LedgerState, b: Branch) {
    b.Active() ==> b.sender in l.locked && (b.state.Committed? ==> b.sender in l.balances)
  }

  ghost predicate EntriesPresent(l: LedgerState) {
    forall i :: 0 <= i < |l.branches| ==> EntryPresent(l, l.branches[i])
  }

  /** No active branch would hit a missing dictionary entry or round when it settles. */
  ghost predicate Settleable(l: LedgerState) {
    EntriesPresent(l) && RoundsKnown(l)
  }

  lemma WellFormedSettles(l: LedgerState)
    requires BranchesOk(l)
    ensures Settleable(l)
  {
    InvariantKnowsRounds(l);
    forall i | 0 <= i < |l.branches|
      ensures EntryPresent(l, l.branches[i])
    {
      assert BranchOk(l, i);
    }
  }

  /** Settling adds entries at most, so those of the other branches stay. */
  lemma SettleKeepsEntries(l: LedgerState, i: nat)
    requires EntriesPresent(l) && i < |l.branches|
    ensures EntriesPresent(Settle(l, i)) && |Settle(l, i).branches| == |l.branches|
  {
    var l' := Settle(l, i);
    assert EntryPresent(l, l.branches[i]);
    forall j | 0 <= j < |l'.branches|
      ensures EntryPresent(l', l'.branches[j])
    {
      assert EntryPresent(l, l.branches[j]);
    }
  }

  /** Maps without zero entries are equal exactly when every lookup agrees. */
  lemma SameEntries(m: map<Account, int>, n: map<Account, int>)
    requires forall a :: a in m ==> m[a] != 0
    requires forall a :: a in n ==> n[a] != 0
    ensures m == n <==> forall a :: Get(m, a) == Get(n, a)
  {
    if forall a :: Get(m, a) == Get(n, a) {
      forall a
        ensures a in m <==> a in n
      {
        assert Get(m, a) == Get(n, a);
      }
      forall a | a in m
        ensures m[a] == n[a]
      {
        assert Get(m, a) == Get(n, a);
      }
    }
  }

  /** `sum(m.values())`, one value at a time. */
  method SumValues(m: map<Account, int>) returns (total: int)
    ensures total == Sum(m)
  {
    total := 0;
    var rest := m;
    while rest != map[]
      invariant total + Sum(rest) == Sum(m)
      decreases |rest|
    {
      var k :| k in rest;
      SumRemove(rest, k);
      total := total + rest[k];
      rest := rest - {k};
    }
  }

  lemma TryAdvanceNothing(l: LedgerState)
    ensures TryAdvance(l, 0) == Attempted(l, [], false)
  {
  }

  /** One round of an advance, and the rest of it. */
  lemma TryAdvanceStep(l: LedgerState, n: nat)
    requires n >= 1
    ensures var first := TrySettleFrom(l.(round := l.round + 1), 0);
            var rest := TryAdvance(first.ledger, n - 1);
            TryAdvance(l, n) == if first.failed then first else rest.(changed := first.changed + rest.changed)
  {
    hide TrySettleFrom;
  }

  class Ledger {
    const genesis: Option<Genesis>
    var round: int
    var balances: map<Account, int>
    var locked: map<Account, int>
    var branches: seq<Branch>
    var finalized: seq<Receipt>
    var height: int
    var digest: Digest
    var history: map<int, Digest>

    ghost function View(): LedgerState
      reads this
    {
      LedgerState(genesis, round, balances, locked, branches, finalized, height, digest, history)
    }

    constructor (genesis: Option<Genesis>, balances: map<Account, int>)
      ensures View() == NewLedger(genesis, balances)
    {
      var initial := if genesis.Some? then genesis.value.allocations else balances;
      this.genesis := genesis;
      round := 0;
      this.balances := initial;
      locked := map[];
      branches := [];
      finalized := [];
      height := 0;
      digest := GenesisDigest(genesis, initial);
      history := map[0 := GenesisDigest(genesis, initial)];
    }

    /** The checks a call of the constructor makes on its two optional arguments. */
    static method Create(balances: Option<map<Account, int>>, genesis: Option<Genesis>) returns (r: Outcome<Ledger>)
      ensures r.Err? <==> genesis.Some? && balances.Some? && balances.value != genesis.value.allocations
      ensures r.Ok? ==> fresh(r.value)
                        && r.value.View() == NewLedger(genesis, if balances.Some? then balances.value else map[])
    {
      if genesis.Some? && balances.Some? && balances.value != genesis.value.allocations {
        return Err("initial balances differ from genesis");
      }
      var l := new Ledger(genesis, if balances.Some? then balances.value else map[]);
      return Ok(l);
    }

    method RegisterAccount(account: Account) returns (r: Outcome<int>)
      modifies this
      ensures match DoRegister(old(View()), account)
              case Ok(l) => View() == l && r == Ok(l.height)
              case Err(e) => View() == old(View()) && r == Err(e)
    {
      if !Registrable(account) || account in balances {
        return Err("invalid or existing account");
      }
      balances := balances[account := 0];
      height := height + 1;
      digest := RegisterBlock(account, height, digest);
      history := history[height := digest];
      return Ok(height);
    }

    method Offer(sender: Account, receiver: Account, value: int, ttl: int) returns (r: Outcome<Branch>)
      modifies this
      ensures match DoOffer(old(View()), sender, receiver, value, ttl)
              case Ok(l) => View() == l && r == Ok(NewBranch(old(View()), sender, receiver, value, ttl))
              case Err(e) => View() == old(View()) && r == Err(e)
    {
      if genesis.Some? && sender in genesis.value.lockedAccounts {
        return Err("genesis locked account cannot offer");
      }
      if value <= 0 || ttl < FINALITY_ROUNDS {
        return Err("value must be positive and ttl must cover finality");
      }
      if sender == receiver {
        return Err("sender and receiver must differ");
      }
      if receiver !in balances {
        return Err("unknown receiver account");
      }
      if Get(balances, sender) - Get(locked, sender) < value * 2 {
        return Err("sender needs value plus equal branch stake");
      }
      var id := BranchId(|branches|, digest, height, receiver, round, sender, value);
      var branch := Branch(id, sender, receiver, value, value, round, round + ttl, height, digest,
                           Offered, None, None, None);
      branches := Put(branches, branch);
      locked := locked[sender := Get(locked, sender) + value * 2];
      return Ok(branch);
    }

    method Accept(id: BranchId, receiver: Account) returns (r: Outcome<Branch>)
      modifies this
      ensures match DoAccept(old(View()), id, receiver)
              case Ok(l) => View() == l && r.Ok? && r.value.id == id && r.value in l.branches
              case Err(e) => View() == old(View()) && r == Err(e)
    {
      var found := Find(branches, id);
      if found.None? { return Err("unknown branch"); }
      var b := branches[found.value];
      if b.state != Offered { return Err("invalid transition"); }
      if round >= b.expiresRound { return Err("branch expired"); }
      if receiver != b.receiver { return Err("only the named receiver can accept"); }
      b := b.(state := Accepted, acceptedRound := Some(round));
      branches := branches[found.value := b];
      assert branches[found.value] == b;
      return Ok(b);
    }

    method Commit(id: BranchId, sender: Account, payload: Payload) returns (r: Outcome<Branch>)
      modifies this
      ensures match DoCommit(old(View()), id, sender, payload)
              case Ok(l) => View() == l && r.Ok? && r.value.id == id && r.value in l.branches
              case Err(e) => View() == old(View()) && r == Err(e)
    {
      var found := Find(branches, id);
      if found.None? { return Err("unknown branch"); }
      var b := branches[found.value];
      if b.state != Accepted { return Err("invalid transition"); }
      if round >= b.expiresRound { return Err("branch expired"); }
      if sender != b.sender { return Err("only the sender can commit"); }
      b := b.(tx := Some(TxDigest(payload)), committedRound := Some(round), state := Committed);
      branches := branches[found.value := b];
      assert branches[found.value] == b;
      return Ok(b);
    }

    method Cancel(id: BranchId, actor: Account) returns (r: Outcome<Branch>)
      requires Find(branches, id).Some? ==> EntryPresent(View(), branches[Find(branches, id).value])
      modifies this
      ensures match DoCancel(old(View()), id, actor)
              case Ok(l) => View() == l && r.Ok? && r.value.id == id && r.value in l.branches
              case Err(e) => View() == old(View()) && r == Err(e)
    {
      var found := Find(branches, id);
      if found.None? { return Err("unknown branch"); }
      var b := branches[found.value];
      if !(b.state.Offered? || b.state.Accepted?) { return Err("invalid transition"); }
      if actor != b.sender && actor != b.receiver { return Err("only a participant can cancel"); }
      b := b.(state := Cancelled);
      branches := branches[found.value := b];
      assert branches[found.value] == b;
      locked := locked[b.sender := locked[b.sender] - (b.value + b.stake)];
      return Ok(b);
    }

    /** Moves the value, releases the lock and appends a block for branch `i`. */
    method Finalize(i: nat)
      requires i < |branches| && branches[i].state.Committed? && Overdue(branches[i], round)
      requires EntryPresent(View(), branches[i])
      modifies this
      ensures View() == Settle(old(View()), i)
    {
      var b := branches[i];
      ghost var was := View();
      assert Settle(was, i) == AppendBlock(
          was.(balances := Transfer(was.balances, b.sender, b.receiver, b.value), locked := Unlock(was.locked, b),
               branches := was.branches[i := b.(state := Final)], finalized := was.finalized + [Receipt(b.id, b.tx)]),
          TransferBlock(b.id, was.height + 1, was.digest, b.tx));
      hide Settle, Overdue;
      balances := balances[b.sender := balances[b.sender] - b.value];
      balances := balances[b.receiver := Get(balances, b.receiver) + b.value];
      locked := locked[b.sender := locked[b.sender] - (b.value + b.stake)];
      branches := branches[i := b.(state := Final)];
      finalized := finalized + [Receipt(b.id, b.tx)];
      height := height + 1;
      digest := TransferBlock(b.id, height, digest, b.tx);
      history := history[height := digest];
    }

    /** One visit of the inner loop; reports whether the branch changed, or fails and changes nothing. */
    method Visit(i: nat) returns (r: Outcome<bool>)
      requires i < |branches| && EntryPresent(View(), branches[i])
      modifies this
      ensures RoundMissing(old(branches[i])) ==> View() == old(View()) && r.Err?
      ensures !RoundMissing(old(branches[i])) ==>
                View() == Settle(old(View()), i) && r == Ok(Overdue(old(branches[i]), old(round)))
    {
      var b := branches[i];
      if b.state.Offered? || b.state.Accepted? {
        if round >= b.expiresRound {
          branches := branches[i := b.(state := Expired)];
          locked := locked[b.sender := locked[b.sender] - (b.value + b.stake)];
          return Ok(true);
        }
      } else if b.state.Committed? {
        if b.committedRound.None? { return Err("committed branch without a round"); }
        if round - b.committedRound.value >= FINALITY_ROUNDS {
          Finalize(i);
          return Ok(true);
        }
      }
      return Ok(false);
    }

    /** The body of the outer loop: the clock moves, then every branch is visited in order. */
    method AdvanceRound() returns (changed: seq<Branch>, failed: bool)
      requires EntriesPresent(View())
      modifies this
      ensures Attempted(View(), changed, failed) == TrySettleFrom(old(View()).(round := old(round) + 1), 0)
      ensures !failed ==> EntriesPresent(View())
    {
      round := round + 1;
      ghost var whole := TrySettleFrom(View(), 0);
      changed := [];
      var i := 0;
      assert [] + whole.changed == whole.changed;
      while i < |branches|
        invariant 0 <= i <= |branches|
        invariant EntriesPresent(View())
        invariant whole.ledger == TrySettleFrom(View(), i).ledger && whole.failed == TrySettleFrom(View(), i).failed
        invariant whole.changed == changed + TrySettleFrom(View(), i).changed
      {
        ghost var here := View();
        assert EntryPresent(View(), branches[i]);
        var hit := Visit(i);
        if hit.Err? {
          assert changed + [] == changed;
          return changed, true;
        }
        SettleKeepsEntries(here, i);
        ghost var rest := TrySettleFrom(View(), i + 1).changed;
        if hit.value {
          assert changed + ([branches[i]] + rest) == (changed + [branches[i]]) + rest;
          changed := changed + [branches[i]];
        } else {
          assert [] + rest == rest;
        }
        i := i + 1;
      }
      assert changed + TrySettleFrom(View(), i).changed == changed;
      return changed, false;
    }

    /** A failed visit leaves the ledger half advanced, as the source's assertion does. */
    method Advance(rounds: int) returns (r: Outcome<seq<Branch>>)
      requires EntriesPresent(View())
      modifies this
      ensures rounds < 1 ==> View() == old(View()) && r.Err?
      ensures rounds >= 1 ==>
                var t := TryAdvance(old(View()), rounds);
                View() == t.ledger && (t.failed ==> r.Err?) && (!t.failed ==> r == Ok(t.changed))
    {
      if rounds < 1 { return Err("rounds must be positive"); }
      hide EntriesPresent, TrySettleFrom, TryAdvance;
      var changed: seq<Branch> := [];
      ghost var whole := TryAdvance(View(), rounds);
      assert [] + whole.changed == whole.changed;
      for k := 0 to rounds
        invariant EntriesPresent(View())
        invariant whole.ledger == TryAdvance(View(), rounds - k).ledger
        invariant whole.failed == TryAdvance(View(), rounds - k).failed
        invariant whole.changed == changed + TryAdvance(View(), rounds - k).changed
      {
        TryAdvanceStep(View(), rounds - k);
        ghost var rest := TryAdvance(TrySettleFrom(View().(round := round + 1), 0).ledger, rounds - k - 1).changed;
        var hits, failed := AdvanceRound();
        if failed { return Err("committed branch without a round"); }
        assert changed + (hits + rest) == (changed + hits) + rest;
        changed := changed + hits;
      }
      TryAdvanceNothing(View());
      assert changed + [] == changed;
      return Ok(changed);
    }

    function Saved(): Snapshot
      reads this
      ensures Saved() == SnapshotOf(View())
    {
      Snapshot(LEDGER_SCHEMA, genesis, round, height, digest, balances, locked, branches, finalized, history)
    }

    /** The genesis rules of the validator: the first one broken, if any. */
    method RespectsGenesis() returns (fault: Option<string>)
      ensures fault == if genesis.Some? then NetworkFault(View(), genesis.value) else None
      ensures fault.None? <==> genesis.Some? ==> GenesisRespected(View(), genesis.value)
    {
      if genesis.None? { return None; }
      var g := genesis.value;
      var supply := SumValues(balances);
      var cap := SumValues(g.allocations);
      if !(0 in history && history[0] == ConfiguredGenesis(g)) { return Some("snapshot genesis digest mismatch"); }
      if supply != cap { return Some("snapshot violates genesis supply"); }
      if exists a | a in g.allocations ::
           a in g.lockedAccounts && !(a in balances && balances[a] == g.allocations[a])
      {
        return Some("snapshot changed locked reserve");
      }
      if exists i | 0 <= i < |branches| :: branches[i].sender in g.lockedAccounts {
        return Some("locked reserve appears in branch history");
      }
      return None;
    }

    /** The lock totals the active branches account for, or the fault of the first bad branch. */
    method ExpectedLocks() returns (r: Outcome<map<Account, int>>)
      ensures BranchesFault(View(), |branches|) == if r.Ok? then None else Some(r.reason)
      ensures r.Err? <==> exists i :: 0 <= i < |branches| && !BranchAcceptable(View(), branches[i])
      ensures r.Ok? ==> forall a :: Get(r.value, a) == Total(branches, HeldFor(a))
      ensures r.Ok? ==> forall a :: a in r.value ==> r.value[a] > 0
    {
      var expected: map<Account, int> := map[];
      BranchesFaultIff(View(), |branches|);
      for i := 0 to |branches|
        invariant BranchesFault(View(), i).None?
        invariant forall a :: Get(expected, a) == Total(branches[..i], HeldFor(a))
        invariant forall a :: a in expected ==> expected[a] > 0
      {
        var b := branches[i];
        assert b == View().branches[i] && BranchesFault(View(), i + 1) == BranchFault(View(), b);
        if b.value <= 0 || b.stake != b.value {
          FaultStays(View(), i + 1, |branches|);
          return Err("snapshot violates equal branch stake");
        }
        if !(b.originHeight in history && history[b.originHeight] == b.originDigest) {
          FaultStays(View(), i + 1, |branches|);
          return Err("branch origin is not canonical");
        }
        assert branches[..i + 1] == branches[..i] + [b];
        forall a
          ensures Total(branches[..i + 1], HeldFor(a)) == Total(branches[..i], HeldFor(a)) + Held(b, a)
        {
          TotalAppend(branches[..i], b, HeldFor(a));
        }
        if b.Active() {
          expected := expected[b.sender := Get(expected, b.sender) + b.value + b.stake];
        }
      }
      assert branches[..|branches|] == branches;
      return Ok(expected);
    }

    /** Compares the recorded locks, zero entries aside, with those the branches account for. */
    method LocksMatch() returns (fault: Option<string>)
      ensures fault == if BranchesFault(View(), |branches|).Some? then BranchesFault(View(), |branches|)
                       else if exists a :: Get(locked, a) != Total(branches, HeldFor(a))
                       then Some("snapshot locked funds do not match active branches") else None
      ensures fault.None? <==> && (forall i :: 0 <= i < |branches| ==> BranchAcceptable(View(), branches[i]))
                               && (forall a :: Get(locked, a) == Total(branches, HeldFor(a)))
    {
      var expected := ExpectedLocks();
      if expected.Err? { return Some(expected.reason); }
      hide Total, BranchesFault;
      var actual := map a | a in locked && locked[a] != 0 :: locked[a];
      assert forall a :: Get(actual, a) == Get(locked, a);
      SameEntries(expected.value, actual);
      if expected.value != actual { return Some("snapshot locked funds do not match active branches"); }
      return None;
    }

    /** `_validate_restored_state`: the first test the ledger fails, if any. */
    method Validate() returns (fault: Option<string>)
      ensures fault == Fault(View())
      ensures fault.None? <==> Acceptable(View())
    {
      FaultIff(View());
      hide Total, GenesisRespected, NetworkFault, BranchesFault, Acceptable;
      var network := RespectsGenesis();
      if network.Some? { return network; }
      if round < 0 || height < 0 { return Some("negative snapshot counter"); }
      if !(height in history && history[height] == digest) {
        return Some("canonical head is not present in history");
      }
      if exists a | a in balances :: balances[a] < 0 { return Some("snapshot contains a negative balance"); }
      var locks := LocksMatch();
      if locks.Some? { return locks; }
      if exists a | a in balances.Keys + locked.Keys :: Get(balances, a) - Get(locked, a) < 0 {
        return Some("snapshot over-locks an account");
      }
      return None;
    }

    /** The checks of `GenesisConfig.from_dict` on network id, supply, allocations and locked accounts. */
    static method CheckGenesis(g: Genesis) returns (fault: Option<string>)
      ensures fault == GenesisFault(g)
      ensures fault.None? <==> GenesisValid(g)
    {
      var supply := SumValues(g.allocations);
      if !NetworkIdOk(g.networkId) { return Some("invalid network id"); }
      if g.maxSupply <= 0 || g.allocations == map[] { return Some("invalid genesis supply"); }
      if (exists a | a in g.allocations :: a == "" || g.allocations[a] < 0) || supply > g.maxSupply {
        return Some("invalid genesis allocation");
      }
      if !(g.lockedAccounts <= g.allocations.Keys) { return Some("invalid locked accounts"); }
      return None;
    }

    /** Overwrites every field from the document, branch by branch. */
    method Load(s: Snapshot)
      requires genesis == s.genesis
      modifies this
      ensures View() == Loaded(s)
    {
      balances := s.balances;
      round := s.round;
      height := s.headHeight;
      digest := s.headDigest;
      locked := s.locked;
      finalized := s.finalized;
      history := s.history;
      branches := [];
      for i := 0 to |s.branches|
        invariant View() == Loaded(s).(branches := Collapse(s.branches[..i]))
      {
        assert s.branches[..i + 1][..i] == s.branches[..i];
        branches := Put(branches, s.branches[i]);
      }
      assert s.branches[..|s.branches|] == s.branches;
    }

    /** `Ledger.from_snapshot`: load, then recheck every invariant before handing it out. */
    static method Restored(s: Snapshot, expected: Option<Genesis>) returns (r: Outcome<Ledger>)
      ensures match FromSnapshot(s, expected)
              case Ok(l) => r.Ok? && fresh(r.value) && r.value.View() == l
              case Err(reason) => r == Err(reason)
    {
      hide Acceptable, GenesisValid, Loaded, Fault, GenesisFault;
      if s.schema != LEDGER_SCHEMA { return Err("unsupported ledger snapshot schema"); }
      if s.genesis.Some? {
        var fault := CheckGenesis(s.genesis.value);
        if fault.Some? { return Err(fault.value); }
      }
      if expected.Some? && s.genesis != expected {
        return Err("snapshot genesis differs from configured network");
      }
      var l := new Ledger(s.genesis, s.balances);
      l.Load(s);
      var fault := l.Validate();
      if fault.Some? { return Err(fault.value); }
      return Ok(l);
    }
  }
}
