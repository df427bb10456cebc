/** Saving an accepted ledger again after further calls: when the validator still accepts it. */
module Reload {
  import opened Common
  import opened LedgerModel
  import opened LedgerInvariants
  import opened LedgerTheorems
  import opened Restore
  import opened RestoreFuture

  /** The ledger's own snapshot is accepted under its own genesis and gives that very ledger back. */
  ghost predicate Reloads(l: LedgerState) {
    FromSnapshot(SnapshotOf(l), l.genesis) == Ok(l)
  }

  // ----- What a call pays and which blocks it appends -----

  predicate ComesDue(b: Branch, round: int) {
    b.state.Committed? && Overdue(b, round)
  }

  /** The commitments that are due in a round, in the order the round visits them. */
  function Due(bs: seq<Branch>, round: int): seq<Branch> {
    if bs == [] then [] else (if ComesDue(bs[0], round) then [bs[0]] else []) + Due(bs[1..], round)
  }

  /** The branches after one round's deadlines. */
  function Aged(bs: seq<Branch>, round: int): seq<Branch> {
    seq(|bs|, i requires 0 <= i < |bs| => bs[i].(state := StateAt(bs[i], round)))
  }

  /** The commitments that come due over `n` rounds, in the order they are paid. */
  function DueOver(bs: seq<Branch>, round: int, n: nat): seq<Branch>
    decreases n
  {
    if n == 0 then [] else Due(bs, round + 1) + DueOver(Aged(bs, round + 1), round + 1, n - 1)
  }

  /** The blocks that paying these branches chains onto a head. */
  function Chain(height: int, parent: Digest, due: seq<Branch>): (blocks: seq<Digest>)
    ensures |blocks| == |due|
    decreases due
  {
    if due == [] then []
    else
      var block := TransferBlock(due[0].id, height + 1, parent, due[0].tx);
      [block] + Chain(height + 1, block, due[1..])
  }

  function PaymentsOf(l: LedgerState, op: Op): seq<Branch> {
    if op.Advance? && op.rounds >= 1 then DueOver(l.branches, l.round, op.rounds) else []
  }

  function BlocksOf(l: LedgerState, op: Op): seq<Digest> {
    if op.Register? then [RegisterBlock(op.account, l.height + 1, l.digest)]
    else Chain(l.height, l.digest, PaymentsOf(l, op))
  }

  /** What paying these branches adds to (or takes from) an account. */
  function Net(due: seq<Branch>, a: Account): int {
    if due == [] then 0
    else (if due[0].receiver == a then due[0].value else 0) - (if due[0].sender == a then due[0].value else 0)
         + Net(due[1..], a)
  }

  function Tip(parent: Digest, blocks: seq<Digest>): Digest {
    if blocks == [] then parent else blocks[|blocks| - 1]
  }

  /** The head has moved on by exactly these blocks; older entries at their heights are replaced. */
  ghost predicate Appends(l: LedgerState, l': LedgerState, blocks: seq<Digest>) {
    && l'.height == l.height + |blocks| && l'.digest == Tip(l.digest, blocks)
    && (forall h :: h in l'.history <==> h in l.history || l.height < h <= l'.height)
    && (forall h :: h in l'.history ==>
          l'.history[h] == if l.height < h <= l'.height then blocks[h - l.height - 1] else l.history[h])
  }

  ghost predicate Pays(l: LedgerState, l': LedgerState, due: seq<Branch>) {
    && l.balances.Keys <= l'.balances.Keys
    && forall a :: Get(l'.balances, a) == Get(l.balances, a) + Net(due, a)
  }

  /** `l'` is `l` with these commitments paid and recorded. */
  ghost predicate Settles(l: LedgerState, l': LedgerState, due: seq<Branch>) {
    Pays(l, l', due) && Appends(l, l', Chain(l.height, l.digest, due)) && l'.genesis == l.genesis
  }

  lemma {:induction false} NetJoin(d1: seq<Branch>, d2: seq<Branch>, a: Account)
    ensures Net(d1 + d2, a) == Net(d1, a) + Net(d2, a)
  {
    if d1 == [] {
      assert d1 + d2 == d2;
    } else {
      assert (d1 + d2)[0] == d1[0] && (d1 + d2)[1..] == d1[1..] + d2;
      NetJoin(d1[1..], d2, a);
    }
  }

  lemma {:induction false} ChainJoin(height: int, parent: Digest, d1: seq<Branch>, d2: seq<Branch>)
    ensures var first := Chain(height, parent, d1);
            Chain(height, parent, d1 + d2) == first + Chain(height + |d1|, Tip(parent, first), d2)
    decreases d1
  {
    if d1 == [] {
      assert d1 + d2 == d2;
    } else {
      var block := TransferBlock(d1[0].id, height + 1, parent, d1[0].tx);
      assert (d1 + d2)[0] == d1[0] && (d1 + d2)[1..] == d1[1..] + d2;
      ChainJoin(height + 1, block, d1[1..], d2);
    }
  }

  lemma AppendsJoin(l: LedgerState, m: LedgerState, n: LedgerState, b1: seq<Digest>, b2: seq<Digest>)
    requires Appends(l, m, b1) && Appends(m, n, b2)
    ensures Appends(l, n, b1 + b2)
  {
  }

  lemma SettlesJoin(l: LedgerState, m: LedgerState, n: LedgerState, d1: seq<Branch>, d2: seq<Branch>)
    requires Settles(l, m, d1) && Settles(m, n, d2)
    ensures Settles(l, n, d1 + d2)
  {
    forall a
      ensures Get(n.balances, a) == Get(l.balances, a) + Net(d1 + d2, a)
    {
      NetJoin(d1, d2, a);
    }
    hide Net;
    ChainJoin(l.height, l.digest, d1, d2);
    assert m.height == l.height + |d1|;
    AppendsJoin(l, m, n, Chain(l.height, l.digest, d1), Chain(m.height, m.digest, d2));
    hide Chain, Appends;
  }

  lemma SettlesNothing(l: LedgerState, l': LedgerState)
    requires l'.balances == l.balances && l'.genesis == l.genesis
    requires l'.height == l.height && l'.digest == l.digest && l'.history == l.history
    ensures Settles(l, l', [])
  {
  }

  lemma SettleSettles(l: LedgerState, i: nat)
    requires i < |l.branches|
    ensures Settles(l, Settle(l, i), if ComesDue(l.branches[i], l.round) then [l.branches[i]] else [])
  {
    var b, l' := l.branches[i], Settle(l, i);
    if ComesDue(b, l.round) {
      var block := TransferBlock(b.id, l.height + 1, l.digest, b.tx);
      assert Chain(l.height, l.digest, [b]) == [block];
      TransferBalances(l.balances, b.sender, b.receiver, b.value);
      assert forall a ::
        Net([b], a) == (if b.receiver == a then b.value else 0) - (if b.sender == a then b.value else 0);
      hide Sum;
      assert Pays(l, l', [b]);
      hide Pays, Transfer, Net;
      assert Appends(l, l', [block]);
    } else {
      SettlesNothing(l, l');
    }
  }

  lemma {:induction false} SettleFromSettles(l: LedgerState, i: nat)
    requires i <= |l.branches|
    ensures Settles(l, SettleFrom(l, i).ledger, Due(l.branches[i..], l.round))
    decreases |l.branches| - i
  {
    if i < |l.branches| {
      var l' := Settle(l, i);
      SettleSettles(l, i);
      assert l'.branches[i + 1..] == l.branches[i..][1..] && l'.round == l.round;
      hide Settles, Settle;
      SettleFromSettles(l', i + 1);
      var d1 := if ComesDue(l.branches[i], l.round) then [l.branches[i]] else [];
      SettlesJoin(l, l', SettleFrom(l', i + 1).ledger, d1, Due(l'.branches[i + 1..], l.round));
    } else {
      SettlesNothing(l, l);
    }
  }

  lemma TickSettles(l: LedgerState)
    ensures Settles(l, Tick(l).ledger, Due(l.branches, l.round + 1))
    ensures Tick(l).ledger.branches == Aged(l.branches, l.round + 1) && Tick(l).ledger.round == l.round + 1
  {
    var ticked := l.(round := l.round + 1);
    SettlesNothing(l, ticked);
    hide Settles;
    SettleFromSettles(ticked, 0);
    assert ticked.branches[0..] == l.branches;
    SettleFromStates(ticked, 0);
    hide SettleFrom;
    SettlesJoin(l, ticked, Tick(l).ledger, [], Due(l.branches, l.round + 1));
    assert [] + Due(l.branches, l.round + 1) == Due(l.branches, l.round + 1);
  }

  /**
   The whole effect of an advance, whatever ledger it starts from: every branch is moved by its
   own deadline, and the commitments that came due are paid and chained in order.
   */
  lemma {:induction false} AdvanceSettles(l: LedgerState, n: nat)
    ensures var t := AdvanceBy(l, n).ledger;
            Settles(l, t, DueOver(l.branches, l.round, n)) && t.round == l.round + n
    decreases n
  {
    hide Settles, Tick, Due, Aged;
    if n == 0 {
      SettlesNothing(l, l);
    } else {
      var t := Tick(l).ledger;
      TickSettles(l);
      AdvanceSettles(t, n - 1);
      SettlesJoin(l, t, AdvanceBy(t, n - 1).ledger, Due(l.branches, l.round + 1),
                  DueOver(t.branches, t.round, n - 1));
    }
  }

  // ----- Which payments those are -----

  lemma {:induction false} DueIs(bs: seq<Branch>, round: int, b: Branch)
    ensures b in Due(bs, round) <==> b in bs && ComesDue(b, round)
  {
    if bs != [] {
      DueIs(bs[1..], round, b);
      assert bs == [bs[0]] + bs[1..];
    }
  }

  lemma AgedCommitments(bs: seq<Branch>, round: int, b: Branch)
    requires b.state.Committed?
    ensures b in Aged(bs, round) <==> b in bs && !Overdue(b, round)
  {
    if b in Aged(bs, round) {
      var i :| 0 <= i < |bs| && Aged(bs, round)[i] == b;
      assert b == bs[i];
    }
    if b in bs && !Overdue(b, round) {
      var i :| 0 <= i < |bs| && bs[i] == b;
      assert Aged(bs, round)[i] == b;
    }
  }

  /** What an advance pays: the commitments whose three rounds are over when it ends. */
  lemma {:induction false} DueOverIs(bs: seq<Branch>, round: int, n: nat, b: Branch)
    requires n >= 1
    ensures b in DueOver(bs, round, n) <==> b in bs && ComesDue(b, round + n)
    decreases n
  {
    DueIs(bs, round + 1, b);
    if n > 1 {
      DueOverIs(Aged(bs, round + 1), round + 1, n - 1, b);
      if b.state.Committed? {
        AgedCommitments(bs, round + 1, b);
      }
    }
  }

  // ----- What the validator looks at, call by call -----

  /** The exact effect of any accepted call on the head and the balances. */
  lemma ExecuteSettles(l: LedgerState, op: Op)
    requires Execute(l, op).Ok?
    ensures var l' := Execute(l, op).value;
            && Pays(l, l', PaymentsOf(l, op)) && Appends(l, l', BlocksOf(l, op))
            && l'.genesis == l.genesis && l.round <= l'.round
  {
    if op.Advance? {
      AdvanceSettles(l, op.rounds);
      hide AdvanceBy, TryAdvance, DueOver, Pays, Appends, Chain;
    } else if !op.Register? {
      SettlesNothing(l, Execute(l, op).value);
    }
  }

  /** What the validator reads of a branch, apart from whether it is active. */
  predicate SameTerms(b: Branch, b': Branch) {
    && b'.id == b.id && b'.sender == b.sender && b'.value == b.value && b'.stake == b.stake
    && b'.originHeight == b.originHeight && b'.originDigest == b.originDigest
  }

  /** Each branch is where it was, on the same terms, except the one a call offers. */
  ghost predicate KeepsTerms(l: LedgerState, l': LedgerState, offered: Option<Branch>) {
    forall i :: 0 <= i < |l'.branches| ==>
      || (i < |l.branches| && SameTerms(l.branches[i], l'.branches[i]))
      || offered == Some(l'.branches[i])
  }

  function OfferedBy(l: LedgerState, op: Op): Option<Branch> {
    if op.Offer? then Some(NewBranch(l, op.sender, op.receiver, op.value, op.ttl)) else None
  }

  lemma {:induction false} AdvanceKeepsTerms(l: LedgerState, n: nat)
    ensures |AdvanceBy(l, n).ledger.branches| == |l.branches|
    ensures KeepsTerms(l, AdvanceBy(l, n).ledger, None)
    decreases n
  {
    if n > 0 {
      SettleFromStates(l.(round := l.round + 1), 0);
      AdvanceKeepsTerms(Tick(l).ledger, n - 1);
    }
  }

  lemma ExecuteKeepsTerms(l: LedgerState, op: Op)
    requires Execute(l, op).Ok?
    ensures var l' := Execute(l, op).value;
            KeepsTerms(l, l', OfferedBy(l, op)) && (!op.Offer? ==> |l'.branches| == |l.branches|)
  {
    if op.Advance? {
      AdvanceKeepsTerms(l, op.rounds);
      hide KeepsTerms, AdvanceBy, TryAdvance;
    }
  }

  // ----- The validator's conditions, taken apart -----

  ghost predicate OriginsKnown(l: LedgerState) {
    forall i :: 0 <= i < |l.branches| ==>
      l.branches[i].originHeight in l.history && l.history[l.branches[i].originHeight] == l.branches[i].originDigest
  }

  ghost predicate ReserveIntact(l: LedgerState) {
    l.genesis.Some? ==> ReserveKept(l, l.genesis.value)
  }

  /** Locked accounts have their allocations, or more. */
  ghost predicate ReserveCovered(l: LedgerState) {
    l.genesis.Some? ==>
      forall a :: a in l.genesis.value.lockedAccounts && a in l.genesis.value.allocations ==>
        a in l.balances && l.balances[a] >= l.genesis.value.allocations[a]
  }

  ghost predicate GenesisRules(l: LedgerState) {
    l.genesis.Some? ==>
      var g := l.genesis.value;
      && GenesisValid(g)
      && 0 in l.history && l.history[0] == ConfiguredGenesis(g)
      && Sum(l.balances) == Sum(g.allocations)
      && (forall i :: 0 <= i < |l.branches| ==> l.branches[i].sender !in g.lockedAccounts)
  }

  /** Everything the validator demands but the branch origins and the reserve, and the reserve not short. */
  ghost predicate Base(l: LedgerState) {
    && Funded(l) && GenesisRules(l) && l.round >= 0
    && l.height >= 0 && l.height in l.history && l.history[l.height] == l.digest
    && ReserveCovered(l)
  }

  lemma ReloadsParts(l: LedgerState)
    requires Funded(l)
    ensures Acceptable(l) && (l.genesis.Some? ==> GenesisValid(l.genesis.value))
            <==> Base(l) && OriginsKnown(l) && ReserveIntact(l)
  {
    hide Total, Sum, DistinctIds;
  }

  /** Acceptance under the ledger's own genesis, or under none, is the same thing. */
  lemma ReloadsIff(l: LedgerState)
    requires DistinctIds(l.branches)
    ensures Reloads(l) <==> Acceptable(l) && (l.genesis.Some? ==> GenesisValid(l.genesis.value))
    ensures FromSnapshot(SnapshotOf(l), None) == FromSnapshot(SnapshotOf(l), l.genesis)
    ensures !Reloads(l) ==> FromSnapshot(SnapshotOf(l), None).Err?
  {
    CollapseDistinct(l.branches);
    assert Loaded(SnapshotOf(l)) == l;
    hide Acceptable, GenesisValid, DistinctIds;
  }

  lemma ReloadsGives(l: LedgerState)
    requires Reloads(l)
    ensures Base(l) && OriginsKnown(l) && ReserveIntact(l)
  {
    AcceptedIsFunded(SnapshotOf(l), l.genesis);
    ReloadsIff(l);
    ReloadsParts(l);
    hide FromSnapshot, Acceptable, Base, OriginsKnown, ReserveIntact;
  }

  lemma ReloadsFrom(l: LedgerState)
    requires Base(l)
    ensures Reloads(l) <==> OriginsKnown(l) && ReserveIntact(l)
  {
    ReloadsIff(l);
    ReloadsParts(l);
    hide FromSnapshot, Acceptable, OriginsKnown, ReserveIntact, GenesisRules;
  }

  // ----- One call -----

  /** Every branch that claims to start at one of these coming blocks names that very block. */
  ghost predicate OriginsAllow(l: LedgerState, blocks: seq<Digest>) {
    forall i :: 0 <= i < |l.branches| && l.height < l.branches[i].originHeight <= l.height + |blocks| ==>
      l.branches[i].originDigest == blocks[l.branches[i].originHeight - l.height - 1]
  }

  /** The call lasts until a commitment to a genesis-locked account has its three rounds. */
  ghost predicate PaysReserve(l: LedgerState, op: Op) {
    && op.Advance? && l.genesis.Some?
    && exists i :: 0 <= i < |l.branches| && ComesDue(l.branches[i], l.round + op.rounds)
                   && l.branches[i].receiver in l.genesis.value.lockedAccounts
  }

  lemma {:induction false} NetReserve(due: seq<Branch>, a: Account)
    requires forall b :: b in due ==> b.value > 0 && b.sender != a
    ensures Net(due, a) >= 0
    ensures Net(due, a) == 0 <==> forall b :: b in due ==> b.receiver != a
  {
    if due != [] {
      assert due[0] in due && forall b :: b in due[1..] ==> b in due;
      NetReserve(due[1..], a);
      assert forall b :: b in due ==> b == due[0] || b in due[1..];
    }
  }

  lemma PaymentsAre(l: LedgerState, op: Op, b: Branch)
    ensures b in PaymentsOf(l, op) <==>
              op.Advance? && op.rounds >= 1 && b in l.branches && ComesDue(b, l.round + op.rounds)
  {
    if op.Advance? && op.rounds >= 1 {
      DueOverIs(l.branches, l.round, op.rounds, b);
    }
  }

  /** One locked account: a call can only add to it, and does so exactly by a payment to it. */
  lemma AccountStep(l: LedgerState, op: Op, a: Account)
    requires Base(l) && Execute(l, op).Ok? && l.genesis.Some? && a in l.genesis.value.lockedAccounts
    ensures Net(PaymentsOf(l, op), a) >= 0
    ensures Net(PaymentsOf(l, op), a) == 0 <==>
              !(op.Advance? && exists i :: 0 <= i < |l.branches| && ComesDue(l.branches[i], l.round + op.rounds)
                                           && l.branches[i].receiver == a)
  {
    forall b | b in PaymentsOf(l, op)
      ensures b.value > 0 && b.sender != a && b in l.branches && op.Advance? && ComesDue(b, l.round + op.rounds)
    {
      PaymentsAre(l, op, b);
    }
    NetReserve(PaymentsOf(l, op), a);
    hide Net, PaymentsOf, Base;
    if op.Advance? && exists i :: 0 <= i < |l.branches| && ComesDue(l.branches[i], l.round + op.rounds)
                                  && l.branches[i].receiver == a {
      var i :| 0 <= i < |l.branches| && ComesDue(l.branches[i], l.round + op.rounds) && l.branches[i].receiver == a;
      PaymentsAre(l, op, l.branches[i]);
    }
  }

  lemma ReserveStep(l: LedgerState, op: Op)
    requires Base(l) && Execute(l, op).Ok?
    ensures ReserveCovered(Execute(l, op).value)
    ensures ReserveIntact(Execute(l, op).value) <==> ReserveIntact(l) && !PaysReserve(l, op)
  {
    hide Execute, PaymentsOf, BlocksOf, Appends, Funded, Sum, Net, ComesDue;
    var l' := Execute(l, op).value;
    ExecuteSettles(l, op);
    assert ReserveCovered(l);
    assert l.genesis.Some? ==> l.genesis.value.lockedAccounts <= l.genesis.value.allocations.Keys;
    if l.genesis.Some? {
      var locked := l.genesis.value.lockedAccounts;
      forall a | a in locked
        ensures Net(PaymentsOf(l, op), a) >= 0
        ensures Net(PaymentsOf(l, op), a) == 0 <==>
                  !(op.Advance? && exists i :: 0 <= i < |l.branches| && ComesDue(l.branches[i], l.round + op.rounds)
                                               && l.branches[i].receiver == a)
        ensures a in l'.balances && l'.balances[a] == l.balances[a] + Net(PaymentsOf(l, op), a)
      {
        AccountStep(l, op, a);
        assert Get(l'.balances, a) == Get(l.balances, a) + Net(PaymentsOf(l, op), a);
      }
    }
    hide Base, Pays;
  }

  lemma SendersStep(l: LedgerState, op: Op)
    requires Execute(l, op).Ok? && GenesisRules(l)
    ensures l.genesis.Some? ==>
              forall i :: 0 <= i < |Execute(l, op).value.branches| ==>
                Execute(l, op).value.branches[i].sender !in l.genesis.value.lockedAccounts
  {
    ExecuteKeepsTerms(l, op);
    if op.Offer? {
      assert l.genesis.Some? ==> OfferedBy(l, op).value.sender !in l.genesis.value.lockedAccounts;
    }
    hide Execute, OfferedBy, GenesisValid, Sum;
  }

  lemma BaseStep(l: LedgerState, op: Op)
    requires Base(l) && Execute(l, op).Ok? && !OverwritesActive(l, op)
    ensures Base(Execute(l, op).value)
  {
    hide Funded, Sum, Execute, OverwritesActive, ReserveCovered, ReserveIntact, Pays, BlocksOf, PaymentsOf;
    hide GenesisValid;
    ExecuteSettles(l, op);
    ExecuteKeepsFunded(l, op);
    ReserveStep(l, op);
    SendersStep(l, op);
  }

  lemma OriginsStep(l: LedgerState, op: Op)
    requires Base(l) && OriginsKnown(l) && Execute(l, op).Ok?
    ensures OriginsKnown(Execute(l, op).value) <==> OriginsAllow(l, BlocksOf(l, op))
  {
    hide Execute, Pays, Funded, GenesisRules, ReserveCovered;
    var l' := Execute(l, op).value;
    ExecuteSettles(l, op);
    ExecuteKeepsTerms(l, op);
    if op.Offer? {
      assert OfferedBy(l, op).value.originHeight == l.height && OfferedBy(l, op).value.originDigest == l.digest;
      assert BlocksOf(l, op) == [];
    }
    hide Base, BlocksOf, PaymentsOf, OfferedBy;
    if OriginsKnown(l') && !op.Offer? {
      forall i | 0 <= i < |l.branches| && l.height < l.branches[i].originHeight <= l.height + |BlocksOf(l, op)|
        ensures l.branches[i].originDigest == BlocksOf(l, op)[l.branches[i].originHeight - l.height - 1]
      {
        assert SameTerms(l.branches[i], l'.branches[i]);
      }
    }
  }

  /** A call that may be made without losing the right to restart. */
  ghost predicate KeepsReloading(l: LedgerState, op: Op) {
    !OverwritesActive(l, op) && OriginsAllow(l, BlocksOf(l, op)) && !PaysReserve(l, op)
  }

  lemma OverwritingIsFatal(l: LedgerState, op: Op)
    requires Funded(l) && Execute(l, op).Ok? && OverwritesActive(l, op)
    ensures !Reloads(Execute(l, op).value)
  {
    var l' := Execute(l, op).value;
    OfferSolventIff(l, op);
    if Reloads(l') {
      AcceptedIsSolvent(SnapshotOf(l'), l'.genesis);
    }
  }

  /**
   After a call that succeeds, an accepted state is still accepted if and only if the call does
   not overwrite an active branch, does not put a block where a branch claims another one as
   its origin, and does not bring a payment to a genesis-locked account to its end.
   */
  lemma StillReloadsIff(l: LedgerState, op: Op)
    requires Reloads(l) && Execute(l, op).Ok?
    ensures Reloads(Execute(l, op).value) <==> KeepsReloading(l, op)
  {
    ReloadsGives(l);
    hide Reloads, Execute;
    if OverwritesActive(l, op) {
      OverwritingIsFatal(l, op);
    } else {
      BaseStep(l, op);
      OriginsStep(l, op);
      ReserveStep(l, op);
      ReloadsFrom(Execute(l, op).value);
    }
    hide Base, OriginsKnown, ReserveIntact, PaysReserve, OriginsAllow, BlocksOf, OverwritesActive;
  }

  /** Whatever is restored can be saved again as it is. */
  lemma AcceptedReloads(s: Snapshot, expected: Option<Genesis>)
    requires FromSnapshot(s, expected).Ok?
    ensures Reloads(FromSnapshot(s, expected).value)
  {
    AcceptedIsFunded(s, expected);
    ReloadsIff(Loaded(s));
    hide Acceptable, GenesisValid, Collapse;
  }

  // ----- Runs -----

  ghost predicate OriginsBelow(l: LedgerState) {
    forall i :: 0 <= i < |l.branches| ==> l.branches[i].originHeight <= l.height
  }

  ghost predicate NeverPaysReserve(l: LedgerState, ops: seq<Op>) {
    forall k :: 0 <= k < |ops| ==>
      Execute(Run(l, ops[..k]), ops[k]).Ok? ==> !PaysReserve(Run(l, ops[..k]), ops[k])
  }

  lemma OriginsBelowStep(l: LedgerState, op: Op)
    requires OriginsBelow(l) && Execute(l, op).Ok?
    ensures OriginsBelow(Execute(l, op).value) && OriginsAllow(l, BlocksOf(l, op))
  {
    hide Execute, Pays, PaymentsOf;
    var l' := Execute(l, op).value;
    ExecuteSettles(l, op);
    ExecuteKeepsTerms(l, op);
    if op.Offer? {
      assert OfferedBy(l, op).value.originHeight == l.height;
    }
    hide BlocksOf, OfferedBy;
  }

  lemma {:induction false} RunStays(l: LedgerState, ops: seq<Op>)
    requires Reloads(l) && RoundsKnown(l) && OriginsBelow(l) && NeverOverwrites(l, ops)
    ensures var t := Run(l, ops);
            && Base(t) && OriginsKnown(t) && RoundsKnown(t) && OriginsBelow(t)
            && (ReserveIntact(t) <==> NeverPaysReserve(l, ops))
  {
    hide Reloads, RoundsKnown, OriginsBelow, Base, OriginsKnown, ReserveIntact, Execute, OverwritesActive, PaysReserve;
    if ops == [] {
      ReloadsGives(l);
    } else {
      var front, op := ops[..|ops| - 1], ops[|ops| - 1];
      assert forall k :: 0 <= k < |front| ==> front[..k] == ops[..k] && front[k] == ops[k];
      assert NeverPaysReserve(l, ops) <==>
        (NeverPaysReserve(l, front) && (Execute(Run(l, front), op).Ok? ==> !PaysReserve(Run(l, front), op)));
      RunStays(l, front);
      var before := Run(l, front);
      hide NeverPaysReserve;
      if Execute(before, op).Ok? {
        BaseStep(before, op);
        OriginsBelowStep(before, op);
        OriginsStep(before, op);
        ReserveStep(before, op);
        ExecuteKeepsRounds(before, op);
      }
    }
  }

  /**
   A snapshot whose branches start at or below its head and whose commitments have their rounds,
   however it came about: after any calls that overwrite no active branch, the ledger's own
   snapshot is accepted if and only if no call ended a payment to a genesis-locked account, and
   then it gives that very ledger back.
   */
  lemma AcceptedRunReloadsIff(s: Snapshot, expected: Option<Genesis>, ops: seq<Op>)
    requires FromSnapshot(s, expected).Ok?
    requires var l := FromSnapshot(s, expected).value;
             RoundsKnown(l) && OriginsBelow(l) && NeverOverwrites(l, ops)
    ensures var l := FromSnapshot(s, expected).value;
            var t := Run(l, ops);
            && (NeverPaysReserve(l, ops) ==> FromSnapshot(SnapshotOf(t), t.genesis) == Ok(t))
            && (!NeverPaysReserve(l, ops) ==> FromSnapshot(SnapshotOf(t), t.genesis).Err?)
            && FromSnapshot(SnapshotOf(t), None) == FromSnapshot(SnapshotOf(t), t.genesis)
  {
    var l := FromSnapshot(s, expected).value;
    AcceptedReloads(s, expected);
    hide FromSnapshot, NeverOverwrites, NeverPaysReserve, Run;
    RunStays(l, ops);
    var t := Run(l, ops);
    ReloadsFrom(t);
    ReloadsIff(t);
    hide OriginsKnown, ReserveIntact, RoundsKnown, OriginsBelow;
  }

  // ----- The origin condition cannot be left out -----

  const NEWCOMER: Account := "abc"

  /** A block that a forged history puts above the head. */
  const UNBORN := RegisterBlock("xyz", 1, ROOT)

  const AHEAD := Branch(BranchId(0, UNBORN, 1, "bob", 0, "ann", 5), "ann", "bob", 5, 5, 0, 3, 1, UNBORN,
                        Offered, None, None, None)

  lemma RegistrationRefuses(l: LedgerState, op: Op, i: nat)
    requires Reloads(l) && op.Register? && Execute(l, op).Ok? && i < |l.branches|
    requires l.branches[i].originHeight == l.height + 1
    requires l.branches[i].originDigest != RegisterBlock(op.account, l.height + 1, l.digest)
    ensures Run(l, [op]) == Execute(l, op).value && NeverOverwrites(l, [op])
    ensures FromSnapshot(SnapshotOf(Run(l, [op])), None).Err?
  {
    hide Reloads, Base, OriginsKnown, ReserveIntact, FromSnapshot, Acceptable;
    RunOne(l, op);
    ReloadsGives(l);
    assert Funded(l) by { BaseIsFunded(l); }
    RegisterKeepsFunded(l, op.account);
    assert BlocksOf(l, op) == [RegisterBlock(op.account, l.height + 1, l.digest)];
    assert !OriginsAllow(l, BlocksOf(l, op));
    hide OriginsAllow, BlocksOf, Run;
    StillReloadsIff(l, op);
    hide KeepsReloading, Execute;
    ReloadsIff(Execute(l, op).value);
  }

  lemma BaseIsFunded(l: LedgerState)
    requires Base(l)
    ensures Funded(l)
  {
  }

  lemma RunOne(l: LedgerState, op: Op)
    requires Execute(l, op).Ok?
    ensures Run(l, [op]) == Execute(l, op).value
    ensures !op.Offer? ==> NeverOverwrites(l, [op])
  {
    hide Execute;
    assert [op][..0] == [] && Run(l, []) == l;
  }

  /**
   The validator looks a branch's origin up in the history but does not hold it below the head:
   an accepted snapshot with a branch from block one, while the head is block zero. One
   registration puts another block there, and the ledger can no longer be restored.
   */
  lemma OriginsMatter()
    ensures var s := OneBranchSnapshot(AHEAD, map[0 := ROOT, 1 := UNBORN]);
            var ops := [Register(NEWCOMER)];
            && FromSnapshot(s, None).Ok?
            && var l := FromSnapshot(s, None).value;
            && RoundsKnown(l) && NeverOverwrites(l, ops)
            && Execute(l, ops[0]).Ok?
            && FromSnapshot(SnapshotOf(Run(l, ops)), None).Err?
  {
    var history := map[0 := ROOT, 1 := UNBORN];
    var s := OneBranchSnapshot(AHEAD, history);
    OneBranchAccepted(AHEAD, history);
    AcceptedReloads(s, None);
    var l := Loaded(s);
    assert l.branches == [AHEAD] && l.height == 0;
    hide FromSnapshot, Reloads, Collapse, NeverOverwrites, Run;
    assert RoundsKnown(l);
    RegistrationRefuses(l, Register(NEWCOMER), 0);
  }
}
