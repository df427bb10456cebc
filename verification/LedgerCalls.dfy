/** When each ledger call succeeds and what exactly it does, and the life of a branch over runs. */
module LedgerCalls {
  import opened Common
  import opened LedgerModel
  import opened LedgerInvariants
  import opened LedgerTheorems

  // ----- One call -----

  /**
   An offer succeeds exactly on these terms, and then adds one branch that says what was asked,
   in the round and on the head it was made.
   */
  lemma OfferIff(l: LedgerState, sender: Account, receiver: Account, value: int, ttl: int)
    requires BranchesOk(l)
    ensures DoOffer(l, sender, receiver, value, ttl).Ok? <==>
              && (l.genesis.Some? ==> sender !in l.genesis.value.lockedAccounts)
              && value > 0 && ttl >= 3 && sender != receiver && receiver in l.balances
              && Get(l.balances, sender) - Get(l.locked, sender) >= 2 * value
    ensures DoOffer(l, sender, receiver, value, ttl).Ok? ==>
              var l' := DoOffer(l, sender, receiver, value, ttl).value;
              && |l'.branches| == |l.branches| + 1 && l'.branches[..|l.branches|] == l.branches
              && l' == l.(branches := l'.branches, locked := l.locked[sender := Get(l.locked, sender) + 2 * value])
              && var b := l'.branches[|l.branches|];
              && b.sender == sender && b.receiver == receiver && b.value == value && b.stake == value
              && b.createdRound == l.round && b.expiresRound == l.round + ttl
              && b.originHeight == l.height && b.originDigest == l.digest
              && b.state.Offered? && b.acceptedRound.None? && b.committedRound.None? && b.tx.None?
              && b.id == BranchId(|l.branches|, l.digest, l.height, receiver, l.round, sender, value)
  {
    OfferAppends(l, sender, receiver, value, ttl);
    hide Put;
  }

  /** Branch ids are all different, so an id names its branch. */
  lemma NamedBranch(l: LedgerState, i: nat)
    requires BranchesOk(l) && i < |l.branches|
    ensures Find(l.branches, l.branches[i].id) == Some(i)
  {
    var r := Find(l.branches, l.branches[i].id);
    assert BranchOk(l, i) && (r.Some? ==> BranchOk(l, r.value));
    hide BranchesOk, BranchOk, Find;
  }

  /** The receiver alone accepts, an offered branch alone, before its expiry round. */
  lemma AcceptIff(l: LedgerState, i: nat, receiver: Account)
    requires BranchesOk(l) && i < |l.branches|
    ensures var b, r := l.branches[i], DoAccept(l, l.branches[i].id, receiver);
            && (r.Ok? <==> b.state.Offered? && receiver == b.receiver && l.round < b.expiresRound)
            && (r.Ok? ==>
                  r.value == l.(branches := l.branches[i := b.(state := Accepted, acceptedRound := Some(l.round))]))
  {
    NamedBranch(l, i);
    hide Find, BranchesOk;
  }

  /** The sender alone commits, an accepted branch alone, before its expiry round, to this very payload. */
  lemma CommitIff(l: LedgerState, i: nat, sender: Account, payload: Payload)
    requires BranchesOk(l) && i < |l.branches|
    ensures var b, r := l.branches[i], DoCommit(l, l.branches[i].id, sender, payload);
            && (r.Ok? <==> b.state.Accepted? && sender == b.sender && l.round < b.expiresRound)
            && (r.Ok? ==>
                  r.value == l.(branches := l.branches[i := b.(state := Committed, committedRound := Some(l.round),
                                                               tx := Some(TxDigest(payload)))]))
  {
    NamedBranch(l, i);
    hide Find, BranchesOk;
  }

  /** Either party, and nobody else, cancels before commitment, and the sender's lock is released. */
  lemma CancelIff(l: LedgerState, i: nat, actor: Account)
    requires BranchesOk(l) && i < |l.branches|
    ensures var b, r := l.branches[i], DoCancel(l, l.branches[i].id, actor);
            && (r.Ok? <==> (b.state.Offered? || b.state.Accepted?) && (actor == b.sender || actor == b.receiver))
            && (r.Ok? ==>
                  r.value == l.(branches := l.branches[i := b.(state := Cancelled)],
                                locked := l.locked[b.sender := Get(l.locked, b.sender) - 2 * b.value]))
  {
    NamedBranch(l, i);
    assert BranchOk(l, i);
    hide Find, BranchesOk;
  }

  /** No call can be made on a branch that does not exist. */
  lemma UnknownBranch(l: LedgerState, op: Op)
    requires op.Accept? || op.Commit? || op.Cancel?
    requires forall i :: 0 <= i < |l.branches| ==> l.branches[i].id != op.branchId
    ensures Execute(l, op).Err?
  {
    hide Find;
  }

  /** A name is free and well formed, or the registration is refused. */
  lemma RegisterIff(l: LedgerState, account: Account)
    ensures DoRegister(l, account).Ok? <==>
              && account !in l.balances && 3 <= |account| <= 32 && 'a' <= account[0] <= 'z'
              && (forall c :: c in account ==> 'a' <= c <= 'z' || '0' <= c <= '9' || c == '_')
              && !(|account| >= 8 && account[..8] == "testnet_")
    ensures DoRegister(l, account).Ok? ==>
              var block := RegisterBlock(account, l.height + 1, l.digest);
              DoRegister(l, account).value ==
                l.(balances := l.balances[account := 0], height := l.height + 1, digest := block,
                   history := l.history[l.height + 1 := block])
  {
    assert (forall i :: 0 <= i < |account| ==> NameChar(account[i])) <==>
           (forall c :: c in account ==> NameChar(c));
    hide NameChar;
    assert "testnet_" <= account <==> |account| >= 8 && account[..8] == "testnet_";
  }

  // ----- The life of one branch -----

  /** A party's call on this very branch. */
  predicate Names(op: Op, id: BranchId) {
    (op.Accept? || op.Commit? || op.Cancel?) && op.branchId == id
  }

  /** What one successful call does to one branch: its parties' calls, time, or nothing. */
  function Moved(b: Branch, op: Op, round: int): Branch {
    if op.Advance? then b.(state := StateAt(b, round + op.rounds))
    else if !Names(op, b.id) then b
    else if op.Accept? then b.(state := Accepted, acceptedRound := Some(round))
    else if op.Commit? then b.(state := Committed, committedRound := Some(round), tx := Some(TxDigest(op.payload)))
    else b.(state := Cancelled)
  }

  lemma CallMoves(l: LedgerState, op: Op, i: nat)
    requires BranchesOk(l) && NothingOverdue(l) && Execute(l, op).Ok? && i < |l.branches|
    ensures var l' := Execute(l, op).value;
            && i < |l'.branches| && l'.branches[i] == Moved(l.branches[i], op, l.round)
            && l'.round == l.round + (if op.Advance? then op.rounds else 0) && l.round <= l'.round
  {
    hide BranchesOk;
    match op
    case Offer(s, r, v, ttl) => OfferAppends(l, s, r, v, ttl);
    case Advance(n) => AdvanceMoves(l, n, i);
    case Register(_) =>
    case _ => PartyMoves(l, op, i);
  }

  lemma AdvanceMoves(l: LedgerState, n: nat, i: nat)
    requires NothingOverdue(l) && i < |l.branches|
    ensures i < |AdvanceBy(l, n).ledger.branches|
    ensures AdvanceBy(l, n).ledger.branches[i] == l.branches[i].(state := StateAt(l.branches[i], l.round + n))
    ensures AdvanceBy(l, n).ledger.round == l.round + n
  {
    ExactDeadlines(l, n, i);
    AdvanceRounds(l, n);
  }

  lemma {:induction false} AdvanceRounds(l: LedgerState, n: nat)
    ensures AdvanceBy(l, n).ledger.round == l.round + n
    decreases n
  {
    if n > 0 {
      SettleFromStates(l.(round := l.round + 1), 0);
      AdvanceRounds(Tick(l).ledger, n - 1);
    }
  }

  lemma PartyMoves(l: LedgerState, op: Op, i: nat)
    requires BranchesOk(l) && Execute(l, op).Ok? && i < |l.branches|
    requires op.Accept? || op.Commit? || op.Cancel?
    ensures var l' := Execute(l, op).value;
            && |l'.branches| == |l.branches| && l'.round == l.round
            && l'.branches[i] == Moved(l.branches[i], op, l.round)
  {
    NamedBranch(l, i);
    hide BranchesOk, Find;
  }

  /** The invariant from any sound ledger on. */
  lemma {:induction false} RunKeepsFrom(l: LedgerState, initial: map<Account, int>, ops: seq<Op>)
    requires Inv(l, initial) && NothingOverdue(l)
    ensures Inv(Run(l, ops), initial) && NothingOverdue(Run(l, ops))
  {
    hide Inv, NothingOverdue, Execute;
    if ops != [] {
      RunKeepsFrom(l, initial, ops[..|ops| - 1]);
      var before := Run(l, ops[..|ops| - 1]);
      if Execute(before, ops[|ops| - 1]).Ok? {
        ExecuteKeeps(before, initial, ops[|ops| - 1]);
      }
    }
  }

  /** Only an open branch answers to its parties. */
  lemma NamedIsOpen(l: LedgerState, op: Op, i: nat)
    requires BranchesOk(l) && Execute(l, op).Ok? && i < |l.branches| && Names(op, l.branches[i].id)
    ensures l.branches[i].state.Offered? || l.branches[i].state.Accepted?
  {
    NamedBranch(l, i);
    hide BranchesOk, Find;
  }

  predicate Open(b: Branch) {
    b.state.Offered? || b.state.Accepted?
  }

  /** Nobody answers for the branch, by accepting, committing or cancelling it. */
  predicate Unanswered(ops: seq<Op>, id: BranchId) {
    forall k :: 0 <= k < |ops| ==> !Names(ops[k], id)
  }

  /** The branch as time alone leaves it. */
  function Timed(b: Branch, round: int): Branch {
    b.(state := StateAt(b, round))
  }

  lemma TimedStep(b: Branch, op: Op, round: int, later: int)
    requires later == round + (if op.Advance? then op.rounds else 0) && round <= later
    requires !Overdue(Timed(b, round), round)
    requires Open(Timed(b, round)) ==> !Names(op, b.id)
    requires Names(op, b.id) ==> Open(Timed(b, round))
    ensures Moved(Timed(b, round), op, round) == Timed(b, later)
  {
  }

  /** Over calls that do not name an open branch, time alone moves it, neither early nor late. */
  lemma {:induction false} TimeAlone(l: LedgerState, initial: map<Account, int>, ops: seq<Op>, i: nat)
    requires Inv(l, initial) && NothingOverdue(l) && i < |l.branches|
    requires Open(l.branches[i]) ==> Unanswered(ops, l.branches[i].id)
    ensures var t := Run(l, ops);
            i < |t.branches| && t.branches[i] == Timed(l.branches[i], t.round) && l.round <= t.round
  {
    if ops == [] {
      assert !Overdue(l.branches[i], l.round);
    } else {
      var front, op := ops[..|ops| - 1], ops[|ops| - 1];
      assert Open(l.branches[i]) ==> Unanswered(front, l.branches[i].id) && !Names(op, l.branches[i].id);
      hide Inv, NothingOverdue, Execute, Unanswered;
      TimeAlone(l, initial, front, i);
      RunKeepsFrom(l, initial, front);
      if Execute(Run(l, front), op).Ok? {
        TimeStep(Run(l, front), initial, op, i, l.branches[i]);
      }
    }
  }

  lemma TimeStep(l: LedgerState, initial: map<Account, int>, op: Op, i: nat, b: Branch)
    requires Inv(l, initial) && NothingOverdue(l) && i < |l.branches| && Execute(l, op).Ok?
    requires l.branches[i] == Timed(b, l.round) && (Open(b) ==> !Names(op, b.id))
    ensures var l' := Execute(l, op).value;
            i < |l'.branches| && l'.branches[i] == Timed(b, l'.round) && l.round <= l'.round
  {
    assert BranchesOk(l) && !Overdue(l.branches[i], l.round);
    hide Inv, BranchesOk, NothingOverdue, Execute, Timed;
    CallMoves(l, op, i);
    assert Open(Timed(b, l.round)) ==> Open(b) && Timed(b, l.round).id == b.id by { TimedIsOpen(b, l.round); }
    assert Timed(b, l.round).id == b.id by { TimedIsOpen(b, l.round); }
    if Names(op, b.id) {
      NamedIsOpen(l, op, i);
    }
    TimedStep(b, op, l.round, Execute(l, op).value.round);
  }

  lemma TimedIsOpen(b: Branch, round: int)
    ensures Timed(b, round).id == b.id && (Open(Timed(b, round)) ==> Open(b))
  {
  }

  /**
   The life of an unanswered offer: made in any reachable ledger at round `r` for `ttl` rounds, it is
   OFFERED as long as the round is below `r + ttl` and EXPIRED from that round on, whatever other
   calls are made.
   */
  lemma OfferExpiresOnTime(
    genesis: Option<Genesis>, balances: map<Account, int>, before: seq<Op>,
    sender: Account, receiver: Account, value: int, ttl: int, after: seq<Op>)
    requires Initial(genesis, balances)
    requires var l := Run(NewLedger(genesis, balances), before);
             && Execute(l, Offer(sender, receiver, value, ttl)).Ok?
             && Unanswered(after, BranchId(|l.branches|, l.digest, l.height, receiver, l.round, sender, value))
    ensures var l := Run(NewLedger(genesis, balances), before);
            var t := Run(Execute(l, Offer(sender, receiver, value, ttl)).value, after);
            && |l.branches| < |t.branches|
            && var b := t.branches[|l.branches|];
            && b.sender == sender && b.receiver == receiver && b.value == value && b.stake == value
            && b.createdRound == l.round && b.expiresRound == l.round + ttl
            && (b.state.Offered? <==> t.round < l.round + ttl)
            && (b.state.Expired? <==> t.round >= l.round + ttl)
  {
    var l := Run(NewLedger(genesis, balances), before);
    var op := Offer(sender, receiver, value, ttl);
    RunKeepsInvariant(genesis, balances, before);
    ExecuteKeeps(l, balances, op);
    assert BranchesOk(l);
    hide Inv, BranchesOk, Run, NothingOverdue;
    OfferIff(l, sender, receiver, value, ttl);
    var made := Execute(l, op).value;
    hide Execute;
    TimeAlone(made, balances, after, |l.branches|);
  }

  /** A commitment cannot be stopped: FINAL exactly from three rounds after it, whatever calls are made. */
  lemma CommitFinalizesOnTime(
    genesis: Option<Genesis>, balances: map<Account, int>, before: seq<Op>,
    i: nat, sender: Account, payload: Payload, after: seq<Op>)
    requires Initial(genesis, balances)
    requires var l := Run(NewLedger(genesis, balances), before);
             i < |l.branches| && Execute(l, Commit(l.branches[i].id, sender, payload)).Ok?
    ensures var l := Run(NewLedger(genesis, balances), before);
            var t := Run(Execute(l, Commit(l.branches[i].id, sender, payload)).value, after);
            && i < |t.branches|
            && (t.branches[i].state.Committed? <==> t.round < l.round + 3)
            && (t.branches[i].state.Final? <==> t.round >= l.round + 3)
            && t.branches[i].tx == Some(TxDigest(payload)) && t.branches[i].committedRound == Some(l.round)
            && t.branches[i].value == l.branches[i].value
  {
    var l := Run(NewLedger(genesis, balances), before);
    var op := Commit(l.branches[i].id, sender, payload);
    RunKeepsInvariant(genesis, balances, before);
    ExecuteKeeps(l, balances, op);
    assert BranchesOk(l);
    hide Inv, BranchesOk, Run, NothingOverdue;
    CommitIff(l, i, sender, payload);
    var made := Execute(l, op).value;
    hide Execute;
    TimeAlone(made, balances, after, i);
  }

  // ----- What an advance reports -----

  /** The branches whose deadline has come, in order and in the state it gives them. */
  function Settling(bs: seq<Branch>, round: int): seq<Branch> {
    if bs == [] then []
    else
      var b := bs[0];
      (if (Open(b) && round >= b.expiresRound) then [b.(state := Expired)]
       else if b.state.Committed? && b.committedRound.Some? && round >= b.committedRound.value + 3
       then [b.(state := Final)] else [])
      + Settling(bs[1..], round)
  }

  lemma {:induction false} SettleFromReports(l: LedgerState, i: nat)
    requires i <= |l.branches|
    ensures SettleFrom(l, i).changed == Settling(l.branches[i..], l.round)
    decreases |l.branches| - i
  {
    if i < |l.branches| {
      var l' := Settle(l, i);
      assert l'.branches[i + 1..] == l.branches[i..][1..] && l'.round == l.round;
      SettleFromReports(l', i + 1);
    }
  }

  /** One round reports exactly the branches that it expires or finalises, in order; rounds add up. */
  lemma RoundReports(l: LedgerState, n: nat)
    ensures AdvanceBy(l, 1).changed == Settling(l.branches, l.round + 1)
    ensures AdvanceBy(l, 1 + n).changed
         == Settling(l.branches, l.round + 1) + AdvanceBy(AdvanceBy(l, 1).ledger, n).changed
  {
    var ticked := l.(round := l.round + 1);
    SettleFromReports(ticked, 0);
    assert ticked.branches[0..] == l.branches;
    AdvanceComposes(l, 1, n);
    hide Settling, SettleFrom;
    assert AdvanceBy(Tick(l).ledger, 0).changed == [];
  }
}
