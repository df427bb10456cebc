/** Who can make the cluster do what: every entry is signed by the account it speaks for. */
module Authority {
  import opened Common
  import opened LedgerModel
  import opened LedgerInvariants
  import opened LedgerTheorems
  import opened LedgerCalls
  import opened NodeModel
  import opened NodeInvariants
  import Cluster
  import ClusterTheorems

  /** The account a request speaks for; time and registrations are the operator's. */
  predicate SpeaksFor(actor: Account, op: Op) {
    match op
    case Offer(sender, _, _, _) => actor == sender
    case Accept(_, receiver) => actor == receiver
    case Commit(_, sender, _) => actor == sender
    case Cancel(_, canceller) => actor == canceller
    case Advance(_) => actor == "testnet_operator"
    case Register(_) => actor == "testnet_operator"
  }

  /** The request carries its actor's registered secret over exactly this request. */
  predicate Signed(cfg: Config, m: Mutation) {
    && cfg.registry.Some? && m.auth.Some? && m.auth.value.actor in cfg.registry.value
    && m.auth.value.tag ==
       Mac(cfg.registry.value[m.auth.value.actor], m.auth.value.actor, m.id, m.op, m.auth.value.nonce)
  }

  /** Signed by the account it speaks for. */
  predicate Authorised(cfg: Config, m: Mutation) {
    Signed(cfg, m) && SpeaksFor(m.auth.value.actor, m.op)
  }

  /**
   Under a registry a mutation is applied if and only if the account it speaks for has signed it
   with a nonce above its last, and the ledger takes the call; then the nonce is on record.
   */
  lemma ApplyIff(cfg: Config, core: Core, m: Mutation)
    requires cfg.registry.Some?
    ensures Apply(cfg, core, m).Ok? <==>
              && Authorised(cfg, m)
              && var actor := m.auth.value.actor;
              && m.auth.value.nonce > (if actor in core.replay then core.replay[actor] else -1)
              && Execute(core.ledger, m.op).Ok?
    ensures Apply(cfg, core, m).Ok? ==>
              Apply(cfg, core, m).value ==
                Core(Execute(core.ledger, m.op).value, core.replay[m.auth.value.actor := m.auth.value.nonce])
  {
    hide Execute;
  }

  /** Without a registry nobody is asked, and no nonce is kept. */
  lemma OpenApplyIff(cfg: Config, core: Core, m: Mutation)
    requires cfg.registry.None?
    ensures Apply(cfg, core, m).Ok? <==> Execute(core.ledger, m.op).Ok?
    ensures Apply(cfg, core, m).Ok? ==> Apply(cfg, core, m).value == core.(ledger := Execute(core.ledger, m.op).value)
  {
    hide Execute;
  }

  /** Every entry of a log that replays is signed by the account it speaks for. */
  lemma {:induction false} LoggedIsAuthorised(cfg: Config, log: seq<Envelope>, k: nat)
    requires Replay(cfg, log).Ok? && cfg.registry.Some? && k < |log|
    ensures Authorised(cfg, log[k].mutation)
  {
    hide Apply, Authorised;
    var n := |log| - 1;
    if k < n {
      LoggedIsAuthorised(cfg, log[..n], k);
      assert log[..n][k] == log[k];
    } else {
      ApplyIff(cfg, Replay(cfg, log[..n]).value, log[n].mutation);
    }
  }

  // ----- What stands behind a branch -----

  ghost predicate OfferLogged(cfg: Config, log: seq<Envelope>, b: Branch) {
    exists k :: 0 <= k < |log| && Authorised(cfg, log[k].mutation)
                && log[k].mutation.op == Offer(b.sender, b.receiver, b.value, b.expiresRound - b.createdRound)
  }

  ghost predicate AcceptLogged(cfg: Config, log: seq<Envelope>, b: Branch) {
    exists k :: 0 <= k < |log| && Authorised(cfg, log[k].mutation) && log[k].mutation.op == Accept(b.id, b.receiver)
  }

  ghost predicate CommitLogged(cfg: Config, log: seq<Envelope>, b: Branch) {
    exists k :: 0 <= k < |log| && Authorised(cfg, log[k].mutation)
                && b.tx.Some? && log[k].mutation.op == Commit(b.id, b.sender, b.tx.value.payload)
  }

  /** The signed entries that a branch in its state must have behind it. */
  ghost predicate Backed(cfg: Config, log: seq<Envelope>, b: Branch) {
    && OfferLogged(cfg, log, b)
    && (b.state.Accepted? || b.state.Committed? || b.state.Final? ==> AcceptLogged(cfg, log, b))
    && (b.state.Committed? || b.state.Final? ==> CommitLogged(cfg, log, b))
  }

  ghost predicate AllBacked(cfg: Config, log: seq<Envelope>, l: LedgerState) {
    forall i :: 0 <= i < |l.branches| ==> Backed(cfg, log, l.branches[i])
  }

  lemma BackedStays(cfg: Config, log: seq<Envelope>, e: Envelope, b: Branch)
    requires Backed(cfg, log, b)
    ensures Backed(cfg, log + [e], b)
  {
    hide Authorised;
    assert forall k :: 0 <= k < |log| ==> (log + [e])[k] == log[k];
  }

  /** A branch that some call has moved has that call, signed, behind it. */
  lemma MovedIsBacked(cfg: Config, log: seq<Envelope>, e: Envelope, l: LedgerState, i: nat)
    requires BranchesOk(l) && NothingOverdue(l) && i < |l.branches| && Backed(cfg, log, l.branches[i])
    requires Authorised(cfg, e.mutation) && Execute(l, e.mutation.op).Ok?
    ensures Backed(cfg, log + [e], Moved(l.branches[i], e.mutation.op, l.round))
  {
    var b, op := l.branches[i], e.mutation.op;
    BackedStays(cfg, log, e, b);
    assert (log + [e])[|log|] == e;
    hide Authorised;
    if Names(op, b.id) {
      match op
      case Accept(_, receiver) => AcceptIff(l, i, receiver);
      case Commit(_, sender, payload) => CommitIff(l, i, sender, payload);
      case Cancel(_, actor) =>
    }
    hide BranchesOk, NothingOverdue, Execute;
  }

  lemma StepIsBacked(cfg: Config, log: seq<Envelope>, e: Envelope, l: LedgerState)
    requires BranchesOk(l) && NothingOverdue(l) && AllBacked(cfg, log, l)
    requires Authorised(cfg, e.mutation) && Execute(l, e.mutation.op).Ok?
    ensures AllBacked(cfg, log + [e], Execute(l, e.mutation.op).value)
  {
    var op := e.mutation.op;
    var l' := Execute(l, op).value;
    forall i | 0 <= i < |l'.branches|
      ensures Backed(cfg, log + [e], l'.branches[i])
    {
      if i < |l.branches| {
        MovedIsBacked(cfg, log, e, l, i);
        CallMoves(l, op, i);
      } else {
        assert (log + [e])[|log|] == e;
        NewIsBacked(cfg, log, e, l, i);
      }
    }
  }

  lemma NewIsBacked(cfg: Config, log: seq<Envelope>, e: Envelope, l: LedgerState, i: nat)
    requires BranchesOk(l) && Authorised(cfg, e.mutation) && Execute(l, e.mutation.op).Ok?
    requires |l.branches| <= i < |Execute(l, e.mutation.op).value.branches|
    ensures Backed(cfg, log + [e], Execute(l, e.mutation.op).value.branches[i])
  {
    var op := e.mutation.op;
    ExecuteExtends(l, op);
    hide Authorised, BranchesOk;
    OfferIff(l, op.sender, op.receiver, op.value, op.ttl);
    assert (log + [e])[|log|] == e;
  }

  lemma NothingToBack(cfg: Config)
    ensures AllBacked(cfg, [], InitialCore(cfg).ledger)
  {
  }

  lemma SoundBranches(cfg: Config, core: Core)
    requires CoreOk(cfg, core)
    ensures BranchesOk(core.ledger) && NothingOverdue(core.ledger)
  {
  }

  lemma {:induction false} ReplayIsBacked(cfg: Config, log: seq<Envelope>)
    requires ConfigOk(cfg) && cfg.registry.Some? && Replay(cfg, log).Ok?
    ensures AllBacked(cfg, log, Replay(cfg, log).value.ledger)
  {
    hide ConfigOk, CoreOk, AllBacked, BranchesOk, NothingOverdue, Authorised, Apply, Execute;
    if log == [] {
      NothingToBack(cfg);
    } else {
      var n := |log| - 1;
      var core := Replay(cfg, log[..n]).value;
      ReplayIsBacked(cfg, log[..n]);
      ReplayOk(cfg, log[..n]);
      SoundBranches(cfg, core);
      ApplyIff(cfg, core, log[n].mutation);
      StepIsBacked(cfg, log[..n], log[n], core.ledger);
      assert log[..n] + [log[n]] == log;
    }
  }

  // ----- Over runs of the cluster -----

  /** In every run every entry of every log, offers in particular, is signed by the account it speaks for. */
  lemma EveryEntryIsAuthorised(cfg: Config, steps: seq<Cluster.Step>, r: Role, k: nat)
    requires ConfigOk(cfg) && cfg.registry.Some?
    requires k < |Cluster.Execution(cfg, steps).At(r).node.log|
    ensures var m := Cluster.Execution(cfg, steps).At(r).node.log[k].mutation;
            && Authorised(cfg, m)
            && (m.op.Offer? ==> m.auth.value.actor == m.op.sender)
  {
    ClusterTheorems.StateIsReplay(cfg, steps, r);
    hide ConfigOk, CoreOk, Signed, Cluster.Execution;
    LoggedIsAuthorised(cfg, Cluster.Execution(cfg, steps).At(r).node.log, k);
  }

  /**
   Nothing moves unsigned: in every run, behind every branch on every node's ledger are, in that
   node's log, its sender's signed offer, for an accepted one its receiver's signed acceptance,
   and for a committed or final one its sender's signed commitment to this very payload.
   */
  lemma NothingMovesUnsigned(cfg: Config, steps: seq<Cluster.Step>, r: Role)
    requires ConfigOk(cfg) && cfg.registry.Some?
    ensures var n := Cluster.Execution(cfg, steps).At(r).node; AllBacked(cfg, n.log, n.core.ledger)
  {
    ClusterTheorems.StateIsReplay(cfg, steps, r);
    hide ConfigOk, CoreOk, AllBacked, Cluster.Execution;
    ReplayIsBacked(cfg, Cluster.Execution(cfg, steps).At(r).node.log);
  }

  lemma {:induction false} NeverSpent(bs: seq<Branch>, a: Account)
    requires forall i :: 0 <= i < |bs| ==> bs[i].value > 0 && !(bs[i].state.Final? && bs[i].sender == a)
    ensures Total(bs, PaidTo(a)) >= 0
  {
    if bs != [] {
      NeverSpent(bs[..|bs| - 1], a);
    }
  }

  /** On any node an account has less than at the start only if its own signed commitment is in the log. */
  lemma DebitNeedsSignature(cfg: Config, steps: seq<Cluster.Step>, r: Role, a: Account)
    requires ConfigOk(cfg) && cfg.registry.Some?
    requires var n := Cluster.Execution(cfg, steps).At(r).node;
             Get(n.core.ledger.balances, a) < Get(StartBalances(cfg), a)
    ensures var n := Cluster.Execution(cfg, steps).At(r).node;
            exists k :: 0 <= k < |n.log| && n.log[k].mutation.op.Commit? && n.log[k].mutation.op.sender == a
                        && Authorised(cfg, n.log[k].mutation)
  {
    var n := Cluster.Execution(cfg, steps).At(r).node;
    ClusterTheorems.StateIsReplay(cfg, steps, r);
    NothingMovesUnsigned(cfg, steps, r);
    assert Inv(n.core.ledger, StartBalances(cfg));
    hide ConfigOk, CoreOk, Cluster.Execution, Authorised, Replay;
    var i := SpendingBranch(n.core.ledger, StartBalances(cfg), a);
    hide Inv;
    assert Backed(cfg, n.log, n.core.ledger.branches[i]);
    hide OfferLogged, AcceptLogged;
  }

  lemma SpendingBranch(l: LedgerState, initial: map<Account, int>, a: Account) returns (i: nat)
    requires Inv(l, initial) && Get(l.balances, a) < Get(initial, a)
    ensures i < |l.branches| && l.branches[i].state.Final? && l.branches[i].sender == a
  {
    if forall j :: 0 <= j < |l.branches| ==> !(l.branches[j].state.Final? && l.branches[j].sender == a) {
      forall j | 0 <= j < |l.branches|
        ensures l.branches[j].value > 0
      {
        assert BranchOk(l, j);
      }
      NeverSpent(l.branches, a);
      assert false;
    }
    i :| 0 <= i < |l.branches| && l.branches[i].state.Final? && l.branches[i].sender == a;
  }
}
