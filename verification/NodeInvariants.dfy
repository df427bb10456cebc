/** What each handler keeps true of one replica, and why its record always reloads. */
module NodeInvariants {
  import opened Common
  import opened LedgerModel
  import opened LedgerInvariants
  import opened NodeModel
  import Restore
  import Failover

  // ---------------------------------------------------------------- replay

  /** The state a log stands for: its mutations applied in order to the initial state. */
  function Replay(cfg: Config, log: seq<Envelope>): Outcome<Core> {
    if log == [] then Ok(InitialCore(cfg))
    else
      match Replay(cfg, log[..|log| - 1])
      case Err(e) => Err(e)
      case Ok(core) => Apply(cfg, core, log[|log| - 1].mutation)
  }

  function StartBalances(cfg: Config): map<Account, int> {
    if cfg.genesis.Some? then cfg.genesis.value.allocations else cfg.balances
  }

  ghost predicate ConfigOk(cfg: Config) {
    Initial(cfg.genesis, StartBalances(cfg))
  }

  ghost predicate CoreOk(cfg: Config, core: Core) {
    && Inv(core.ledger, StartBalances(cfg)) && NothingOverdue(core.ledger)
    && core.ledger.genesis == cfg.genesis
    && (forall a :: a in core.replay ==> core.replay[a] >= 0)
    && (cfg.registry.None? ==> core.replay == map[])
  }

  lemma ApplyKeeps(cfg: Config, core: Core, m: Mutation)
    requires CoreOk(cfg, core) && Apply(cfg, core, m).Ok?
    ensures CoreOk(cfg, Apply(cfg, core, m).value)
  {
    hide Inv, NothingOverdue, Execute;
    ExecuteKeeps(core.ledger, StartBalances(cfg), m.op);
    Restore.ExecuteKeepsGenesis(core.ledger, m.op);
  }

  lemma {:induction false} ReplayOk(cfg: Config, log: seq<Envelope>)
    requires ConfigOk(cfg) && Replay(cfg, log).Ok?
    ensures CoreOk(cfg, Replay(cfg, log).value)
  {
    if log == [] {
      NewLedgerInv(cfg.genesis, StartBalances(cfg));
    } else {
      ReplayOk(cfg, log[..|log| - 1]);
      ApplyKeeps(cfg, Replay(cfg, log[..|log| - 1]).value, log[|log| - 1].mutation);
    }
  }

  /**
   Prepare predicts commit: a mutation that passed the dry run cannot fail when it is
   applied for real, and gives the very ledger the dry run computed.
   */
  lemma TrialPredictsApply(cfg: Config, core: Core, m: Mutation)
    requires ConfigOk(cfg) && CoreOk(cfg, core)
    ensures Trial(cfg, core, m).Ok? <==> Apply(cfg, core, m).Ok? && Restore.ReserveUntouched(core.ledger)
    ensures Trial(cfg, core, m).Ok? ==> Apply(cfg, core, m).value.ledger == Trial(cfg, core, m).value
  {
    Restore.RestoreExact(core.ledger, StartBalances(cfg));
  }

  /** An authenticated mutation is applied only with a fresh nonce, which is then recorded. */
  lemma ApplyRecords(cfg: Config, core: Core, m: Mutation)
    requires cfg.registry.Some? && Apply(cfg, core, m).Ok?
    ensures m.auth.Some? && m.auth.value.nonce > LastNonce(core.replay, m.auth.value.actor)
    ensures Apply(cfg, core, m).value.replay == core.replay[m.auth.value.actor := m.auth.value.nonce]
  {
    hide Execute;
  }

  /** A registration that the operator has signed, as the standalone path demands of every one. */
  ghost predicate ByOperator(cfg: Config, m: Mutation) {
    && m.op.Register? && m.auth.Some? && m.auth.value.actor == OPERATOR
    && cfg.registry.Some? && OPERATOR in cfg.registry.value
    && m.auth.value.tag == Mac(cfg.registry.value[OPERATOR], OPERATOR, m.id, m.op, m.auth.value.nonce)
  }

  /** Where there is a credential registry, only a registration that the operator signed is applied. */
  lemma AppliedByOperator(cfg: Config, core: Core, m: Mutation)
    requires cfg.registry.Some? && m.op.Register? && Apply(cfg, core, m).Ok?
    ensures ByOperator(cfg, m)
  {
    hide Execute;
  }

  /** Every request accepted by a log carries a larger nonce than its actor's earlier ones. */
  lemma {:induction false} ReplayRemembers(cfg: Config, log: seq<Envelope>, i: nat)
    requires Replay(cfg, log).Ok? && cfg.registry.Some? && i < |log|
    ensures log[i].mutation.auth.Some?
    ensures var a := log[i].mutation.auth.value;
            a.actor in Replay(cfg, log).value.replay && a.nonce <= Replay(cfg, log).value.replay[a.actor]
  {
    hide Apply;
    var n := |log| - 1;
    ApplyRecords(cfg, Replay(cfg, log[..n]).value, log[n].mutation);
    if i < n {
      ReplayRemembers(cfg, log[..n], i);
      assert log[..n][i] == log[i];
    }
  }

  /** At most once: along one log the nonces of each actor strictly increase. */
  lemma {:induction false} NoncesIncrease(cfg: Config, log: seq<Envelope>, i: nat, j: nat)
    requires Replay(cfg, log).Ok? && cfg.registry.Some? && i < j < |log|
    ensures log[i].mutation.auth.Some? && log[j].mutation.auth.Some?
    ensures log[i].mutation.auth.value.actor == log[j].mutation.auth.value.actor
            ==> log[i].mutation.auth.value.nonce < log[j].mutation.auth.value.nonce
  {
    hide Apply;
    var n := |log| - 1;
    ApplyRecords(cfg, Replay(cfg, log[..n]).value, log[n].mutation);
    if j < n {
      NoncesIncrease(cfg, log[..n], i, j);
      assert log[..n][i] == log[i] && log[..n][j] == log[j];
    } else {
      ReplayRemembers(cfg, log[..n], i);
      assert log[..n][i] == log[i];
    }
  }

  // ---------------------------------------------------------------- the replica's invariant

  /** Entry `k` carries nonce `k + 1`, a genuine seal, and the signer the constructor infers. */
  ghost predicate LogOk(log: seq<Envelope>, cs: seq<Failover.Certificate>) {
    forall k :: 0 <= k < |log| ==>
      log[k].nonce == k + 1 && Genuine(log[k]) && log[k].leader == ExpectedSigner(cs, k)
  }

  ghost predicate LeadOk(lead: Failover.Leadership, position: int) {
    && Failover.SnapshotOk(Failover.SnapshotOf(lead)) && lead.votes == [] && lead.nonce == position
  }

  ghost predicate PositionsOk(p: map<Role, int>, position: int) {
    && Position(p) == position
    && forall r :: r in p ==> p[r] <= position
  }

  ghost predicate NodeOk(cfg: Config, n: Node) {
    && LogOk(n.log, n.lead.certificates)
    && LeadOk(n.lead, |n.log|)
    && PositionsOk(n.positions, |n.log|)
    && Replay(cfg, n.log) == Ok(n.core)
    && (n.pending.Some? ==> Trial(cfg, n.core, n.pending.value.mutation).Ok? && Genuine(n.pending.value))
  }

  lemma FreshNodeOk(cfg: Config, role: Role)
    ensures NodeOk(cfg, FreshNode(cfg, role))
  {
  }

  /** The certificates that precede a position decide the signer after it. */
  lemma {:induction false} SignerInTerm(cs: seq<Failover.Certificate>, timeout: int, last: int)
    requires Failover.ChainOk(cs, timeout) && last >= Failover.NonceAfter(cs, |cs|)
    ensures ExpectedSigner(cs, last) == Failover.RoleAt(|cs|)
  {
    if cs != [] {
      var i := |cs| - 1;
      assert Failover.CertificateOk(cs[i], i + 1, timeout, Failover.TickAfter(cs, i), Failover.NonceAfter(cs, i));
    }
  }

  lemma PositionGrows(p: map<Role, int>, position: int, r: Role)
    requires PositionsOk(p, position) && position >= 0
    ensures PositionsOk(p[r := position + 1], position + 1)
  {
    var q := p[r := position + 1];
    assert position + 1 in PositionsOf(q);
    forall i | 0 <= i < |PositionsOf(q)|
      ensures PositionsOf(q)[i] <= position + 1
    {
    }
  }

  /** Appending the next entry of the current term keeps the replica sound. */
  lemma AppendKeeps(cfg: Config, n: Node, e: Envelope)
    requires ConfigOk(cfg) && NodeOk(cfg, n) && Append(cfg, n, e).Ok?
    requires e.leader == n.lead.leader && Genuine(e) && e.nonce == |n.log| + 1
    ensures NodeOk(cfg, Append(cfg, n, e).value)
  {
    var n' := Append(cfg, n, e).value;
    PositionGrows(n.positions, |n.log|, e.leader);
    SignerInTerm(n.lead.certificates, n.lead.timeout, |n.log|);
    assert n'.log[..|n'.log| - 1] == n.log;
    hide PositionsOk, Trial, Apply, ExpectedSigner, Genuine;
    LogGrows(n.log, n.lead.certificates, e);
    hide LogOk, Failover.ChainOk;
  }

  lemma LogGrows(log: seq<Envelope>, cs: seq<Failover.Certificate>, e: Envelope)
    requires LogOk(log, cs) && e.nonce == |log| + 1 && Genuine(e) && e.leader == ExpectedSigner(cs, |log|)
    ensures LogOk(log + [e], cs)
  {
    hide ExpectedSigner, Genuine;
    forall k | 0 <= k < |log + [e]|
      ensures (log + [e])[k].nonce == k + 1 && Genuine((log + [e])[k])
      ensures (log + [e])[k].leader == ExpectedSigner(cs, k)
    {
      if k < |log| { assert (log + [e])[k] == log[k]; }
    }
  }

  /** A saved pending record can always be committed: its dry run already passed. */
  lemma PendingApplies(cfg: Config, n: Node)
    requires ConfigOk(cfg) && NodeOk(cfg, n) && n.pending.Some?
    ensures Apply(cfg, n.core, n.pending.value.mutation).Ok?
  {
    ReplayOk(cfg, n.log);
    TrialPredictsApply(cfg, n.core, n.pending.value.mutation);
  }

  /** Adopting a certificate at the replica's own position keeps every inferred signer. */
  lemma CertificateKeeps(cfg: Config, n: Node, c: Failover.Certificate)
    requires NodeOk(cfg, n) && RecordCertificate(n, c).Ok?
    ensures NodeOk(cfg, RecordCertificate(n, c).value)
  {
    hide Replay, Trial, PositionsOk, Failover.ChainOk, LogOk;
    var n' := RecordCertificate(n, c).value;
    if n'.lead.certificates != n.lead.certificates {
      LogAcceptsCertificate(n.log, n.lead.certificates, c);
    }
  }

  lemma LogAcceptsCertificate(log: seq<Envelope>, cs: seq<Failover.Certificate>, c: Failover.Certificate)
    requires LogOk(log, cs) && c.nonce == |log|
    ensures LogOk(log, cs + [c])
  {
    assert (cs + [c])[..|cs|] == cs;
  }

  lemma ClearKeeps(cfg: Config, n: Node)
    requires NodeOk(cfg, n)
    ensures NodeOk(cfg, n.(pending := None))
  {
  }

  lemma ProposeKeeps(cfg: Config, n: Node, m: Mutation)
    requires NodeOk(cfg, n) && Propose(cfg, n, m).Ok?
    ensures NodeOk(cfg, Propose(cfg, n, m).value)
  {
  }

  lemma PrepareKeeps(cfg: Config, n: Node, e: Envelope)
    requires NodeOk(cfg, n) && PrepareReplica(cfg, n, e).Ok?
    ensures NodeOk(cfg, PrepareReplica(cfg, n, e).value)
  {
  }

  lemma HeartbeatKeeps(cfg: Config, n: Node, h: SignedHeartbeat)
    requires NodeOk(cfg, n) && ReceiveHeartbeat(n, h).Ok?
    ensures NodeOk(cfg, ReceiveHeartbeat(n, h).value)
  {
    hide LogOk, Replay, Trial;
  }

  lemma FirstTickKeeps(cfg: Config, n: Node, tick: int)
    requires NodeOk(cfg, n) && tick >= 0
    ensures NodeOk(cfg, FirstTick(n, tick))
  {
  }

  // ---------------------------------------------------------------- catching up

  lemma TakeKeeps(cfg: Config, n: Node, e: Envelope)
    requires ConfigOk(cfg) && NodeOk(cfg, n) && TakeEntry(cfg, n, e).Ok? && e.nonce == |n.log| + 1
    ensures var t := TakeEntry(cfg, n, e).value;
            NodeOk(cfg, t) && t.log == n.log + [e] && t.pending == None
  {
    if n.pending.None? { PrepareKeeps(cfg, n, e); }
    PrepareLeavesLog(cfg, n, e);
    hide NodeOk, ConfigOk, PrepareReplica, Append;
    var prepared := if n.pending.None? then PrepareReplica(cfg, n, e).value else n;
    CommitKeeps(cfg, prepared, e);
  }

  lemma PrepareLeavesLog(cfg: Config, n: Node, e: Envelope)
    ensures PrepareReplica(cfg, n, e).Ok? ==> PrepareReplica(cfg, n, e).value.log == n.log
  {
    hide Trial, ReplicaAccepts;
  }

  lemma CommitKeeps(cfg: Config, n: Node, e: Envelope)
    requires ConfigOk(cfg) && NodeOk(cfg, n) && CommitReplica(cfg, n, e).Ok? && e.nonce == |n.log| + 1
    ensures var t := CommitReplica(cfg, n, e).value;
            NodeOk(cfg, t) && t.log == n.log + [e] && t.pending == None
  {
    AcceptedIsSigned(n, e);
    hide NodeOk, ConfigOk, ReplicaAccepts, Apply, Genuine;
    AppendKeeps(cfg, n, e);
  }

  lemma AcceptedIsSigned(n: Node, e: Envelope)
    ensures ReplicaAccepts(n, e) ==> e.leader == n.lead.leader && Genuine(e)
  {
    hide Position;
  }

  /** The entries carry the numbers that come after `position`. */
  predicate Follows(entries: seq<Envelope>, position: nat) {
    forall k :: 0 <= k < |entries| ==> entries[k].nonce == position + k + 1
  }

  lemma FollowsTail(entries: seq<Envelope>, position: nat)
    requires entries != [] && Follows(entries, position)
    ensures entries[0].nonce == position + 1 && Follows(entries[1..], position + 1)
  {
  }

  lemma {:induction false} TakenInOrder(cfg: Config, n: Node, entries: seq<Envelope>)
    requires ConfigOk(cfg) && NodeOk(cfg, n)
    requires Follows(entries, |n.log|)
    requires TakeEntries(cfg, n, entries).1
    ensures NodeOk(cfg, TakeEntries(cfg, n, entries).0)
    ensures TakeEntries(cfg, n, entries).0.log == n.log + entries
    ensures entries != [] ==> TakeEntries(cfg, n, entries).0.pending == None
    decreases |entries|
  {
    hide *;
    MoveFirst(n.log, entries);
    if entries == [] {
      NothingTaken(cfg, n);
    } else {
      TakeStep(cfg, n, entries);
      FollowsTail(entries, |n.log|);
      TakeKeeps(cfg, n, entries[0]);
      var next := TakeEntry(cfg, n, entries[0]).value;
      TakenInOrder(cfg, next, entries[1..]);
      NothingTaken(cfg, next);
    }
  }

  lemma MoveFirst(a: seq<Envelope>, b: seq<Envelope>)
    ensures if b == [] then a + b == a else a + b == (a + [b[0]]) + b[1..]
  {
  }

  lemma TakeStep(cfg: Config, n: Node, entries: seq<Envelope>)
    requires entries != [] && TakeEntries(cfg, n, entries).1
    ensures TakeEntry(cfg, n, entries[0]).Ok?
    ensures TakeEntries(cfg, n, entries) == TakeEntries(cfg, TakeEntry(cfg, n, entries[0]).value, entries[1..])
  {
    hide TakeEntry, PrepareReplica;
  }

  lemma NothingTaken(cfg: Config, n: Node)
    ensures TakeEntries(cfg, n, []) == (n, true)
  {
  }

  /** An entry the replica's current leader signed, whose dry run passes after `log`. */
  ghost predicate EntryFits(cfg: Config, leader: Role, log: seq<Envelope>, e: Envelope) {
    && e.leader == leader && Genuine(e)
    && Replay(cfg, log).Ok? && Apply(cfg, Replay(cfg, log).value, e.mutation).Ok?
    && Restore.ReserveUntouched(Replay(cfg, log).value.ledger)
  }

  /** Each entry fits after those before it. */
  ghost predicate EntriesFit(cfg: Config, leader: Role, log: seq<Envelope>, entries: seq<Envelope>)
    decreases |entries|
  {
    entries == []
    || (EntryFits(cfg, leader, log, entries[0]) && EntriesFit(cfg, leader, log + [entries[0]], entries[1..]))
  }

  ghost predicate MayTake(cfg: Config, n: Node, entries: seq<Envelope>) {
    entries == []
    || (&& n.role != n.lead.leader && (n.pending.Some? ==> n.pending.value == entries[0])
        && EntriesFit(cfg, n.lead.leader, n.log, entries))
  }

  lemma TakeEntryIff(cfg: Config, n: Node, e: Envelope)
    requires ConfigOk(cfg) && NodeOk(cfg, n) && e.nonce == |n.log| + 1
    ensures TakeEntry(cfg, n, e).Ok? <==>
            && n.role != n.lead.leader && (n.pending.Some? ==> n.pending.value == e)
            && EntryFits(cfg, n.lead.leader, n.log, e)
  {
    ReplayOk(cfg, n.log);
    TrialPredictsApply(cfg, n.core, e.mutation);
    assert Position(n.positions) == |n.log| && Replay(cfg, n.log) == Ok(n.core);
    AcceptsIff(n, e);
    AcceptsIff(n.(pending := Some(e)), e);
    hide ConfigOk, CoreOk, Trial, Apply, Replay, LogOk, LeadOk, PositionsOk, Restore.ReserveUntouched, ReplicaAccepts;
  }

  lemma AcceptsIff(n: Node, e: Envelope)
    requires Position(n.positions) == |n.log| && e.nonce == |n.log| + 1
    ensures ReplicaAccepts(n, e) <==> n.role != n.lead.leader && e.leader == n.lead.leader && Genuine(e)
  {
    hide Position, Genuine;
  }

  lemma TakeStops(cfg: Config, n: Node, entries: seq<Envelope>)
    requires entries != []
    ensures TakeEntry(cfg, n, entries[0]).Err? ==> !TakeEntries(cfg, n, entries).1
    ensures TakeEntry(cfg, n, entries[0]).Ok? ==>
              TakeEntries(cfg, n, entries) == TakeEntries(cfg, TakeEntry(cfg, n, entries[0]).value, entries[1..])
  {
    hide TakeEntry, PrepareReplica;
  }

  lemma TakeLeavesTerm(cfg: Config, n: Node, e: Envelope)
    requires TakeEntry(cfg, n, e).Ok?
    ensures TakeEntry(cfg, n, e).value.role == n.role && TakeEntry(cfg, n, e).value.lead.leader == n.lead.leader
  {
    hide Trial, Apply, ReplicaAccepts;
  }

  lemma {:induction false} TakesExactly(cfg: Config, n: Node, entries: seq<Envelope>)
    requires ConfigOk(cfg) && NodeOk(cfg, n) && Follows(entries, |n.log|)
    ensures TakeEntries(cfg, n, entries).1 <==> MayTake(cfg, n, entries)
    decreases |entries|
  {
    hide ConfigOk, NodeOk, TakeEntry, TakeEntries, EntryFits;
    if entries == [] {
      NothingTaken(cfg, n);
    } else {
      FollowsTail(entries, |n.log|);
      TakeEntryIff(cfg, n, entries[0]);
      TakeStops(cfg, n, entries);
      hide Follows;
      if TakeEntry(cfg, n, entries[0]).Ok? {
        TakeKeeps(cfg, n, entries[0]);
        TakeLeavesTerm(cfg, n, entries[0]);
        TakesExactly(cfg, TakeEntry(cfg, n, entries[0]).value, entries[1..]);
      }
    }
  }

  /**
   Catching up is exact: a replica takes the whole of a batch that follows its own log if and
   only if it is not the leader, has nothing else pending, and each entry is signed by the
   current leader and passes its dry run after those before it. It then ends with its log
   extended by just those entries, the state they replay to, and nothing pending.
   */
  lemma CatchUpExact(cfg: Config, n: Node, entries: seq<Envelope>)
    requires ConfigOk(cfg) && NodeOk(cfg, n) && Follows(entries, |n.log|)
    ensures TakeEntries(cfg, n, entries).1 <==> MayTake(cfg, n, entries)
    ensures MayTake(cfg, n, entries) ==>
              var t := TakeEntries(cfg, n, entries).0;
              && NodeOk(cfg, t) && t.log == n.log + entries && Replay(cfg, n.log + entries) == Ok(t.core)
              && (entries != [] ==> t.pending == None)
  {
    TakesExactly(cfg, n, entries);
    hide MayTake;
    if TakeEntries(cfg, n, entries).1 {
      TakenInOrder(cfg, n, entries);
    }
    hide TakeEntries, Replay, LogOk, LeadOk, PositionsOk, Trial, ConfigOk;
  }

  // ---------------------------------------------------------------- restart

  lemma {:induction false} CheckLogPasses(log: seq<Envelope>, from: nat, cs: seq<Failover.Certificate>)
    requires from <= |log| && LogOk(log, cs)
    ensures CheckLog(log[from..], from, cs) == Ok(|log|)
    decreases |log| - from
  {
    if from < |log| {
      CheckLogPasses(log, from + 1, cs);
      assert log[from..][1..] == log[from + 1..] && log[from..][0] == log[from];
    }
  }

  /** The constructor's checks beyond the ledger's own: nonces, leadership and log. */
  lemma RestartPasses(cfg: Config, n: Node)
    requires NodeOk(cfg, n)
    requires Restore.FromSnapshot(Restore.SnapshotOf(n.core.ledger), cfg.genesis) == Ok(n.core.ledger)
    requires forall a :: a in n.core.replay ==> n.core.replay[a] >= 0
    requires cfg.registry.None? ==> n.core.replay == map[]
    ensures Restart(cfg, n.role, RecordOf(n)) == Ok(n)
  {
    hide Replay, Trial, Restore.FromSnapshot, Failover.SnapshotOk;
    CheckLogPasses(n.log, 0, n.lead.certificates);
    assert n.log[0..] == n.log;
    hide LogOk, Position;
  }

  /**
   Restart acceptance: the record of a sound replica passes every constructor check, in
   particular the signer inferred for each entry is the one that signed it, and reloads the
   same replica, if and only if no payment to a genesis-locked account has been finalised.
   */
  lemma RestartExact(cfg: Config, n: Node)
    requires ConfigOk(cfg) && NodeOk(cfg, n)
    ensures Restart(cfg, n.role, RecordOf(n)).Ok? <==> Restore.ReserveUntouched(n.core.ledger)
    ensures Restore.ReserveUntouched(n.core.ledger) ==> Restart(cfg, n.role, RecordOf(n)) == Ok(n)
  {
    ReplayOk(cfg, n.log);
    Restore.RestoreExact(n.core.ledger, StartBalances(cfg));
    hide Inv, NothingOverdue, Restore.FromSnapshot, Restore.ReserveUntouched, NodeOk;
    if Restore.ReserveUntouched(n.core.ledger) {
      RestartPasses(cfg, n);
    }
  }
}
