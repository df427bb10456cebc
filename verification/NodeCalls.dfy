/** Exactly which replica calls, certificates and saved records a node takes. */
module NodeCalls {
  import opened Common
  import opened NodeModel
  import opened NodeInvariants
  import Restore
  import Failover
  import Certificates

  // ----- Positions and signers -----

  /** The committed position: the largest saved number, or zero. */
  lemma PositionIs(p: map<Role, int>)
    ensures p == map[] ==> Position(p) == 0
    ensures p != map[] ==> Position(p) in p.Values && forall r :: r in p ==> p[r] <= Position(p)
  {
    var values := PositionsOf(p);
    if r :| r in p {
      forall q | q in p
        ensures p[q] in values
      {
        match q
        case Primary => assert values[0] == p[q];
        case Secondary => assert values[if Failover.Primary in p then 1 else 0] == p[q];
        case Tertiary => assert values[|values| - 1] == p[q];
      }
      assert p[r] in values && forall v :: v in values ==> v in p.Values;
    }
  }

  /** The signer after a position: the last certified leader at or before it, or the first leader. */
  lemma {:induction false} ExpectedSignerIs(cs: seq<Failover.Certificate>, last: int)
    ensures (forall i :: 0 <= i < |cs| ==> cs[i].nonce > last) ==> ExpectedSigner(cs, last) == Failover.Primary
    ensures forall i :: 0 <= i < |cs| && cs[i].nonce <= last && (forall j :: i < j < |cs| ==> cs[j].nonce > last) ==>
              ExpectedSigner(cs, last) == cs[i].leader
  {
    if cs != [] {
      var n := |cs| - 1;
      ExpectedSignerIs(cs[..n], last);
      assert forall i :: 0 <= i < n ==> cs[..n][i] == cs[i];
    }
  }

  // ----- Replication calls -----

  /** An envelope of the current leader, sealed by it, beyond the replica's position. */
  predicate FromLeader(n: Node, e: Envelope) {
    && e.leader == n.lead.leader && n.role != n.lead.leader
    && e.nonce > Position(n.positions) && e.signature == Sealed(e.leader, e.nonce, e.mutation)
  }

  lemma PrepareIff(cfg: Config, n: Node, e: Envelope)
    ensures PrepareReplica(cfg, n, e).Ok? <==>
              FromLeader(n, e) && (n.pending == Some(e) || (n.pending.None? && Trial(cfg, n.core, e.mutation).Ok?))
    ensures PrepareReplica(cfg, n, e).Ok? ==> PrepareReplica(cfg, n, e).value == n.(pending := Some(e))
  {
    hide Trial, Position;
  }

  lemma CommitIff(cfg: Config, n: Node, e: Envelope)
    ensures CommitReplica(cfg, n, e).Ok? <==>
              FromLeader(n, e) && n.pending == Some(e) && Apply(cfg, n.core, e.mutation).Ok?
    ensures CommitReplica(cfg, n, e).Ok? ==>
              CommitReplica(cfg, n, e).value ==
                Node(n.role, Apply(cfg, n.core, e.mutation).value, n.log + [e], None,
                     n.positions[e.leader := e.nonce], n.lead.(nonce := e.nonce))
  {
    hide Apply, Position;
  }

  lemma AbortIff(n: Node, e: Envelope)
    ensures AbortReplica(n, e).Ok? <==> FromLeader(n, e) && (n.pending.None? || n.pending == Some(e))
    ensures AbortReplica(n, e).Ok? ==> AbortReplica(n, e).value == n.(pending := None)
  {
    hide Position;
  }

  /** A certificate is recorded again, or adopted at the replica's own position, fencing what was prepared. */
  lemma RecordIff(n: Node, c: Failover.Certificate)
    requires Failover.Live(n.lead)
    ensures RecordCertificate(n, c).Ok? <==>
              || (n.lead.certificates != [] && c == n.lead.certificates[|n.lead.certificates| - 1])
              || (&& n.lead.nonce == Position(n.positions) == c.nonce && n.lead.term < 2
                  && Failover.CertificateOk(
                       c, n.lead.term + 1, n.lead.timeout,
                       Failover.TickAfter(n.lead.certificates, n.lead.term),
                       Failover.NonceAfter(n.lead.certificates, n.lead.term)))
    ensures RecordCertificate(n, c).Ok?
            && (n.lead.certificates == [] || c != n.lead.certificates[|n.lead.certificates| - 1]) ==>
              var n' := RecordCertificate(n, c).value;
              && n'.pending.None? && n'.lead.term == n.lead.term + 1 && n'.lead.leader == c.leader
              && n'.lead.certificates == n.lead.certificates + [c]
              && n' == n.(pending := None, lead := n'.lead)
  {
    Certificates.AdoptIff(n.lead, c);
    hide Failover.Adopt, Failover.CertificateOk, Failover.ChainOk, Position;
  }

  // ----- Saved records -----

  /** The last entries up to a position: numbered without a gap, each sealed by the leader of its time. */
  ghost predicate EndsAt(log: seq<Envelope>, position: int, cs: seq<Failover.Certificate>) {
    && |log| <= position
    && forall k :: 0 <= k < |log| ==>
         log[k] == SignEnvelope(ExpectedSigner(cs, position - |log| + k), position - |log| + k + 1, log[k].mutation)
  }

  /** The log's numbers climb from below it to its last, so each entry is one more than the one before. */
  lemma {:induction false} CheckClimbs(log: seq<Envelope>, last: int, cs: seq<Failover.Certificate>)
    requires CheckLog(log, last, cs).Ok?
    ensures CheckLog(log, last, cs).value >= last + |log|
    decreases |log|
  {
    if log != [] {
      CheckClimbs(log[1..], log[0].nonce, cs);
    }
  }

  lemma {:induction false} CheckLogIff(log: seq<Envelope>, position: int, cs: seq<Failover.Certificate>)
    requires |log| <= position
    ensures CheckLog(log, position - |log|, cs) == Ok(position) <==> EndsAt(log, position, cs)
    decreases |log|
  {
    hide ExpectedSigner;
    if log != [] {
      var start := position - |log|;
      CheckLogIff(log[1..], position, cs);
      if CheckLog(log, start, cs) == Ok(position) {
        CheckClimbs(log[1..], log[0].nonce, cs);
        assert log[0].nonce == start + 1;
        forall k | 0 <= k < |log|
          ensures log[k] == SignEnvelope(ExpectedSigner(cs, start + k), start + k + 1, log[k].mutation)
        {
          if k > 0 { assert log[1..][k - 1] == log[k]; }
        }
      }
      if EndsAt(log, position, cs) {
        assert log[0].nonce == start + 1;
        forall k | 0 <= k < |log| - 1
          ensures log[1..][k] == SignEnvelope(ExpectedSigner(cs, start + 1 + k), start + k + 2, log[1..][k].mutation)
        {
          assert log[1..][k] == log[k + 1];
        }
      }
    }
  }

  /**
   A saved record is accepted exactly if its ledger is, its nonces are not negative, its leadership
   is valid and at the committed position, and its log ends there: numbered without a gap, every
   entry sealed by the last leader certified before it. The node then is what the record says,
   its votes forgotten.
   */
  lemma RestartIff(cfg: Config, role: Role, saved: Record)
    ensures Restart(cfg, role, saved).Ok? <==>
              && Restore.FromSnapshot(saved.ledger, cfg.genesis).Ok?
              && (cfg.registry.Some? ==> forall a :: a in saved.replay ==> saved.replay[a] >= 0)
              && Failover.SnapshotOk(saved.leadership) && saved.leadership.nonce == Position(saved.positions)
              && (saved.log == [] || EndsAt(saved.log, Position(saved.positions), saved.leadership.certificates))
    ensures Restart(cfg, role, saved).Ok? ==>
              var s := saved.leadership;
              Restart(cfg, role, saved).value ==
                Node(role, Core(Restore.FromSnapshot(saved.ledger, cfg.genesis).value,
                                if cfg.registry.Some? then saved.replay else map[]),
                     saved.log, saved.pending, saved.positions,
                     Failover.Leadership(s.timeout, s.term, s.leader, s.tick, s.nonce, [], s.certificates))
  {
    var position := Position(saved.positions);
    hide Position, Restore.FromSnapshot, Failover.SnapshotOk;
    if |saved.log| <= position {
      CheckLogIff(saved.log, position, saved.leadership.certificates);
    }
    hide CheckLog;
  }
}
