/** What a refusal means: a proposal withdrawn for want of an acknowledgement is never committed. */
module ClusterRefusals {
  import opened Common
  import opened NodeModel
  import opened NodeInvariants
  import opened Failover
  import opened Spine
  import opened Cluster
  import opened ClusterSafety
  import opened ClusterTheorems

  /** The signer neither holds the envelope nor is trying to commit it. */
  ghost predicate Withdrawn(c: Cluster, e: Envelope) {
    && e !in c.At(e.leader).node.log
    && (c.At(e.leader).attempt.Some? ==> c.At(e.leader).attempt.value.envelope != e)
  }

  lemma BeginStays(cfg: Config, c: Cluster, r: Role, m: Mutation, e: Envelope)
    requires Withdrawn(c, e) && (r != e.leader || m != e.mutation)
    ensures Withdrawn(DoBegin(cfg, c, r, m), e)
  {
    hide Trial, Position;
  }

  /** A replica takes entries only from a leader that is not itself. */
  lemma AcceptsOther(n: Node, e: Envelope)
    ensures ReplicaAccepts(n, e) ==> e.leader == n.lead.leader && e.leader != n.role
  {
    hide Position;
  }

  lemma CommitStays(cfg: Config, c: Cluster, to: Role, other: Envelope, e: Envelope)
    requires ClusterOk(cfg, c) && Withdrawn(c, e)
    ensures Withdrawn(DoCommit(cfg, c, to, other), e)
  {
    assert c.At(to).node.role == to by { MemberIs(cfg, c, to); }
    hide ClusterOk, Apply, EnvelopeOk;
    assert ReplicaAccepts(c.At(to).node, other) ==> other.leader != to by { AcceptsOther(c.At(to).node, other); }
    hide ReplicaAccepts;
  }

  lemma DecideStays(cfg: Config, c: Cluster, r: Role, peer: Role, e: Envelope)
    requires Withdrawn(c, e)
    ensures Withdrawn(DoDecide(cfg, c, r, peer), e)
  {
    hide Apply;
  }

  lemma CrashStays(cfg: Config, c: Cluster, r: Role, e: Envelope)
    requires Withdrawn(c, e)
    ensures Withdrawn(DoCrash(cfg, c, r), e)
  {
    hide Restore.FromSnapshot, Failover.FromSnapshot, LogFits, Position;
  }

  lemma PrepareStays(cfg: Config, c: Cluster, to: Role, other: Envelope, rid: Option<nat>, e: Envelope)
    requires Withdrawn(c, e)
    ensures Withdrawn(DoPrepare(cfg, c, to, other, rid), e)
  {
    hide Trial, ReplicaAccepts;
  }

  lemma CertificateStays(c: Cluster, r: Role, cert: Certificate, e: Envelope)
    requires Withdrawn(c, e)
    ensures Withdrawn(DoCertificate(c, r, cert), e) && Withdrawn(DoRecover(c, r, cert), e)
  {
    hide Failover.Adopt, Position;
  }

  lemma HeartbeatStays(c: Cluster, to: Role, h: SignedHeartbeat, e: Envelope)
    requires Withdrawn(c, e)
    ensures Withdrawn(DoHeartbeat(c, to, h), e) && Withdrawn(DoLeaderTick(c, to, h.tick), e)
  {
    hide Failover.Beat, Position;
  }

  /** Only the signer's own new attempt at the same request can bring a withdrawn envelope back. */
  lemma WithdrawnStays(cfg: Config, c: Cluster, step: Step, e: Envelope)
    requires ClusterOk(cfg, c) && Withdrawn(c, e) && step != Begin(e.leader, e.mutation)
    ensures Withdrawn(Next(cfg, c, step), e)
  {
    hide ClusterOk, DoBegin, DoCommit, DoDecide, DoCrash, DoPrepare, DoCertificate, DoRecover, DoHeartbeat,
      DoLeaderTick, TimeoutVote, Submit, FromSnapshot, Position;
    match step
    case Begin(r, m) => BeginStays(cfg, c, r, m, e);
    case DeliverCommit(to, other) => CommitStays(cfg, c, to, other, e);
    case Decide(r, peer) => DecideStays(cfg, c, r, peer, e);
    case CrashRestart(r) => CrashStays(cfg, c, r, e);
    case DeliverPrepare(to, other, rid) => PrepareStays(cfg, c, to, other, rid, e);
    case DeliverCertificate(to, cert) => CertificateStays(c, to, cert, e);
    case Recover(r, cert) => CertificateStays(c, r, cert, e);
    case DeliverHeartbeat(to, h) => HeartbeatStays(c, to, h, e);
    case LeaderTick(r, tick) => HeartbeatStays(c, r, SignHeartbeat(r, 0, tick, 0), e);
    case _ =>
  }

  /** Withdrawing the attempt leaves its envelope out of the signer's log: it was the next entry. */
  lemma GiveUpWithdraws(cfg: Config, c: Cluster, r: Role)
    requires ClusterOk(cfg, c) && c.At(r).attempt.Some? && !c.At(r).attempt.value.decided
    ensures c.At(r).attempt.value.envelope.leader == r
    ensures Withdrawn(DoGiveUp(c, r), c.At(r).attempt.value.envelope)
  {
    MemberIs(cfg, c, r);
    var e := c.At(r).attempt.value.envelope;
    hide ClusterOk, Replay, Trial, LeadOk, PositionsOk;
    forall k | 0 <= k < |c.At(r).node.log|
      ensures c.At(r).node.log[k] != e
    {
    }
  }

  lemma {:induction false} WithdrawnThroughout(cfg: Config, before: seq<Step>, after: seq<Step>, e: Envelope)
    requires ConfigOk(cfg) && Withdrawn(Execution(cfg, before), e)
    requires Begin(e.leader, e.mutation) !in after
    ensures Withdrawn(Execution(cfg, before + after), e)
  {
    hide Withdrawn, ClusterOk, Next;
    if after == [] {
      assert before + after == before;
    } else {
      var front, last := after[..|after| - 1], after[|after| - 1];
      var all := before + after;
      assert all[..|all| - 1] == before + front && all[|all| - 1] == last;
      WithdrawnThroughout(cfg, before, front, e);
      RunIsOk(cfg, before + front);
      WithdrawnStays(cfg, Execution(cfg, before + front), last, e);
    }
  }

  /**
   A refusal is definite: once a leader has withdrawn a proposal, its envelope is in no
   node's log at any later point of any run in which the client does not submit that same
   request to that leader again, whatever prepares and acknowledgements are still under way.
   */
  lemma RefusedNeverCommitted(cfg: Config, before: seq<Step>, r: Role, after: seq<Step>, q: Role)
    requires ConfigOk(cfg)
    requires var a := Execution(cfg, before).At(r).attempt; a.Some? && !a.value.decided
    requires Begin(r, Execution(cfg, before).At(r).attempt.value.envelope.mutation) !in after
    ensures Execution(cfg, before).At(r).attempt.value.envelope
            !in Execution(cfg, before + [GiveUp(r)] + after).At(q).node.log
  {
    var c := Execution(cfg, before);
    var e := c.At(r).attempt.value.envelope;
    RunIsOk(cfg, before);
    GiveUpWithdraws(cfg, c, r);
    var refused := before + [GiveUp(r)];
    assert refused[..|refused| - 1] == before && refused[|refused| - 1] == GiveUp(r);
    assert Execution(cfg, refused) == DoGiveUp(c, r);
    hide DoGiveUp, Next, ClusterOk;
    WithdrawnThroughout(cfg, refused, after, e);
    var end := Execution(cfg, refused + after);
    RunIsOk(cfg, refused + after);
    hide Execution;
    forall k | 0 <= k < |end.At(q).node.log|
      ensures end.At(q).node.log[k] != e
    {
      OwnEntry(cfg, end, q, k);
      hide NodeOk;
      if end.At(q).node.log[k].leader == e.leader {
        HeldIsLogged(end, end.At(q).node.log[k]);
      }
    }
  }

  lemma HeldIsLogged(c: Cluster, e: Envelope)
    requires Holds(SpineOf(c), e.leader, e)
    ensures e in c.At(e.leader).node.log
  {
    SpineAt(c, e.leader);
    var log := c.At(e.leader).node.log;
    assert log[e.nonce - 1] == e;
  }
}
