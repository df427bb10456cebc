/** The safety theorems of the cluster, over every interleaving of steps from the start. */
module ClusterTheorems {
  import opened Common
  import opened NodeModel
  import opened NodeInvariants
  import opened Failover
  import opened Spine
  import opened Cluster
  import opened ClusterSafety
  import Restore

  lemma StartIsOk(cfg: Config)
    ensures ClusterOk(cfg, Start(cfg))
  {
    forall r
      ensures MemberOk(cfg, Start(cfg), r) && AttemptOk(Start(cfg), r)
    {
      FreshNodeOk(cfg, r);
      hide NodeOk;
    }
    hide MemberOk, AttemptOk, NodeOk;
    EmptySpineOk(SpineOf(Start(cfg)));
    hide SpineOk;
  }

  lemma SendPrepareKeeps(cfg: Config, c: Cluster, r: Role, to: Role)
    requires ClusterOk(cfg, c)
    ensures ClusterOk(cfg, DoSendPrepare(c, r, to))
  {
    hide NodeOk, SpineOk, ClusterOk;
    if DoSendPrepare(c, r, to) != c {
      var a := c.At(r).attempt.value;
      MemberIs(cfg, c, r);
      var q: nat :| q >= |c.At(r).node.log| && PositionReport(to, q) in c.net;
      MessageIs(cfg, c, PositionReport(to, q));
      SendKeeps(cfg, c, {PrepareRequest(to, a.envelope, Some(a.rid))});
    }
  }

  lemma PushKeeps(cfg: Config, c: Cluster, r: Role, to: Role, k: nat)
    requires ClusterOk(cfg, c)
    ensures ClusterOk(cfg, DoPush(c, r, to, k))
  {
    hide NodeOk, SpineOk, ClusterOk;
    if DoPush(c, r, to, k) != c {
      var e := c.At(r).node.log[k];
      OwnEntry(cfg, c, r, k);
      var q: nat :| q >= k && PositionReport(to, q) in c.net;
      MessageIs(cfg, c, PositionReport(to, q));
      SendKeeps(cfg, c, {PrepareRequest(to, e, None), CommitRequest(to, e)});
    }
  }

  lemma PullKeeps(cfg: Config, c: Cluster, r: Role, from: Role, e: Envelope)
    requires ClusterOk(cfg, c)
    ensures ClusterOk(cfg, DoPull(c, r, from, e))
  {
    hide NodeOk, SpineOk, ClusterOk;
    if DoPull(c, r, from, e) != c {
      MemberIs(cfg, c, r);
      MessageIs(cfg, c, HistoryEntry(from, e));
      SendKeeps(cfg, c, {PrepareRequest(r, e, None), CommitRequest(r, e)});
    }
  }

  lemma ReportPositionKeeps(cfg: Config, c: Cluster, r: Role)
    requires ClusterOk(cfg, c)
    ensures ClusterOk(cfg, c.Send({PositionReport(r, |c.At(r).node.log|)}))
  {
    hide NodeOk, SpineOk, ClusterOk, LineOk, MemberOk, AttemptOk;
    MemberIs(cfg, c, r);
    SendKeeps(cfg, c, {PositionReport(r, |c.At(r).node.log|)});
  }

  lemma ReportHistoryKeeps(cfg: Config, c: Cluster, r: Role, k: nat)
    requires ClusterOk(cfg, c) && k < |c.At(r).node.log|
    ensures ClusterOk(cfg, c.Send({HistoryEntry(r, c.At(r).node.log[k])}))
  {
    hide NodeOk, SpineOk, ClusterOk, LineOk, MemberOk, AttemptOk;
    OwnEntry(cfg, c, r, k);
    SendKeeps(cfg, c, {HistoryEntry(r, c.At(r).node.log[k])});
  }

  lemma ShowCertificateKeeps(cfg: Config, c: Cluster, r: Role)
    requires ClusterOk(cfg, c)
    ensures ClusterOk(cfg, DoShowCertificate(c, r))
  {
    hide NodeOk, SpineOk, ClusterOk, MemberOk, AttemptOk;
    var cs := c.At(r).node.lead.certificates;
    if cs != [] {
      MemberIs(cfg, c, r);
      assert CertifiedBy(SpineOf(c), r, cs[|cs| - 1]);
      hide LineOk;
      SendKeeps(cfg, c, {CertificateHeld(r, cs[|cs| - 1])});
    }
  }

  /** Every entry of every log is also in the log of its signer, under its own number. */
  lemma OwnEntry(cfg: Config, c: Cluster, r: Role, k: nat)
    requires ClusterOk(cfg, c) && k < |c.At(r).node.log|
    ensures var e := c.At(r).node.log[k];
            e.nonce == k + 1 && Holds(SpineOf(c), r, e) && Holds(SpineOf(c), e.leader, e)
  {
    MemberIs(cfg, c, r);
    var ls := SpineOf(c);
    var e := c.At(r).node.log[k];
    assert FollowsSigner(ls, r, k);
    assert ls.Of(r).log[..k + 1][k] == e && ls.Of(e.leader).log[..k + 1][k] == e;
  }

  lemma AdmitKeeps(cfg: Config, c: Cluster, r: Role)
    requires ClusterOk(cfg, c) && c.At(r).node.lead.leader == r
    ensures ClusterOk(cfg, c.With(r, c.At(r).(admitted := true)))
  {
    hide NodeOk, SpineOk;
    var c' := c.With(r, c.At(r).(admitted := true));
    MemberIs(cfg, c, r);
    PositionIsLength(cfg, c, r);
    SpineAt(c', r);
    hide ClusterOk;
    QuietKeeps(cfg, c, c', r);
  }

  /** Every step keeps the cluster invariant. */
  lemma NextKeeps(cfg: Config, c: Cluster, step: Step)
    requires ConfigOk(cfg) && ClusterOk(cfg, c)
    ensures ClusterOk(cfg, Next(cfg, c, step))
  {
    hide ClusterOk, ConfigOk, DoShowCertificate, DoSendPrepare, DoPush, DoPull, DoBegin, DoPrepare, DoCommit;
    hide DoAbort, DoDecide, DoAcknowledge, DoLeaderTick, DoHeartbeat, DoRequestVote, DoAnswerVote;
    hide DoCertify, DoCertificate, DoRecover, DoCrash;
    match step
    case Admit(r) => if c.At(r).node.lead.leader == r { AdmitKeeps(cfg, c, r); }
    case Begin(r, m) => BeginKeeps(cfg, c, r, m);
    case DeliverPrepare(to, e, rid) => PrepareStepKeeps(cfg, c, to, e, rid);
    case DeliverCommit(to, e) => CommitStepKeeps(cfg, c, to, e);
    case DeliverAbort(to, e) => AbortStepKeeps(cfg, c, to, e);
    case Decide(r, peer) => DecideKeeps(cfg, c, r, peer);
    case GiveUp(r) => GiveUpKeeps(cfg, c, r);
    case Acknowledge(r, peer) => AcknowledgeKeeps(cfg, c, r, peer);
    case LeaveUncertain(r) => LeaveKeeps(cfg, c, r);
    case DropStale(r) => DropStaleKeeps(cfg, c, r);
    case LeaderTick(r, tick) => LeaderTickKeeps(cfg, c, r, tick);
    case DeliverHeartbeat(to, h) => HeartbeatStepKeeps(cfg, c, to, h);
    case StartClock(r, now) => StartClockKeeps(cfg, c, r, now);
    case RequestVote(r, to, tick) => RequestVoteKeeps(cfg, c, r, to, tick);
    case AnswerVote(w, v, ledger, clock) => AnswerVoteKeeps(cfg, c, w, v, ledger, clock);
    case Certify(r, own, other) => CertifyKeeps(cfg, c, r, own, other);
    case DeliverCertificate(to, cert) => CertificateStepKeeps(cfg, c, to, cert);
    case Recover(r, cert) => RecoverKeeps(cfg, c, r, cert);
    case CrashRestart(r) => CrashKeeps(cfg, c, r);
    case SendPrepare(r, to) => SendPrepareKeeps(cfg, c, r, to);
    case Push(r, to, k) => PushKeeps(cfg, c, r, to, k);
    case Pull(r, from, e) => PullKeeps(cfg, c, r, from, e);
    case ReportPosition(r) => if c.At(r).node.lead.leader != r { ReportPositionKeeps(cfg, c, r); }
    case ReportHistory(r, k) => if c.Free(r) && k < |c.At(r).node.log| { ReportHistoryKeeps(cfg, c, r, k); }
    case ShowCertificate(r) => ShowCertificateKeeps(cfg, c, r);
  }

  lemma {:induction false} RunIsOk(cfg: Config, steps: seq<Step>)
    requires ConfigOk(cfg)
    ensures ClusterOk(cfg, Execution(cfg, steps))
  {
    hide ClusterOk, ConfigOk;
    if steps == [] {
      StartIsOk(cfg);
    } else {
      RunIsOk(cfg, steps[..|steps| - 1]);
      NextKeeps(cfg, Execution(cfg, steps[..|steps| - 1]), steps[|steps| - 1]);
    }
  }

  // ---------------------------------------------------------------- acknowledged durability

  lemma AckedKept(cfg: Config, c: Cluster, step: Step)
    ensures c.acked <= Next(cfg, c, step).acked
  {
  }

  lemma {:induction false} AckedForever(cfg: Config, before: seq<Step>, after: seq<Step>)
    ensures Execution(cfg, before).acked <= Execution(cfg, before + after).acked
  {
    if after == [] {
      assert before + after == before;
    } else {
      var all := before + after;
      assert all[..|all| - 1] == before + after[..|after| - 1];
      AckedForever(cfg, before, after[..|after| - 1]);
      AckedKept(cfg, Execution(cfg, all[..|all| - 1]), all[|all| - 1]);
    }
  }

  /**
   Acknowledged durability: once a client has been told that an entry succeeded, then in
   every continuation of the run the entry is at its index in the log of every node that
   has been certified leader for the same or a later term.
   */
  lemma AcknowledgedDurable(cfg: Config, before: seq<Step>, after: seq<Step>, e: Envelope, leader: Role)
    requires ConfigOk(cfg) && e in Execution(cfg, before).acked
    requires |Execution(cfg, before + after).At(leader).node.lead.certificates| >= Index(leader) >= Index(e.leader)
    ensures var log := Execution(cfg, before + after).At(leader).node.log;
            1 <= e.nonce <= |log| && log[e.nonce - 1] == e
  {
    var c := Execution(cfg, before + after);
    RunIsOk(cfg, before + after);
    AckedForever(cfg, before, after);
    assert TwoCopies(SpineOf(c), e);
    var replica :| replica != e.leader && Holds(SpineOf(c), replica, e);
    MemberIs(cfg, c, leader);
    TwoCopiesSurvive(SpineOf(c), e, replica, leader);
  }

  lemma SurvivesInLater(ls: Lines, e: Envelope, later: Envelope)
    requires SpineOk(ls) && TwoCopies(ls, e) && TwoCopies(ls, later)
    requires Index(e.leader) <= Index(later.leader) && e.nonce == later.nonce
    ensures e == later
  {
    hide LinesOk, Ordered, Crossings, Origin, Endorsed;
    SignerAdopted(ls, later);
    hide SpineOk;
    var replica :| replica != e.leader && Holds(ls, replica, e);
    TwoCopiesSurvive(ls, e, replica, later.leader);
  }

  lemma AckedTwice(cfg: Config, c: Cluster, e: Envelope)
    requires ClusterOk(cfg, c) && e in c.acked
    ensures TwoCopies(SpineOf(c), e) && SpineOk(SpineOf(c))
  {
  }

  /** Clients are never told of two different entries at one index, whoever told them. */
  lemma SuccessesNeverConflict(cfg: Config, steps: seq<Step>, e1: Envelope, e2: Envelope)
    requires ConfigOk(cfg) && e1 in Execution(cfg, steps).acked && e2 in Execution(cfg, steps).acked
    requires e1.nonce == e2.nonce
    ensures e1 == e2
  {
    hide Execution, ClusterOk, TwoCopies, SpineOk;
    var c := Execution(cfg, steps);
    RunIsOk(cfg, steps);
    AckedTwice(cfg, c, e1);
    AckedTwice(cfg, c, e2);
    if Index(e1.leader) <= Index(e2.leader) {
      SurvivesInLater(SpineOf(c), e1, e2);
    } else {
      SurvivesInLater(SpineOf(c), e2, e1);
    }
  }

  // ---------------------------------------------------------------- logs, terms and restarts

  /** Gap-free prefix logs: entry `k` carries number `k + 1`, and a log is a prefix of its term leader's. */
  lemma {:induction false} PrefixLogs(cfg: Config, steps: seq<Step>, r: Role)
    requires ConfigOk(cfg)
    ensures var c := Execution(cfg, steps);
            && (forall k :: 0 <= k < |c.At(r).node.log| ==> c.At(r).node.log[k].nonce == k + 1)
            && 0 <= c.At(r).node.lead.term < ROLE_COUNT
            && c.At(r).node.lead.leader == RoleAt(c.At(r).node.lead.term)
            && c.At(r).node.log <= c.At(c.At(r).node.lead.leader).node.log
            && Position(c.At(r).node.positions) == |c.At(r).node.log|
  {
    var c := Execution(cfg, steps);
    RunIsOk(cfg, steps);
    MemberIs(cfg, c, r);
    MemberIs(cfg, c, c.At(r).node.lead.leader);
    PositionIsLength(cfg, c, r);
    FollowsLeader(SpineOf(c), r);
  }

  /**
   Crossing agreement: all nodes that have adopted a term did so with the very same
   certificate, at the same position, with identical logs and identical replayed state.
   */
  lemma {:induction false} CrossingAgreement(cfg: Config, steps: seq<Step>, r: Role, q: Role, i: nat)
    requires ConfigOk(cfg)
    requires i < |Execution(cfg, steps).At(r).node.lead.certificates|
    requires i < |Execution(cfg, steps).At(q).node.lead.certificates|
    ensures var a, b := Execution(cfg, steps).At(r).node, Execution(cfg, steps).At(q).node;
            var n := a.lead.certificates[i].nonce;
            && a.lead.certificates[i] == b.lead.certificates[i]
            && 0 <= n <= |a.log| && n <= |b.log| && a.log[..n] == b.log[..n]
            && Replay(cfg, a.log[..n]) == Replay(cfg, b.log[..n])
  {
    var c := Execution(cfg, steps);
    RunIsOk(cfg, steps);
    MemberIs(cfg, c, r);
    MemberIs(cfg, c, q);
    hide ClusterOk, Execution, NodeOk;
    assert Agreed(SpineOf(c), r, q, i);
  }

  /** Two nodes in one term at one position hold the same log, ledger and replay table. */
  lemma {:induction false} SamePositionSameState(cfg: Config, steps: seq<Step>, r: Role, q: Role)
    requires ConfigOk(cfg)
    requires Execution(cfg, steps).At(r).node.lead.term == Execution(cfg, steps).At(q).node.lead.term
    requires |Execution(cfg, steps).At(r).node.log| == |Execution(cfg, steps).At(q).node.log|
    ensures Execution(cfg, steps).At(r).node.log == Execution(cfg, steps).At(q).node.log
    ensures Execution(cfg, steps).At(r).node.core == Execution(cfg, steps).At(q).node.core
  {
    var c := Execution(cfg, steps);
    RunIsOk(cfg, steps);
    PrefixLogs(cfg, steps, r);
    PrefixLogs(cfg, steps, q);
    MemberIs(cfg, c, r);
    MemberIs(cfg, c, q);
  }

  /**
   Replayed state: a node's ledger and nonce table are the replay of its log, no signed
   request runs twice along it, and a saved prepare can always be committed.
   */
  lemma {:induction false} StateIsReplay(cfg: Config, steps: seq<Step>, r: Role)
    requires ConfigOk(cfg)
    ensures var n := Execution(cfg, steps).At(r).node;
            && Replay(cfg, n.log) == Ok(n.core)
            && CoreOk(cfg, n.core)
            && (n.pending.Some? ==> Apply(cfg, n.core, n.pending.value.mutation).Ok?)
            && (forall i, j :: 0 <= i < j < |n.log| && cfg.registry.Some? ==>
                  n.log[i].mutation.auth.Some? && n.log[j].mutation.auth.Some?
                  && (n.log[i].mutation.auth.value.actor == n.log[j].mutation.auth.value.actor
                      ==> n.log[i].mutation.auth.value.nonce < n.log[j].mutation.auth.value.nonce))
  {
    hide ClusterOk, Execution, Apply, Trial, LogOk, LeadOk, PositionsOk, ConfigOk, CoreOk;
    var c := Execution(cfg, steps);
    var n := c.At(r).node;
    RunIsOk(cfg, steps);
    MemberIs(cfg, c, r);
    ReplayOk(cfg, n.log);
    if n.pending.Some? { PendingApplies(cfg, n); }
    hide NodeOk, Replay;
    forall i, j | 0 <= i < j < |n.log| && cfg.registry.Some?
      ensures n.log[i].mutation.auth.Some? && n.log[j].mutation.auth.Some?
              && (n.log[i].mutation.auth.value.actor == n.log[j].mutation.auth.value.actor
                  ==> n.log[i].mutation.auth.value.nonce < n.log[j].mutation.auth.value.nonce)
    {
      NoncesIncrease(cfg, n.log, i, j);
    }
  }

  /** Restart acceptance: at any point of any run, a node's saved record reloads that node. */
  lemma {:induction false} RestartAccepted(cfg: Config, steps: seq<Step>, r: Role)
    requires ConfigOk(cfg)
    ensures var n := Execution(cfg, steps).At(r).node;
            && (Restart(cfg, r, RecordOf(n)).Ok? <==> Restore.ReserveUntouched(n.core.ledger))
            && (Restore.ReserveUntouched(n.core.ledger) ==> Restart(cfg, r, RecordOf(n)) == Ok(n))
  {
    RunIsOk(cfg, steps);
    MemberIs(cfg, Execution(cfg, steps), r);
    RestartExact(cfg, Execution(cfg, steps).At(r).node);
  }
}
