/** Exactly which heartbeats and votes are taken, and what a heartbeat protects its leader from. */
module Heartbeats {
  import opened Common
  import LedgerModel
  import opened NodeModel
  import opened NodeInvariants
  import opened Election
  import opened Failover
  import Cluster
  import ClusterSafety
  import ClusterTheorems

  // ----- Heartbeats -----

  /** A heartbeat counts exactly if the current leader dates a later tick and no earlier position. */
  lemma BeatIff(s: Leadership, leader: Role, term: int, tick: int, nonce: int)
    ensures Beat(s, leader, term, tick, nonce).Ok? <==>
              leader == s.leader && term == s.term && tick > s.tick && nonce >= s.nonce
    ensures Beat(s, leader, term, tick, nonce).Ok? ==>
              Beat(s, leader, term, tick, nonce).value == s.(tick := tick, nonce := nonce, votes := [])
  {
  }

  /** A replica takes a sealed heartbeat of its own position, new or a repeat of the last tick. */
  lemma ReceiveHeartbeatIff(n: Node, h: SignedHeartbeat)
    ensures ReceiveHeartbeat(n, h).Ok? <==>
              && h.seal == BeatSealed(h.leader, h.term, h.tick, h.nonce)
              && h.nonce == Position(n.positions)
              && (|| h.tick == n.lead.tick
                  || (h.leader == n.lead.leader && h.term == n.lead.term
                      && h.tick > n.lead.tick && h.nonce >= n.lead.nonce))
    ensures ReceiveHeartbeat(n, h).Ok? ==>
              ReceiveHeartbeat(n, h).value ==
                if h.tick == n.lead.tick then n
                else n.(lead := n.lead.(tick := h.tick, nonce := h.nonce, votes := []))
  {
    hide Position;
  }

  /** A leader dates every later tick; a node that no longer leads dates none. */
  lemma LeaderBeatIff(n: Node, tick: int)
    ensures LeaderBeat(n, tick).Ok? <==>
              tick <= n.lead.tick || (n.role == n.lead.leader && Position(n.positions) >= n.lead.nonce)
    ensures LeaderBeat(n, tick).Ok? ==>
              LeaderBeat(n, tick).value ==
                if tick <= n.lead.tick then n
                else n.(lead := n.lead.(tick := tick, nonce := Position(n.positions), votes := []))
  {
    hide Position;
  }

  /** What a leader announces, every follower at its position takes, until it is fenced. */
  lemma AnnouncedIsTaken(n: Node, follower: Node, tick: int)
    requires n.role == n.lead.leader && n.lead.nonce <= Position(n.positions) && tick > n.lead.tick
    requires follower.lead.leader == n.lead.leader && follower.lead.term == n.lead.term
    requires follower.lead.nonce <= Position(follower.positions) == Position(n.positions)
    requires follower.lead.tick <= tick
    ensures LeaderBeat(n, tick).Ok?
    ensures var h := OwnHeartbeat(LeaderBeat(n, tick).value, tick);
            ReceiveHeartbeat(follower, h).Ok? && ReceiveHeartbeat(follower, h).value.lead.tick == tick
  {
    LeaderBeatIff(n, tick);
    hide Position, LeaderBeat;
  }

  /** A node that starts without a tick dates the silence from its start, and waits the timeout from there. */
  lemma StartupWaits(n: Node, now: nat, tick: int)
    requires n.lead.tick == 0
    ensures FirstTick(n, now) == n.(lead := n.lead.(tick := now))
    ensures tick < now + n.lead.timeout ==> !SeesSilence(FirstTick(n, now), tick)
    ensures n.lead.leader != Tertiary && n.role == RoleAt(Index(n.lead.leader) + 1) ==>
              (SeesSilence(FirstTick(n, now), tick) <==> tick >= now + n.lead.timeout)
  {
  }

  /** A tick that is already known is left alone. */
  lemma KnownTickStays(n: Node, now: nat)
    requires n.lead.tick != 0
    ensures FirstTick(n, now) == n
  {
  }

  // ----- Votes -----

  /**
   A vote is taken exactly if its voter signed it, it accuses the current leader of the timeout in
   favour of the next role at the current position, the accused does not vote, and it neither
   contradicts the voter's own waiting vote nor describes another tick than the waiting one.
   */
  lemma SubmitIff(s: Leadership, v: Vote)
    requires Live(s)
    ensures Submit(s, v).Ok? <==>
              && v.signature == SignedBy(v.ballot.voter, v.ballot)
              && v.ballot.term == s.term + 1 && v.ballot.accused == s.leader
              && v.ballot.voter != s.leader && v.ballot.nonce == s.nonce
              && ((s.leader == Primary && v.ballot.candidate == Secondary)
                  || (s.leader == Secondary && v.ballot.candidate == Tertiary))
              && v.ballot.tick >= s.tick + s.timeout
              && (s.votes == [] || s.votes == [v]
                  || (s.votes[0].ballot.voter != v.ballot.voter && s.votes[0].ballot.tick == v.ballot.tick))
  {
    if s.votes != [] {
      assert s.votes == [s.votes[0]];
      assert VotePending(s, s.votes[0]);
      assert VoteOf([], v.ballot.voter) == [] && s.votes[1..] == [];
    }
    hide SnapshotOk;
  }

  /** The first vote waits, a repeat changes nothing, and the second voter's completes the certificate. */
  lemma SubmitDoes(s: Leadership, v: Vote)
    requires Live(s) && Submit(s, v).Ok?
    ensures var r := Submit(s, v).value;
            && (s.votes == [] ==> r == Submission(s.(votes := [v]), None))
            && (s.votes == [v] ==> r == Submission(s, None))
            && (s.votes != [] && s.votes != [v] ==>
                  && r.certificate.Some?
                  && var u, c := s.votes[0], r.certificate.value;
                  && (c.votes == [u, v] || c.votes == [v, u])
                  && Index(c.votes[0].ballot.voter) < Index(c.votes[1].ballot.voter)
                  && c == Certificate(s.term + 1, v.ballot.candidate, s.nonce, c.votes,
                                      HashOf(s.term + 1, v.ballot.candidate, s.nonce, c.votes))
                  && r.state == Leadership(s.timeout, s.term + 1, v.ballot.candidate, v.ballot.tick, s.nonce, [],
                                           s.certificates + [c]))
  {
    SubmitIff(s, v);
    if s.votes != [] {
      var u := s.votes[0];
      assert s.votes == [u] && VotePending(s, u);
      assert VoteOf([u], u.ballot.voter) == [u] && [u] + [v] == [u, v];
      assert u.ballot.voter != v.ballot.voter ==> VoteOf([u], v.ballot.voter) == [] by { assert [u][1..] == []; }
      if u != v { PairInVoterOrder(u, v); }
    }
    hide SnapshotOk, InVoterOrder;
  }

  /** The witness answers exactly a fresh, signed vote of the successor at its own clean state. */
  lemma TimeoutVoteIff(n: Node, v: Vote, ledger: LedgerModel.LedgerState, now: int)
    ensures TimeoutVote(n, v, ledger, now).Ok? <==>
              && v.signature == SignedBy(v.ballot.voter, v.ballot)
              && ((n.lead.leader == Primary && v.ballot.candidate == Secondary && n.role == Tertiary)
                  || (n.lead.leader == Secondary && v.ballot.candidate == Tertiary && n.role == Primary))
              && v.ballot.voter == v.ballot.candidate && v.ballot.accused == n.lead.leader
              && v.ballot.term == n.lead.term + 1
              && v.ballot.tick >= n.lead.tick + n.lead.timeout
              && now - 1 <= v.ballot.tick <= now + 1
              && v.ballot.nonce == Position(n.positions) == |n.log|
              && n.pending.None? && ledger == n.core.ledger
    ensures TimeoutVote(n, v, ledger, now).Ok? ==>
              var b := v.ballot;
              var own := Ballot(n.role, b.term, b.accused, b.candidate, b.tick, b.nonce);
              TimeoutVote(n, v, ledger, now).value == Vote(own, SignedBy(n.role, own))
  {
    hide Position;
  }

  // ----- What a heartbeat is for -----

  /** Terms do not go back, and within a term the last tick does not. */
  ghost predicate Forward(a: Leadership, b: Leadership) {
    && b.timeout == a.timeout && a.term <= b.term
    && (b.term == a.term ==> b.leader == a.leader && a.tick <= b.tick)
  }

  lemma ForwardJoins(a: Leadership, b: Leadership, c: Leadership)
    requires Forward(a, b) && Forward(b, c)
    ensures Forward(a, c)
  {
  }

  lemma {:induction false} RunForward(s: Leadership, events: seq<Event>)
    requires Live(s)
    ensures Live(Run(s, events)) && Forward(s, Run(s, events))
  {
    if events != [] {
      var t := Run(s, events[..|events| - 1]);
      RunForward(s, events[..|events| - 1]);
      StepForward(t, events[|events| - 1]);
      hide Live, Step;
    }
  }

  lemma StepForward(s: Leadership, e: Event)
    requires Live(s)
    ensures Live(Step(s, e)) && Forward(s, Step(s, e))
  {
    hide Live, SnapshotOk;
    match e
    case Heartbeat(l, t, k, n) =>
      if Beat(s, l, t, k, n).Ok? { BeatKeepsLive(s, l, t, k, n); }
    case CastVote(v) =>
      if Submit(s, v).Ok? { SubmitKeepsLive(s, v); }
    case Receive(c) =>
      if Adopt(s, c).Ok? { AdoptKeepsLive(s, c); }
  }

  /** Different terms have different leaders. */
  lemma LeaderTellsTerm(s: Leadership, t: Leadership)
    requires Live(s) && Live(t) && s.leader == t.leader
    ensures s.term == t.term
  {
    hide ChainOk;
  }

  /**
   A heartbeat dated `k` protects its leader: after any further heartbeats, votes and
   certificates, a vote against that leader dated less than the timeout after `k` is refused.
   */
  lemma HeartbeatProtects(s: Leadership, k: int, nonce: int, events: seq<Event>, v: Vote)
    requires Live(s) && Beat(s, s.leader, s.term, k, nonce).Ok?
    requires v.ballot.accused == s.leader && v.ballot.tick < k + s.timeout
    ensures Submit(Run(Beat(s, s.leader, s.term, k, nonce).value, events), v).Err?
  {
    var beat := Beat(s, s.leader, s.term, k, nonce).value;
    BeatIff(s, s.leader, s.term, k, nonce);
    BeatKeepsLive(s, s.leader, s.term, k, nonce);
    hide Beat, Live;
    RunForward(beat, events);
    var t := Run(beat, events);
    hide Run;
    if t.leader == s.leader { LeaderTellsTerm(beat, t); }
    SubmitIff(t, v);
    hide Submit;
  }

  // ----- Over runs of the cluster -----

  lemma RecordedForward(n: Node, c: Certificate)
    requires Live(n.lead) && RecordCertificate(n, c).Ok?
    ensures Forward(n.lead, RecordCertificate(n, c).value.lead)
  {
    hide Live, Position, SnapshotOk;
  }

  lemma AppendForward(cfg: Config, n: Node, e: Envelope)
    requires Append(cfg, n, e).Ok?
    ensures Forward(n.lead, Append(cfg, n, e).value.lead)
  {
    hide Apply;
  }

  lemma BeatForward(n: Node, tick: int)
    requires LeaderBeat(n, tick).Ok?
    ensures Forward(n.lead, LeaderBeat(n, tick).value.lead)
  {
    LeaderBeatIff(n, tick);
    hide LeaderBeat, Position;
  }

  lemma ReceivedForward(n: Node, h: SignedHeartbeat)
    requires ReceiveHeartbeat(n, h).Ok?
    ensures Forward(n.lead, ReceiveHeartbeat(n, h).value.lead)
  {
    ReceiveHeartbeatIff(n, h);
    hide ReceiveHeartbeat, Position;
  }

  ghost predicate NodeForward(c: Cluster.Cluster, c': Cluster.Cluster, r: Role) {
    Forward(c.At(r).node.lead, c'.At(r).node.lead)
  }

  lemma ClockForward(n: Node, now: nat)
    ensures Forward(n.lead, FirstTick(n, now).lead)
  {
  }

  lemma LeadStep(cfg: Config, c: Cluster.Cluster, step: Cluster.Step, r: Role)
    requires Live(c.At(r).node.lead)
    requires step.LeaderTick? || step.DeliverHeartbeat? || step.DeliverCertificate? || step.Recover? || step.StartClock?
    ensures NodeForward(c, Cluster.Next(cfg, c, step), r)
  {
    hide LeaderBeat, ReceiveHeartbeat, RecordCertificate, Position, Live, Forward;
    hide Cluster.DoBegin, Cluster.DoPrepare, Cluster.DoCommit, Cluster.DoDecide, Cluster.DoAbort, Cluster.DoCrash;
    SameForward(c.At(r).node.lead);
    var n := c.At(r).node;
    match step {
      case LeaderTick(_, tick) => if LeaderBeat(n, tick).Ok? { BeatForward(n, tick); }
      case DeliverHeartbeat(_, h) => if ReceiveHeartbeat(n, h).Ok? { ReceivedForward(n, h); }
      case DeliverCertificate(_, x) => if RecordCertificate(n, x).Ok? { RecordedForward(n, x); }
      case Recover(_, x) => if RecordCertificate(n, x).Ok? { RecordedForward(n, x); }
      case StartClock(_, now) => ClockForward(n, now);
    }
  }

  lemma CommitStep(cfg: Config, c: Cluster.Cluster, step: Cluster.Step, r: Role)
    requires step.DeliverCommit? || step.Decide?
    ensures NodeForward(c, Cluster.Next(cfg, c, step), r)
  {
    hide Append, ReplicaAccepts, Forward;
    hide Cluster.DoBegin, Cluster.DoPrepare, Cluster.DoAbort, Cluster.DoCrash, Cluster.DoLeaderTick;
    SameForward(c.At(r).node.lead);
    var n := c.At(r).node;
    if step.DeliverCommit? {
      if Append(cfg, n, step.envelope).Ok? { AppendForward(cfg, n, step.envelope); }
    } else if c.At(r).attempt.Some? {
      var e := c.At(r).attempt.value.envelope;
      if Append(cfg, n, e).Ok? { AppendForward(cfg, n, e); }
    }
  }

  lemma CrashStep(cfg: Config, c: Cluster.Cluster, q: Role, r: Role)
    requires ConfigOk(cfg) && NodeOk(cfg, c.At(q).node) && c.At(q).node.role == q
    ensures NodeForward(c, Cluster.Next(cfg, c, Cluster.CrashRestart(q)), r)
  {
    hide ConfigOk, NodeOk, Restart;
    RestartExact(cfg, c.At(q).node);
  }

  lemma MemberIsLive(cfg: Config, c: Cluster.Cluster, r: Role)
    requires ClusterSafety.ClusterOk(cfg, c)
    ensures Live(c.At(r).node.lead) && NodeOk(cfg, c.At(r).node) && c.At(r).node.role == r
  {
    hide ClusterSafety.ClusterOk;
    ClusterSafety.MemberIs(cfg, c, r);
    hide Replay, LogOk, SnapshotOk;
  }

  lemma QuietStep(cfg: Config, c: Cluster.Cluster, step: Cluster.Step, r: Role)
    requires !(step.LeaderTick? || step.DeliverHeartbeat? || step.DeliverCertificate? || step.Recover?)
    requires !(step.StartClock? || step.DeliverCommit? || step.Decide? || step.CrashRestart?)
    ensures NodeForward(c, Cluster.Next(cfg, c, step), r)
  {
    hide ReplicaAccepts, Trial, Position, TimeoutVote, CompleteCertificate, Forward;
    SameForward(c.At(r).node.lead);
  }

  lemma SameForward(s: Leadership)
    ensures Forward(s, s)
  {
  }

  /** No step of the cluster, a crash included, takes a node's leadership back. */
  lemma ClusterForward(cfg: Config, c: Cluster.Cluster, step: Cluster.Step, r: Role)
    requires ConfigOk(cfg) && ClusterSafety.ClusterOk(cfg, c)
    ensures NodeForward(c, Cluster.Next(cfg, c, step), r)
  {
    hide ConfigOk, ClusterSafety.ClusterOk, Live, NodeOk, NodeForward, Cluster.Next;
    MemberIsLive(cfg, c, r);
    match step {
      case LeaderTick(_, _) => LeadStep(cfg, c, step, r);
      case DeliverHeartbeat(_, _) => LeadStep(cfg, c, step, r);
      case DeliverCertificate(_, _) => LeadStep(cfg, c, step, r);
      case Recover(_, _) => LeadStep(cfg, c, step, r);
      case StartClock(_, _) => LeadStep(cfg, c, step, r);
      case DeliverCommit(_, _) => CommitStep(cfg, c, step, r);
      case Decide(_, _) => CommitStep(cfg, c, step, r);
      case CrashRestart(q) =>
        MemberIsLive(cfg, c, q);
        CrashStep(cfg, c, q, r);
      case _ => QuietStep(cfg, c, step, r);
    }
  }

  lemma {:induction false} RunsForward(cfg: Config, before: seq<Cluster.Step>, after: seq<Cluster.Step>, r: Role)
    requires ConfigOk(cfg)
    ensures Forward(Cluster.Execution(cfg, before).At(r).node.lead,
                    Cluster.Execution(cfg, before + after).At(r).node.lead)
  {
    hide ConfigOk, ClusterSafety.ClusterOk, Cluster.Next, Forward;
    var first := Cluster.Execution(cfg, before);
    if after == [] {
      assert before + after == before;
      SameForward(first.At(r).node.lead);
    } else {
      var all := before + after;
      assert all[..|all| - 1] == before + after[..|after| - 1];
      RunsForward(cfg, before, after[..|after| - 1], r);
      var c := Cluster.Execution(cfg, all[..|all| - 1]);
      ClusterTheorems.RunIsOk(cfg, all[..|all| - 1]);
      ClusterForward(cfg, c, all[|all| - 1], r);
      ForwardJoins(first.At(r).node.lead, c.At(r).node.lead, Cluster.Execution(cfg, all).At(r).node.lead);
    }
  }

  /**
   A node that has heard its leader at some tick does not help to replace it before the timeout:
   at every later point of the run, crashes included, it refuses every vote against that leader
   dated less than the timeout after that tick, and never completes one itself.
   */
  lemma LeaderIsProtected(
    cfg: Config, before: seq<Cluster.Step>, after: seq<Cluster.Step>, r: Role,
    v: Vote, ledger: LedgerModel.LedgerState, now: int)
    requires ConfigOk(cfg)
    requires var heard := Cluster.Execution(cfg, before).At(r).node.lead;
             v.ballot.accused == heard.leader && v.ballot.tick < heard.tick + heard.timeout
    ensures var n := Cluster.Execution(cfg, before + after).At(r).node;
            TimeoutVote(n, v, ledger, now).Err? && Submit(n.lead, v).Err?
  {
    var a, b := Cluster.Execution(cfg, before), Cluster.Execution(cfg, before + after);
    ClusterTheorems.RunIsOk(cfg, before);
    ClusterTheorems.RunIsOk(cfg, before + after);
    MemberIsLive(cfg, a, r);
    MemberIsLive(cfg, b, r);
    RunsForward(cfg, before, after, r);
    hide ConfigOk, ClusterSafety.ClusterOk, Cluster.Execution, NodeOk, Live;
    var heard, lead := a.At(r).node.lead, b.At(r).node.lead;
    if lead.leader == heard.leader { LeaderTellsTerm(heard, lead); }
    TimeoutVoteIff(b.At(r).node, v, ledger, now);
    SubmitIff(lead, v);
    hide TimeoutVote, Submit;
  }
}
