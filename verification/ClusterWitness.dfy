/** Runs that the safety theorems are about do exist: a request succeeds and its entry survives a failover. */
module ClusterWitness {
  import opened Common
  import opened NodeModel
  import opened Election
  import opened NodeInvariants
  import opened Failover
  import opened Cluster

  ghost predicate Reached(cfg: Config, c: Cluster) {
    exists steps :: Execution(cfg, steps) == c
  }

  lemma StartReached(cfg: Config)
    ensures Reached(cfg, Start(cfg))
  {
    assert Execution(cfg, []) == Start(cfg);
  }

  lemma StepReached(cfg: Config, c: Cluster, step: Step)
    requires Reached(cfg, c)
    ensures Reached(cfg, Next(cfg, c, step))
  {
    var steps :| Execution(cfg, steps) == c;
    assert (steps + [step])[..|steps|] == steps;
    hide Next;
    assert Execution(cfg, steps + [step]) == Next(cfg, c, step);
  }

  /** The first entry of the log, signed by the first leader. */
  function FirstEntry(m: Mutation): Envelope {
    SignEnvelope(Primary, 1, m)
  }

  /** A node that has committed just that entry. */
  function Committed(cfg: Config, role: Role, core: Core, m: Mutation): Node {
    var n := FreshNode(cfg, role);
    n.(core := core, positions := map[Primary := 1], log := [FirstEntry(m)], lead := n.lead.(nonce := 1))
  }

  lemma FreshPosition()
    ensures Position(map[]) == 0 && Position(map[Primary := 1]) == 1
  {
  }

  lemma FirstAppend(cfg: Config, role: Role, m: Mutation, pending: Option<Envelope>)
    requires Apply(cfg, InitialCore(cfg), m).Ok?
    ensures Append(cfg, FreshNode(cfg, role).(pending := pending), FirstEntry(m))
         == Ok(Committed(cfg, role, Apply(cfg, InitialCore(cfg), m).value, m))
  {
    hide Apply;
    assert [] + [FirstEntry(m)] == [FirstEntry(m)];
  }

  lemma FollowerAccepts(cfg: Config, role: Role, m: Mutation, pending: Option<Envelope>)
    requires role != Primary
    ensures ReplicaAccepts(FreshNode(cfg, role).(pending := pending), FirstEntry(m))
  {
    FreshPosition();
  }

  /** A follower prepares and commits the first entry. */
  lemma FollowerTakes(cfg: Config, role: Role, m: Mutation)
    requires role != Primary && Trial(cfg, InitialCore(cfg), m).Ok? && Apply(cfg, InitialCore(cfg), m).Ok?
    ensures PrepareReplica(cfg, FreshNode(cfg, role), FirstEntry(m))
         == Ok(FreshNode(cfg, role).(pending := Some(FirstEntry(m))))
    ensures CommitReplica(cfg, FreshNode(cfg, role).(pending := Some(FirstEntry(m))), FirstEntry(m))
         == Ok(Committed(cfg, role, Apply(cfg, InitialCore(cfg), m).value, m))
  {
    FollowerAccepts(cfg, role, m, None);
    FollowerAccepts(cfg, role, m, Some(FirstEntry(m)));
    FirstAppend(cfg, role, m, Some(FirstEntry(m)));
    hide Trial, Apply, ReplicaAccepts, Append;
    assert FreshNode(cfg, role).(pending := None) == FreshNode(cfg, role);
  }

  lemma LeaderProposes(cfg: Config, m: Mutation)
    requires Trial(cfg, InitialCore(cfg), m).Ok?
    ensures Propose(cfg, FreshNode(cfg, Primary).(pending := None), m)
         == Ok(FreshNode(cfg, Primary).(pending := Some(FirstEntry(m))))
  {
    FreshPosition();
    hide Trial;
  }

  predicate Members(c: Cluster, p: Member, s: Member, t: Member) {
    c.p == p && c.s == s && c.t == t
  }

  /** A member whose lock is free and which no client has been admitted to. */
  function Idle(n: Node): Member {
    Member(n, false, None)
  }

  function Proposing(cfg: Config, m: Mutation): Member {
    Member(FreshNode(cfg, Primary).(pending := Some(FirstEntry(m))), true, Some(Attempt(FirstEntry(m), 0, false)))
  }

  lemma AfterBegin(cfg: Config, m: Mutation, c: Cluster)
    requires Trial(cfg, InitialCore(cfg), m).Ok? && Reached(cfg, c) && c.nextRid == 0 && c.acked == {}
    requires Members(c, Member(FreshNode(cfg, Primary), true, None), Idle(FreshNode(cfg, Secondary)),
                     Idle(FreshNode(cfg, Tertiary)))
    ensures var next := Next(cfg, c, Begin(Primary, m));
            && Reached(cfg, next) && next.acked == {}
            && Members(next, Proposing(cfg, m), Idle(FreshNode(cfg, Secondary)), Idle(FreshNode(cfg, Tertiary)))
  {
    StepReached(cfg, c, Begin(Primary, m));
    LeaderProposes(cfg, m);
    hide Reached, Propose, Trial;
  }

  /** A position report is sent, or a prepare once the peer has reported: nothing else changes. */
  lemma AfterReport(cfg: Config, c: Cluster, r: Role)
    requires Reached(cfg, c) && c.At(r).node.lead.leader != r
    ensures var next := Next(cfg, c, ReportPosition(r));
            && Reached(cfg, next) && next.acked == c.acked && Members(next, c.p, c.s, c.t) && c.net <= next.net
            && PositionReport(r, |c.At(r).node.log|) in next.net
  {
    StepReached(cfg, c, ReportPosition(r));
    hide Reached;
  }

  lemma AfterSendPrepare(cfg: Config, m: Mutation, c: Cluster)
    requires Reached(cfg, c) && c.p == Proposing(cfg, m) && PositionReport(Secondary, 0) in c.net
    ensures var next := Next(cfg, c, SendPrepare(Primary, Secondary));
            && Reached(cfg, next) && next.acked == c.acked && Members(next, c.p, c.s, c.t)
            && PrepareRequest(Secondary, FirstEntry(m), Some(0)) in next.net
  {
    StepReached(cfg, c, SendPrepare(Primary, Secondary));
    hide Reached;
    assert Reported(c, Secondary, 0);
  }

  /** A follower acknowledges the prepare of the first entry. */
  lemma AfterPrepare(cfg: Config, m: Mutation, c: Cluster, to: Role, rid: Option<nat>)
    requires Trial(cfg, InitialCore(cfg), m).Ok? && Apply(cfg, InitialCore(cfg), m).Ok? && to != Primary
    requires Reached(cfg, c) && c.At(to) == Idle(FreshNode(cfg, to))
    requires PrepareRequest(to, FirstEntry(m), rid) in c.net
    ensures var next := Next(cfg, c, DeliverPrepare(to, FirstEntry(m), rid));
            && Reached(cfg, next) && next.acked == c.acked && c.net <= next.net
            && (forall q :: next.At(q) ==
                  if q == to then Idle(FreshNode(cfg, to).(pending := Some(FirstEntry(m)))) else c.At(q))
            && PrepareAck(to, FirstEntry(m), rid) in next.net
  {
    StepReached(cfg, c, DeliverPrepare(to, FirstEntry(m), rid));
    FollowerTakes(cfg, to, m);
    hide Reached, PrepareReplica, CommitReplica, Trial, Apply;
  }

  /** A follower commits the first entry. */
  lemma AfterCommit(cfg: Config, m: Mutation, c: Cluster, to: Role)
    requires Trial(cfg, InitialCore(cfg), m).Ok? && Apply(cfg, InitialCore(cfg), m).Ok? && to != Primary
    requires Reached(cfg, c) && c.At(to) == Idle(FreshNode(cfg, to).(pending := Some(FirstEntry(m))))
    requires CommitRequest(to, FirstEntry(m)) in c.net
    ensures var next := Next(cfg, c, DeliverCommit(to, FirstEntry(m)));
            var core := Apply(cfg, InitialCore(cfg), m).value;
            && Reached(cfg, next) && next.acked == c.acked && c.net <= next.net
            && (forall q :: next.At(q) == if q == to then Idle(Committed(cfg, to, core, m)) else c.At(q))
            && CommitAck(to, FirstEntry(m)) in next.net
  {
    StepReached(cfg, c, DeliverCommit(to, FirstEntry(m)));
    FollowerTakes(cfg, to, m);
    hide Reached, PrepareReplica, CommitReplica, Trial, Apply;
  }

  lemma AfterDecide(cfg: Config, m: Mutation, c: Cluster)
    requires Apply(cfg, InitialCore(cfg), m).Ok?
    requires Reached(cfg, c) && c.p == Proposing(cfg, m) && PrepareAck(Secondary, FirstEntry(m), Some(0)) in c.net
    ensures var next := Next(cfg, c, Decide(Primary, Secondary));
            var core := Apply(cfg, InitialCore(cfg), m).value;
            && Reached(cfg, next) && next.acked == c.acked && next.s == c.s && next.t == c.t && c.net <= next.net
            && next.p == Member(Committed(cfg, Primary, core, m), true, Some(Attempt(FirstEntry(m), 0, true)))
            && CommitRequest(Secondary, FirstEntry(m)) in next.net && CommitRequest(Tertiary, FirstEntry(m)) in next.net
  {
    StepReached(cfg, c, Decide(Primary, Secondary));
    FirstAppend(cfg, Primary, m, Some(FirstEntry(m)));
    hide Reached, Append, Apply;
  }

  /** The primary has proposed and one follower has prepared. */
  lemma CanPrepare(cfg: Config, m: Mutation) returns (c: Cluster)
    requires Trial(cfg, InitialCore(cfg), m).Ok? && Apply(cfg, InitialCore(cfg), m).Ok?
    ensures Reached(cfg, c) && c.acked == {} && PrepareAck(Secondary, FirstEntry(m), Some(0)) in c.net
    ensures Members(c, Proposing(cfg, m), Idle(FreshNode(cfg, Secondary).(pending := Some(FirstEntry(m)))),
                    Idle(FreshNode(cfg, Tertiary)))
  {
    StartReached(cfg);
    var c0 := Start(cfg);
    StepReached(cfg, c0, Admit(Primary));
    var c1 := Next(cfg, c0, Admit(Primary));
    assert Members(c1, Member(FreshNode(cfg, Primary), true, None), Idle(FreshNode(cfg, Secondary)),
                   Idle(FreshNode(cfg, Tertiary)));
    assert c1.nextRid == 0 && c1.acked == {};
    hide Reached, Next, Trial, Apply;
    AfterBegin(cfg, m, c1);
    var c2 := Next(cfg, c1, Begin(Primary, m));
    AfterReport(cfg, c2, Secondary);
    var c3 := Next(cfg, c2, ReportPosition(Secondary));
    AfterSendPrepare(cfg, m, c3);
    var c4 := Next(cfg, c3, SendPrepare(Primary, Secondary));
    AfterPrepare(cfg, m, c4, Secondary, Some(0));
    c := Next(cfg, c4, DeliverPrepare(Secondary, FirstEntry(m), Some(0)));
    assert c.At(Primary) == c.p && c.At(Secondary) == c.s && c.At(Tertiary) == c.t;
  }

  /** A request that passes the dry run on the initial ledger can be acknowledged as a success. */
  lemma CanSucceed(cfg: Config, m: Mutation) returns (c: Cluster)
    requires ConfigOk(cfg) && Trial(cfg, InitialCore(cfg), m).Ok?
    ensures Apply(cfg, InitialCore(cfg), m).Ok?
    ensures Reached(cfg, c) && c.acked == {FirstEntry(m)} && CommitRequest(Tertiary, FirstEntry(m)) in c.net
    ensures var core := Apply(cfg, InitialCore(cfg), m).value;
            Members(c, Member(Committed(cfg, Primary, core, m), true, None), Idle(Committed(cfg, Secondary, core, m)),
                    Idle(FreshNode(cfg, Tertiary)))
  {
    NewLedgerCore(cfg);
    TrialPredictsApply(cfg, InitialCore(cfg), m);
    var e := FirstEntry(m);
    hide Trial, Apply, ConfigOk, Reached;
    var c5 := CanPrepare(cfg, m);
    AfterDecide(cfg, m, c5);
    var c6 := Next(cfg, c5, Decide(Primary, Secondary));
    AfterCommit(cfg, m, c6, Secondary);
    var c7 := Next(cfg, c6, DeliverCommit(Secondary, e));
    assert c7.At(Primary) == c7.p && c7.At(Secondary) == c7.s && c7.At(Tertiary) == c7.t;
    assert c6.At(Primary) == c6.p && c6.At(Tertiary) == c6.t;
    StepReached(cfg, c7, Acknowledge(Primary, Secondary));
    AfterAcknowledge(cfg, m, c7);
    c := Next(cfg, c7, Acknowledge(Primary, Secondary));
    hide Next;
  }

  lemma AfterAcknowledge(cfg: Config, m: Mutation, c: Cluster)
    requires c.p.attempt == Some(Attempt(FirstEntry(m), 0, true)) && CommitAck(Secondary, FirstEntry(m)) in c.net
    ensures var next := Next(cfg, c, Acknowledge(Primary, Secondary));
            && next.p == c.p.(attempt := None) && next.s == c.s && next.t == c.t
            && next.acked == c.acked + {FirstEntry(m)} && next.net == c.net
  {
  }

  lemma NewLedgerCore(cfg: Config)
    requires ConfigOk(cfg)
    ensures CoreOk(cfg, InitialCore(cfg))
  {
    assert Replay(cfg, []) == Ok(InitialCore(cfg));
    ReplayOk(cfg, []);
  }

  // ----- A failover that keeps the entry -----

  const SILENCE := 3

  function CandidateVote(): Vote {
    SignVote(Ballot(Secondary, 1, Primary, Secondary, SILENCE, 1))
  }

  function WitnessVote(): Vote {
    SignVote(Ballot(Tertiary, 1, Primary, Secondary, SILENCE, 1))
  }

  function FirstCertificate(): Certificate {
    MakeCertificate(1, Secondary, 1, [CandidateVote(), WitnessVote()])
  }

  function Before(): Leadership {
    NewLeadership(DEFAULT_TIMEOUT).(nonce := 1)
  }

  function After(): Leadership {
    Before().(term := 1, leader := Secondary, tick := SILENCE, certificates := [FirstCertificate()])
  }

  lemma VotesComplete()
    ensures CompleteCertificate(Before(), CandidateVote(), WitnessVote()) == Some(FirstCertificate())
  {
    var v, u := CandidateVote(), WitnessVote();
    assert [] + [v] == [v] && [v] + [u] == [v, u];
    assert VoteOf([v], Tertiary) == [] by { assert [v][1..] == []; }
    PairInVoterOrder(v, u);
    hide InVoterOrder, VoteOf;
    assert VoteOf([], Secondary) == [];
  }

  lemma CertificateAdopted()
    ensures Adopt(Before(), FirstCertificate()) == Ok(After())
  {
    var c := FirstCertificate();
    AppendKeepsChain([], c, DEFAULT_TIMEOUT);
    assert [] + [c] == [c];
  }

  lemma WitnessAgrees(cfg: Config, core: Core, m: Mutation)
    ensures TimeoutVote(Committed(cfg, Tertiary, core, m), CandidateVote(), core.ledger, SILENCE) == Ok(WitnessVote())
  {
    FreshPosition();
    hide Position;
  }

  lemma CandidateSigns(cfg: Config, core: Core, m: Mutation)
    ensures OwnVote(Committed(cfg, Secondary, core, m), SILENCE) == CandidateVote()
    ensures SeesSilence(Committed(cfg, Secondary, core, m), SILENCE)
    ensures ThirdRole(Committed(cfg, Secondary, core, m), Tertiary)
  {
    FreshPosition();
    hide Position;
  }

  lemma CertificateRecorded(cfg: Config, role: Role, core: Core, m: Mutation)
    ensures RecordCertificate(Committed(cfg, role, core, m), FirstCertificate())
         == Ok(Committed(cfg, role, core, m).(lead := After()))
  {
    FreshPosition();
    CertificateAdopted();
    hide Position, Adopt, FirstCertificate;
  }

  lemma AfterPush(cfg: Config, c: Cluster, e: Envelope)
    requires Reached(cfg, c) && c.p.node.log == [e] && PositionReport(Tertiary, 0) in c.net
    ensures var next := Next(cfg, c, Push(Primary, Tertiary, 0));
            && Reached(cfg, next) && next.acked == c.acked && Members(next, c.p, c.s, c.t)
            && PrepareRequest(Tertiary, e, None) in next.net && CommitRequest(Tertiary, e) in next.net
  {
    StepReached(cfg, c, Push(Primary, Tertiary, 0));
    hide Reached;
    assert Reported(c, Tertiary, 0);
  }

  /** The third node catches up with the acknowledged entry. */
  lemma CanCatchUp(cfg: Config, m: Mutation) returns (c: Cluster)
    requires ConfigOk(cfg) && Trial(cfg, InitialCore(cfg), m).Ok?
    ensures Apply(cfg, InitialCore(cfg), m).Ok?
    ensures Reached(cfg, c) && c.acked == {FirstEntry(m)}
    ensures var core := Apply(cfg, InitialCore(cfg), m).value;
            Members(c, Member(Committed(cfg, Primary, core, m), true, None), Idle(Committed(cfg, Secondary, core, m)),
                    Idle(Committed(cfg, Tertiary, core, m)))
  {
    var e := FirstEntry(m);
    var c8 := CanSucceed(cfg, m);
    assert c8.At(Tertiary) == c8.t;
    hide Trial, Apply, ConfigOk, Reached, Next;
    AfterReport(cfg, c8, Tertiary);
    var c9 := Next(cfg, c8, ReportPosition(Tertiary));
    AfterPush(cfg, c9, e);
    var c10 := Next(cfg, c9, Push(Primary, Tertiary, 0));
    assert c10.At(Tertiary) == c10.t;
    AfterPrepare(cfg, m, c10, Tertiary, None);
    var c11 := Next(cfg, c10, DeliverPrepare(Tertiary, e, None));
    AfterCommit(cfg, m, c11, Tertiary);
    c := Next(cfg, c11, DeliverCommit(Tertiary, e));
    assert c.At(Primary) == c.p && c.At(Secondary) == c.s && c.At(Tertiary) == c.t;
    assert c11.At(Primary) == c11.p && c11.At(Secondary) == c11.s;
    assert c10.At(Primary) == c10.p && c10.At(Secondary) == c10.s;
  }

  lemma AfterRequest(cfg: Config, core: Core, m: Mutation, c: Cluster)
    requires Reached(cfg, c) && c.s == Idle(Committed(cfg, Secondary, core, m))
    ensures var next := Next(cfg, c, RequestVote(Secondary, Tertiary, SILENCE));
            && Reached(cfg, next) && next.acked == c.acked && Members(next, c.p, c.s, c.t)
            && VoteRequest(Tertiary, CandidateVote(), core.ledger) in next.net
  {
    StepReached(cfg, c, RequestVote(Secondary, Tertiary, SILENCE));
    CandidateSigns(cfg, core, m);
    hide Reached, OwnVote, CandidateVote;
  }

  lemma AfterAnswer(cfg: Config, core: Core, m: Mutation, c: Cluster)
    requires Reached(cfg, c) && c.t == Idle(Committed(cfg, Tertiary, core, m))
    requires VoteRequest(Tertiary, CandidateVote(), core.ledger) in c.net
    ensures var next := Next(cfg, c, AnswerVote(Tertiary, CandidateVote(), core.ledger, SILENCE));
            && Reached(cfg, next) && next.acked == c.acked && Members(next, c.p, c.s, c.t)
            && VoteReply(Secondary, CandidateVote(), WitnessVote()) in next.net
  {
    StepReached(cfg, c, AnswerVote(Tertiary, CandidateVote(), core.ledger, SILENCE));
    WitnessAgrees(cfg, core, m);
    assert CandidateVote().ballot.voter == Secondary;
    hide Reached, TimeoutVote, CandidateVote, WitnessVote;
  }

  lemma AfterCertify(cfg: Config, core: Core, m: Mutation, c: Cluster)
    requires Reached(cfg, c) && c.s == Idle(Committed(cfg, Secondary, core, m))
    requires VoteReply(Secondary, CandidateVote(), WitnessVote()) in c.net
    ensures var next := Next(cfg, c, Certify(Secondary, CandidateVote(), WitnessVote()));
            && Reached(cfg, next) && next.acked == c.acked && Members(next, c.p, c.s, c.t)
            && CertificateOffer(Tertiary, FirstCertificate()) in next.net
  {
    hide Reached, CompleteCertificate, CandidateVote, WitnessVote, FirstCertificate;
    hide DoBegin, DoPrepare, DoCommit, DoDecide, DoAcknowledge, DoLeaderTick, DoHeartbeat, DoAnswerVote, DoCrash;
    StepReached(cfg, c, Certify(Secondary, CandidateVote(), WitnessVote()));
    VotesComplete();
  }

  lemma AfterDelivery(cfg: Config, core: Core, m: Mutation, c: Cluster)
    requires Reached(cfg, c) && c.t == Idle(Committed(cfg, Tertiary, core, m))
    requires CertificateOffer(Tertiary, FirstCertificate()) in c.net
    ensures var next := Next(cfg, c, DeliverCertificate(Tertiary, FirstCertificate()));
            && Reached(cfg, next) && next.acked == c.acked && next.s == c.s
            && CertificateHeld(Tertiary, FirstCertificate()) in next.net
  {
    hide Reached, RecordCertificate, FirstCertificate;
    hide DoBegin, DoPrepare, DoCommit, DoDecide, DoAcknowledge, DoLeaderTick, DoHeartbeat, DoAnswerVote, DoCrash;
    StepReached(cfg, c, DeliverCertificate(Tertiary, FirstCertificate()));
    CertificateRecorded(cfg, Tertiary, core, m);
  }

  lemma AfterRecover(cfg: Config, core: Core, m: Mutation, c: Cluster)
    requires Reached(cfg, c) && c.s == Idle(Committed(cfg, Secondary, core, m))
    requires CertificateHeld(Tertiary, FirstCertificate()) in c.net
    ensures var next := Next(cfg, c, Recover(Secondary, FirstCertificate()));
            && Reached(cfg, next) && next.acked == c.acked
            && next.s == Idle(Committed(cfg, Secondary, core, m).(lead := After()))
  {
    hide Reached, RecordCertificate, FirstCertificate, After;
    hide DoBegin, DoPrepare, DoCommit, DoDecide, DoAcknowledge, DoLeaderTick, DoHeartbeat, DoAnswerVote, DoCrash;
    StepReached(cfg, c, Recover(Secondary, FirstCertificate()));
    CertificateRecorded(cfg, Secondary, core, m);
  }

  /**
   A run with everything in it: any request that passes the dry run on the initial ledger is
   acknowledged by the first leader, and its entry is in the log of the certified second one.
   */
  lemma CanFailOver(cfg: Config, m: Mutation) returns (c: Cluster)
    requires ConfigOk(cfg) && Trial(cfg, InitialCore(cfg), m).Ok?
    ensures Reached(cfg, c) && FirstEntry(m) in c.acked
    ensures c.s.node.lead.term == 1 && c.s.node.lead.leader == Secondary && |c.s.node.lead.certificates| == 1
    ensures c.s.node.log == [FirstEntry(m)]
  {
    var c12 := CanCatchUp(cfg, m);
    var core := Apply(cfg, InitialCore(cfg), m).value;
    hide Trial, Apply, ConfigOk, Reached, Next;
    AfterRequest(cfg, core, m, c12);
    var c13 := Next(cfg, c12, RequestVote(Secondary, Tertiary, SILENCE));
    AfterAnswer(cfg, core, m, c13);
    var c14 := Next(cfg, c13, AnswerVote(Tertiary, CandidateVote(), core.ledger, SILENCE));
    AfterCertify(cfg, core, m, c14);
    var c15 := Next(cfg, c14, Certify(Secondary, CandidateVote(), WitnessVote()));
    AfterDelivery(cfg, core, m, c15);
    var c16 := Next(cfg, c15, DeliverCertificate(Tertiary, FirstCertificate()));
    AfterRecover(cfg, core, m, c16);
    c := Next(cfg, c16, Recover(Secondary, FirstCertificate()));
  }
}
