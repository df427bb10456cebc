/** The cluster invariant, its preservation by every step, and the theorems over all runs. */
module ClusterSafety {
  import opened Common
  import opened NodeModel
  import opened NodeInvariants
  import opened Failover
  import opened Spine
  import opened Cluster
  import Restore
  import LedgerModel

  function LineOf(n: Node): Line {
    Line(n.log, n.lead.certificates)
  }

  function SpineOf(c: Cluster): Lines {
    Lines(LineOf(c.p.node), LineOf(c.s.node), LineOf(c.t.node))
  }

  /** Logs and certificate chains only ever get longer. */
  ghost predicate Longer(ls: Lines, ls': Lines) {
    forall r :: ls.Of(r).log <= ls'.Of(r).log && ls.Of(r).certs <= ls'.Of(r).certs
  }

  ghost predicate CertifiedBy(ls: Lines, r: Role, c: Certificate) {
    1 <= c.term <= Term(ls, r) && ls.Of(r).certs[c.term - 1] == c
  }

  /** A certificate on offer: endorsed at a position its leader holds, and sent in order. */
  ghost predicate OfferOk(ls: Lines, to: Role, c: Certificate) {
    && 1 <= c.term < ROLE_COUNT && c.leader == RoleAt(c.term) && c.nonce <= |ls.Of(c.leader).log|
    && (to == WitnessAt(c.term - 1) || CertifiedBy(ls, c.leader, c))
  }

  /** What every sent message still says truly of the spine. */
  ghost predicate MessageOk(ls: Lines, nextRid: nat, m: Message) {
    match m
    case PositionReport(r, q) => q <= |ls.Of(r).log|
    case PrepareRequest(to, e, rid) => e.nonce - 1 <= |ls.Of(to).log| && (rid.Some? ==> rid.value < nextRid)
    case PrepareAck(_, _, rid) => rid.Some? ==> rid.value < nextRid
    case CommitRequest(_, e) => Holds(ls, e.leader, e)
    case CommitAck(r, e) => r != e.leader && Holds(ls, r, e) && Holds(ls, e.leader, e)
    case HistoryEntry(_, e) => Holds(ls, e.leader, e)
    case VoteRequest(_, v, _) => v.ballot.voter == v.ballot.candidate && v.ballot.nonce <= |ls.Of(v.ballot.voter).log|
    case VoteReply(_, v, _) => v.ballot.voter == v.ballot.candidate && v.ballot.nonce <= |ls.Of(v.ballot.voter).log|
    case CertificateOffer(to, c) => OfferOk(ls, to, c)
    case CertificateHeld(r, c) => CertifiedBy(ls, r, c)
    case AbortRequest(_, _) => true
    case HeartbeatSent(_, h) => GenuineHeartbeat(h)
  }

  ghost predicate MessagesOk(c: Cluster) {
    forall m :: m in c.net ==> MessageOk(SpineOf(c), c.nextRid, m)
  }

  /** A leader's running attempt; once fenced, it can no longer be acknowledged. */
  ghost predicate AttemptOk(c: Cluster, r: Role) {
    var me, ls := c.At(r), SpineOf(c);
    && (me.admitted || me.attempt.Some? ==> Term(ls, r) >= Index(r))
    && (me.attempt.Some? ==>
          var a := me.attempt.value;
          && a.envelope.leader == r && Genuine(a.envelope) && a.rid < c.nextRid
          && (a.decided ==> Holds(ls, r, a.envelope))
          && (!a.decided ==>
                && me.node.pending == Some(a.envelope) && a.envelope.nonce == |me.node.log| + 1
                && (Term(ls, r) > Index(r) ==> forall q :: PrepareAck(q, a.envelope, Some(a.rid)) !in c.net)))
  }

  ghost predicate AttemptsOk(c: Cluster) {
    forall r :: AttemptOk(c, r)
  }

  /** A sound replica whose pending record, if any, is no further than its next entry. */
  ghost predicate MemberOk(cfg: Config, c: Cluster, r: Role) {
    var n := c.At(r).node;
    n.role == r && NodeOk(cfg, n) && (n.pending.Some? ==> n.pending.value.nonce <= |n.log| + 1)
  }

  ghost predicate MembersOk(cfg: Config, c: Cluster) {
    forall r :: MemberOk(cfg, c, r)
  }

  /** An acknowledged entry is in its leader's log and in at least one other. */
  ghost predicate TwoCopies(ls: Lines, e: Envelope) {
    Holds(ls, e.leader, e) && exists r :: r != e.leader && Holds(ls, r, e)
  }

  ghost predicate AckedOk(c: Cluster) {
    forall e :: e in c.acked ==> TwoCopies(SpineOf(c), e)
  }

  ghost predicate ClusterOk(cfg: Config, c: Cluster) {
    MembersOk(cfg, c) && SpineOk(SpineOf(c)) && MessagesOk(c) && AttemptsOk(c) && AckedOk(c)
  }

  // ---------------------------------------------------------------- frame lemmas

  lemma SpineAt(c: Cluster, r: Role)
    ensures SpineOf(c).Of(r) == LineOf(c.At(r).node)
  {
  }

  /** What was true of a message stays true as the spine grows. */
  lemma MessageStays(ls: Lines, ls': Lines, rid: nat, rid': nat, m: Message)
    requires Longer(ls, ls') && rid <= rid' && MessageOk(ls, rid, m)
    ensures MessageOk(ls', rid', m)
  {
  }

  lemma CopiesStay(ls: Lines, ls': Lines, e: Envelope)
    requires Longer(ls, ls') && TwoCopies(ls, e)
    ensures TwoCopies(ls', e)
  {
    var r :| r != e.leader && Holds(ls, r, e);
    assert Holds(ls', r, e);
  }

  /** Messages and acknowledgements survive any step that sends only truthful messages. */
  lemma Carry(c: Cluster, c': Cluster)
    requires MessagesOk(c) && AckedOk(c)
    requires Longer(SpineOf(c), SpineOf(c')) && c.nextRid <= c'.nextRid
    requires forall m :: m in c'.net && m !in c.net ==> MessageOk(SpineOf(c'), c'.nextRid, m)
    requires forall e :: e in c'.acked && e !in c.acked ==> TwoCopies(SpineOf(c'), e)
    ensures MessagesOk(c') && AckedOk(c')
  {
    forall m | m in c'.net
      ensures MessageOk(SpineOf(c'), c'.nextRid, m)
    {
      if m in c.net { MessageStays(SpineOf(c), SpineOf(c'), c.nextRid, c'.nextRid, m); }
    }
    forall e | e in c'.acked
      ensures TwoCopies(SpineOf(c'), e)
    {
      if e in c.acked { CopiesStay(SpineOf(c), SpineOf(c'), e); }
    }
  }

  /** An attempt is unaffected by what other nodes do, unless its prepare is acknowledged. */
  lemma AttemptStays(c: Cluster, c': Cluster, r: Role)
    requires AttemptOk(c, r) && c'.At(r) == c.At(r) && c.nextRid <= c'.nextRid
    requires forall q, e, rid :: PrepareAck(q, e, rid) in c'.net && PrepareAck(q, e, rid) !in c.net
               ==> e.leader == r ==> Term(SpineOf(c), r) <= Index(r)
    ensures AttemptOk(c', r)
  {
    SpineAt(c, r);
    SpineAt(c', r);
  }

  /** The one way to extend the invariant: a step of node `r` that does these things. */
  lemma StepKeeps(cfg: Config, c: Cluster, c': Cluster, r: Role)
    requires ClusterOk(cfg, c)
    requires forall q :: q != r ==> c'.At(q) == c.At(q)
    requires SpineOk(SpineOf(c')) && Longer(SpineOf(c), SpineOf(c'))
    requires MemberOk(cfg, c', r) && AttemptOk(c', r)
    requires c.nextRid <= c'.nextRid
    requires forall m :: m in c'.net && m !in c.net ==> MessageOk(SpineOf(c'), c'.nextRid, m)
    requires forall m :: m in c'.net && m !in c.net && m.PrepareAck?
               ==> Term(SpineOf(c), m.envelope.leader) <= Index(m.envelope.leader)
    requires forall e :: e in c'.acked && e !in c.acked ==> TwoCopies(SpineOf(c'), e)
    ensures ClusterOk(cfg, c')
  {
    hide SpineOk, NodeOk;
    Carry(c, c');
    forall q
      ensures MemberOk(cfg, c', q) && AttemptOk(c', q)
    {
      if q != r {
        assert MemberOk(cfg, c, q) && AttemptOk(c, q);
        AttemptStays(c, c', q);
      }
    }
  }

  lemma SameSpine(c: Cluster, c': Cluster, r: Role)
    requires forall q :: q != r ==> c'.At(q) == c.At(q)
    requires LineOf(c'.At(r).node) == LineOf(c.At(r).node)
    ensures SpineOf(c') == SpineOf(c)
  {
    hide LineOf;
    assert c.At(Primary) == c.p && c.At(Secondary) == c.s && c.At(Tertiary) == c.t;
    assert c'.At(Primary) == c'.p && c'.At(Secondary) == c'.s && c'.At(Tertiary) == c'.t;
  }

  /** A step of `r` that leaves its log and certificates alone. */
  lemma QuietKeeps(cfg: Config, c: Cluster, c': Cluster, r: Role)
    requires ClusterOk(cfg, c)
    requires forall q :: q != r ==> c'.At(q) == c.At(q)
    requires LineOf(c'.At(r).node) == LineOf(c.At(r).node)
    requires MemberOk(cfg, c', r) && AttemptOk(c', r)
    requires c.nextRid <= c'.nextRid
    requires forall m :: m in c'.net && m !in c.net ==> MessageOk(SpineOf(c), c'.nextRid, m)
    requires forall m :: m in c'.net && m !in c.net && m.PrepareAck?
               ==> Term(SpineOf(c), m.envelope.leader) <= Index(m.envelope.leader)
    requires forall e :: e in c'.acked && e !in c.acked ==> TwoCopies(SpineOf(c), e)
    ensures ClusterOk(cfg, c')
  {
    SameSpine(c, c', r);
    hide SpineOf, LineOf, Term, MessageOk, TwoCopies, SpineOk;
    hide MembersOk, MemberOk, AttemptsOk, AttemptOk, MessagesOk, AckedOk;
    assert SpineOk(SpineOf(c'));
    assert Longer(SpineOf(c), SpineOf(c'));
    hide ClusterOk, Longer;
    StepKeeps(cfg, c, c', r);
  }

  /** A step that only sends. */
  lemma SendKeeps(cfg: Config, c: Cluster, ms: set<Message>)
    requires ClusterOk(cfg, c)
    requires forall m :: m in ms ==> MessageOk(SpineOf(c), c.nextRid, m) && !m.PrepareAck?
    ensures ClusterOk(cfg, c.Send(ms))
  {
    var c' := c.Send(ms);
    assert MemberOk(cfg, c, Primary) && AttemptOk(c, Primary);
    assert c'.At(Primary) == c.At(Primary);
    AttemptStays(c, c', Primary);
    hide SpineOk, NodeOk;
    QuietKeeps(cfg, c, c', Primary);
  }

  // ---------------------------------------------------------------- reading the invariant

  lemma MemberIs(cfg: Config, c: Cluster, r: Role)
    requires ClusterOk(cfg, c)
    ensures MemberOk(cfg, c, r) && AttemptOk(c, r) && NodeOk(cfg, c.At(r).node) && c.At(r).node.role == r
    ensures LineOk(LineOf(c.At(r).node)) && SpineOf(c).Of(r) == LineOf(c.At(r).node)
    ensures SpineOk(SpineOf(c))
  {
    SpineAt(c, r);
  }

  lemma MessageIs(cfg: Config, c: Cluster, m: Message)
    requires ClusterOk(cfg, c) && m in c.net
    ensures MessageOk(SpineOf(c), c.nextRid, m)
  {
  }

  /** A calm step leaves the attempt of `r` as it was. */
  lemma CalmAttempt(c: Cluster, r: Role, n: Node, ms: set<Message>)
    requires AttemptOk(c, r) && LineOf(n) == LineOf(c.At(r).node)
    requires n.pending == c.At(r).node.pending || c.Free(r)
    requires forall m :: m in ms && m.PrepareAck? ==> Term(SpineOf(c), m.envelope.leader) <= Index(m.envelope.leader)
    ensures AttemptOk(c.SetNode(r, n).Send(ms), r)
  {
    SpineAt(c, r);
    SpineAt(c.SetNode(r, n).Send(ms), r);
  }

  /** Replacing `r`'s node by one with the same log and certificates, and sending. */
  lemma CalmKeeps(cfg: Config, c: Cluster, r: Role, n: Node, ms: set<Message>)
    requires ClusterOk(cfg, c)
    requires NodeOk(cfg, n) && n.role == r && LineOf(n) == LineOf(c.At(r).node)
    requires n.pending == c.At(r).node.pending
             || (c.Free(r) && (n.pending.Some? ==> n.pending.value.nonce <= |n.log| + 1))
    requires forall m :: m in ms ==> MessageOk(SpineOf(c), c.nextRid, m)
    requires forall m :: m in ms && m.PrepareAck? ==> Term(SpineOf(c), m.envelope.leader) <= Index(m.envelope.leader)
    ensures ClusterOk(cfg, c.SetNode(r, n).Send(ms))
  {
    var c' := c.SetNode(r, n).Send(ms);
    MemberIs(cfg, c, r);
    CalmAttempt(c, r, n, ms);
    CalmShape(c, r, n, ms);
    hide ClusterOk, NodeOk, SpineOk, MessageOk, AttemptOk, LineOk, LineOf, TwoCopies, SpineOf, Term;
    assert MemberOk(cfg, c', r);
    hide MemberOk;
    assert forall m :: m in c'.net && m !in c.net ==> m in ms;
    QuietKeeps(cfg, c, c', r);
  }

  lemma CalmShape(c: Cluster, r: Role, n: Node, ms: set<Message>)
    ensures var c' := c.SetNode(r, n).Send(ms);
            && (forall q :: q != r ==> c'.At(q) == c.At(q)) && c'.At(r) == c.At(r).(node := n)
            && c'.net == c.net + ms && c'.nextRid == c.nextRid && c'.acked == c.acked
  {
  }

  // ---------------------------------------------------------------- replication steps

  lemma PositionIsLength(cfg: Config, c: Cluster, r: Role)
    requires ClusterOk(cfg, c)
    ensures Position(c.At(r).node.positions) == |c.At(r).node.log|
    ensures c.At(r).node.lead.nonce == |c.At(r).node.log|
    ensures c.At(r).node.role == r
    ensures c.At(r).node.lead.term == Term(SpineOf(c), r) < ROLE_COUNT
    ensures c.At(r).node.lead.leader == RoleAt(Term(SpineOf(c), r))
  {
    assert MemberOk(cfg, c, r);
    SpineAt(c, r);
  }

  lemma AbortsSayNothing(ls: Lines, rid: nat, r: Role, e: Option<Envelope>)
    ensures forall m :: m in AbortsTo(r, e) ==> MessageOk(ls, rid, m) && !m.PrepareAck?
  {
  }

  /** What a proposal changes: the leader's own pending record and attempt, and aborts sent. */
  lemma BeginEffect(cfg: Config, c: Cluster, r: Role, m: Mutation)
    requires MemberOk(cfg, c, r)
    requires Position(c.At(r).node.positions) == |c.At(r).node.log|
    requires c.At(r).admitted && c.Free(r)
    ensures var c' := DoBegin(cfg, c, r, m);
            && (forall q :: q != r ==> c'.At(q) == c.At(q))
            && MemberOk(cfg, c', r)
            && c'.net == c.net + AbortsTo(r, c.At(r).node.pending) && c'.acked == c.acked && c.nextRid <= c'.nextRid
            && c'.At(r).admitted && LineOf(c'.At(r).node) == LineOf(c.At(r).node)
            && (c'.At(r).attempt.Some? ==>
                  var a := c'.At(r).attempt.value;
                  && !a.decided && a.rid == c.nextRid < c'.nextRid && a.envelope.leader == r && Genuine(a.envelope)
                  && c'.At(r).node.pending == Some(a.envelope) && a.envelope.nonce == |c'.At(r).node.log| + 1)
  {
    hide NodeOk, Trial, AbortsTo;
    var clean := c.At(r).node.(pending := None);
    ClearKeeps(cfg, c.At(r).node);
    if Propose(cfg, clean, m).Ok? {
      ProposeKeeps(cfg, clean, m);
    }
    hide Position, LineOk;
  }

  lemma BeginKeeps(cfg: Config, c: Cluster, r: Role, m: Mutation)
    requires ClusterOk(cfg, c)
    ensures ClusterOk(cfg, DoBegin(cfg, c, r, m))
  {
    if c.At(r).admitted && c.Free(r) {
      PositionIsLength(cfg, c, r);
      assert MemberOk(cfg, c, r) && AttemptOk(c, r);
      BeginEffect(cfg, c, r, m);
      AbortsSayNothing(SpineOf(c), DoBegin(cfg, c, r, m).nextRid, r, c.At(r).node.pending);
      hide ClusterOk, AttemptOk, MemberOk, MessageOk, DoBegin, AbortsTo;
      FreshAttempt(cfg, c, DoBegin(cfg, c, r, m), r);
      QuietKeeps(cfg, c, DoBegin(cfg, c, r, m), r);
    }
  }

  /** A connection id that has not been handed out has no answers. */
  lemma FreshAttempt(cfg: Config, c: Cluster, c': Cluster, r: Role)
    requires ClusterOk(cfg, c) && AttemptOk(c, r)
    requires forall m :: m in c'.net && m !in c.net ==> !m.PrepareAck?
    requires c'.At(r).admitted == c.At(r).admitted && LineOf(c'.At(r).node) == LineOf(c.At(r).node)
    requires c'.At(r).attempt.Some? ==>
               var a := c'.At(r).attempt.value;
               && c.At(r).admitted && !a.decided && a.rid == c.nextRid < c'.nextRid
               && a.envelope.leader == r && Genuine(a.envelope)
               && c'.At(r).node.pending == Some(a.envelope) && a.envelope.nonce == |c'.At(r).node.log| + 1
    ensures AttemptOk(c', r)
  {
    SpineAt(c, r);
    SpineAt(c', r);
    if c'.At(r).attempt.Some? {
      var a := c'.At(r).attempt.value;
      forall q
        ensures PrepareAck(q, a.envelope, Some(a.rid)) !in c'.net
      {
        assert PrepareAck(q, a.envelope, Some(a.rid)) in c.net ==>
                 MessageOk(SpineOf(c), c.nextRid, PrepareAck(q, a.envelope, Some(a.rid)));
      }
    }
  }

  /** Whoever accepts an envelope is in its signer's term, so the signer is not fenced. */
  lemma AcceptedNotFenced(cfg: Config, c: Cluster, to: Role, e: Envelope)
    requires ClusterOk(cfg, c) && ReplicaAccepts(c.At(to).node, e)
    ensures to != e.leader && e.leader == RoleAt(Term(SpineOf(c), to)) && e.nonce > |c.At(to).node.log| && Genuine(e)
    ensures Term(SpineOf(c), e.leader) <= Index(e.leader)
  {
    PositionIsLength(cfg, c, to);
    if Term(SpineOf(c), e.leader) > Index(e.leader) {
      FencedLast(SpineOf(c), e.leader, to);
    }
  }

  lemma PrepareStepKeeps(cfg: Config, c: Cluster, to: Role, e: Envelope, rid: Option<nat>)
    requires ClusterOk(cfg, c)
    ensures ClusterOk(cfg, DoPrepare(cfg, c, to, e, rid))
  {
    hide ClusterOk, NodeOk, SpineOk, Trial;
    if PrepareRequest(to, e, rid) in c.net && c.Free(to) && PrepareReplica(cfg, c.At(to).node, e).Ok? {
      MemberIs(cfg, c, to);
      MessageIs(cfg, c, PrepareRequest(to, e, rid));
      AcceptedNotFenced(cfg, c, to, e);
      PrepareKeeps(cfg, c.At(to).node, e);
      CalmKeeps(cfg, c, to, PrepareReplica(cfg, c.At(to).node, e).value, {PrepareAck(to, e, rid)});
    }
  }

  /** The spine after one log has grown by one entry. */
  lemma SpineAppended(c: Cluster, c': Cluster, r: Role, e: Envelope)
    requires forall q :: q != r ==> c'.At(q) == c.At(q)
    requires c'.At(r).node.log == c.At(r).node.log + [e]
    requires c'.At(r).node.lead.certificates == c.At(r).node.lead.certificates
    ensures SpineOf(c') == Appended(SpineOf(c), r, e)
    ensures Longer(SpineOf(c), SpineOf(c'))
  {
    assert c.At(Primary) == c.p && c.At(Secondary) == c.s && c.At(Tertiary) == c.t;
    assert c'.At(Primary) == c'.p && c'.At(Secondary) == c'.s && c'.At(Tertiary) == c'.t;
  }

  /** The messages that report an appended entry. */
  lemma GrowMessages(ls: Lines, nextRid: nat, r: Role, e: Envelope, ms: set<Message>)
    requires Holds(ls, r, e) && Holds(ls, e.leader, e)
    requires forall x :: x in ms ==>
               || x == PositionReport(r, e.nonce) || (x.CommitRequest? && x.envelope == e)
               || (r != e.leader && x == CommitAck(r, e))
    ensures forall x :: x in ms ==> MessageOk(ls, nextRid, x) && !x.PrepareAck?
  {
  }

  lemma GrownAttempt(c: Cluster, c': Cluster, r: Role, e: Envelope)
    requires AttemptOk(c, r) && c'.At(r).admitted == c.At(r).admitted && c'.nextRid == c.nextRid
    requires c'.At(r).attempt.Some? ==>
               && c.At(r).attempt.Some? && c'.At(r).attempt.value.envelope == e
               && c'.At(r).attempt.value == c.At(r).attempt.value.(decided := true)
    requires Term(SpineOf(c'), r) >= Term(SpineOf(c), r) && Holds(SpineOf(c'), r, e)
    ensures AttemptOk(c', r)
  {
    hide Term, Holds;
  }

  /** Node `r` appends the next entry of its term and reports it. */
  lemma GrowKeeps(cfg: Config, c: Cluster, r: Role, e: Envelope, m: Member, ms: set<Message>)
    requires ConfigOk(cfg) && ClusterOk(cfg, c)
    requires e.leader == RoleAt(Term(SpineOf(c), r)) && Genuine(e) && e.nonce == |c.At(r).node.log| + 1
    requires r == e.leader || Holds(SpineOf(c), e.leader, e)
    requires Append(cfg, c.At(r).node, e) == Ok(m.node)
    requires m.admitted == c.At(r).admitted
    requires m.attempt.Some? ==>
               && c.At(r).attempt.Some? && m.attempt.value.envelope == e
               && m.attempt.value == c.At(r).attempt.value.(decided := true)
    requires forall x :: x in ms ==>
               || x == PositionReport(r, e.nonce) || (x.CommitRequest? && x.envelope == e)
               || (r != e.leader && x == CommitAck(r, e))
    ensures ClusterOk(cfg, c.With(r, m).Send(ms))
  {
    var c' := c.With(r, m).Send(ms);
    hide ClusterOk, NodeOk, SpineOk, Apply, ConfigOk;
    MemberIs(cfg, c, r);
    PositionIsLength(cfg, c, r);
    AppendKeeps(cfg, c.At(r).node, e);
    SpineAppended(c, c', r, e);
    AppendKeepsSpine(SpineOf(c), r, e);
    SpineAt(c', r);
    assert Holds(SpineOf(c'), r, e) && Holds(SpineOf(c'), e.leader, e);
    GrowMessages(SpineOf(c'), c'.nextRid, r, e, ms);
    hide MessageOk;
    GrownAttempt(c, c', r, e);
    hide AttemptOk;
    StepKeeps(cfg, c, c', r);
  }

  /** The prepared entry a replica commits is its next one. */
  lemma CommitIsNext(cfg: Config, c: Cluster, to: Role, e: Envelope)
    requires ClusterOk(cfg, c) && CommitReplica(cfg, c.At(to).node, e).Ok? && e.nonce > |c.At(to).node.log|
    ensures e.nonce == |c.At(to).node.log| + 1
  {
    MemberIs(cfg, c, to);
    hide ClusterOk, NodeOk, SpineOk, Apply, AttemptOk, LineOk, EnvelopeOk, Position;
  }

  lemma CommitStepKeeps(cfg: Config, c: Cluster, to: Role, e: Envelope)
    requires ConfigOk(cfg) && ClusterOk(cfg, c)
    ensures ClusterOk(cfg, DoCommit(cfg, c, to, e))
  {
    hide ClusterOk, NodeOk, SpineOk, Apply, MemberOk, AttemptOk, LineOk, EnvelopeOk, Position;
    if CommitRequest(to, e) in c.net && c.Free(to) && CommitReplica(cfg, c.At(to).node, e).Ok? {
      var n := CommitReplica(cfg, c.At(to).node, e).value;
      MessageIs(cfg, c, CommitRequest(to, e));
      assert Append(cfg, c.At(to).node, e) == Ok(n) && ReplicaAccepts(c.At(to).node, e);
      AcceptedNotFenced(cfg, c, to, e);
      CommitIsNext(cfg, c, to, e);
      hide ReplicaAccepts, CommitReplica, Append;
      GrowKeeps(cfg, c, to, e, c.At(to).(node := n), {CommitAck(to, e), PositionReport(to, |n.log|)});
    }
  }

  /** An acknowledged attempt belongs to a leader still in its own term. */
  lemma AcknowledgedInTerm(cfg: Config, c: Cluster, r: Role, peer: Role)
    requires ClusterOk(cfg, c)
    requires c.At(r).attempt.Some? && !c.At(r).attempt.value.decided
    requires PrepareAck(peer, c.At(r).attempt.value.envelope, Some(c.At(r).attempt.value.rid)) in c.net
    ensures Term(SpineOf(c), r) == Index(r)
  {
    assert AttemptOk(c, r);
  }

  lemma DecideKeeps(cfg: Config, c: Cluster, r: Role, peer: Role)
    requires ConfigOk(cfg) && ClusterOk(cfg, c)
    ensures ClusterOk(cfg, DoDecide(cfg, c, r, peer))
  {
    hide ClusterOk, NodeOk, SpineOk, Apply;
    if DoDecide(cfg, c, r, peer) != c {
      var a := c.At(r).attempt.value;
      MemberIs(cfg, c, r);
      AcknowledgedInTerm(cfg, c, r, peer);
      var n := Append(cfg, c.At(r).node, a.envelope).value;
      var decided := c.At(r).(node := n, attempt := Some(a.(decided := true)));
      GrowKeeps(cfg, c, r, a.envelope, decided, CommitsTo(r, a.envelope));
    }
  }

  /** Steps of `r` that only drop its pending record or its attempt. */
  lemma DropKeeps(cfg: Config, c: Cluster, c': Cluster, r: Role, e: Option<Envelope>)
    requires ClusterOk(cfg, c)
    requires forall q :: q != r ==> c'.At(q) == c.At(q)
    requires c'.At(r).attempt.None? && c'.At(r).admitted == c.At(r).admitted
    requires c'.At(r).node == c.At(r).node || c'.At(r).node == c.At(r).node.(pending := None)
    requires c'.net == c.net + AbortsTo(r, e) && c'.nextRid == c.nextRid
    requires forall x :: x in c'.acked && x !in c.acked ==> TwoCopies(SpineOf(c), x)
    ensures ClusterOk(cfg, c')
  {
    assert MemberOk(cfg, c, r) && AttemptOk(c, r);
    ClearKeeps(cfg, c.At(r).node);
    AbortsSayNothing(SpineOf(c), c.nextRid, r, e);
    SpineAt(c, r);
    SpineAt(c', r);
    hide ClusterOk, NodeOk, AbortsTo;
    QuietKeeps(cfg, c, c', r);
  }

  lemma AcknowledgeKeeps(cfg: Config, c: Cluster, r: Role, peer: Role)
    requires ClusterOk(cfg, c)
    ensures ClusterOk(cfg, DoAcknowledge(c, r, peer))
  {
    hide ClusterOk, NodeOk, SpineOk;
    var c' := DoAcknowledge(c, r, peer);
    if c' != c {
      var e := c.At(r).attempt.value.envelope;
      MessageIs(cfg, c, CommitAck(peer, e));
      assert TwoCopies(SpineOf(c), e);
      assert c.net + AbortsTo(r, None) == c.net;
      DropKeeps(cfg, c, c', r, None);
    }
  }

  lemma AbortStepKeeps(cfg: Config, c: Cluster, to: Role, e: Envelope)
    requires ClusterOk(cfg, c)
    ensures ClusterOk(cfg, DoAbort(c, to, e))
  {
    var c' := DoAbort(c, to, e);
    if c' != c {
      assert c.net + AbortsTo(to, None) == c.net;
      hide ClusterOk;
      DropKeeps(cfg, c, c', to, None);
    }
  }

  lemma GiveUpKeeps(cfg: Config, c: Cluster, r: Role)
    requires ClusterOk(cfg, c)
    ensures ClusterOk(cfg, DoGiveUp(c, r))
  {
    hide ClusterOk, AbortsTo;
    var me := c.At(r);
    if me.attempt.Some? && !me.attempt.value.decided {
      DropKeeps(cfg, c, DoGiveUp(c, r), r, Some(me.attempt.value.envelope));
    }
  }

  lemma DropStaleKeeps(cfg: Config, c: Cluster, r: Role)
    requires ClusterOk(cfg, c)
    ensures ClusterOk(cfg, DoDropStale(c, r))
  {
    hide ClusterOk, AbortsTo;
    if c.At(r).admitted && c.Free(r) {
      DropKeeps(cfg, c, DoDropStale(c, r), r, c.At(r).node.pending);
    }
  }

  /** The uncertain outcome releases the lock and tells the client nothing definite. */
  lemma LeaveKeeps(cfg: Config, c: Cluster, r: Role)
    requires ClusterOk(cfg, c)
    ensures ClusterOk(cfg, DoLeave(c, r))
  {
    hide ClusterOk;
    if DoLeave(c, r) != c {
      assert c.net + AbortsTo(r, None) == c.net;
      DropKeeps(cfg, c, DoLeave(c, r), r, None);
    }
  }

  // ---------------------------------------------------------------- leadership steps

  /** Accepting a heartbeat at the replica's own position changes only the tick. */
  lemma BeatLeadKeeps(cfg: Config, n: Node, leader: Role, term: int, tick: int, nonce: int)
    requires NodeOk(cfg, n) && nonce == |n.log| && Beat(n.lead, leader, term, tick, nonce).Ok?
    ensures NodeOk(cfg, n.(lead := Beat(n.lead, leader, term, tick, nonce).value))
    ensures Beat(n.lead, leader, term, tick, nonce).value == n.lead.(tick := tick)
  {
  }

  /** A leader in office, or one just fenced, may offer its last certificate to anyone. */
  lemma LastOfferOk(ls: Lines, r: Role, n: Node, to: Role)
    requires SpineOk(ls) && Index(r) <= Term(ls, r) <= Index(r) + 1 && n.lead.certificates == ls.Of(r).certs
    requires LastCertificate(n).Some?
    ensures OfferOk(ls, to, LastCertificate(n).value)
  {
    var c, i := LastCertificate(n).value, Term(ls, r) - 1;
    assert LineOk(ls.Of(r));
    assert CertifiedBy(ls, r, c);
    if Term(ls, r) == Index(r) + 1 {
      FencedLast(ls, r, c.leader);
      assert Agreed(ls, r, c.leader, i);
    }
  }

  lemma AnnouncementsOk(ls: Lines, rid: nat, r: Role, n: Node, tick: int)
    requires SpineOk(ls) && Index(r) <= Term(ls, r) <= Index(r) + 1 && n.lead.certificates == ls.Of(r).certs
    ensures forall m :: m in HeartbeatsTo(r, n, tick) + OffersTo(r, n) ==> MessageOk(ls, rid, m) && !m.PrepareAck?
  {
    hide SpineOk, OfferOk;
    forall m | m in OffersTo(r, n)
      ensures MessageOk(ls, rid, m)
    {
      LastOfferOk(ls, r, n, m.to);
    }
  }

  /** Dating its own heartbeat changes only the leader's tick. */
  lemma LeaderBeatKeeps(cfg: Config, n: Node, tick: int)
    requires NodeOk(cfg, n) && Position(n.positions) == |n.log| && LeaderBeat(n, tick).Ok?
    ensures var n' := LeaderBeat(n, tick).value;
            NodeOk(cfg, n') && n' == n.(lead := n.lead.(tick := n'.lead.tick))
  {
    if tick > n.lead.tick {
      BeatLeadKeeps(cfg, n, n.role, n.lead.term, tick, |n.log|);
    }
    hide NodeOk, Position;
  }

  lemma LeaderTickKeeps(cfg: Config, c: Cluster, r: Role, tick: int)
    requires ClusterOk(cfg, c)
    ensures ClusterOk(cfg, DoLeaderTick(c, r, tick))
  {
    hide ClusterOk, NodeOk, SpineOk, LineOk, MessageOk, HeartbeatsTo, OffersTo, LeaderBeat;
    var me := c.At(r);
    if DoLeaderTick(c, r, tick) != c {
      MemberIs(cfg, c, r);
      PositionIsLength(cfg, c, r);
      LeaderBeatKeeps(cfg, me.node, tick);
      var n := LeaderBeat(me.node, tick).value;
      AnnouncementsOk(SpineOf(c), c.nextRid, r, n, tick);
      CalmKeeps(cfg, c, r, n, HeartbeatsTo(r, n, tick) + OffersTo(r, n));
    }
  }

  lemma HeartbeatStepKeeps(cfg: Config, c: Cluster, to: Role, h: SignedHeartbeat)
    requires ClusterOk(cfg, c)
    ensures ClusterOk(cfg, DoHeartbeat(c, to, h))
  {
    hide ClusterOk, NodeOk, SpineOk, LineOk;
    var c' := DoHeartbeat(c, to, h);
    if c' != c {
      MemberIs(cfg, c, to);
      HeartbeatKeeps(cfg, c.At(to).node, h);
      CalmKeeps(cfg, c, to, ReceiveHeartbeat(c.At(to).node, h).value, {});
      assert c.net + {} == c.net;
      assert c' == c.SetNode(to, ReceiveHeartbeat(c.At(to).node, h).value).Send({});
    }
  }

  lemma StartClockKeeps(cfg: Config, c: Cluster, r: Role, now: nat)
    requires ClusterOk(cfg, c)
    ensures ClusterOk(cfg, c.SetNode(r, FirstTick(c.At(r).node, now)))
  {
    hide ClusterOk, NodeOk, SpineOk, LineOk;
    MemberIs(cfg, c, r);
    FirstTickKeeps(cfg, c.At(r).node, now);
    CalmKeeps(cfg, c, r, FirstTick(c.At(r).node, now), {});
    assert c.net + {} == c.net;
    assert c.SetNode(r, FirstTick(c.At(r).node, now)) == c.SetNode(r, FirstTick(c.At(r).node, now)).Send({});
  }

  lemma RequestVoteKeeps(cfg: Config, c: Cluster, r: Role, to: Role, tick: int)
    requires ClusterOk(cfg, c)
    ensures ClusterOk(cfg, DoRequestVote(c, r, to, tick))
  {
    PositionIsLength(cfg, c, r);
    SpineAt(c, r);
    hide ClusterOk, SpineOk, NodeOk, LineOk, Position;
    var n := c.At(r).node;
    SendKeeps(cfg, c, {VoteRequest(to, OwnVote(n, tick), n.core.ledger)});
  }

  lemma AnswerVoteKeeps(cfg: Config, c: Cluster, w: Role, v: Vote, ledger: LedgerModel.LedgerState, clock: int)
    requires ClusterOk(cfg, c)
    ensures ClusterOk(cfg, DoAnswerVote(c, w, v, ledger, clock))
  {
    hide ClusterOk;
    if DoAnswerVote(c, w, v, ledger, clock) != c {
      MessageIs(cfg, c, VoteRequest(w, v, ledger));
      SendKeeps(cfg, c, {VoteReply(v.ballot.voter, v, TimeoutVote(c.At(w).node, v, ledger, clock).value)});
    }
  }

  /** A certificate completed from a restored copy names the voter-candidate's position. */
  lemma CertifiedOffer(lead: Leadership, own: Vote, other: Vote)
    requires SnapshotOk(SnapshotOf(lead))
    requires Submit(FromSnapshot(SnapshotOf(lead)).value, own).Ok?
    requires var first := Submit(FromSnapshot(SnapshotOf(lead)).value, own).value;
             Submit(first.state, other).Ok? && Submit(first.state, other).value.certificate.Some?
    ensures var first := Submit(FromSnapshot(SnapshotOf(lead)).value, own).value;
            var c := Submit(first.state, other).value.certificate.value;
            && c.term == lead.term + 1 < ROLE_COUNT && c.leader == RoleAt(c.term)
            && c.leader == own.ballot.candidate && c.nonce == own.ballot.nonce
            && lead.leader == RoleAt(lead.term)
  {
  }

  lemma CertifyKeeps(cfg: Config, c: Cluster, r: Role, own: Vote, other: Vote)
    requires ClusterOk(cfg, c)
    ensures ClusterOk(cfg, DoCertify(c, r, own, other))
  {
    hide ClusterOk, SpineOk, LineOk, Submit, SnapshotOk;
    var lead := c.At(r).node.lead;
    if DoCertify(c, r, own, other) != c {
      MemberIs(cfg, c, r);
      assert SnapshotOk(SnapshotOf(lead));
      hide NodeOk;
      CertifiedOffer(lead, own, other);
      MessageIs(cfg, c, VoteReply(r, own, other));
      var first := Submit(FromSnapshot(SnapshotOf(lead)).value, own).value;
      var cert := Submit(first.state, other).value.certificate.value;
      SendKeeps(cfg, c, {CertificateOffer(Witness(lead.leader).value, cert)});
    }
  }

  /** The spine after one chain has grown by one certificate. */
  lemma SpineAdopted(c: Cluster, c': Cluster, r: Role, cert: Certificate)
    requires forall q :: q != r ==> c'.At(q) == c.At(q)
    requires c'.At(r).node.log == c.At(r).node.log
    requires c'.At(r).node.lead.certificates == c.At(r).node.lead.certificates + [cert]
    ensures SpineOf(c') == AdoptedLines(SpineOf(c), r, cert)
    ensures Longer(SpineOf(c), SpineOf(c'))
  {
    assert c.At(Primary) == c.p && c.At(Secondary) == c.s && c.At(Tertiary) == c.t;
    assert c'.At(Primary) == c'.p && c'.At(Secondary) == c'.s && c'.At(Tertiary) == c'.t;
  }

  /** Recording a certificate either changes no chain or appends it at the node's position. */
  lemma RecordCases(n: Node, cert: Certificate)
    requires RecordCertificate(n, cert).Ok?
    ensures var n' := RecordCertificate(n, cert).value;
            && n'.log == n.log && n'.role == n.role && (n'.pending.Some? ==> n'.pending == n.pending)
            && (|| (n'.lead.certificates == n.lead.certificates && n.lead.certificates != []
                    && cert == n.lead.certificates[|n.lead.certificates| - 1])
                || (&& n'.lead.certificates == n.lead.certificates + [cert]
                    && cert.term == n.lead.term + 1 && cert.nonce == n.lead.nonce
                    && Successor(n.lead.leader) == Some(cert.leader)))
  {
  }

  /** `r` records a certificate it may adopt, or one it already holds, and says so. */
  lemma RecordKeeps(cfg: Config, c: Cluster, r: Role, cert: Certificate, ms: set<Message>)
    requires ClusterOk(cfg, c) && c.Free(r) && RecordCertificate(c.At(r).node, cert).Ok?
    requires ms <= {CertificateHeld(r, cert)}
    requires (&& cert.term == Term(SpineOf(c), r) + 1 && cert.nonce == |c.At(r).node.log|
              && Successor(c.At(r).node.lead.leader) == Some(cert.leader)) ==> MayAdopt(SpineOf(c), r, cert)
    ensures ClusterOk(cfg, c.SetNode(r, RecordCertificate(c.At(r).node, cert).value).Send(ms))
  {
    hide ClusterOk, NodeOk, SpineOk, RecordCertificate, MayAdopt;
    var n := RecordCertificate(c.At(r).node, cert).value;
    var c' := c.SetNode(r, n).Send(ms);
    MemberIs(cfg, c, r);
    PositionIsLength(cfg, c, r);
    CertificateKeeps(cfg, c.At(r).node, cert);
    RecordCases(c.At(r).node, cert);
    if n.lead.certificates == c.At(r).node.lead.certificates {
      assert CertifiedBy(SpineOf(c), r, cert);
      CalmKeeps(cfg, c, r, n, ms);
    } else {
      SpineAdopted(c, c', r, cert);
      AdoptKeepsSpine(SpineOf(c), r, cert);
      SpineAt(c', r);
      StepKeeps(cfg, c, c', r);
    }
  }

  lemma CertificateStepKeeps(cfg: Config, c: Cluster, to: Role, cert: Certificate)
    requires ClusterOk(cfg, c)
    ensures ClusterOk(cfg, DoCertificate(c, to, cert))
  {
    hide ClusterOk, NodeOk, SpineOk, LineOk, RecordCertificate;
    if CertificateOffer(to, cert) in c.net && c.Free(to) && RecordCertificate(c.At(to).node, cert).Ok? {
      MemberIs(cfg, c, to);
      PositionIsLength(cfg, c, to);
      MessageIs(cfg, c, CertificateOffer(to, cert));
      RecordKeeps(cfg, c, to, cert, {CertificateHeld(to, cert)});
    }
  }

  lemma RecoverKeeps(cfg: Config, c: Cluster, r: Role, cert: Certificate)
    requires ClusterOk(cfg, c)
    ensures ClusterOk(cfg, DoRecover(c, r, cert))
  {
    hide ClusterOk, NodeOk, SpineOk, LineOk, RecordCertificate;
    var c' := DoRecover(c, r, cert);
    if c' != c {
      var w := Witness(c.At(r).node.lead.leader).value;
      MemberIs(cfg, c, r);
      PositionIsLength(cfg, c, r);
      MessageIs(cfg, c, CertificateHeld(w, cert));
      RecordKeeps(cfg, c, r, cert, {});
      var n := RecordCertificate(c.At(r).node, cert).value;
      assert c.net + {} == c.net;
      assert c' == c.SetNode(r, n).Send({});
    }
  }

  lemma CrashKeeps(cfg: Config, c: Cluster, r: Role)
    requires ConfigOk(cfg) && ClusterOk(cfg, c)
    ensures ClusterOk(cfg, DoCrash(cfg, c, r))
  {
    hide NodeOk, SpineOk, Restart;
    if Restart(cfg, r, RecordOf(c.At(r).node)).Ok? {
      var c' := DoCrash(cfg, c, r);
      MemberIs(cfg, c, r);
      RestartExact(cfg, c.At(r).node);
      SpineAt(c', r);
      hide ClusterOk;
      QuietKeeps(cfg, c, c', r);
    }
  }
}
