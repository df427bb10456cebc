/**
 The three-node cluster as a step relation: atomic handlers over a growing set of sent
 messages, any of which may be delivered late, again, or never. A crash reloads the last
 saved record and forgets everything volatile.
 */
module Cluster {
  import opened Common
  import opened NodeModel
  import opened Failover
  import opened Spine
  import LedgerModel

  /**
   A running `replicate_mutation` on a leader. While it runs the node's lock is held.
   `rid` identifies its connections, so only answers to its own prepares count.
   */
  datatype Attempt = Attempt(envelope: Envelope, rid: nat, decided: bool)

  /**
   A node with its volatile part. `admitted` says that some client request has passed the
   leadership check, which the source makes before it takes the lock.
   */
  datatype Member = Member(node: Node, admitted: bool, attempt: Option<Attempt>)

  /** Requests and answers. `rid` is absent when a prepare only replays history. */
  datatype Message =
    | PositionReport(from: Role, position: nat)
    | PrepareRequest(to: Role, envelope: Envelope, rid: Option<nat>)
    | PrepareAck(from: Role, envelope: Envelope, rid: Option<nat>)
    | CommitRequest(to: Role, envelope: Envelope)
    | CommitAck(from: Role, envelope: Envelope)
    | AbortRequest(to: Role, envelope: Envelope)
    | HistoryEntry(from: Role, envelope: Envelope)
    | VoteRequest(to: Role, vote: Vote, ledger: LedgerModel.LedgerState)
    | VoteReply(to: Role, own: Vote, other: Vote)
    | CertificateOffer(to: Role, certificate: Certificate)
    | CertificateHeld(from: Role, certificate: Certificate)
    | HeartbeatSent(to: Role, heartbeat: SignedHeartbeat)

  datatype Cluster = Cluster(
    p: Member, s: Member, t: Member,
    net: set<Message>, nextRid: nat,
    acked: set<Envelope>)
  {
    function At(r: Role): Member {
      match r
      case Primary => p
      case Secondary => s
      case Tertiary => t
    }

    function With(r: Role, m: Member): (c: Cluster)
      ensures forall q :: c.At(q) == if q == r then m else At(q)
      ensures c.net == net && c.nextRid == nextRid && c.acked == acked
    {
      match r
      case Primary => this.(p := m)
      case Secondary => this.(s := m)
      case Tertiary => this.(t := m)
    }

    function Send(ms: set<Message>): Cluster {
      this.(net := net + ms)
    }

    function SetNode(r: Role, n: Node): Cluster {
      With(r, At(r).(node := n))
    }

    /** The node's lock is free. */
    predicate Free(r: Role) {
      At(r).attempt.None?
    }
  }

  datatype Step =
    | Admit(r: Role)
    | Begin(r: Role, mutation: Mutation)
    | SendPrepare(r: Role, to: Role)
    | Push(r: Role, to: Role, k: nat)
    | DeliverPrepare(to: Role, envelope: Envelope, rid: Option<nat>)
    | DeliverCommit(to: Role, envelope: Envelope)
    | DeliverAbort(to: Role, envelope: Envelope)
    | ReportPosition(r: Role)
    | ReportHistory(r: Role, k: nat)
    | Pull(r: Role, from: Role, envelope: Envelope)
    | Decide(r: Role, peer: Role)
    | GiveUp(r: Role)
    | Acknowledge(r: Role, peer: Role)
    | LeaveUncertain(r: Role)
    | DropStale(r: Role)
    | LeaderTick(r: Role, tick: int)
    | DeliverHeartbeat(to: Role, heartbeat: SignedHeartbeat)
    | StartClock(r: Role, now: nat)
    | RequestVote(r: Role, to: Role, tick: int)
    | AnswerVote(w: Role, vote: Vote, ledger: LedgerModel.LedgerState, clock: int)
    | Certify(r: Role, own: Vote, other: Vote)
    | DeliverCertificate(to: Role, certificate: Certificate)
    | ShowCertificate(r: Role)
    | Recover(r: Role, certificate: Certificate)
    | CrashRestart(r: Role)

  function Peers(r: Role): set<Role> {
    {Primary, Secondary, Tertiary} - {r}
  }

  function CommitsTo(r: Role, e: Envelope): set<Message> {
    set q | q in Peers(r) :: CommitRequest(q, e)
  }

  function AbortsTo(r: Role, e: Option<Envelope>): set<Message> {
    if e.None? then {} else set q | q in Peers(r) :: AbortRequest(q, e.value)
  }

  function HeartbeatsTo(r: Role, n: Node, tick: int): set<Message> {
    set q | q in Peers(r) :: HeartbeatSent(q, OwnHeartbeat(n, tick))
  }

  function OffersTo(r: Role, n: Node): set<Message> {
    if LastCertificate(n).None? then {}
    else set q | q in Peers(r) :: CertificateOffer(q, LastCertificate(n).value)
  }

  /** A node is known to have committed at least `position` entries. */
  ghost predicate Reported(c: Cluster, r: Role, position: nat) {
    exists q: nat :: q >= position && PositionReport(r, q) in c.net
  }

  // ---------------------------------------------------------------- replication

  /** `replicate_mutation` under the lock: abort a stale record, try, sign, save. */
  ghost function DoBegin(cfg: Config, c: Cluster, r: Role, m: Mutation): Cluster {
    var me := c.At(r);
    if !(me.admitted && c.Free(r)) then c
    else
      var clean := me.node.(pending := None);
      var aborted := c.Send(AbortsTo(r, me.node.pending));
      match Propose(cfg, clean, m)
      case Err(_) => aborted.SetNode(r, clean)
      case Ok(node) =>
        aborted.(nextRid := c.nextRid + 1)
               .With(r, me.(node := node, attempt := Some(Attempt(node.pending.value, c.nextRid, false))))
  }

  /** A prepare goes out only after the peer has been brought up to the leader's position. */
  ghost function DoSendPrepare(c: Cluster, r: Role, to: Role): Cluster {
    var me := c.At(r);
    if me.attempt.Some? && !me.attempt.value.decided && to != r && Reported(c, to, |me.node.log|) then
      c.Send({PrepareRequest(to, me.attempt.value.envelope, Some(me.attempt.value.rid))})
    else c
  }

  /** `_sync_history`: entry `k` follows once the peer has confirmed everything before it. */
  ghost function DoPush(c: Cluster, r: Role, to: Role, k: nat): Cluster {
    if to != r && k < |c.At(r).node.log| && Reported(c, to, k) then
      c.Send({PrepareRequest(to, c.At(r).node.log[k], None), CommitRequest(to, c.At(r).node.log[k])})
    else c
  }

  ghost function DoPrepare(cfg: Config, c: Cluster, to: Role, e: Envelope, rid: Option<nat>): Cluster {
    if !(PrepareRequest(to, e, rid) in c.net && c.Free(to)) then c
    else
      match PrepareReplica(cfg, c.At(to).node, e)
      case Err(_) => c
      case Ok(node) => c.SetNode(to, node).Send({PrepareAck(to, e, rid)})
  }

  function DoCommit(cfg: Config, c: Cluster, to: Role, e: Envelope): Cluster {
    if !(CommitRequest(to, e) in c.net && c.Free(to)) then c
    else
      match CommitReplica(cfg, c.At(to).node, e)
      case Err(_) => c
      case Ok(node) => c.SetNode(to, node).Send({CommitAck(to, e), PositionReport(to, |node.log|)})
  }

  function DoAbort(c: Cluster, to: Role, e: Envelope): Cluster {
    if !(AbortRequest(to, e) in c.net && c.Free(to)) then c
    else
      match AbortReplica(c.At(to).node, e)
      case Err(_) => c
      case Ok(node) => c.SetNode(to, node)
  }

  /** `_sync_from_peer`: entries are taken in order from the local position on. */
  function DoPull(c: Cluster, r: Role, from: Role, e: Envelope): Cluster {
    if HistoryEntry(from, e) in c.net && e.nonce - 1 <= |c.At(r).node.log| then
      c.Send({PrepareRequest(r, e, None), CommitRequest(r, e)})
    else c
  }

  /** One prepare acknowledgement is a quorum of two with the leader: commit locally, then tell. */
  function DoDecide(cfg: Config, c: Cluster, r: Role, peer: Role): Cluster {
    var me := c.At(r);
    if !(&& me.attempt.Some? && !me.attempt.value.decided && peer != r
         && PrepareAck(peer, me.attempt.value.envelope, Some(me.attempt.value.rid)) in c.net)
    then c
    else
      match Append(cfg, me.node, me.attempt.value.envelope)
      case Err(_) => c
      case Ok(node) =>
        c.With(r, me.(node := node, attempt := Some(me.attempt.value.(decided := true))))
         .Send(CommitsTo(r, me.attempt.value.envelope))
  }

  /** No acknowledgement arrived: withdraw the proposal. */
  function DoGiveUp(c: Cluster, r: Role): Cluster {
    var me := c.At(r);
    if me.attempt.Some? && !me.attempt.value.decided then
      c.With(r, me.(node := me.node.(pending := None), attempt := None))
       .Send(AbortsTo(r, Some(me.attempt.value.envelope)))
    else c
  }

  /** A replica confirmed the commit: the client is told the mutation succeeded. */
  function DoAcknowledge(c: Cluster, r: Role, peer: Role): Cluster {
    var me := c.At(r);
    if && me.attempt.Some? && me.attempt.value.decided && peer != r
       && CommitAck(peer, me.attempt.value.envelope) in c.net
    then c.With(r, me.(attempt := None)).(acked := c.acked + {me.attempt.value.envelope})
    else c
  }

  /** No confirmation arrived: the client gets COMMIT_UNCERTAIN. */
  function DoLeave(c: Cluster, r: Role): Cluster {
    if c.At(r).attempt.Some? && c.At(r).attempt.value.decided then c.With(r, c.At(r).(attempt := None)) else c
  }

  function DoDropStale(c: Cluster, r: Role): Cluster {
    var me := c.At(r);
    if me.admitted && c.Free(r) then
      c.SetNode(r, me.node.(pending := None)).Send(AbortsTo(r, me.node.pending))
    else c
  }

  // ---------------------------------------------------------------- leadership

  /**
   A leader's own heartbeat, and the certificate it keeps announcing. Leadership is tested
   before the lock is taken; as waiters are served in order, at most the node's own
   replacement can get in between, so a leader that has just been fenced may announce too.
   */
  function DoLeaderTick(c: Cluster, r: Role, tick: int): Cluster {
    var me := c.At(r);
    if !(c.Free(r) && (me.node.lead.leader == r || me.node.lead.term == Index(r) + 1)) then c
    else
      match LeaderBeat(me.node, tick)
      case Err(_) => c
      case Ok(node) => c.SetNode(r, node).Send(HeartbeatsTo(r, node, tick) + OffersTo(r, node))
  }

  function DoHeartbeat(c: Cluster, to: Role, h: SignedHeartbeat): Cluster {
    if !(HeartbeatSent(to, h) in c.net && c.Free(to)) then c
    else
      match ReceiveHeartbeat(c.At(to).node, h)
      case Err(_) => c
      case Ok(node) => c.SetNode(to, node)
  }

  /**
   A candidate signs its vote and asks a witness. What it tested before talking to its peers
   may no longer hold when it signs, so any node may ask any other at any time here.
   */
  function DoRequestVote(c: Cluster, r: Role, to: Role, tick: int): Cluster {
    c.Send({VoteRequest(to, OwnVote(c.At(r).node, tick), c.At(r).node.core.ledger)})
  }

  function DoAnswerVote(c: Cluster, w: Role, v: Vote, ledger: LedgerModel.LedgerState, now: int): Cluster {
    if !(VoteRequest(w, v, ledger) in c.net && c.Free(w)) then c
    else
      match TimeoutVote(c.At(w).node, v, ledger, now)
      case Err(_) => c
      case Ok(u) => c.Send({VoteReply(v.ballot.voter, v, u)})
  }

  /** Both votes are tried on a restored copy; the certificate goes to the witness first. */
  function DoCertify(c: Cluster, r: Role, own: Vote, other: Vote): Cluster {
    var lead := c.At(r).node.lead;
    if !(VoteReply(r, own, other) in c.net && Witness(lead.leader).Some?) then c
    else
      match CompleteCertificate(lead, own, other)
      case None => c
      case Some(certificate) => c.Send({CertificateOffer(Witness(lead.leader).value, certificate)})
  }

  function DoCertificate(c: Cluster, to: Role, cert: Certificate): Cluster {
    if !(CertificateOffer(to, cert) in c.net && c.Free(to)) then c
    else
      match RecordCertificate(c.At(to).node, cert)
      case Err(_) => c
      case Ok(node) => c.SetNode(to, node).Send({CertificateHeld(to, cert)})
  }

  function DoShowCertificate(c: Cluster, r: Role): Cluster {
    var cs := c.At(r).node.lead.certificates;
    if cs == [] then c else c.Send({CertificateHeld(r, cs[|cs| - 1])})
  }

  /** The candidate records a certificate only once the witness is known to hold it. */
  function DoRecover(c: Cluster, r: Role, cert: Certificate): Cluster {
    var lead := c.At(r).node.lead;
    if !(&& Successor(lead.leader) == Some(r) && Witness(lead.leader).Some?
         && CertificateHeld(Witness(lead.leader).value, cert) in c.net && c.Free(r))
    then c
    else
      match RecordCertificate(c.At(r).node, cert)
      case Err(_) => c
      case Ok(node) => c.SetNode(r, node)
  }

  ghost function DoCrash(cfg: Config, c: Cluster, r: Role): Cluster {
    match Restart(cfg, r, RecordOf(c.At(r).node))
    case Err(_) => c
    case Ok(node) => c.With(r, Member(node, false, None))
  }

  // ---------------------------------------------------------------- runs

  /** The successor state; a step that is not enabled changes nothing. */
  ghost function Next(cfg: Config, c: Cluster, step: Step): Cluster {
    match step
    case Admit(r) => if c.At(r).node.lead.leader == r then c.With(r, c.At(r).(admitted := true)) else c
    case Begin(r, m) => DoBegin(cfg, c, r, m)
    case SendPrepare(r, to) => DoSendPrepare(c, r, to)
    case Push(r, to, k) => DoPush(c, r, to, k)
    case DeliverPrepare(to, e, rid) => DoPrepare(cfg, c, to, e, rid)
    case DeliverCommit(to, e) => DoCommit(cfg, c, to, e)
    case DeliverAbort(to, e) => DoAbort(c, to, e)
    case ReportPosition(r) =>
      if c.At(r).node.lead.leader != r then c.Send({PositionReport(r, |c.At(r).node.log|)}) else c
    case ReportHistory(r, k) =>
      if c.Free(r) && k < |c.At(r).node.log| then c.Send({HistoryEntry(r, c.At(r).node.log[k])}) else c
    case Pull(r, from, e) => DoPull(c, r, from, e)
    case Decide(r, peer) => DoDecide(cfg, c, r, peer)
    case GiveUp(r) => DoGiveUp(c, r)
    case Acknowledge(r, peer) => DoAcknowledge(c, r, peer)
    case LeaveUncertain(r) => DoLeave(c, r)
    case DropStale(r) => DoDropStale(c, r)
    case LeaderTick(r, tick) => DoLeaderTick(c, r, tick)
    case DeliverHeartbeat(to, h) => DoHeartbeat(c, to, h)
    case StartClock(r, tick) => c.SetNode(r, FirstTick(c.At(r).node, tick))
    case RequestVote(r, to, tick) => DoRequestVote(c, r, to, tick)
    case AnswerVote(w, v, ledger, now) => DoAnswerVote(c, w, v, ledger, now)
    case Certify(r, own, other) => DoCertify(c, r, own, other)
    case DeliverCertificate(to, cert) => DoCertificate(c, to, cert)
    case ShowCertificate(r) => DoShowCertificate(c, r)
    case Recover(r, cert) => DoRecover(c, r, cert)
    case CrashRestart(r) => DoCrash(cfg, c, r)
  }

  function Start(cfg: Config): Cluster {
    Cluster(
      Member(FreshNode(cfg, Primary), false, None),
      Member(FreshNode(cfg, Secondary), false, None),
      Member(FreshNode(cfg, Tertiary), false, None),
      {}, 0, {})
  }

  /** Any interleaving of proposals, deliveries, losses, votes, certificates and crashes. */
  ghost function Execution(cfg: Config, steps: seq<Step>): Cluster {
    if steps == [] then Start(cfg)
    else Next(cfg, Execution(cfg, steps[..|steps| - 1]), steps[|steps| - 1])
  }
}
