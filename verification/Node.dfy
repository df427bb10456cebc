/**
 One replica of the three-node cluster: request authentication, signed envelopes, the
 prepare/commit/abort handlers, certificate adoption and restart. Every handler is atomic,
 as the source runs each under the node's lock, and saves before it answers.
 */
module NodeModel {
  import opened Common
  import opened LedgerModel
  import opened LedgerInvariants
  import Restore
  import Failover

  type Role = Failover.Role
  type Secret = string

  const DEFAULT_TIMEOUT := 3
  const OPERATOR := "testnet_operator"

  // ---------------------------------------------------------------- requests

  /** An HMAC over a request: a term of the secret and everything it covers. */
  datatype AuthTag = Mac(secret: Secret, actor: Account, id: string, op: Op, nonce: int) | ForgedMac(tag: int)

  datatype Auth = Auth(actor: Account, nonce: int, tag: AuthTag)

  datatype Mutation = Mutation(op: Op, id: string, auth: Option<Auth>)

  /** What is fixed for a deployment: genesis or demo balances, and the credential registry. */
  datatype Config = Config(
    genesis: Option<Genesis>,
    balances: map<Account, int>,
    registry: Option<map<Account, Secret>>)

  /** The replicated state: the ledger and the per-actor replay nonces. */
  datatype Core = Core(ledger: LedgerState, replay: map<Account, int>)

  function LastNonce(replay: map<Account, int>, actor: Account): int {
    if actor in replay then replay[actor] else -1
  }

  /** `RequestAuthenticator.verify` without recording. */
  function VerifyRequest(registry: map<Account, Secret>, replay: map<Account, int>, m: Mutation): Outcome<Account> {
    match m.auth
    case None => Err("authenticated request required")
    case Some(a) =>
      if a.actor !in registry then Err("invalid request authentication")
      else if a.tag != Mac(registry[a.actor], a.actor, m.id, m.op, a.nonce) then Err("invalid request authentication")
      else if a.nonce <= LastNonce(replay, a.actor) then Err("invalid request authentication")
      else Ok(a.actor)
  }

  /** The participant a request must be signed by, if its method names one. */
  function Participant(op: Op): Option<Account> {
    match op
    case Offer(sender, _, _, _) => Some(sender)
    case Accept(_, receiver) => Some(receiver)
    case Commit(_, sender, _) => Some(sender)
    case Cancel(_, actor) => Some(actor)
    case Advance(_) => None
    case Register(_) => None
  }

  /** Who a mutation acts for; without a registry `_apply_mutation` does not ask. */
  function VerifyActor(cfg: Config, replay: map<Account, int>, m: Mutation): Outcome<Option<Account>> {
    match cfg.registry
    case None => Ok(None)
    case Some(registry) =>
      match VerifyRequest(registry, replay, m)
      case Err(e) => Err(e)
      case Ok(actor) =>
        if Participant(m.op).Some? && Participant(m.op) != Some(actor) then
          Err("authenticated actor does not match request participant")
        else if (m.op.Advance? || m.op.Register?) && actor != OPERATOR then
          Err("only the testnet operator can perform this action")
        else Ok(Some(actor))
  }

  /** `_apply_mutation`: authorise, execute, and record the actor's nonce. */
  function Apply(cfg: Config, core: Core, m: Mutation): Outcome<Core> {
    match VerifyActor(cfg, core.replay, m)
    case Err(e) => Err(e)
    case Ok(actor) =>
      match Execute(core.ledger, m.op)
      case Err(e) => Err(e)
      case Ok(l) =>
        Ok(Core(l, if actor.Some? then core.replay[actor.value := m.auth.value.nonce] else core.replay))
  }

  /** The dry run before a prepare: on a copy restored from the ledger's own snapshot. */
  ghost function Trial(cfg: Config, core: Core, m: Mutation): Outcome<LedgerState> {
    match Restore.FromSnapshot(Restore.SnapshotOf(core.ledger), None)
    case Err(e) => Err(e)
    case Ok(copy) =>
      match VerifyActor(cfg, core.replay, m)
      case Err(e) => Err(e)
      case Ok(_) => Execute(copy, m.op)
  }

  // ---------------------------------------------------------------- envelopes

  datatype EnvelopeSignature = Sealed(leader: Role, nonce: int, mutation: Mutation) | ForgedSeal(tag: int)

  datatype Envelope = Envelope(leader: Role, nonce: int, mutation: Mutation, signature: EnvelopeSignature)

  function SignEnvelope(leader: Role, nonce: int, m: Mutation): Envelope {
    Envelope(leader, nonce, m, Sealed(leader, nonce, m))
  }

  predicate Genuine(e: Envelope) {
    e.signature == Sealed(e.leader, e.nonce, e.mutation)
  }

  /** `ReplicationAuthenticator.verify`. */
  predicate EnvelopeOk(e: Envelope, lastNonce: int, expected: Role) {
    e.leader == expected && e.nonce > lastNonce && Genuine(e)
  }

  // ---------------------------------------------------------------- the replica

  /** `positions` is the source's `replication_nonces`. */
  datatype Node = Node(
    role: Role,
    core: Core,
    log: seq<Envelope>,
    pending: Option<Envelope>,
    positions: map<Role, int>,
    lead: Failover.Leadership)

  /** The durable record of a node. */
  datatype Record = Record(
    ledger: Restore.Snapshot,
    replay: map<Account, int>,
    positions: map<Role, int>,
    log: seq<Envelope>,
    pending: Option<Envelope>,
    leadership: Failover.LeadershipSnapshot)

  function RecordOf(n: Node): Record {
    Record(Restore.SnapshotOf(n.core.ledger), n.core.replay, n.positions, n.log, n.pending,
           Failover.SnapshotOf(n.lead))
  }

  function PositionsOf(p: map<Role, int>): seq<int> {
    (if Failover.Primary in p then [p[Failover.Primary]] else [])
    + (if Failover.Secondary in p then [p[Failover.Secondary]] else [])
    + (if Failover.Tertiary in p then [p[Failover.Tertiary]] else [])
  }

  function MaxOf(s: seq<int>): (m: int)
    requires s != []
    ensures m in s && forall i :: 0 <= i < |s| ==> s[i] <= m
  {
    if |s| == 1 then s[0]
    else
      var rest := MaxOf(s[1..]);
      if s[0] > rest then s[0] else rest
  }

  /** `max(self.replication_nonces.values(), default=0)`. */
  function Position(p: map<Role, int>): int {
    var values := PositionsOf(p);
    if values == [] then 0 else MaxOf(values)
  }

  function InitialCore(cfg: Config): Core {
    Core(NewLedger(cfg.genesis, cfg.balances), map[])
  }

  function FreshNode(cfg: Config, role: Role): Node {
    Node(role, InitialCore(cfg), [], None, map[], Failover.NewLeadership(DEFAULT_TIMEOUT))
  }

  predicate ReplicaAccepts(n: Node, e: Envelope) {
    && !(n.lead.leader != Failover.Primary && e.leader == Failover.Primary)
    && n.role != n.lead.leader
    && EnvelopeOk(e, Position(n.positions), n.lead.leader)
  }

  ghost function PrepareReplica(cfg: Config, n: Node, e: Envelope): Outcome<Node> {
    if !ReplicaAccepts(n, e) then Err("invalid or replayed replication envelope")
    else if n.pending.Some? then
      if n.pending.value == e then Ok(n) else Err("replica already has a different prepared mutation")
    else
      match Trial(cfg, n.core, e.mutation)
      case Err(r) => Err(r)
      case Ok(_) => Ok(n.(pending := Some(e)))
  }

  /** Appends a decided envelope: ledger, nonce table, position, log and leadership together. */
  function Append(cfg: Config, n: Node, e: Envelope): Outcome<Node> {
    match Apply(cfg, n.core, e.mutation)
    case Err(r) => Err(r)
    case Ok(core) =>
      Ok(n.(core := core, positions := n.positions[e.leader := e.nonce], log := n.log + [e],
            pending := None, lead := n.lead.(nonce := e.nonce)))
  }

  function CommitReplica(cfg: Config, n: Node, e: Envelope): Outcome<Node> {
    if !ReplicaAccepts(n, e) then Err("invalid or replayed replication envelope")
    else if n.pending != Some(e) then Err("replica commit does not match its prepared mutation")
    else Append(cfg, n, e)
  }

  function AbortReplica(n: Node, e: Envelope): Outcome<Node> {
    if !ReplicaAccepts(n, e) then Err("invalid or replayed replication envelope")
    else if n.pending.Some? && n.pending.value != e then Err("replica abort does not match its prepared mutation")
    else Ok(n.(pending := None))
  }

  /** The start of `replicate_mutation`: drop a stale record, try the mutation, sign and save. */
  ghost function Propose(cfg: Config, n: Node, m: Mutation): Outcome<Node> {
    match Trial(cfg, n.core, m)
    case Err(r) => Err(r)
    case Ok(_) => Ok(n.(pending := Some(SignEnvelope(n.role, Position(n.positions) + 1, m))))
  }

  function RecordCertificate(n: Node, c: Failover.Certificate): Outcome<Node> {
    if n.lead.certificates != [] && c == n.lead.certificates[|n.lead.certificates| - 1] then Ok(n)
    else if n.lead.nonce != Position(n.positions) then Err("leadership position is behind the replica")
    else
      match Failover.Adopt(n.lead, c)
      case Err(r) => Err(r)
      case Ok(lead) => Ok(n.(lead := lead, pending := None))
  }

  datatype HeartbeatSeal = BeatSealed(leader: Role, term: int, tick: int, nonce: int) | ForgedBeat(tag: int)

  datatype SignedHeartbeat = SignedHeartbeat(leader: Role, term: int, tick: int, nonce: int, seal: HeartbeatSeal)

  function SignHeartbeat(leader: Role, term: int, tick: int, nonce: int): SignedHeartbeat {
    SignedHeartbeat(leader, term, tick, nonce, BeatSealed(leader, term, tick, nonce))
  }

  predicate GenuineHeartbeat(h: SignedHeartbeat) {
    h.seal == BeatSealed(h.leader, h.term, h.tick, h.nonce)
  }

  function ReceiveHeartbeat(n: Node, h: SignedHeartbeat): Outcome<Node> {
    if !GenuineHeartbeat(h) then Err("invalid leadership heartbeat")
    else if h.nonce != Position(n.positions) then Err("heartbeat position differs from local replica")
    else if h.tick == n.lead.tick then Ok(n)
    else
      match Failover.Beat(n.lead, h.leader, h.term, h.tick, h.nonce)
      case Err(r) => Err(r)
      case Ok(lead) => Ok(n.(lead := lead))
  }

  /** The first step after start-up dates the silence from now. */
  function FirstTick(n: Node, tick: int): Node {
    if n.lead.tick == 0 then n.(lead := n.lead.(tick := tick)) else n
  }

  function Witness(leader: Role): Option<Role> {
    match leader
    case Primary => Some(Failover.Tertiary)
    case Secondary => Some(Failover.Primary)
    case Tertiary => None
  }

  /** `receive_timeout_vote`: the witness's answer, at its own clock `now`. */
  function TimeoutVote(n: Node, v: Failover.Vote, candidateLedger: LedgerState, now: int): Outcome<Failover.Vote> {
    if Failover.Successor(n.lead.leader).None? then Err("ordered leadership is exhausted")
    else
      var successor := Failover.Successor(n.lead.leader).value;
      var b := v.ballot;
      if !(&& Some(n.role) == Witness(n.lead.leader) && b.voter == successor && Failover.Authentic(v)
           && b.term == n.lead.term + 1 && b.accused == n.lead.leader && b.candidate == successor
           && b.tick - n.lead.tick >= n.lead.timeout
           && -1 <= b.tick - now <= 1
           && b.nonce == Position(n.positions)
           && n.pending.None? && |n.log| == Position(n.positions)
           && candidateLedger == n.core.ledger)
      then Err("timeout vote lacks a matching clean replica")
      else Ok(Failover.SignVote(b.(voter := n.role)))
  }

  /** The leader's part of a leadership step: a new tick is dated, which a fenced leader cannot do. */
  function LeaderBeat(n: Node, tick: int): Outcome<Node> {
    if tick <= n.lead.tick then Ok(n)
    else
      match Failover.Beat(n.lead, n.role, n.lead.term, tick, Position(n.positions))
      case Ok(lead) => Ok(n.(lead := lead))
      case Err(r) => Err(r)
  }

  /** The heartbeat a leadership step announces. */
  function OwnHeartbeat(n: Node, tick: int): SignedHeartbeat {
    SignHeartbeat(n.role, n.lead.term, tick, Position(n.positions))
  }

  /** The certificate announced with it, if the node has one. */
  function LastCertificate(n: Node): Option<Failover.Certificate> {
    if n.lead.certificates == [] then None else Some(n.lead.certificates[|n.lead.certificates| - 1])
  }

  /** The candidate's signed vote, from its state at the moment of signing. */
  function OwnVote(n: Node, tick: int): Failover.Vote {
    Failover.SignVote(Failover.Ballot(
      n.role, n.lead.term + 1, n.lead.leader, n.role, tick, Position(n.positions)))
  }

  /** Both votes are tried on a restored copy of the leadership state. */
  function CompleteCertificate(
    lead: Failover.Leadership, own: Failover.Vote, other: Failover.Vote): Option<Failover.Certificate>
  {
    match Failover.FromSnapshot(Failover.SnapshotOf(lead))
    case Err(_) => None
    case Ok(trial) =>
      match Failover.Submit(trial, own)
      case Err(_) => None
      case Ok(first) =>
        match Failover.Submit(first.state, other)
        case Err(_) => None
        case Ok(second) => second.certificate
  }

  /** One entry of a peer's history: prepare it unless it is already pending, then commit it. */
  ghost function TakeEntry(cfg: Config, n: Node, e: Envelope): Outcome<Node> {
    if n.pending.Some? && n.pending.value != e then Err("replica already has a different prepared mutation")
    else
      match if n.pending.None? then PrepareReplica(cfg, n, e) else Ok(n)
      case Err(r) => Err(r)
      case Ok(prepared) => CommitReplica(cfg, prepared, e)
  }

  /** A batch of a peer's history, and whether all of it was taken. */
  ghost function TakeEntries(cfg: Config, n: Node, entries: seq<Envelope>): (Node, bool)
    decreases |entries|
  {
    if entries == [] then (n, true)
    else
      match TakeEntry(cfg, n, entries[0])
      case Ok(next) => TakeEntries(cfg, next, entries[1..])
      case Err(_) => (if n.pending.None? && PrepareReplica(cfg, n, entries[0]).Ok?
                      then PrepareReplica(cfg, n, entries[0]).value else n, false)
  }

  // ---------------------------------------------------------------- restart

  /** The signer the constructor infers for the entry that follows position `last`. */
  function ExpectedSigner(cs: seq<Failover.Certificate>, last: int): Role {
    if cs == [] then Failover.Primary
    else if last >= cs[|cs| - 1].nonce then cs[|cs| - 1].leader
    else ExpectedSigner(cs[..|cs| - 1], last)
  }

  /** The constructor's loop over the log: the last nonce reached, if every entry verifies. */
  function CheckLog(log: seq<Envelope>, last: int, cs: seq<Failover.Certificate>): Outcome<int> {
    if log == [] then Ok(last)
    else if !EnvelopeOk(log[0], last, ExpectedSigner(cs, last)) then Err("invalid or replayed replication envelope")
    else CheckLog(log[1..], log[0].nonce, cs)
  }

  /** The log, if there is one, verifies entry by entry and ends at the committed position. */
  predicate LogFits(log: seq<Envelope>, position: int, cs: seq<Failover.Certificate>) {
    log == [] || (position >= |log| && CheckLog(log, position - |log|, cs) == Ok(position))
  }

  ghost function Restart(cfg: Config, role: Role, saved: Record): Outcome<Node> {
    match Restore.FromSnapshot(saved.ledger, cfg.genesis)
    case Err(r) => Err(r)
    case Ok(ledger) =>
      if cfg.registry.Some? && exists a :: a in saved.replay && saved.replay[a] < 0 then Err("invalid replay state")
      else
        match Failover.FromSnapshot(saved.leadership)
        case Err(r) => Err(r)
        case Ok(lead) =>
          if lead.nonce != Position(saved.positions) then
            Err("leadership record does not match committed replica position")
          else
            if !LogFits(saved.log, Position(saved.positions), lead.certificates) then
              Err("replication log does not match committed position")
            else
              Ok(Node(role, Core(ledger, if cfg.registry.Some? then saved.replay else map[]),
                      saved.log, saved.pending, saved.positions, lead))
  }
}
