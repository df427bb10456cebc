/**
 The OLC pilot's job store and the independent checker of its public receipts, as values.
 An Ed25519 signature is a constructor term: it verifies under one key, over one statement.
 */
module Olc {
  import opened Common

  type Name = string
  type Key = string
  type JobId = string
  type DigestText = string
  type Time = real

  const LEASE_SECONDS: Time := 120.0
  const QUORUM := 2
  const RECEIPT_LIMIT := 20
  const WORKER: Name := "olc-worker-001"
  const VERIFIER_IDS: set<Name> := {"verifier-1", "verifier-2", "verifier-3"}
  const RECEIPT_SCHEMA := "olc-receipts/v1"

  /** The digest of the one fixed workload. */
  const EXPECTED: DigestText := "b491ef665fb7e74241fbd1e9ee89982bd49273f1a516f0776f9191d3d42e211d"

  /** Sixty-four lower-case hexadecimal digits. */
  predicate DigestFormat(digest: DigestText) {
    |digest| == 64 && forall i :: 0 <= i < 64 ==> 'a' <= digest[i] <= 'f' || '0' <= digest[i] <= '9'
  }

  datatype Statement = Statement(jobId: JobId, nodeId: Name, resultDigest: DigestText, accepted: bool, verifierId: Name)

  datatype LegacyStatement = LegacyStatement(jobId: JobId, nodeId: Name, resultDigest: DigestText, accepted: bool)

  datatype Seal = SealedBy(key: Key, statement: Statement) | LegacySeal(key: Key, legacy: LegacyStatement) | BadSeal

  /** The same seal can be spelled in several ways, in upper or lower case. */
  datatype Signature = Signature(spelling: nat, seal: Seal)

  datatype Attestation = Attestation(statement: Statement, signature: Signature)

  datatype LegacyAttestation = LegacyAttestation(statement: LegacyStatement, signature: Signature)

  datatype JobState = Queued | Leased | Verified | AwaitingQuorum | QuorumVerified | Disputed | Rejected

  /** A job record; jobs from before the quorum have no verifier keys. */
  datatype Job = Job(
    id: JobId, node: Name, state: JobState, created: Time,
    leaseUntil: Option<Time>, resultDigest: Option<DigestText>, completed: Option<Time>,
    attestation: Option<LegacyAttestation>,
    verifierKeys: Option<map<Name, Key>>, quorumRequired: Option<int>,
    attestations: map<Name, Attestation>)

  /** The saved jobs in insertion order, and the keys configured at this start. */
  datatype Store = Store(jobs: seq<Job>, keys: map<Name, Key>, legacyKey: Option<Key>)

  datatype Op =
    | Enqueue(id: JobId, now: Time)
    | Lease(node: Name, now: Time)
    | Result(node: Name, jobId: JobId, digest: DigestText, now: Time)
    | Attest(verifierId: Name, statement: Statement, signature: Signature)
    | Restart(keys: map<Name, Key>, legacyKey: Option<Key>)

  /** Three named verifiers with three different keys. */
  predicate RosterOk(roster: map<Name, Key>) {
    roster.Keys == VERIFIER_IDS && |roster.Values| == 3
  }

  /** Verifiers are configured all three or not at all. */
  predicate Configurable(keys: map<Name, Key>) {
    keys == map[] || RosterOk(keys)
  }

  function FindJob(jobs: seq<Job>, id: JobId): (r: Option<nat>)
    ensures r.Some? ==> r.value < |jobs| && jobs[r.value].id == id
    ensures r.None? ==> forall i :: 0 <= i < |jobs| ==> jobs[i].id != id
  {
    if jobs == [] then None
    else if jobs[|jobs| - 1].id == id then Some(|jobs| - 1)
    else FindJob(jobs[..|jobs| - 1], id)
  }

  /** Dictionary assignment: an existing key keeps its place. */
  function PutJob(jobs: seq<Job>, job: Job): seq<Job> {
    match FindJob(jobs, job.id)
    case Some(i) => jobs[i := job]
    case None => jobs + [job]
  }

  function NewJob(id: JobId, keys: map<Name, Key>, now: Time): Job {
    Job(id, WORKER, Queued, now, None, None, None, None, Some(keys), Some(QUORUM), map[])
  }

  function DoEnqueue(s: Store, id: JobId, now: Time): Outcome<Store> {
    if |s.keys| != 3 then Err("three verifier keys must be provisioned before new jobs")
    else Ok(s.(jobs := PutJob(s.jobs, NewJob(id, s.keys, now))))
  }

  predicate ActiveLease(job: Job, node: Name, now: Time) {
    job.node == node && job.state.Leased? && job.leaseUntil.Some? && job.leaseUntil.value >= now
  }

  predicate Leasable(job: Job, node: Name, now: Time) {
    && job.node == node
    && (job.state.Queued? || (job.state.Leased? && job.leaseUntil.Some? && job.leaseUntil.value < now))
  }

  function FirstLeasable(jobs: seq<Job>, node: Name, now: Time, i: nat): (r: Option<nat>)
    requires i <= |jobs|
    ensures r.Some? ==> i <= r.value < |jobs| && Leasable(jobs[r.value], node, now)
    ensures r.Some? ==> forall k :: i <= k < r.value ==> !Leasable(jobs[k], node, now)
    ensures r.None? ==> forall k :: i <= k < |jobs| ==> !Leasable(jobs[k], node, now)
    decreases |jobs| - i
  {
    if i == |jobs| then None
    else if Leasable(jobs[i], node, now) then Some(i)
    else FirstLeasable(jobs, node, now, i + 1)
  }

  /** A worker with a running lease gets nothing; else the first job that is free or overdue. */
  function DoLease(s: Store, node: Name, now: Time): (Store, Option<JobId>) {
    if exists i :: 0 <= i < |s.jobs| && ActiveLease(s.jobs[i], node, now) then (s, None)
    else
      match FirstLeasable(s.jobs, node, now, 0)
      case None => (s, None)
      case Some(i) =>
        (s.(jobs := s.jobs[i := s.jobs[i].(state := Leased, leaseUntil := Some(now + LEASE_SECONDS))]),
         Some(s.jobs[i].id))
  }

  predicate HasResult(state: JobState) {
    state.Verified? || state.AwaitingQuorum? || state.QuorumVerified? || state.Disputed? || state.Rejected?
  }

  function Completed(job: Job, digest: DigestText, now: Time): Job {
    var state :=
      if digest != EXPECTED then Rejected
      else if job.verifierKeys.Some? then AwaitingQuorum
      else Verified;
    job.(state := state, resultDigest := Some(digest), completed := Some(now))
  }

  function DoResult(s: Store, node: Name, id: JobId, digest: DigestText, now: Time): Outcome<Store> {
    if !DigestFormat(digest) then Err("invalid digest")
    else if FindJob(s.jobs, id).None? then Err("unknown or unleased job")
    else
      var i := FindJob(s.jobs, id).value;
      var job := s.jobs[i];
      if job.node != node || !(job.state.Leased? || HasResult(job.state)) then Err("unknown or unleased job")
      else if job.state.Leased? then
        if job.leaseUntil.Some? && now > job.leaseUntil.value then Err("job lease expired")
        else Ok(s.(jobs := s.jobs[i := Completed(job, digest, now)]))
      else if job.resultDigest != Some(digest) then Err("conflicting result")
      else Ok(s)
  }

  /** Whose vote is which way. */
  ghost function VotersFor(attestations: map<Name, Attestation>, accepted: bool): set<Name> {
    set v | v in attestations && attestations[v].statement.accepted == accepted
  }

  ghost function Votes(attestations: map<Name, Attestation>, accepted: bool): nat {
    |VotersFor(attestations, accepted)|
  }

  predicate StatementFits(job: Job, keys: map<Name, Key>, v: Name, st: Statement) {
    && (job.state.AwaitingQuorum? || job.state.QuorumVerified? || job.state.Disputed?)
    && job.node == st.nodeId && job.resultDigest == Some(st.resultDigest)
    && job.verifierKeys.Some? && v in job.verifierKeys.value && v in keys && keys[v] == job.verifierKeys.value[v]
  }

  /** The state a job takes once its votes are counted. */
  ghost function Tallied(job: Job): Job
    requires job.quorumRequired.Some?
  {
    if Votes(job.attestations, true) >= job.quorumRequired.value then job.(state := QuorumVerified)
    else if Votes(job.attestations, false) >= job.quorumRequired.value then job.(state := Disputed)
    else job
  }

  ghost function DoAttest(s: Store, v: Name, st: Statement, sig: Signature): Outcome<Store> {
    if st.verifierId != v then Err("invalid attestation")
    else
      match FindJob(s.jobs, st.jobId)
      case None => Err("attestation does not match job")
      case Some(i) =>
        var job := s.jobs[i];
        if !StatementFits(job, s.keys, v, st) then Err("attestation does not match job")
        else if sig.seal != SealedBy(job.verifierKeys.value[v], st) then Err("invalid verifier signature")
        else if v in job.attestations then
          if job.attestations[v] != Attestation(st, sig) then Err("conflicting attestation") else Ok(s)
        else if !job.state.AwaitingQuorum? then Err("quorum already reached")
        else if job.quorumRequired == None then Err("attestation does not match job")
        else
          Ok(s.(jobs := s.jobs[i := Tallied(job.(attestations := job.attestations[v := Attestation(st, sig)]))]))
  }

  ghost function Execute(s: Store, op: Op): Outcome<Store> {
    match op
    case Enqueue(id, now) => DoEnqueue(s, id, now)
    case Lease(node, now) => Ok(DoLease(s, node, now).0)
    case Result(node, id, digest, now) => DoResult(s, node, id, digest, now)
    case Attest(v, st, sig) => DoAttest(s, v, st, sig)
    case Restart(keys, legacyKey) =>
      if Configurable(keys) then Ok(Store(s.jobs, keys, legacyKey))
      else Err("the quorum roster requires three named verifiers")
  }

  /** Any calls, at any times, with restarts; a refused call changes nothing. */
  ghost function Run(s: Store, ops: seq<Op>): Store {
    if ops == [] then s
    else
      var before := Run(s, ops[..|ops| - 1]);
      match Execute(before, ops[|ops| - 1])
      case Ok(after) => after
      case Err(_) => before
  }

  predicate Awaits(job: Job, keys: map<Name, Key>, v: Name) {
    && job.state.AwaitingQuorum? && job.verifierKeys.Some? && v in job.verifierKeys.value
    && v !in job.attestations && v in keys && keys[v] == job.verifierKeys.value[v]
  }

  /** The first job that still needs this verifier's vote. */
  function VerifierJob(s: Store, v: Name, i: nat): (r: Option<nat>)
    requires i <= |s.jobs|
    ensures r.Some? ==> i <= r.value < |s.jobs| && Awaits(s.jobs[r.value], s.keys, v)
    ensures r.Some? ==> forall k :: i <= k < r.value ==> !Awaits(s.jobs[k], s.keys, v)
    ensures r.None? ==> forall k :: i <= k < |s.jobs| ==> !Awaits(s.jobs[k], s.keys, v)
    decreases |s.jobs| - i
  {
    if i == |s.jobs| then None
    else if Awaits(s.jobs[i], s.keys, v) then Some(i)
    else VerifierJob(s, v, i + 1)
  }

  // ----- Public receipts and their checker -----

  datatype Receipt = Receipt(
    jobId: JobId, nodeId: Name, state: JobState, resultDigest: Option<DigestText>,
    attestation: Option<LegacyAttestation>, attestations: map<Name, Attestation>,
    verifierKeys: Option<map<Name, Key>>, quorumRequired: Option<int>)

  datatype Document = Document(
    schema: string, receipts: seq<Receipt>, legacyKey: Option<Key>, verifiers: map<Name, Key>)

  function ReceiptOf(job: Job): Receipt {
    Receipt(job.id, job.node, job.state, job.resultDigest, job.attestation, job.attestations,
            job.verifierKeys, job.quorumRequired)
  }

  function LastJobs(s: Store): seq<Job> {
    if |s.jobs| <= RECEIPT_LIMIT then s.jobs else s.jobs[|s.jobs| - RECEIPT_LIMIT..]
  }

  function PublicReceipts(s: Store): Document {
    var jobs := LastJobs(s);
    Document(RECEIPT_SCHEMA, seq(|jobs|, i requires 0 <= i < |jobs| => ReceiptOf(jobs[i])), s.legacyKey, s.keys)
  }

  /** One attestation in a receipt is the roster's own vote on this very job. */
  predicate VoteChecks(r: Receipt, roster: map<Name, Key>, v: Name, a: Attestation) {
    && v in roster
    && a.statement.verifierId == v && a.statement.jobId == r.jobId && a.statement.nodeId == r.nodeId
    && r.resultDigest == Some(a.statement.resultDigest)
    && (a.statement.accepted ==> r.resultDigest == Some(EXPECTED))
    && a.signature.seal == SealedBy(roster[v], a.statement)
  }

  ghost predicate StateChecks(r: Receipt) {
    match r.state
    case QuorumVerified => Votes(r.attestations, true) >= 2
    case Disputed => Votes(r.attestations, false) >= 2
    case AwaitingQuorum => Votes(r.attestations, true) < 2 && Votes(r.attestations, false) < 2
    case Verified => false
    case _ => r.attestations == map[]
  }

  ghost function CheckQuorum(r: Receipt, pinnedRoster: Option<map<Name, Key>>): Outcome<bool>
    requires r.verifierKeys.Some?
  {
    var roster := r.verifierKeys.value;
    if !RosterOk(roster) || r.quorumRequired != Some(2) then Err("invalid quorum roster")
    else if pinnedRoster.Some? && roster != pinnedRoster.value then
      Err("verifier roster differs from pinned fingerprint")
    else if !(r.attestations.Keys <= roster.Keys) then Err("invalid verifier votes")
    else if !(forall v :: v in r.attestations ==> VoteChecks(r, roster, v, r.attestations[v])) then
      Err("quorum vote does not match the job")
    else if !StateChecks(r) then Err("job state differs from signed quorum")
    else Ok(r.state.QuorumVerified?)
  }

  function CheckLegacy(r: Receipt, legacyKey: Option<Key>): Outcome<bool> {
    if r.attestation == None then Ok(false)
    else if legacyKey == None then Err("missing legacy verifier key")
    else
      var a := r.attestation.value;
      if a.statement.jobId != r.jobId || a.statement.nodeId != r.nodeId
         || r.resultDigest != Some(a.statement.resultDigest)
         || a.statement.accepted != (r.resultDigest == Some(EXPECTED)) then
        Err("verifier statement does not match the job receipt")
      else if a.signature.seal != LegacySeal(legacyKey.value, a.statement) then Err("invalid signature")
      else Ok(true)
  }

  ghost function CheckReceipt(r: Receipt, legacyKey: Option<Key>, pinnedRoster: Option<map<Name, Key>>): Outcome<bool> {
    if r.verifierKeys.Some? then CheckQuorum(r, pinnedRoster) else CheckLegacy(r, legacyKey)
  }

  datatype Tally = Tally(verified: nat, pending: nat)

  /** Counts the first `n` receipts; the first bad one stops the check. */
  ghost function CheckFirst(d: Document, pinnedRoster: Option<map<Name, Key>>, n: nat): Outcome<Tally>
    requires n <= |d.receipts|
  {
    if n == 0 then Ok(Tally(0, 0))
    else
      match CheckFirst(d, pinnedRoster, n - 1)
      case Err(reason) => Err(reason)
      case Ok(t) =>
        match CheckReceipt(d.receipts[n - 1], d.legacyKey, pinnedRoster)
        case Err(reason) => Err(reason)
        case Ok(verified) => Ok(if verified then t.(verified := t.verified + 1) else t.(pending := t.pending + 1))
  }

  ghost function VerifyDocument(
    d: Document, pinnedKey: Option<Key>, pinnedRoster: Option<map<Name, Key>>): Outcome<Tally>
  {
    if d.schema != RECEIPT_SCHEMA then Err("unexpected receipt schema")
    else if pinnedKey.Some? && d.legacyKey != pinnedKey then Err("legacy verifier public key differs from pinned key")
    else CheckFirst(d, pinnedRoster, |d.receipts|)
  }

  // ----- What every run keeps -----

  ghost predicate JobFits(job: Job) {
    && job.verifierKeys.Some? && RosterOk(job.verifierKeys.value) && job.quorumRequired == Some(QUORUM)
    && job.attestation == None
    && (forall v :: v in job.attestations ==>
          VoteChecks(ReceiptOf(job), job.verifierKeys.value, v, job.attestations[v]))
    && StateChecks(ReceiptOf(job))
    && (job.state.AwaitingQuorum? || job.state.QuorumVerified? || job.state.Disputed? ==>
          job.resultDigest == Some(EXPECTED))
    && (job.state.Leased? ==> job.leaseUntil.Some?)
  }

  ghost predicate StoreOk(s: Store) {
    && Configurable(s.keys)
    && (forall i :: 0 <= i < |s.jobs| ==> JobFits(s.jobs[i]))
    && (forall i, j :: 0 <= i < j < |s.jobs| ==> s.jobs[i].id != s.jobs[j].id)
  }

  lemma KeysWithThree(keys: map<Name, Key>)
    requires Configurable(keys) && |keys| == 3
    ensures RosterOk(keys)
  {
  }

  lemma ReplaceKeeps(s: Store, i: nat, job: Job)
    requires StoreOk(s) && i < |s.jobs| && JobFits(job) && job.id == s.jobs[i].id
    ensures StoreOk(s.(jobs := s.jobs[i := job]))
  {
    hide JobFits, Configurable;
  }

  lemma EnqueueKeeps(s: Store, id: JobId, now: Time)
    requires StoreOk(s) && DoEnqueue(s, id, now).Ok?
    ensures StoreOk(DoEnqueue(s, id, now).value)
  {
    KeysWithThree(s.keys);
    assert JobFits(NewJob(id, s.keys, now));
    hide JobFits, Configurable, RosterOk;
    if FindJob(s.jobs, id).Some? {
      ReplaceKeeps(s, FindJob(s.jobs, id).value, NewJob(id, s.keys, now));
    }
  }

  lemma LeaseKeeps(s: Store, node: Name, now: Time)
    requires StoreOk(s)
    ensures StoreOk(DoLease(s, node, now).0)
  {
    hide RosterOk, Configurable;
    var r := FirstLeasable(s.jobs, node, now, 0);
    if r.Some? {
      var job := s.jobs[r.value];
      assert JobFits(job);
      ReplaceKeeps(s, r.value, job.(state := Leased, leaseUntil := Some(now + LEASE_SECONDS)));
    }
  }

  lemma NoVotesYet(job: Job)
    requires job.attestations == map[]
    ensures Votes(job.attestations, true) == 0 && Votes(job.attestations, false) == 0
  {
    assert VotersFor(job.attestations, true) == {} && VotersFor(job.attestations, false) == {};
  }

  lemma ResultKeeps(s: Store, node: Name, id: JobId, digest: DigestText, now: Time)
    requires StoreOk(s) && DoResult(s, node, id, digest, now).Ok?
    ensures StoreOk(DoResult(s, node, id, digest, now).value)
  {
    hide RosterOk, Configurable, Votes;
    var i := FindJob(s.jobs, id).value;
    var job := s.jobs[i];
    assert JobFits(job);
    if job.state.Leased? {
      NoVotesYet(job);
      ReplaceKeeps(s, i, Completed(job, digest, now));
    }
  }

  /** A vote counts for its own side only. */
  lemma VoteCount(attestations: map<Name, Attestation>, v: Name, a: Attestation)
    requires v !in attestations
    ensures Votes(attestations[v := a], a.statement.accepted) == Votes(attestations, a.statement.accepted) + 1
    ensures Votes(attestations[v := a], !a.statement.accepted) == Votes(attestations, !a.statement.accepted)
  {
    var more := attestations[v := a];
    assert VotersFor(more, a.statement.accepted) == VotersFor(attestations, a.statement.accepted) + {v};
    assert VotersFor(more, !a.statement.accepted) == VotersFor(attestations, !a.statement.accepted);
  }

  lemma VoteKeepsJob(job: Job, v: Name, a: Attestation)
    requires JobFits(job) && job.state.AwaitingQuorum? && v !in job.attestations
    requires v in job.verifierKeys.value && a.statement.verifierId == v && a.statement.jobId == job.id
    requires a.statement.nodeId == job.node && job.resultDigest == Some(a.statement.resultDigest)
    requires a.signature.seal == SealedBy(job.verifierKeys.value[v], a.statement)
    ensures JobFits(Tallied(job.(attestations := job.attestations[v := a])))
    ensures Tallied(job.(attestations := job.attestations[v := a])).id == job.id
  {
    hide RosterOk, Votes;
    VoteCount(job.attestations, v, a);
    var voted := Tallied(job.(attestations := job.attestations[v := a]));
    forall w | w in voted.attestations
      ensures VoteChecks(ReceiptOf(voted), voted.verifierKeys.value, w, voted.attestations[w])
    {
      if w != v {
        assert VoteChecks(ReceiptOf(job), job.verifierKeys.value, w, job.attestations[w]);
      }
    }
  }

  lemma AttestKeeps(s: Store, v: Name, st: Statement, sig: Signature)
    requires StoreOk(s) && DoAttest(s, v, st, sig).Ok?
    ensures StoreOk(DoAttest(s, v, st, sig).value)
  {
    hide RosterOk, Configurable, Tallied;
    var i := FindJob(s.jobs, st.jobId).value;
    var job := s.jobs[i];
    if v !in job.attestations {
      VoteKeepsJob(job, v, Attestation(st, sig));
      hide JobFits;
      ReplaceKeeps(s, i, Tallied(job.(attestations := job.attestations[v := Attestation(st, sig)])));
    }
  }

  lemma ExecuteKeeps(s: Store, op: Op)
    requires StoreOk(s) && Execute(s, op).Ok?
    ensures StoreOk(Execute(s, op).value)
  {
    hide JobFits, Configurable, DoEnqueue, DoLease, DoResult, DoAttest;
    match op
    case Enqueue(id, now) => EnqueueKeeps(s, id, now);
    case Lease(node, now) => LeaseKeeps(s, node, now);
    case Result(node, id, digest, now) => ResultKeeps(s, node, id, digest, now);
    case Attest(v, st, sig) => AttestKeeps(s, v, st, sig);
    case Restart(_, _) =>
  }

  ghost predicate Fresh(s: Store) {
    s.jobs == [] && Configurable(s.keys)
  }

  lemma {:induction false} RunKeeps(s: Store, ops: seq<Op>)
    requires Fresh(s)
    ensures StoreOk(Run(s, ops))
  {
    if ops != [] {
      hide StoreOk, Execute;
      RunKeeps(s, ops[..|ops| - 1]);
      var before := Run(s, ops[..|ops| - 1]);
      if Execute(before, ops[|ops| - 1]).Ok? {
        ExecuteKeeps(before, ops[|ops| - 1]);
      }
    } else {
      hide Configurable;
    }
  }

  // ----- The store and the checker agree -----

  /** How many of the jobs reached the verified quorum. */
  function VerifiedAmong(jobs: seq<Job>, n: nat): nat
    requires n <= |jobs|
  {
    if n == 0 then 0 else VerifiedAmong(jobs, n - 1) + if jobs[n - 1].state.QuorumVerified? then 1 else 0
  }

  ghost predicate AllPinned(jobs: seq<Job>, n: nat, pinnedRoster: Option<map<Name, Key>>)
    requires n <= |jobs|
  {
    pinnedRoster.Some? ==> forall i :: 0 <= i < n ==> jobs[i].verifierKeys == pinnedRoster
  }

  lemma ReceiptChecks(job: Job, legacyKey: Option<Key>, pinnedRoster: Option<map<Name, Key>>)
    requires JobFits(job)
    ensures var r := CheckReceipt(ReceiptOf(job), legacyKey, pinnedRoster);
            && (r.Ok? <==> pinnedRoster == None || job.verifierKeys == pinnedRoster)
            && (r.Ok? ==> r.value == job.state.QuorumVerified?)
  {
    hide Votes, RosterOk;
  }

  ghost predicate Publishes(d: Document, jobs: seq<Job>) {
    && |d.receipts| == |jobs|
    && forall i :: 0 <= i < |jobs| ==> JobFits(jobs[i]) && d.receipts[i] == ReceiptOf(jobs[i])
  }

  lemma StorePublishes(s: Store)
    requires StoreOk(s)
    ensures Publishes(PublicReceipts(s), LastJobs(s))
  {
    hide JobFits, ReceiptOf;
  }

  /** The check of the first `n` receipts passes exactly under the pin, and counts the quorums. */
  ghost predicate Counts(d: Document, jobs: seq<Job>, pinnedRoster: Option<map<Name, Key>>, n: nat)
    requires n <= |jobs| == |d.receipts|
  {
    && VerifiedAmong(jobs, n) <= n
    && CheckFirst(d, pinnedRoster, n).Ok? == AllPinned(jobs, n, pinnedRoster)
    && (CheckFirst(d, pinnedRoster, n).Ok? ==>
          && CheckFirst(d, pinnedRoster, n).value.verified == VerifiedAmong(jobs, n)
          && CheckFirst(d, pinnedRoster, n).value.pending == n - VerifiedAmong(jobs, n))
  }

  lemma {:induction false} CheckCounts(d: Document, jobs: seq<Job>, pinnedRoster: Option<map<Name, Key>>, n: nat)
    requires |jobs| == |d.receipts| && Publishes(d, jobs) && n <= |jobs|
    ensures Counts(d, jobs, pinnedRoster, n)
  {
    if n == 0 {
      NothingChecked(d, jobs, pinnedRoster);
    } else {
      CheckCounts(d, jobs, pinnedRoster, n - 1);
      assert JobFits(jobs[n - 1]) && d.receipts[n - 1] == ReceiptOf(jobs[n - 1]);
      hide *;
      CountsStep(d, jobs, pinnedRoster, n);
    }
  }

  lemma CountsStep(d: Document, jobs: seq<Job>, pinnedRoster: Option<map<Name, Key>>, n: nat)
    requires 0 < n <= |jobs| == |d.receipts| && Counts(d, jobs, pinnedRoster, n - 1)
    requires JobFits(jobs[n - 1]) && d.receipts[n - 1] == ReceiptOf(jobs[n - 1])
    ensures Counts(d, jobs, pinnedRoster, n)
  {
    ReceiptChecks(jobs[n - 1], d.legacyKey, pinnedRoster);
    PinnedStep(jobs, n, pinnedRoster);
    CheckStep(d, jobs, pinnedRoster, n);
    hide CheckFirst, VerifiedAmong, AllPinned, JobFits, ReceiptOf, CheckReceipt;
  }

  lemma NothingChecked(d: Document, jobs: seq<Job>, pinnedRoster: Option<map<Name, Key>>)
    ensures CheckFirst(d, pinnedRoster, 0) == Ok(Tally(0, 0))
    ensures VerifiedAmong(jobs, 0) == 0 && AllPinned(jobs, 0, pinnedRoster)
  {
  }

  lemma CheckStep(d: Document, jobs: seq<Job>, pinnedRoster: Option<map<Name, Key>>, n: nat)
    requires 0 < n <= |jobs| == |d.receipts|
    ensures VerifiedAmong(jobs, n) == VerifiedAmong(jobs, n - 1) + if jobs[n - 1].state.QuorumVerified? then 1 else 0
    ensures var before := CheckFirst(d, pinnedRoster, n - 1);
            var last := CheckReceipt(d.receipts[n - 1], d.legacyKey, pinnedRoster);
            var after := CheckFirst(d, pinnedRoster, n);
            && (after.Ok? <==> before.Ok? && last.Ok?)
            && (after.Ok? && last.value ==> after.value == before.value.(verified := before.value.verified + 1))
            && (after.Ok? && !last.value ==> after.value == before.value.(pending := before.value.pending + 1))
  {
    hide CheckReceipt;
  }

  lemma PinnedStep(jobs: seq<Job>, n: nat, pinnedRoster: Option<map<Name, Key>>)
    requires 0 < n <= |jobs|
    ensures AllPinned(jobs, n, pinnedRoster) <==>
            AllPinned(jobs, n - 1, pinnedRoster) && (pinnedRoster == None || jobs[n - 1].verifierKeys == pinnedRoster)
  {
  }

  /**
   For every run of a fresh store, through restarts with new keys, the independent checker
   accepts the published receipts exactly when the caller's pins match them, and then it
   counts as verified precisely the published jobs that reached the quorum.
   */
  lemma StoreAndCheckerAgree(start: Store, ops: seq<Op>, pinnedKey: Option<Key>, pinnedRoster: Option<map<Name, Key>>)
    requires Fresh(start)
    ensures var s := Run(start, ops);
            var jobs := LastJobs(s);
            var r := VerifyDocument(PublicReceipts(s), pinnedKey, pinnedRoster);
            && VerifiedAmong(jobs, |jobs|) <= |jobs|
            && (r.Ok? <==> (pinnedKey == None || s.legacyKey == pinnedKey) && AllPinned(jobs, |jobs|, pinnedRoster))
            && (r.Ok? ==> r.value == Tally(VerifiedAmong(jobs, |jobs|), |jobs| - VerifiedAmong(jobs, |jobs|)))
  {
    RunKeeps(start, ops);
    var s := Run(start, ops);
    hide Run, StoreOk;
    StorePublishes(s);
    assert |PublicReceipts(s).receipts| == |LastJobs(s)|;
    CheckCounts(PublicReceipts(s), LastJobs(s), pinnedRoster, |LastJobs(s)|);
    hide CheckFirst, VerifiedAmong, AllPinned, JobFits;
  }

  // ----- Leases -----

  /** New job ids are random, so never one that is in use. */
  ghost predicate FreshId(s: Store, op: Op) {
    op.Enqueue? ==> FindJob(s.jobs, op.id).None?
  }

  ghost predicate FreshIds(s: Store, ops: seq<Op>) {
    forall k :: 0 <= k < |ops| ==> FreshId(Run(s, ops[..k]), ops[k])
  }

  /** A worker's leased job has no other leased job beside it and no queued one before it. */
  ghost predicate OneLease(s: Store) {
    forall i, j :: 0 <= i < |s.jobs| && 0 <= j < |s.jobs| && i != j && s.jobs[i].node == s.jobs[j].node
                   && s.jobs[j].state.Leased? ==>
      !s.jobs[i].state.Leased? && (i < j ==> !s.jobs[i].state.Queued?)
  }

  /** Without a running lease, the worker's leased job, if any, is the one that is leased again. */
  lemma OnlyTheLeasable(s: Store, node: Name, now: Time, i: nat, k: nat)
    requires StoreOk(s) && OneLease(s) && FirstLeasable(s.jobs, node, now, 0) == Some(i)
    requires forall j :: 0 <= j < |s.jobs| ==> !ActiveLease(s.jobs[j], node, now)
    requires k < |s.jobs| && s.jobs[k].node == node && s.jobs[k].state.Leased?
    ensures k == i
  {
    assert JobFits(s.jobs[k]);
    hide StoreOk, JobFits;
    assert !ActiveLease(s.jobs[k], node, now);
    assert Leasable(s.jobs[k], node, now);
  }

  lemma LeaseKeepsOne(s: Store, node: Name, now: Time)
    requires StoreOk(s) && OneLease(s)
    ensures OneLease(DoLease(s, node, now).0)
  {
    var r := FirstLeasable(s.jobs, node, now, 0);
    if r.Some? && forall i :: 0 <= i < |s.jobs| ==> !ActiveLease(s.jobs[i], node, now) {
      forall k | 0 <= k < |s.jobs| && s.jobs[k].node == node && s.jobs[k].state.Leased?
        ensures k == r.value
      {
        OnlyTheLeasable(s, node, now, r.value, k);
      }
      hide StoreOk, ActiveLease;
    } else {
      hide StoreOk, OneLease;
    }
  }

  lemma ExecuteKeepsOne(s: Store, op: Op)
    requires StoreOk(s) && OneLease(s) && FreshId(s, op) && Execute(s, op).Ok?
    ensures OneLease(Execute(s, op).value)
  {
    hide StoreOk;
    match op
    case Lease(node, now) =>
      hide OneLease, DoLease;
      LeaseKeepsOne(s, node, now);
    case _ =>
      hide DoLease, Tallied;
      var t := Execute(s, op).value;
      forall i | 0 <= i < |t.jobs| && i < |s.jobs|
        ensures t.jobs[i].node == s.jobs[i].node
        ensures t.jobs[i].state.Leased? ==> s.jobs[i].state.Leased?
        ensures t.jobs[i].state.Queued? ==> s.jobs[i].state.Queued?
      {
        OthersGrantNoLease(s, op, i);
      }
      OthersAppend(s, op);
      hide Execute, FreshId;
  }

  lemma OthersGrantNoLease(s: Store, op: Op, i: nat)
    requires Execute(s, op).Ok? && FreshId(s, op) && !op.Lease? && i < |s.jobs|
    ensures var t := Execute(s, op).value;
            && i < |t.jobs| && t.jobs[i].node == s.jobs[i].node
            && (t.jobs[i].state.Leased? ==> s.jobs[i].state.Leased?)
            && (t.jobs[i].state.Queued? ==> s.jobs[i].state.Queued?)
  {
    hide Votes;
  }

  lemma OthersAppend(s: Store, op: Op)
    requires Execute(s, op).Ok? && FreshId(s, op) && !op.Lease?
    ensures var t := Execute(s, op).value;
            && |s.jobs| <= |t.jobs| <= |s.jobs| + 1
            && (|t.jobs| == |s.jobs| + 1 ==> t.jobs[|s.jobs|].state.Queued?)
  {
    hide Tallied;
  }

  lemma FrontIsFresh(start: Store, ops: seq<Op>)
    requires FreshIds(start, ops) && ops != []
    ensures FreshIds(start, ops[..|ops| - 1])
    ensures FreshId(Run(start, ops[..|ops| - 1]), ops[|ops| - 1])
  {
    hide FreshId, Run;
    var front := ops[..|ops| - 1];
    forall k | 0 <= k < |front|
      ensures FreshId(Run(start, front[..k]), front[k])
    {
      assert front[..k] == ops[..k];
    }
  }

  lemma {:induction false} RunKeepsOne(start: Store, ops: seq<Op>)
    requires Fresh(start) && FreshIds(start, ops)
    ensures OneLease(Run(start, ops))
  {
    if ops == [] {
    } else {
      var front := ops[..|ops| - 1];
      FrontIsFresh(start, ops);
      RunKeepsOne(start, front);
      RunKeeps(start, front);
      var before := Run(start, front);
      hide OneLease, StoreOk, Execute, FreshId;
      if Execute(before, ops[|ops| - 1]).Ok? {
        ExecuteKeepsOne(before, ops[|ops| - 1]);
      }
    }
  }

  predicate SameLeasee(a: Job, b: Job) {
    a.state.Leased? && b.state.Leased? && a.node == b.node
  }

  /** After any run, at any time and whatever the clock did, a worker holds at most one lease. */
  lemma {:induction false} OneLeasePerWorker(start: Store, ops: seq<Op>)
    requires Fresh(start) && FreshIds(start, ops)
    ensures var jobs := Run(start, ops).jobs;
            forall i, j :: 0 <= i < |jobs| && 0 <= j < |jobs| && SameLeasee(jobs[i], jobs[j]) ==> i == j
  {
    RunKeepsOne(start, ops);
    hide Run, Fresh, FreshIds;
  }

  // ----- Verdicts and votes -----

  predicate Decided(state: JobState) {
    state.QuorumVerified? || state.Disputed? || state.Rejected?
  }

  /** A verdict is final: no later call changes anything about a decided job. */
  lemma VerdictIsFinal(s: Store, op: Op, i: nat)
    requires FreshId(s, op) && Execute(s, op).Ok? && i < |s.jobs| && Decided(s.jobs[i].state)
    ensures i < |Execute(s, op).value.jobs| && Execute(s, op).value.jobs[i] == s.jobs[i]
  {
    hide Tallied;
  }

  /** So a decided job is the same at every later point of a run. */
  lemma {:induction false} VerdictsOutlastTheRun(start: Store, ops: seq<Op>, k: nat, i: nat)
    requires FreshIds(start, ops) && k <= |ops|
    requires i < |Run(start, ops[..k]).jobs| && Decided(Run(start, ops[..k]).jobs[i].state)
    ensures i < |Run(start, ops).jobs| && Run(start, ops).jobs[i] == Run(start, ops[..k]).jobs[i]
  {
    if k == |ops| {
      assert ops[..k] == ops;
    } else {
      var front := ops[..|ops| - 1];
      assert front[..k] == ops[..k];
      FrontIsFresh(start, ops);
      VerdictsOutlastTheRun(start, front, k, i);
      hide Execute, FreshId;
      if Execute(Run(start, front), ops[|ops| - 1]).Ok? {
        VerdictIsFinal(Run(start, front), ops[|ops| - 1], i);
      }
    }
  }

  /** A recorded vote is never replaced or removed. */
  lemma VotesStay(s: Store, op: Op, i: nat, v: Name)
    requires FreshId(s, op) && Execute(s, op).Ok? && i < |s.jobs| && v in s.jobs[i].attestations
    ensures i < |Execute(s, op).value.jobs|
    ensures v in Execute(s, op).value.jobs[i].attestations
    ensures Execute(s, op).value.jobs[i].attestations[v] == s.jobs[i].attestations[v]
  {
    hide Votes;
  }

  /** The job handed to a verifier accepts that verifier's properly signed vote, either way. */
  lemma OfferedJobTakesVote(s: Store, v: Name, accepted: bool, spelling: nat)
    requires StoreOk(s) && VerifierJob(s, v, 0).Some?
    ensures v in s.keys
    ensures var i := VerifierJob(s, v, 0).value;
            var job := s.jobs[i];
            var st := Statement(job.id, job.node, EXPECTED, accepted, v);
            var sig := Signature(spelling, SealedBy(s.keys[v], st));
            var voted := job.(attestations := job.attestations[v := Attestation(st, sig)]);
            && job.resultDigest == Some(EXPECTED) && voted.quorumRequired.Some?
            && DoAttest(s, v, st, sig) == Ok(s.(jobs := s.jobs[i := Tallied(voted)]))
  {
    var i := VerifierJob(s, v, 0).value;
    var job := s.jobs[i];
    assert JobFits(job);
    assert job.resultDigest == Some(EXPECTED) && job.quorumRequired.Some?;
    assert FindJob(s.jobs, job.id) == Some(i);
    hide StoreOk, FindJob, Tallied, VerifierJob, JobFits;
  }
}
