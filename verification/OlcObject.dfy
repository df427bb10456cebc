/** The job store as an object that scans and updates its records, and the checker as written. */
module OlcObject {
  import opened Common
  import opened Olc

  /** How many of the attestations outside `rest` vote one way. */
  ghost function Counted(attestations: map<Name, Attestation>, rest: set<Name>, accepted: bool): nat {
    |VotersFor(attestations, accepted) - rest|
  }

  lemma NotCounted(attestations: map<Name, Attestation>, rest: set<Name>, v: Name, accepted: bool)
    requires v in rest && rest <= attestations.Keys
    ensures Counted(attestations, rest - {v}, accepted)
         == Counted(attestations, rest, accepted) + if attestations[v].statement.accepted == accepted then 1 else 0
  {
    var before := VotersFor(attestations, accepted) - rest;
    var after := VotersFor(attestations, accepted) - (rest - {v});
    if attestations[v].statement.accepted == accepted {
      assert after == before + {v};
    } else {
      assert after == before;
    }
  }

  lemma CountedEnds(attestations: map<Name, Attestation>, accepted: bool)
    ensures Counted(attestations, attestations.Keys, accepted) == 0
    ensures Counted(attestations, {}, accepted) == Votes(attestations, accepted)
  {
    var voters := VotersFor(attestations, accepted);
    assert voters - attestations.Keys == {};
    assert voters - {} == voters;
  }

  /** Counts the votes for and against, one attestation at a time. */
  method CountVotes(attestations: map<Name, Attestation>) returns (approvals: nat, denials: nat)
    ensures approvals == Votes(attestations, true) && denials == Votes(attestations, false)
  {
    hide Counted, Votes;
    approvals, denials := 0, 0;
    var rest := attestations.Keys;
    CountedEnds(attestations, true);
    CountedEnds(attestations, false);
    while rest != {}
      invariant rest <= attestations.Keys
      invariant approvals == Counted(attestations, rest, true)
      invariant denials == Counted(attestations, rest, false)
      decreases rest
    {
      var v :| v in rest;
      NotCounted(attestations, rest, v, true);
      NotCounted(attestations, rest, v, false);
      if attestations[v].statement.accepted {
        approvals := approvals + 1;
      } else {
        denials := denials + 1;
      }
      rest := rest - {v};
    }
  }

  /** One quorum receipt: every vote in it, then its state. */
  method CheckQuorumReceipt(r: Receipt, pinnedRoster: Option<map<Name, Key>>) returns (result: Outcome<bool>)
    requires r.verifierKeys.Some?
    ensures result == CheckQuorum(r, pinnedRoster)
  {
    hide Votes, StateChecks, RosterOk, VoteChecks;
    var roster := r.verifierKeys.value;
    if !RosterOk(roster) || r.quorumRequired != Some(2) { return Err("invalid quorum roster"); }
    if pinnedRoster.Some? && roster != pinnedRoster.value {
      return Err("verifier roster differs from pinned fingerprint");
    }
    if !(r.attestations.Keys <= roster.Keys) { return Err("invalid verifier votes"); }
    var rest := r.attestations.Keys;
    while rest != {}
      invariant rest <= r.attestations.Keys
      invariant forall v :: v in r.attestations && v !in rest ==> VoteChecks(r, roster, v, r.attestations[v])
      decreases rest
    {
      var v :| v in rest;
      if !VoteChecks(r, roster, v, r.attestations[v]) { return Err("quorum vote does not match the job"); }
      rest := rest - {v};
    }
    var approvals, denials := CountVotes(r.attestations);
    var agrees := StateAgrees(r, approvals, denials);
    if !agrees { return Err("job state differs from signed quorum"); }
    return Ok(r.state.QuorumVerified?);
  }

  method StateAgrees(r: Receipt, approvals: nat, denials: nat) returns (agrees: bool)
    requires approvals == Votes(r.attestations, true) && denials == Votes(r.attestations, false)
    ensures agrees == StateChecks(r)
  {
    hide Votes;
    if (r.state.QuorumVerified? && approvals < 2) || (r.state.Disputed? && denials < 2)
       || (r.state.AwaitingQuorum? && (approvals >= 2 || denials >= 2))
       || ((r.state.Queued? || r.state.Leased? || r.state.Rejected?) && r.attestations != map[])
       || r.state.Verified? {
      return false;
    }
    return true;
  }

  method Verify(d: Document, pinnedKey: Option<Key>, pinnedRoster: Option<map<Name, Key>>) returns (r: Outcome<Tally>)
    ensures r == VerifyDocument(d, pinnedKey, pinnedRoster)
  {
    if d.schema != RECEIPT_SCHEMA { return Err("unexpected receipt schema"); }
    if pinnedKey.Some? && d.legacyKey != pinnedKey {
      return Err("legacy verifier public key differs from pinned key");
    }
    var verified: nat, pending: nat := 0, 0;
    for i := 0 to |d.receipts|
      invariant CheckFirst(d, pinnedRoster, i) == Ok(Tally(verified, pending))
    {
      hide CheckQuorum, CheckLegacy;
      var receipt := d.receipts[i];
      var ok: Outcome<bool>;
      if receipt.verifierKeys.Some? {
        ok := CheckQuorumReceipt(receipt, pinnedRoster);
      } else {
        ok := CheckLegacy(receipt, d.legacyKey);
      }
      if ok.Err? {
        FirstErrorStays(d, pinnedRoster, i + 1, |d.receipts|);
        return Err(ok.reason);
      }
      if ok.value { verified := verified + 1; } else { pending := pending + 1; }
    }
    return Ok(Tally(verified, pending));
  }

  lemma {:induction false} FirstErrorStays(d: Document, pinnedRoster: Option<map<Name, Key>>, m: nat, n: nat)
    requires m <= n <= |d.receipts| && CheckFirst(d, pinnedRoster, m).Err?
    ensures CheckFirst(d, pinnedRoster, n) == CheckFirst(d, pinnedRoster, m)
  {
    hide CheckReceipt;
    if m < n {
      FirstErrorStays(d, pinnedRoster, m, n - 1);
    }
  }

  class JobStore {
    var jobs: seq<Job>
    var keys: map<Name, Key>
    var legacyKey: Option<Key>

    ghost function View(): Store
      reads this
    {
      Store(jobs, keys, legacyKey)
    }

    /** A first start is empty; a restart loads the saved jobs under newly configured keys. */
    constructor (saved: Option<seq<Job>>, keys: map<Name, Key>, legacyKey: Option<Key>)
      requires Configurable(keys)
      ensures View() == Store(if saved.Some? then saved.value else [], keys, legacyKey)
    {
      jobs := if saved.Some? then saved.value else [];
      this.keys := keys;
      this.legacyKey := legacyKey;
    }

    method EnqueueJob(id: JobId, now: Time) returns (r: Outcome<JobId>)
      modifies this
      ensures match DoEnqueue(old(View()), id, now)
              case Ok(s) => View() == s && r == Ok(id)
              case Err(reason) => View() == old(View()) && r == Err(reason)
    {
      if |keys| != 3 { return Err("three verifier keys must be provisioned before new jobs"); }
      jobs := PutJob(jobs, NewJob(id, keys, now));
      return Ok(id);
    }

    method LeaseJob(node: Name, now: Time) returns (job: Option<JobId>)
      modifies this
      ensures (View(), job) == DoLease(old(View()), node, now)
    {
      for i := 0 to |jobs|
        invariant View() == old(View())
        invariant forall k :: 0 <= k < i ==> !ActiveLease(jobs[k], node, now)
      {
        if ActiveLease(jobs[i], node, now) { return None; }
      }
      for i := 0 to |jobs|
        invariant View() == old(View())
        invariant forall k :: 0 <= k < i ==> !Leasable(jobs[k], node, now)
      {
        if Leasable(jobs[i], node, now) {
          jobs := jobs[i := jobs[i].(state := Leased, leaseUntil := Some(now + LEASE_SECONDS))];
          return Some(jobs[i].id);
        }
      }
      return None;
    }

    method SubmitResult(node: Name, id: JobId, digest: DigestText, now: Time) returns (r: Outcome<JobState>)
      modifies this
      ensures match DoResult(old(View()), node, id, digest, now)
              case Ok(s) =>
                && View() == s && FindJob(s.jobs, id).Some? && r == Ok(s.jobs[FindJob(s.jobs, id).value].state)
              case Err(reason) => View() == old(View()) && r == Err(reason)
    {
      if !DigestFormat(digest) { return Err("invalid digest"); }
      var found := FindJob(jobs, id);
      if found == None { return Err("unknown or unleased job"); }
      var i := found.value;
      var job := jobs[i];
      if job.node != node || !(job.state.Leased? || HasResult(job.state)) { return Err("unknown or unleased job"); }
      if job.state.Leased? {
        if job.leaseUntil.Some? && now > job.leaseUntil.value { return Err("job lease expired"); }
        var state := Rejected;
        if digest == EXPECTED {
          state := if job.verifierKeys.Some? then AwaitingQuorum else Verified;
        }
        job := job.(state := state, resultDigest := Some(digest), completed := Some(now));
        FindAfterUpdate(jobs, i, job, id);
        jobs := jobs[i := job];
      } else if job.resultDigest != Some(digest) {
        return Err("conflicting result");
      }
      return Ok(job.state);
    }

    /** Returns the job's state and its approvals so far. */
    method AddAttestation(v: Name, st: Statement, sig: Signature) returns (r: Outcome<(JobState, nat)>)
      modifies this
      ensures match DoAttest(old(View()), v, st, sig)
              case Ok(s) =>
                && View() == s && FindJob(s.jobs, st.jobId).Some?
                && var job := s.jobs[FindJob(s.jobs, st.jobId).value];
                   r == Ok((job.state, Votes(job.attestations, true)))
              case Err(reason) => View() == old(View()) && r == Err(reason)
    {
      if st.verifierId != v { return Err("invalid attestation"); }
      var found := FindJob(jobs, st.jobId);
      if found == None { return Err("attestation does not match job"); }
      var job := jobs[found.value];
      var approvals, denials := CountVotes(job.attestations);
      hide Votes, FindJob;
      if !StatementFits(job, keys, v, st) { return Err("attestation does not match job"); }
      if sig.seal != SealedBy(job.verifierKeys.value[v], st) { return Err("invalid verifier signature"); }
      if v in job.attestations {
        if job.attestations[v] != Attestation(st, sig) { return Err("conflicting attestation"); }
      } else {
        if !job.state.AwaitingQuorum? { return Err("quorum already reached"); }
        if job.quorumRequired == None { return Err("attestation does not match job"); }
        job := job.(attestations := job.attestations[v := Attestation(st, sig)]);
        approvals, denials := CountVotes(job.attestations);
        if approvals >= job.quorumRequired.value {
          job := job.(state := QuorumVerified);
        } else if denials >= job.quorumRequired.value {
          job := job.(state := Disputed);
        }
        FindAfterUpdate(jobs, found.value, job, st.jobId);
        jobs := jobs[found.value := job];
      }
      return Ok((job.state, approvals));
    }

    method NextForVerifier(v: Name) returns (r: Option<nat>)
      ensures r == VerifierJob(View(), v, 0)
    {
      for i := 0 to |jobs|
        invariant forall k :: 0 <= k < i ==> !Awaits(jobs[k], keys, v)
      {
        if Awaits(jobs[i], keys, v) { return Some(i); }
      }
      return None;
    }

    method Receipts() returns (d: Document)
      ensures d == PublicReceipts(View())
    {
      var last := if |jobs| <= RECEIPT_LIMIT then jobs else jobs[|jobs| - RECEIPT_LIMIT..];
      var receipts: seq<Receipt> := [];
      for i := 0 to |last|
        invariant |receipts| == i
        invariant forall k :: 0 <= k < i ==> receipts[k] == ReceiptOf(last[k])
      {
        receipts := receipts + [ReceiptOf(last[i])];
      }
      d := Document(RECEIPT_SCHEMA, receipts, legacyKey, keys);
      assert receipts == PublicReceipts(View()).receipts;
    }
  }

  lemma {:induction false} FindAfterUpdate(jobs: seq<Job>, i: nat, job: Job, id: JobId)
    requires FindJob(jobs, id) == Some(i) && job.id == id && i < |jobs|
    ensures FindJob(jobs[i := job], id) == Some(i)
  {
    if i < |jobs| - 1 {
      assert jobs[i := job][..|jobs| - 1] == jobs[..|jobs| - 1][i := job];
      FindAfterUpdate(jobs[..|jobs| - 1], i, job, id);
    }
  }
}
