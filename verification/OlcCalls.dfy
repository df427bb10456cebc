/** Exactly what each call of the job store takes and does. */
module OlcCalls {
  import opened Common
  import opened Olc

  /** With three keys a new job is queued, to be decided by two of the three under these very keys. */
  lemma EnqueueIff(s: Store, id: JobId, now: Time)
    ensures DoEnqueue(s, id, now).Ok? <==> |s.keys| == 3
    ensures DoEnqueue(s, id, now).Ok? && (forall i :: 0 <= i < |s.jobs| ==> s.jobs[i].id != id) ==>
              DoEnqueue(s, id, now).value ==
                s.(jobs := s.jobs + [Job(id, "olc-worker-001", Queued, now, None, None, None, None,
                                         Some(s.keys), Some(2), map[])])
  {
  }

  /** The worker's lease on this job still runs. */
  predicate Running(job: Job, node: Name, now: Time) {
    job.node == node && job.state.Leased? && job.leaseUntil.Some? && now <= job.leaseUntil.value
  }

  /** The job is the worker's and free, or its lease has run out. */
  predicate Available(job: Job, node: Name, now: Time) {
    && job.node == node
    && (job.state.Queued? || (job.state.Leased? && job.leaseUntil.Some? && now > job.leaseUntil.value))
  }

  /**
   A worker with a running lease, or without an available job, gets nothing and nothing changes;
   otherwise the first available job is leased for two minutes.
   */
  lemma LeaseExact(s: Store, node: Name, now: Time)
    ensures var (t, job) := DoLease(s, node, now);
            && (job.None? <==>
                  || (exists i :: 0 <= i < |s.jobs| && Running(s.jobs[i], node, now))
                  || (forall i :: 0 <= i < |s.jobs| ==> !Available(s.jobs[i], node, now)))
            && (job.None? ==> t == s)
            && (job.Some? ==>
                  exists i :: 0 <= i < |s.jobs| && Available(s.jobs[i], node, now) && job.value == s.jobs[i].id
                              && (forall k :: 0 <= k < i ==> !Available(s.jobs[k], node, now))
                              && t == s.(jobs := s.jobs[i := s.jobs[i].(state := Leased,
                                                                        leaseUntil := Some(now + 120.0))]))
  {
    assert forall i :: 0 <= i < |s.jobs| ==>
      (Running(s.jobs[i], node, now) <==> ActiveLease(s.jobs[i], node, now))
      && (Available(s.jobs[i], node, now) <==> Leasable(s.jobs[i], node, now));
    var r := FirstLeasable(s.jobs, node, now, 0);
    hide Running, Available, ActiveLease, Leasable, FirstLeasable;
    if DoLease(s, node, now).1.Some? {
      assert Available(s.jobs[r.value], node, now);
    }
  }

  lemma NamedJob(s: Store, i: nat)
    requires StoreOk(s) && i < |s.jobs|
    ensures FindJob(s.jobs, s.jobs[i].id) == Some(i) && JobFits(s.jobs[i])
  {
    hide JobFits, Configurable, FindJob;
  }

  /** No result and no vote is taken for a job that does not exist. */
  lemma UnknownJob(
    s: Store, id: JobId, node: Name, digest: DigestText, now: Time, v: Name, st: Statement, sig: Signature)
    requires (forall i :: 0 <= i < |s.jobs| ==> s.jobs[i].id != id) && st.jobId == id
    ensures DoResult(s, node, id, digest, now).Err? && DoAttest(s, v, st, sig).Err?
  {
  }

  /**
   A result is taken from the worker of the job alone: a first one while the lease runs, which
   sends the expected digest to the verifiers and rejects any other, and a repeat of it later.
   */
  lemma ResultIff(s: Store, i: nat, node: Name, digest: DigestText, now: Time)
    requires StoreOk(s) && i < |s.jobs|
    ensures var job, r := s.jobs[i], DoResult(s, node, s.jobs[i].id, digest, now);
            && (r.Ok? <==>
                  && |digest| == 64 && (forall c :: c in digest ==> 'a' <= c <= 'f' || '0' <= c <= '9')
                  && node == job.node
                  && if job.state.Leased? then now <= job.leaseUntil.value
                     else !job.state.Queued? && job.resultDigest == Some(digest))
            && (r.Ok? && job.state.Leased? ==>
                  var state := if digest == EXPECTED then AwaitingQuorum else Rejected;
                  r.value == s.(jobs := s.jobs[i := job.(state := state, resultDigest := Some(digest),
                                                         completed := Some(now))]))
            && (r.Ok? && !job.state.Leased? ==> r.value == s)
  {
    NamedJob(s, i);
    assert DigestFormat(digest) <==>
      (|digest| == 64 && forall c :: c in digest ==> 'a' <= c <= 'f' || '0' <= c <= '9') by { FormatIff(digest); }
    hide StoreOk, FindJob, RosterOk, Votes, DigestFormat;
  }

  lemma FormatIff(digest: DigestText)
    ensures DigestFormat(digest) <==>
              |digest| == 64 && forall c :: c in digest ==> 'a' <= c <= 'f' || '0' <= c <= '9'
  {
    if |digest| == 64 && forall c :: c in digest ==> 'a' <= c <= 'f' || '0' <= c <= '9' {
      assert forall i :: 0 <= i < 64 ==> digest[i] in digest;
    }
  }

  /** The statement names this job, its node, its result and the voter. */
  predicate StatesJob(job: Job, v: Name, st: Statement) {
    && job.resultDigest.Some? && st == Statement(job.id, job.node, job.resultDigest.value, st.accepted, v)
  }

  /** The voter's configured key is the one in the job's roster. */
  predicate SameKey(job: Job, keys: map<Name, Key>, v: Name) {
    job.verifierKeys.Some? && v in job.verifierKeys.value && v in keys && keys[v] == job.verifierKeys.value[v]
  }

  /**
   A vote is taken exactly if it states the job as it is, is sealed under the voter's key of the
   job's own roster, which is still the configured one, and the voter has not voted while the
   job awaits its quorum, or repeats its own vote. Two approvals verify the job, two denials
   dispute it, and until then it waits.
   */
  lemma AttestIff(s: Store, i: nat, v: Name, st: Statement, sig: Signature)
    requires StoreOk(s) && i < |s.jobs| && st.jobId == s.jobs[i].id
    ensures var job, r := s.jobs[i], DoAttest(s, v, st, sig);
            && (r.Ok? <==>
                  && StatesJob(job, v, st) && SameKey(job, s.keys, v)
                  && sig.seal == SealedBy(job.verifierKeys.value[v], st)
                  && if v in job.attestations then job.attestations[v] == Attestation(st, sig)
                     else job.state.AwaitingQuorum?)
            && (r.Ok? && v in job.attestations ==> r.value == s)
            && (r.Ok? && v !in job.attestations ==>
                  var votes := job.attestations[v := Attestation(st, sig)];
                  var state := if Votes(votes, true) >= 2 then QuorumVerified
                               else if Votes(votes, false) >= 2 then Disputed
                               else AwaitingQuorum;
                  r.value == s.(jobs := s.jobs[i := job.(attestations := votes, state := state)]))
  {
    NamedJob(s, i);
    var job := s.jobs[i];
    assert v in job.attestations ==> job.state.AwaitingQuorum? || job.state.QuorumVerified? || job.state.Disputed?;
    assert StatementFits(job, s.keys, v, st) && st.verifierId == v ==> StatesJob(job, v, st) by {
      assert st == Statement(st.jobId, st.nodeId, st.resultDigest, st.accepted, st.verifierId);
    }
    hide StoreOk, FindJob, RosterOk, Votes;
  }

  /** A verifier is offered exactly the jobs on which its own new vote, either way, would be recorded. */
  lemma AwaitsIff(s: Store, i: nat, v: Name, accepted: bool, spelling: nat)
    requires StoreOk(s) && i < |s.jobs|
    ensures Awaits(s.jobs[i], s.keys, v) <==>
              && s.jobs[i].resultDigest.Some? && v in s.keys
              && var st := Statement(s.jobs[i].id, s.jobs[i].node, s.jobs[i].resultDigest.value, accepted, v);
              && var r := DoAttest(s, v, st, Signature(spelling, SealedBy(s.keys[v], st)));
              && r.Ok? && r.value != s
  {
    var job := s.jobs[i];
    NamedJob(s, i);
    if job.resultDigest.Some? && v in s.keys {
      var st := Statement(job.id, job.node, job.resultDigest.value, accepted, v);
      var sig := Signature(spelling, SealedBy(s.keys[v], st));
      AttestIff(s, i, v, st, sig);
      hide StoreOk, DoAttest, FindJob, RosterOk, Votes, JobFits;
      if DoAttest(s, v, st, sig).Ok? && v !in job.attestations {
        assert v in DoAttest(s, v, st, sig).value.jobs[i].attestations;
      }
    }
  }

  /** The public document holds the last twenty jobs as they are. */
  lemma PublishedIs(s: Store)
    ensures var d := PublicReceipts(s);
            var skipped := |s.jobs| - |d.receipts|;
            && d.schema == "olc-receipts/v1" && d.legacyKey == s.legacyKey && d.verifiers == s.keys
            && |d.receipts| == (if |s.jobs| < 20 then |s.jobs| else 20)
            && forall k :: 0 <= k < |d.receipts| ==>
                 var job := s.jobs[skipped + k];
                 d.receipts[k] == Receipt(job.id, job.node, job.state, job.resultDigest, job.attestation,
                                          job.attestations, job.verifierKeys, job.quorumRequired)
  {
  }
}
