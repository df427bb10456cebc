/** What a document that the independent checker accepts proves, whoever wrote it. */
module OlcSoundness {
  import opened Common
  import opened Olc

  /** The roster's own voter has sealed this opinion on this job, this node and this result. */
  ghost predicate SealedVote(r: Receipt, v: Name, accepted: bool) {
    && r.verifierKeys.Some? && v in r.verifierKeys.value && v in r.attestations && r.resultDigest.Some?
    && var st := Statement(r.jobId, r.nodeId, r.resultDigest.value, accepted, v);
    && r.attestations[v].statement == st
    && r.attestations[v].signature.seal == SealedBy(r.verifierKeys.value[v], st)
  }

  /** Two different voters of the roster have sealed this opinion. */
  ghost predicate TwoSealed(r: Receipt, accepted: bool) {
    exists v, w :: v != w && SealedVote(r, v, accepted) && SealedVote(r, w, accepted)
  }

  /** Two voters have sealed that the job's result is the expected one. */
  ghost predicate QuorumProof(r: Receipt) {
    r.resultDigest == Some(EXPECTED) && TwoSealed(r, true)
  }

  /** The one old verifier has sealed its verdict on this job, node and result. */
  ghost predicate LegacyProof(r: Receipt, key: Option<Key>) {
    && r.verifierKeys.None? && key.Some? && r.attestation.Some? && r.resultDigest.Some?
    && var st := LegacyStatement(r.jobId, r.nodeId, r.resultDigest.value, r.resultDigest.value == EXPECTED);
    && r.attestation.value.statement == st
    && r.attestation.value.signature.seal == LegacySeal(key.value, st)
  }

  /** The three named verifiers, with three different keys, two of which make a quorum. */
  predicate GoodRoster(r: Receipt) {
    && r.verifierKeys.Some? && r.quorumRequired == Some(2)
    && var keys := r.verifierKeys.value;
    && keys.Keys == {"verifier-1", "verifier-2", "verifier-3"}
    && keys["verifier-1"] != keys["verifier-2"] && keys["verifier-2"] != keys["verifier-3"]
    && keys["verifier-1"] != keys["verifier-3"]
  }

  /** Every vote in the receipt is sealed by its voter, and an approval is of the expected result. */
  ghost predicate GoodVotes(r: Receipt) {
    forall v :: v in r.attestations ==>
      SealedVote(r, v, false) || (SealedVote(r, v, true) && r.resultDigest == Some(EXPECTED))
  }

  /** The published state is the one the sealed votes give. */
  ghost predicate GoodState(r: Receipt) {
    match r.state
    case QuorumVerified => TwoSealed(r, true)
    case Disputed => TwoSealed(r, false)
    case AwaitingQuorum => !TwoSealed(r, true) && !TwoSealed(r, false)
    case Verified => false
    case _ => r.attestations == map[]
  }

  ghost predicate GoodReceipt(r: Receipt, key: Option<Key>, pinnedRoster: Option<map<Name, Key>>) {
    if r.verifierKeys.Some? then
      && GoodRoster(r) && (pinnedRoster.Some? ==> r.verifierKeys == pinnedRoster)
      && GoodVotes(r) && GoodState(r)
    else r.attestation.None? || LegacyProof(r, key)
  }

  // ----- One receipt -----

  lemma ThreeKeys(roster: map<Name, Key>)
    requires roster.Keys == {"verifier-1", "verifier-2", "verifier-3"}
    ensures |roster.Values| == 3 <==>
              && roster["verifier-1"] != roster["verifier-2"] && roster["verifier-2"] != roster["verifier-3"]
              && roster["verifier-1"] != roster["verifier-3"]
  {
    var a, b, c := roster["verifier-1"], roster["verifier-2"], roster["verifier-3"];
    forall k | k in roster.Values
      ensures k == a || k == b || k == c
    {
      var v :| v in roster && roster[v] == k;
      assert v in roster.Keys;
    }
    assert "verifier-1" in roster && "verifier-2" in roster && "verifier-3" in roster;
    assert roster.Values == {a, b, c};
  }

  lemma TwoOrMore(s: set<Name>)
    ensures |s| >= 2 <==> exists v, w :: v in s && w in s && v != w
  {
    if |s| >= 2 {
      var v :| v in s;
      var rest := s - {v};
      assert |rest| >= 1;
      var w :| w in rest;
      assert v in s && w in s && v != w;
    }
    if exists v, w :: v in s && w in s && v != w {
      var v, w :| v in s && w in s && v != w;
      assert {v, w} <= s;
      SubsetIsSmaller({v, w}, s);
    }
  }

  lemma SubsetIsSmaller(a: set<Name>, b: set<Name>)
    requires a <= b
    ensures |a| <= |b|
  {
    assert b == a + (b - a);
  }

  /** One vote's own test. */
  lemma VoteIff(r: Receipt, v: Name)
    requires r.verifierKeys.Some? && v in r.attestations
    ensures VoteChecks(r, r.verifierKeys.value, v, r.attestations[v]) <==>
              SealedVote(r, v, false) || (SealedVote(r, v, true) && r.resultDigest == Some(EXPECTED))
  {
    var st := r.attestations[v].statement;
    assert st == Statement(st.jobId, st.nodeId, st.resultDigest, st.accepted, st.verifierId);
  }

  lemma VotesAreSealed(r: Receipt, accepted: bool)
    requires GoodVotes(r)
    ensures forall v :: v in VotersFor(r.attestations, accepted) <==> SealedVote(r, v, accepted)
    ensures Votes(r.attestations, accepted) >= 2 <==> TwoSealed(r, accepted)
  {
    TwoOrMore(VotersFor(r.attestations, accepted));
  }

  lemma QuorumIff(r: Receipt, pinnedRoster: Option<map<Name, Key>>)
    requires r.verifierKeys.Some?
    ensures CheckQuorum(r, pinnedRoster).Ok? <==>
              && GoodRoster(r) && (pinnedRoster.Some? ==> r.verifierKeys == pinnedRoster)
              && GoodVotes(r) && GoodState(r)
    ensures CheckQuorum(r, pinnedRoster).Ok? ==> CheckQuorum(r, pinnedRoster).value == QuorumProof(r)
  {
    var roster := r.verifierKeys.value;
    if roster.Keys == VERIFIER_IDS { ThreeKeys(roster); }
    forall v | v in r.attestations
      ensures VoteChecks(r, roster, v, r.attestations[v]) <==>
                SealedVote(r, v, false) || (SealedVote(r, v, true) && r.resultDigest == Some(EXPECTED))
    {
      VoteIff(r, v);
    }
    assert GoodVotes(r) ==> r.attestations.Keys <= roster.Keys;
    hide VoteChecks, SealedVote;
    if GoodVotes(r) {
      VotesAreSealed(r, true);
      VotesAreSealed(r, false);
      StateIff(r);
    }
    hide Votes, TwoSealed;
  }

  lemma StateIff(r: Receipt)
    requires GoodVotes(r) && r.verifierKeys.Some?
    ensures StateChecks(r) <==> GoodState(r)
    ensures GoodState(r) && GoodRoster(r) ==> (r.state.QuorumVerified? <==> QuorumProof(r))
  {
    VotesAreSealed(r, true);
    VotesAreSealed(r, false);
    if GoodRoster(r) && TwoSealed(r, true) && TwoSealed(r, false) { NotBothWays(r); }
    if TwoSealed(r, true) { ApprovedIsExpected(r); }
    hide Votes, GoodVotes;
  }

  lemma ApprovedIsExpected(r: Receipt)
    requires GoodVotes(r) && TwoSealed(r, true)
    ensures r.resultDigest == Some(EXPECTED) && r.attestations != map[]
  {
    var v, w :| v != w && SealedVote(r, v, true) && SealedVote(r, w, true);
    assert v in r.attestations;
  }

  /** Three voters cannot make two quorums. */
  lemma NotBothWays(r: Receipt)
    requires GoodRoster(r)
    ensures !(TwoSealed(r, true) && TwoSealed(r, false))
  {
    assert forall v :: v in r.verifierKeys.value.Keys ==> v == "verifier-1" || v == "verifier-2" || v == "verifier-3";
  }

  lemma ReceiptIff(r: Receipt, key: Option<Key>, pinnedRoster: Option<map<Name, Key>>)
    ensures CheckReceipt(r, key, pinnedRoster).Ok? <==> GoodReceipt(r, key, pinnedRoster)
    ensures CheckReceipt(r, key, pinnedRoster).Ok? ==>
              CheckReceipt(r, key, pinnedRoster).value == (QuorumProof(r) || LegacyProof(r, key))
  {
    if r.verifierKeys.Some? {
      QuorumIff(r, pinnedRoster);
      hide GoodRoster, GoodVotes, GoodState, CheckQuorum;
    } else {
      hide GoodRoster, GoodVotes, GoodState, CheckQuorum;
      if r.attestation.Some? {
        var st := r.attestation.value.statement;
        assert st == LegacyStatement(st.jobId, st.nodeId, st.resultDigest, st.accepted);
      }
    }
  }

  // ----- The document -----

  /** The receipts, among the first `n`, that carry a proof of the expected result or an old verdict. */
  ghost function Proven(d: Document, n: nat): set<nat>
    requires n <= |d.receipts|
  {
    set i: nat | i < n && (QuorumProof(d.receipts[i]) || LegacyProof(d.receipts[i], d.legacyKey))
  }

  lemma ProvenStep(d: Document, n: nat)
    requires 0 < n <= |d.receipts|
    ensures |Proven(d, n)| == |Proven(d, n - 1)| +
              if QuorumProof(d.receipts[n - 1]) || LegacyProof(d.receipts[n - 1], d.legacyKey) then 1 else 0
  {
    hide QuorumProof, LegacyProof;
    if QuorumProof(d.receipts[n - 1]) || LegacyProof(d.receipts[n - 1], d.legacyKey) {
      assert Proven(d, n) == Proven(d, n - 1) + {n - 1};
    } else {
      assert Proven(d, n) == Proven(d, n - 1);
    }
  }

  lemma {:induction false} FirstIff(d: Document, pinnedRoster: Option<map<Name, Key>>, n: nat)
    requires n <= |d.receipts|
    ensures var c := CheckFirst(d, pinnedRoster, n);
            && (c.Ok? <==> forall i :: 0 <= i < n ==> GoodReceipt(d.receipts[i], d.legacyKey, pinnedRoster))
            && |Proven(d, n)| <= n
            && (c.Ok? ==> c.value == Tally(|Proven(d, n)|, n - |Proven(d, n)|))
  {
    hide GoodReceipt, CheckReceipt, QuorumProof, LegacyProof;
    if n == 0 {
      assert Proven(d, 0) == {};
    } else {
      FirstIff(d, pinnedRoster, n - 1);
      ProvenStep(d, n);
      ReceiptIff(d.receipts[n - 1], d.legacyKey, pinnedRoster);
      hide Proven;
    }
  }

  /**
   The checker is sound and complete over every document, whoever wrote it: it accepts exactly
   those that match the caller's pins and in which every vote is sealed by a voter of the roster
   over this very job, node and result and every state is the one those votes give. It counts as
   verified exactly the receipts in which two different voters have sealed the expected result,
   or the old verifier its verdict.
   */
  lemma AcceptedIff(d: Document, pinnedKey: Option<Key>, pinnedRoster: Option<map<Name, Key>>)
    ensures var c := VerifyDocument(d, pinnedKey, pinnedRoster);
            var proven := |Proven(d, |d.receipts|)|;
            && proven <= |d.receipts|
            && (c.Ok? <==>
                  && d.schema == "olc-receipts/v1" && (pinnedKey.Some? ==> d.legacyKey == pinnedKey)
                  && forall i :: 0 <= i < |d.receipts| ==> GoodReceipt(d.receipts[i], d.legacyKey, pinnedRoster))
            && (c.Ok? ==> c.value == Tally(proven, |d.receipts| - proven))
  {
    FirstIff(d, pinnedRoster, |d.receipts|);
    hide CheckFirst, GoodReceipt, Proven;
  }

  /** A vote that names another job or node, or carries no genuine seal, is never let through. */
  lemma ForgedVoteIsRefused(
    d: Document, pinnedKey: Option<Key>, pinnedRoster: Option<map<Name, Key>>, i: nat, v: Name)
    requires i < |d.receipts| && d.receipts[i].verifierKeys.Some? && v in d.receipts[i].attestations
    requires var r, a := d.receipts[i], d.receipts[i].attestations[v];
             || a.statement.jobId != r.jobId || a.statement.nodeId != r.nodeId
             || Some(a.statement.resultDigest) != r.resultDigest || a.statement.verifierId != v
             || v !in r.verifierKeys.value || a.signature.seal != SealedBy(r.verifierKeys.value[v], a.statement)
    ensures VerifyDocument(d, pinnedKey, pinnedRoster).Err?
  {
    AcceptedIff(d, pinnedKey, pinnedRoster);
    hide VerifyDocument;
    if GoodReceipt(d.receipts[i], d.legacyKey, pinnedRoster) {
      hide GoodRoster, GoodState;
      assert GoodVotes(d.receipts[i]);
    }
  }
}
