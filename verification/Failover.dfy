/**
 Term-based leadership: timeout votes, certificates and the from-scratch validator.
 A signature is a constructor term over the signer and the signed ballot.
 */
module Failover {
  import opened Common

  datatype Role = Primary | Secondary | Tertiary

  const ROLE_COUNT := 3
  const QUORUM := 2
  const LEADERSHIP_SCHEMA := "splitchain-leadership/v1"

  /** `ROLE_ORDER[i]`. */
  function RoleAt(i: int): Role
    requires 0 <= i < ROLE_COUNT
  {
    if i == 0 then Primary else if i == 1 then Secondary else Tertiary
  }

  /** `ROLE_ORDER.index(role)`. */
  function Index(role: Role): nat
    ensures Index(role) < ROLE_COUNT && RoleAt(Index(role)) == role
  {
    match role
    case Primary => 0
    case Secondary => 1
    case Tertiary => 2
  }

  /** The unsigned content of a failure vote. */
  datatype Ballot = Ballot(voter: Role, term: int, accused: Role, candidate: Role, tick: int, nonce: int)

  datatype Signature = SignedBy(key: Role, ballot: Ballot) | Forged(tag: int)

  datatype Vote = Vote(ballot: Ballot, signature: Signature)

  datatype CertificateDigest = HashOf(term: int, leader: Role, nonce: int, votes: seq<Vote>) | OtherHash(tag: int)

  datatype Certificate = Certificate(term: int, leader: Role, nonce: int, votes: seq<Vote>, digest: CertificateDigest)

  /** `votes` keeps the insertion order of the source's dictionary, keyed by voter. */
  datatype Leadership = Leadership(
    timeout: int, term: int, leader: Role, tick: int, nonce: int,
    votes: seq<Vote>, certificates: seq<Certificate>)

  datatype LeadershipSnapshot = LeadershipSnapshot(
    schema: string, timeout: int, term: int, leader: Role, tick: int, nonce: int,
    certificates: seq<Certificate>)

  /** A submitted vote leaves a state and perhaps completes a certificate. */
  datatype Submission = Submission(state: Leadership, certificate: Option<Certificate>)

  predicate Authentic(v: Vote) {
    v.signature == SignedBy(v.ballot.voter, v.ballot)
  }

  function SignVote(b: Ballot): Vote {
    Vote(b, SignedBy(b.voter, b))
  }

  function NewLeadership(timeout: int): Leadership {
    Leadership(timeout, 0, Primary, 0, 0, [], [])
  }

  /** The role after `role`, unless the order is exhausted. */
  function Successor(role: Role): Option<Role> {
    match role
    case Primary => Some(Secondary)
    case Secondary => Some(Tertiary)
    case Tertiary => None
  }

  function Beat(s: Leadership, leader: Role, term: int, tick: int, nonce: int): Outcome<Leadership> {
    if leader != s.leader || term != s.term then Err("heartbeat is not from the current leader and term")
    else if tick <= s.tick || nonce < s.nonce then Err("heartbeat regresses leadership state")
    else Ok(s.(tick := tick, nonce := nonce, votes := []))
  }

  /** The stored vote of `voter`, as a sequence of at most one element. */
  function VoteOf(votes: seq<Vote>, voter: Role): seq<Vote> {
    if votes == [] then []
    else if votes[0].ballot.voter == voter then [votes[0]]
    else VoteOf(votes[1..], voter)
  }

  /** `tuple(self.votes[voter] for voter in sorted(self.votes))`. */
  function InVoterOrder(votes: seq<Vote>): seq<Vote> {
    VoteOf(votes, Primary) + VoteOf(votes, Secondary) + VoteOf(votes, Tertiary)
  }

  function MakeCertificate(term: int, leader: Role, nonce: int, votes: seq<Vote>): Certificate {
    Certificate(term, leader, nonce, votes, HashOf(term, leader, nonce, votes))
  }

  function Submit(s: Leadership, v: Vote): Outcome<Submission> {
    match Successor(s.leader)
    case None => Err("all ordered leaders are exhausted")
    case Some(candidate) =>
      var b := v.ballot;
      if !(&& Authentic(v) && b.term == s.term + 1 && b.accused == s.leader && b.candidate == candidate
           && b.tick - s.tick >= s.timeout && b.nonce == s.nonce && b.voter != s.leader)
      then Err("invalid failover vote")
      else
        var existing := VoteOf(s.votes, b.voter);
        if existing == [v] then Ok(Submission(s, None))
        else if existing != [] then Err("failover voter equivocated")
        else if s.votes != [] && b.tick != s.votes[0].ballot.tick
          then Err("failover votes do not describe the same timeout")
        else
          var votes := s.votes + [v];
          if |votes| < QUORUM then Ok(Submission(s.(votes := votes), None))
          else
            var c := MakeCertificate(s.term + 1, candidate, s.nonce, InVoterOrder(votes));
            Ok(Submission(s.(term := s.term + 1, leader := candidate, tick := votes[0].ballot.tick,
                             votes := [], certificates := s.certificates + [c]),
                          Some(c)))
  }

  function SnapshotOf(s: Leadership): LeadershipSnapshot {
    LeadershipSnapshot(LEADERSHIP_SCHEMA, s.timeout, s.term, s.leader, s.tick, s.nonce, s.certificates)
  }

  predicate VoteSupports(v: Vote, c: Certificate, timeout: int, previousTick: int)
    requires c.votes != [] && 1 <= c.term < ROLE_COUNT
  {
    && Authentic(v)
    && v.ballot.term == c.term
    && v.ballot.accused == RoleAt(c.term - 1)
    && v.ballot.candidate == c.leader
    && v.ballot.voter != v.ballot.accused
    && v.ballot.nonce == c.nonce
    && v.ballot.tick == c.votes[0].ballot.tick
    && v.ballot.tick - previousTick >= timeout
  }

  /** One round of the validator's loop. */
  predicate CertificateOk(c: Certificate, term: int, timeout: int, previousTick: int, previousNonce: int)
    requires 1 <= term < ROLE_COUNT
  {
    && c.term == term
    && c.leader == RoleAt(term)
    && |c.votes| >= QUORUM
    && (forall i, j :: 0 <= i < j < |c.votes| ==> c.votes[i].ballot.voter != c.votes[j].ballot.voter)
    && c.nonce >= previousNonce
    && (forall i :: 0 <= i < |c.votes| ==> VoteSupports(c.votes[i], c, timeout, previousTick))
    && c.digest == HashOf(c.term, c.leader, c.nonce, c.votes)
  }

  /** The tick and position the chain has reached after its first `n` certificates. */
  function TickAfter(cs: seq<Certificate>, n: nat): int
    requires n <= |cs|
  {
    if n == 0 || cs[n - 1].votes == [] then 0 else cs[n - 1].votes[0].ballot.tick
  }

  function NonceAfter(cs: seq<Certificate>, n: nat): int
    requires n <= |cs|
  {
    if n == 0 then 0 else cs[n - 1].nonce
  }

  predicate ChainOk(cs: seq<Certificate>, timeout: int) {
    && |cs| < ROLE_COUNT
    && forall i :: 0 <= i < |cs| ==> CertificateOk(cs[i], i + 1, timeout, TickAfter(cs, i), NonceAfter(cs, i))
  }

  /** Everything `from_snapshot` demands, stated over the whole chain at once. */
  predicate SnapshotOk(s: LeadershipSnapshot) {
    && s.schema == LEADERSHIP_SCHEMA
    && s.timeout >= 2
    && s.term == |s.certificates| && s.term < ROLE_COUNT
    && s.tick >= 0 && s.nonce >= 0
    && ChainOk(s.certificates, s.timeout)
    && s.leader == RoleAt(s.term)
    && s.tick >= TickAfter(s.certificates, |s.certificates|)
    && s.nonce >= NonceAfter(s.certificates, |s.certificates|)
  }

  function FromSnapshot(s: LeadershipSnapshot): Outcome<Leadership> {
    if SnapshotOk(s) then Ok(Leadership(s.timeout, s.term, s.leader, s.tick, s.nonce, [], s.certificates))
    else Err("invalid leadership snapshot")
  }

  /** The snapshot a peer would have after adopting `c`, which the validator then judges. */
  function Candidate(s: Leadership, c: Certificate): LeadershipSnapshot
    requires c.votes != []
  {
    SnapshotOf(s).(term := c.term, leader := c.leader, tick := c.votes[0].ballot.tick,
                   certificates := s.certificates + [c])
  }

  function Adopt(s: Leadership, c: Certificate): Outcome<Leadership> {
    if c in s.certificates then
      if c == s.certificates[|s.certificates| - 1] then Ok(s) else Err("stale leadership certificate")
    else if c.term != s.term + 1 || Successor(s.leader) != Some(c.leader) then
      Err("leadership certificate is not the next term")
    else if c.nonce != s.nonce then Err("leadership certificate does not match local committed position")
    else if c.votes == [] then Err("leadership certificate has no timeout votes")
    else
      match FromSnapshot(Candidate(s, c))
      case Err(e) => Err(e)
      case Ok(verified) =>
        Ok(s.(term := verified.term, leader := verified.leader, tick := verified.tick,
              votes := [], certificates := s.certificates + [c]))
  }

  datatype Event =
    | Heartbeat(leader: Role, term: int, tick: int, nonce: int)
    | CastVote(vote: Vote)
    | Receive(certificate: Certificate)

  function Step(s: Leadership, e: Event): Leadership {
    match e
    case Heartbeat(leader, term, tick, nonce) =>
      (match Beat(s, leader, term, tick, nonce) case Ok(s') => s' case Err(_) => s)
    case CastVote(v) =>
      (match Submit(s, v) case Ok(r) => r.state case Err(_) => s)
    case Receive(c) =>
      (match Adopt(s, c) case Ok(s') => s' case Err(_) => s)
  }

  function Run(s: Leadership, events: seq<Event>): Leadership {
    if events == [] then s else Step(Run(s, events[..|events| - 1]), events[|events| - 1])
  }

  // ---------------------------------------------------------------- the live machine

  /** A stored vote still fits the state it was cast against. */
  predicate VotePending(s: Leadership, v: Vote) {
    && Authentic(v) && v.ballot.term == s.term + 1 && v.ballot.accused == s.leader
    && Successor(s.leader) == Some(v.ballot.candidate)
    && v.ballot.tick - s.tick >= s.timeout && v.ballot.nonce == s.nonce && v.ballot.voter != s.leader
  }

  /** What every live state satisfies: its snapshot passes, and at most one vote waits. */
  predicate Live(s: Leadership) {
    && SnapshotOk(SnapshotOf(s))
    && |s.votes| < QUORUM
    && forall i :: 0 <= i < |s.votes| ==> VotePending(s, s.votes[i])
  }

  lemma AppendKeepsChain(cs: seq<Certificate>, c: Certificate, timeout: int)
    requires ChainOk(cs, timeout) && |cs| + 1 < ROLE_COUNT
    requires CertificateOk(c, |cs| + 1, timeout, TickAfter(cs, |cs|), NonceAfter(cs, |cs|))
    ensures ChainOk(cs + [c], timeout)
    ensures TickAfter(cs + [c], |cs| + 1) == c.votes[0].ballot.tick && NonceAfter(cs + [c], |cs| + 1) == c.nonce
  {
    forall i | 0 <= i <= |cs|
      ensures CertificateOk((cs + [c])[i], i + 1, timeout, TickAfter(cs + [c], i), NonceAfter(cs + [c], i))
    {
      if i < |cs| {
        assert (cs + [c])[i] == cs[i];
        assert CertificateOk(cs[i], i + 1, timeout, TickAfter(cs, i), NonceAfter(cs, i));
      }
      assert |cs| > 0 ==> (cs + [c])[|cs| - 1] == cs[|cs| - 1];
    }
  }

  /** Two votes by different voters, put in voter order. */
  lemma PairInVoterOrder(u: Vote, v: Vote)
    requires u.ballot.voter != v.ballot.voter
    ensures InVoterOrder([u, v]) == if Index(u.ballot.voter) < Index(v.ballot.voter) then [u, v] else [v, u]
  {
    forall role
      ensures VoteOf([u, v], role) == if u.ballot.voter == role then [u] else if v.ballot.voter == role then [v] else []
    {
      assert [v][1..] == [];
      assert VoteOf([v], role) == if v.ballot.voter == role then [v] else [];
      assert [u, v][1..] == [v];
    }
  }

  /** The vote that completes a certificate joins exactly one earlier vote of the same tick. */
  lemma CompletedByPair(s: Leadership, v: Vote)
    requires Live(s) && Submit(s, v).Ok? && Submit(s, v).value.certificate.Some?
    ensures |s.votes| == 1 && VotePending(s, s.votes[0]) && VotePending(s, v)
    ensures s.votes[0].ballot.voter != v.ballot.voter && s.votes[0].ballot.tick == v.ballot.tick
    ensures var c := Submit(s, v).value.certificate.value;
            c.votes == [s.votes[0], v] || c.votes == [v, s.votes[0]]
  {
    var u := s.votes[0];
    assert s.votes == [u] && VotePending(s, u);
    assert VoteOf([u], u.ballot.voter) == [u];
    assert s.votes + [v] == [u, v];
    PairInVoterOrder(u, v);
  }

  lemma SubmitKeepsLive(s: Leadership, v: Vote)
    requires Live(s) && Submit(s, v).Ok?
    ensures Live(Submit(s, v).value.state)
  {
    var r := Submit(s, v).value;
    if r.certificate.Some? {
      CompletedByPair(s, v);
      AppendKeepsChain(s.certificates, r.certificate.value, s.timeout);
    }
  }

  lemma AdoptKeepsLive(s: Leadership, c: Certificate)
    requires Live(s) && Adopt(s, c).Ok?
    ensures Live(Adopt(s, c).value)
  {
  }

  lemma BeatKeepsLive(s: Leadership, leader: Role, term: int, tick: int, nonce: int)
    requires Live(s) && Beat(s, leader, term, tick, nonce).Ok?
    ensures Live(Beat(s, leader, term, tick, nonce).value)
  {
  }

  /**
   The validator agrees with the live machine: whatever heartbeats, votes and certificates
   arrive, the state's snapshot is accepted and restores the same state (minus a waiting vote).
   */
  lemma {:induction false} LiveStateRestores(timeout: int, events: seq<Event>)
    requires timeout >= 2
    ensures Live(Run(NewLeadership(timeout), events))
    ensures var s := Run(NewLeadership(timeout), events); FromSnapshot(SnapshotOf(s)) == Ok(s.(votes := []))
  {
    if events != [] {
      var s := Run(NewLeadership(timeout), events[..|events| - 1]);
      LiveStateRestores(timeout, events[..|events| - 1]);
      match events[|events| - 1] {
        case Heartbeat(l, t, k, n) => if Beat(s, l, t, k, n).Ok? { BeatKeepsLive(s, l, t, k, n); }
        case CastVote(v) => if Submit(s, v).Ok? { SubmitKeepsLive(s, v); }
        case Receive(c) => if Adopt(s, c).Ok? { AdoptKeepsLive(s, c); }
      }
    }
  }

  /** In an accepted chain, term `i + 1` was certified by exactly the two roles not accused. */
  lemma CertifiedByBothOthers(cs: seq<Certificate>, timeout: int, i: nat)
    requires ChainOk(cs, timeout) && i < |cs|
    ensures |cs[i].votes| == 2
    ensures {cs[i].votes[0].ballot.voter, cs[i].votes[1].ballot.voter} == {Primary, Secondary, Tertiary} - {RoleAt(i)}
    ensures forall k :: 0 <= k < 2 ==>
              && Authentic(cs[i].votes[k]) && cs[i].votes[k].ballot.term == i + 1
              && cs[i].votes[k].ballot.nonce == cs[i].nonce
    ensures cs[i].leader == RoleAt(i + 1)
    ensures cs[i].votes[0].ballot.tick >= TickAfter(cs, i) + timeout
  {
    var c := cs[i];
    assert CertificateOk(c, i + 1, timeout, TickAfter(cs, i), NonceAfter(cs, i));
    forall k | 0 <= k < |c.votes|
      ensures c.votes[k].ballot.voter != RoleAt(i)
    {
      assert VoteSupports(c.votes[k], c, timeout, TickAfter(cs, i));
    }
    if |c.votes| > 2 {
      ThreeVotersCoverRoles(c.votes[0].ballot.voter, c.votes[1].ballot.voter, c.votes[2].ballot.voter, RoleAt(i));
    }
    assert VoteSupports(c.votes[0], c, timeout, TickAfter(cs, i));
  }

  lemma ThreeVotersCoverRoles(a: Role, b: Role, c: Role, r: Role)
    requires a != b && b != c && a != c
    ensures r == a || r == b || r == c
  {
  }

  /** In a live state the leader is the role of the term, and the terms never run past the roles. */
  lemma LeaderFollowsTerm(timeout: int, events: seq<Event>)
    requires timeout >= 2
    ensures var s := Run(NewLeadership(timeout), events);
            0 <= s.term < ROLE_COUNT && s.leader == RoleAt(s.term) && s.term == |s.certificates|
  {
    LiveStateRestores(timeout, events);
  }

  /** A completed certificate is for a term that the chain does not have yet. */
  lemma CertificateIsNew(s: Leadership, v: Vote)
    requires Live(s) && Submit(s, v).Ok? && Submit(s, v).value.certificate.Some?
    ensures Submit(s, v).value.certificate.value !in s.certificates
  {
    forall i | 0 <= i < |s.certificates|
      ensures s.certificates[i].term <= s.term
    {
      var cs := s.certificates;
      assert CertificateOk(cs[i], i + 1, s.timeout, TickAfter(cs, i), NonceAfter(cs, i));
    }
  }

  /**
   Peers converge: when `s` completes a certificate, a peer with the same chain, timeout and
   committed position that receives it ends with the same snapshot, whatever tick the peer
   had reached on its own.
   */
  lemma PeersConverge(s: Leadership, v: Vote, peer: Leadership)
    requires Live(s) && Submit(s, v).Ok? && Submit(s, v).value.certificate.Some?
    requires peer.certificates == s.certificates && peer.timeout == s.timeout && peer.nonce == s.nonce
    requires peer.term == s.term && peer.leader == s.leader
    ensures var r := Submit(s, v).value;
            && Adopt(peer, r.certificate.value).Ok?
            && SnapshotOf(Adopt(peer, r.certificate.value).value) == SnapshotOf(r.state)
  {
    var r := Submit(s, v).value;
    var c := r.certificate.value;
    SubmitKeepsLive(s, v);
    CertificateIsNew(s, v);
    assert r.state.certificates[|s.certificates|] == c;
    CompletedByPair(s, v);
    assert Candidate(peer, c) == SnapshotOf(r.state);
  }
}
