/** The mutable leadership object, proved against the step functions of the term chain. */
module LeadershipObject {
  import opened Common
  import opened Failover

  /** The successor of the validator's running leader, in role order. */
  lemma ChainPrefix(cs: seq<Certificate>, timeout: int, i: nat)
    requires i < |cs| && |cs| < ROLE_COUNT
    ensures ChainOk(cs[..i + 1], timeout) <==>
              ChainOk(cs[..i], timeout) && CertificateOk(cs[i], i + 1, timeout, TickAfter(cs, i), NonceAfter(cs, i))
  {
    var shorter, longer := cs[..i], cs[..i + 1];
    assert forall k :: 0 <= k < i ==> shorter[k] == longer[k] == cs[k];
    assert forall k :: 0 <= k <= i ==>
             TickAfter(longer, k) == TickAfter(cs, k) && NonceAfter(longer, k) == NonceAfter(cs, k);
    assert forall k :: 0 <= k <= i ==>
             TickAfter(shorter, k) == TickAfter(cs, k) && NonceAfter(shorter, k) == NonceAfter(cs, k);
    assert longer[i] == cs[i];
    if ChainOk(longer, timeout) {
      assert CertificateOk(longer[i], i + 1, timeout, TickAfter(longer, i), NonceAfter(longer, i));
      forall k | 0 <= k < i
        ensures CertificateOk(shorter[k], k + 1, timeout, TickAfter(shorter, k), NonceAfter(shorter, k))
      {
        assert CertificateOk(longer[k], k + 1, timeout, TickAfter(longer, k), NonceAfter(longer, k));
      }
    }
    if ChainOk(shorter, timeout) && CertificateOk(cs[i], i + 1, timeout, TickAfter(cs, i), NonceAfter(cs, i)) {
      forall k | 0 <= k <= i
        ensures CertificateOk(longer[k], k + 1, timeout, TickAfter(longer, k), NonceAfter(longer, k))
      {
        if k < i {
          assert CertificateOk(shorter[k], k + 1, timeout, TickAfter(shorter, k), NonceAfter(shorter, k));
        }
      }
    }
  }

  class LeadershipState {
    const timeout: int
    var term: int
    var leader: Role
    var tick: int
    var nonce: int
    var votes: seq<Vote>
    var certificates: seq<Certificate>

    ghost function View(): Leadership
      reads this
    {
      Leadership(timeout, term, leader, tick, nonce, votes, certificates)
    }

    constructor (timeout: int)
      requires timeout >= 2
      ensures View() == NewLeadership(timeout)
    {
      this.timeout := timeout;
      term, leader, tick, nonce := 0, Primary, 0, 0;
      votes, certificates := [], [];
    }

    method Heartbeat(leader: Role, term: int, tick: int, nonce: int) returns (r: Outcome<()>)
      modifies this
      ensures match Beat(old(View()), leader, term, tick, nonce)
              case Ok(s) => View() == s && r.Ok?
              case Err(e) => View() == old(View()) && r == Err(e)
    {
      if leader != this.leader || term != this.term {
        return Err("heartbeat is not from the current leader and term");
      }
      if tick <= this.tick || nonce < this.nonce {
        return Err("heartbeat regresses leadership state");
      }
      this.tick := tick;
      this.nonce := nonce;
      votes := [];
      return Ok(());
    }

    method Submit(v: Vote) returns (r: Outcome<Option<Certificate>>)
      modifies this
      ensures match Failover.Submit(old(View()), v)
              case Ok(s) => View() == s.state && r == Ok(s.certificate)
              case Err(e) => View() == old(View()) && r == Err(e)
    {
      var successor := Successor(leader);
      if successor.None? { return Err("all ordered leaders are exhausted"); }
      var candidate := successor.value;
      var b := v.ballot;
      if !Authentic(v) || b.term != term + 1 || b.accused != leader || b.candidate != candidate
         || b.tick - tick < timeout || b.nonce != nonce || b.voter == leader
      {
        return Err("invalid failover vote");
      }
      var existing := VoteOf(votes, b.voter);
      if existing != [] {
        if existing == [v] { return Ok(None); }
        return Err("failover voter equivocated");
      }
      if votes != [] && b.tick != votes[0].ballot.tick {
        return Err("failover votes do not describe the same timeout");
      }
      votes := votes + [v];
      if |votes| < QUORUM { return Ok(None); }
      var certificate := MakeCertificate(term + 1, candidate, nonce, InVoterOrder(votes));
      term := term + 1;
      leader := candidate;
      tick := votes[0].ballot.tick;
      votes := [];
      certificates := certificates + [certificate];
      return Ok(Some(certificate));
    }

    method AcceptCertificate(c: Certificate) returns (r: Outcome<()>)
      modifies this
      ensures match Adopt(old(View()), c)
              case Ok(s) => View() == s && r.Ok?
              case Err(e) => View() == old(View()) && r.Err?
    {
      if c in certificates {
        if c == certificates[|certificates| - 1] { return Ok(()); }
        return Err("stale leadership certificate");
      }
      if c.term != term + 1 || Successor(leader) != Some(c.leader) {
        return Err("leadership certificate is not the next term");
      }
      if c.nonce != nonce { return Err("leadership certificate does not match local committed position"); }
      if c.votes == [] { return Err("leadership certificate has no timeout votes"); }
      var candidate := LeadershipSnapshot(LEADERSHIP_SCHEMA, timeout, c.term, c.leader,
                                          c.votes[0].ballot.tick, nonce, certificates + [c]);
      assert candidate == Candidate(old(View()), c);
      var verified := Restored(candidate);
      if verified.Err? { return Err(verified.reason); }
      term := verified.value.term;
      leader := verified.value.leader;
      tick := verified.value.tick;
      votes := [];
      certificates := certificates + [c];
      return Ok(());
    }

    function Saved(): LeadershipSnapshot
      reads this
      ensures Saved() == SnapshotOf(View())
    {
      LeadershipSnapshot(LEADERSHIP_SCHEMA, timeout, term, leader, tick, nonce, certificates)
    }

    /** The validator's loop, carrying the expected leader, tick and position along the chain. */
    static method CheckChain(cs: seq<Certificate>, timeout: int)
      returns (ok: bool, leader: Role, tick: int, nonce: int)
      requires |cs| < ROLE_COUNT
      ensures ok <==> ChainOk(cs, timeout)
      ensures ok ==> leader == RoleAt(|cs|) && tick == TickAfter(cs, |cs|) && nonce == NonceAfter(cs, |cs|)
    {
      leader, tick, nonce := Primary, 0, 0;
      for i := 0 to |cs|
        invariant leader == RoleAt(i) && tick == TickAfter(cs, i) && nonce == NonceAfter(cs, i)
        invariant ChainOk(cs[..i], timeout)
      {
        var c := cs[i];
        leader := Successor(leader).value;
        ChainPrefix(cs, timeout, i);
        if !(&& c.term == i + 1 && c.leader == leader && |c.votes| >= QUORUM
             && (forall j, k :: 0 <= j < k < |c.votes| ==> c.votes[j].ballot.voter != c.votes[k].ballot.voter)
             && c.nonce >= nonce
             && (forall j :: 0 <= j < |c.votes| ==> VoteSupports(c.votes[j], c, timeout, tick))
             && c.digest == HashOf(c.term, c.leader, c.nonce, c.votes))
        {
          ChainRejected(cs, timeout, i);
          return false, leader, tick, nonce;
        }
        tick := c.votes[0].ballot.tick;
        nonce := c.nonce;
      }
      assert cs[..|cs|] == cs;
      ok := true;
    }

    /** `LeadershipState.from_snapshot`. */
    static method Restored(s: LeadershipSnapshot) returns (r: Outcome<LeadershipState>)
      ensures r.Ok? <==> SnapshotOk(s)
      ensures r.Ok? ==> fresh(r.value) && FromSnapshot(s) == Ok(r.value.View())
    {
      if s.schema != LEADERSHIP_SCHEMA { return Err("unsupported leadership snapshot"); }
      if s.timeout < 2 { return Err("leadership timeout must be at least two ticks"); }
      if s.term != |s.certificates| || s.term >= ROLE_COUNT || s.tick < 0 || s.nonce < 0 {
        return Err("leadership snapshot violates term history");
      }
      var ok, leader, tick, nonce := CheckChain(s.certificates, s.timeout);
      if !ok { return Err("invalid leadership certificate history"); }
      if leader != s.leader { return Err("leadership certificate does not match current leader"); }
      if s.tick < tick || s.nonce < nonce { return Err("leadership snapshot regresses certified state"); }
      var state := new LeadershipState(s.timeout);
      state.term, state.leader, state.tick, state.nonce := s.term, s.leader, s.tick, s.nonce;
      state.certificates := s.certificates;
      return Ok(state);
    }
  }

  /** One bad certificate condemns the whole chain. */
  lemma ChainRejected(cs: seq<Certificate>, timeout: int, i: nat)
    requires i < |cs| && |cs| < ROLE_COUNT
    requires !CertificateOk(cs[i], i + 1, timeout, TickAfter(cs, i), NonceAfter(cs, i))
    ensures !ChainOk(cs, timeout)
  {
  }
}
