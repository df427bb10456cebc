/** Exactly which certificates and leadership snapshots are accepted. */
module Certificates {
  import opened Common
  import opened Failover
  import opened Heartbeats

  /** The vote a voter signs for the next term. */
  function VoteFor(voter: Role, term: int, tick: int, nonce: int): Vote
    requires 1 <= term < 3
  {
    var ballot := Ballot(voter, term, RoleAt(term - 1), RoleAt(term), tick, nonce);
    Vote(ballot, SignedBy(voter, ballot))
  }

  /**
   A certificate stands in a chain exactly if the two roles other than the accused have signed
   the very same vote, at its own position, the timeout or more after the chain's last tick.
   */
  lemma CertificateIff(c: Certificate, term: int, timeout: int, previousTick: int, previousNonce: int)
    requires 1 <= term < 3
    ensures CertificateOk(c, term, timeout, previousTick, previousNonce) <==>
              && c.term == term && c.leader == RoleAt(term) && c.nonce >= previousNonce && |c.votes| == 2
              && var (u, v) := (c.votes[0].ballot.voter, c.votes[1].ballot.voter);
              && {u, v, RoleAt(term - 1)} == {Primary, Secondary, Tertiary}
              && c.votes[0].ballot.tick >= previousTick + timeout
              && c.votes == [VoteFor(u, term, c.votes[0].ballot.tick, c.nonce),
                             VoteFor(v, term, c.votes[0].ballot.tick, c.nonce)]
              && c.digest == HashOf(c.term, c.leader, c.nonce, c.votes)
  {
    if CertificateOk(c, term, timeout, previousTick, previousNonce) {
      TwoVotesOnly(c, term, timeout, previousTick, previousNonce);
      assert VoteSupports(c.votes[0], c, timeout, previousTick) && VoteSupports(c.votes[1], c, timeout, previousTick);
    }
  }

  lemma TwoVotesOnly(c: Certificate, term: int, timeout: int, previousTick: int, previousNonce: int)
    requires 1 <= term < 3 && CertificateOk(c, term, timeout, previousTick, previousNonce)
    ensures |c.votes| == 2
  {
    if |c.votes| > 2 {
      forall k | 0 <= k < 3
        ensures c.votes[k].ballot.voter != RoleAt(term - 1)
      {
        assert VoteSupports(c.votes[k], c, timeout, previousTick);
      }
      var voters := (c.votes[0].ballot.voter, c.votes[1].ballot.voter, c.votes[2].ballot.voter);
      ThreeVotersCoverRoles(voters.0, voters.1, voters.2, RoleAt(term - 1));
    }
  }

  /** A peer takes the certificate it has already, or one that continues its chain at its own position. */
  lemma AdoptIff(s: Leadership, c: Certificate)
    requires Live(s)
    ensures Adopt(s, c).Ok? <==>
              || (s.certificates != [] && c == s.certificates[|s.certificates| - 1])
              || (&& s.term < 2 && c.nonce == s.nonce
                  && CertificateOk(c, s.term + 1, s.timeout, TickAfter(s.certificates, s.term),
                                   NonceAfter(s.certificates, s.term)))
    ensures Adopt(s, c).Ok? && (s.certificates == [] || c != s.certificates[|s.certificates| - 1]) ==>
              Adopt(s, c).value == Leadership(s.timeout, s.term + 1, RoleAt(s.term + 1), c.votes[0].ballot.tick,
                                              s.nonce, [], s.certificates + [c])
  {
    var n := |s.certificates|;
    assert s.term == n && s.leader == RoleAt(n);
    hide CertificateOk;
    if s.term < 2 && CertificateOk(c, n + 1, s.timeout, TickAfter(s.certificates, n), NonceAfter(s.certificates, n)) {
      AppendKeepsChain(s.certificates, c, s.timeout);
      forall i | 0 <= i < n
        ensures s.certificates[i] != c
      {
        assert CertificateOk(s.certificates[i], i + 1, s.timeout, TickAfter(s.certificates, i),
                             NonceAfter(s.certificates, i));
      }
    }
    if Adopt(s, c).Ok? && c !in s.certificates {
      var cs := s.certificates + [c];
      assert CertificateOk(cs[n], n + 1, s.timeout, TickAfter(cs, n), NonceAfter(cs, n));
      assert n > 0 ==> cs[n - 1] == s.certificates[n - 1];
    }
  }

  /** The state that a valid chain alone leads to. */
  function AtChain(cs: seq<Certificate>, timeout: int): Leadership
    requires |cs| < ROLE_COUNT
  {
    Leadership(timeout, |cs|, RoleAt(|cs|), TickAfter(cs, |cs|), NonceAfter(cs, |cs|), [], cs)
  }

  lemma {:induction false} ChainIsReached(cs: seq<Certificate>, timeout: int) returns (events: seq<Event>)
    requires ChainOk(cs, timeout) && timeout >= 2
    ensures Run(NewLeadership(timeout), events) == AtChain(cs, timeout)
    decreases |cs|
  {
    if cs == [] {
      events := [];
    } else {
      var n := |cs| - 1;
      var c := cs[n];
      PrefixOk(cs, timeout);
      var before := ChainIsReached(cs[..n], timeout);
      var at := AtChain(cs[..n], timeout);
      var beat := Heartbeat(at.leader, at.term, at.tick + 1, c.nonce);
      events := before + [beat] + [Receive(c)];
      RunSnoc(NewLeadership(timeout), before, beat);
      RunSnoc(NewLeadership(timeout), before + [beat], Receive(c));
      OneMoreCertificate(cs, timeout);
    }
  }

  lemma RunSnoc(s: Leadership, events: seq<Event>, e: Event)
    ensures Run(s, events + [e]) == Step(Run(s, events), e)
  {
    assert (events + [e])[..|events|] == events;
  }

  lemma PrefixOk(cs: seq<Certificate>, timeout: int)
    requires cs != [] && ChainOk(cs, timeout)
    ensures var n := |cs| - 1;
            && ChainOk(cs[..n], timeout)
            && TickAfter(cs[..n], n) == TickAfter(cs, n) && NonceAfter(cs[..n], n) == NonceAfter(cs, n)
            && CertificateOk(cs[n], n + 1, timeout, TickAfter(cs, n), NonceAfter(cs, n))
  {
    var front := cs[..|cs| - 1];
    forall i | 0 <= i < |front|
      ensures CertificateOk(front[i], i + 1, timeout, TickAfter(front, i), NonceAfter(front, i))
    {
      assert CertificateOk(cs[i], i + 1, timeout, TickAfter(cs, i), NonceAfter(cs, i));
    }
  }

  lemma OneMoreCertificate(cs: seq<Certificate>, timeout: int)
    requires cs != [] && ChainOk(cs, timeout) && timeout >= 2
    ensures var n := |cs| - 1;
            var at := AtChain(cs[..n], timeout);
            Step(Step(at, Heartbeat(at.leader, at.term, at.tick + 1, cs[n].nonce)), Receive(cs[n]))
              == AtChain(cs, timeout)
  {
    var n := |cs| - 1;
    PrefixOk(cs, timeout);
    var at := AtChain(cs[..n], timeout);
    NonNegative(cs[..n], timeout);
    if n > 0 { LastIsNew(cs, timeout); }
    var beat := at.(tick := at.tick + 1, nonce := cs[n].nonce);
    assert Live(beat);
    BeatIff(at, at.leader, at.term, at.tick + 1, cs[n].nonce);
    AdoptIff(beat, cs[n]);
    hide Adopt, Beat, Live, ChainOk, CertificateOk;
    assert cs[..n] + [cs[n]] == cs;
    if n > 0 { assert cs[..n][n - 1] == cs[n - 1]; }
  }

  lemma LastIsNew(cs: seq<Certificate>, timeout: int)
    requires |cs| >= 2 && ChainOk(cs, timeout)
    ensures cs[|cs| - 1] != cs[|cs| - 2]
  {
    var n := |cs| - 1;
    assert CertificateOk(cs[n], n + 1, timeout, TickAfter(cs, n), NonceAfter(cs, n));
    assert CertificateOk(cs[n - 1], n, timeout, TickAfter(cs, n - 1), NonceAfter(cs, n - 1));
  }

  lemma {:induction false} NonNegative(cs: seq<Certificate>, timeout: int)
    requires ChainOk(cs, timeout) && timeout >= 2
    ensures TickAfter(cs, |cs|) >= 0 && NonceAfter(cs, |cs|) >= 0
    decreases |cs|
  {
    if cs != [] {
      PrefixOk(cs, timeout);
      NonNegative(cs[..|cs| - 1], timeout);
      hide ChainOk;
      assert VoteSupports(cs[|cs| - 1].votes[0], cs[|cs| - 1], timeout, TickAfter(cs, |cs| - 1));
    }
  }

  /** The committed position has moved on since; a replica sets it with every entry it commits. */
  function AtPosition(s: Leadership, nonce: int): Leadership {
    s.(nonce := nonce)
  }

  /**
   The from-scratch validator is exact: it accepts precisely the snapshots of the states that
   heartbeats, votes and certificates lead to, with the committed position moved on since.
   */
  lemma AcceptedIffReached(s: LeadershipSnapshot)
    ensures SnapshotOk(s) <==>
              s.timeout >= 2 && s.nonce >= 0
              && exists events :: var t := Run(NewLeadership(s.timeout), events);
                                  t.nonce <= s.nonce && SnapshotOf(AtPosition(t, s.nonce)) == s
  {
    if SnapshotOk(s) {
      var chain := ChainIsReached(s.certificates, s.timeout);
      NonNegative(s.certificates, s.timeout);
      var at := AtChain(s.certificates, s.timeout);
      var beat := Heartbeat(s.leader, s.term, s.tick, s.nonce);
      RunSnoc(NewLeadership(s.timeout), chain, beat);
      BeatIff(at, s.leader, s.term, s.tick, s.nonce);
      hide ChainOk, Beat, Run;
      var events := if s.tick > at.tick then chain + [beat] else chain;
      var t := Run(NewLeadership(s.timeout), events);
      assert t.nonce <= s.nonce && SnapshotOf(AtPosition(t, s.nonce)) == s;
    }
    if s.timeout >= 2 {
      forall events | var t := Run(NewLeadership(s.timeout), events);
                      t.nonce <= s.nonce && SnapshotOf(AtPosition(t, s.nonce)) == s
        ensures SnapshotOk(s)
      {
        LiveStateRestores(s.timeout, events);
        hide Run, ChainOk;
      }
    }
  }
}
