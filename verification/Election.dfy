/** Whom a successor must ask for a vote, and when that vote elects it. */
module Election {
  import opened Common
  import opened LedgerModel
  import opened NodeModel
  import Failover

  /** The successor of a leader that has been silent for long enough, by its own clock. */
  predicate SeesSilence(n: Node, tick: int) {
    Failover.Successor(n.lead.leader) == Some(n.role) && tick - n.lead.tick >= n.lead.timeout
  }

  /** The role that is neither the leader's nor this node's. */
  predicate ThirdRole(n: Node, role: Role) {
    role != n.role && role != n.lead.leader && n.role != n.lead.leader
  }

  /** `w` stands where the valid node `n` stands, with nothing prepared; their silences may differ. */
  predicate CleanMatch(n: Node, w: Node) {
    && Failover.SnapshotOk(Failover.SnapshotOf(n.lead)) && n.lead.nonce == Position(n.positions)
    && w.lead.timeout == n.lead.timeout && w.lead.term == n.lead.term && w.lead.leader == n.lead.leader
    && w.lead.nonce == n.lead.nonce && w.lead.certificates == n.lead.certificates
    && Position(w.positions) == Position(n.positions) && |w.log| == Position(w.positions)
    && w.pending.None? && w.core.ledger == n.core.ledger
  }

  /** `w` answers the vote that `n` signs, the two votes certify `n`, and both nodes take the certificate. */
  predicate Elects(n: Node, w: Node, tick: int, now: int) {
    var answer := TimeoutVote(w, OwnVote(n, tick), n.core.ledger, now);
    && answer.Ok?
    && var c := CompleteCertificate(n.lead, OwnVote(n, tick), answer.value);
    && c.Some? && c.value.leader == n.role && c.value.term == n.lead.term + 1
    && Leads(RecordCertificate(n, c.value), n.role, n.lead.term + 1)
    && Leads(RecordCertificate(w, c.value), n.role, n.lead.term + 1)
  }

  predicate Leads(r: Outcome<Node>, role: Role, term: int) {
    r.Ok? && r.value.lead.leader == role && r.value.lead.term == term && r.value.pending.None?
  }

  lemma CompletedIsTaken(n: Node, s: Failover.Leadership, v: Failover.Vote)
    requires Failover.Live(s) && Failover.Submit(s, v).Ok? && Failover.Submit(s, v).value.certificate.Some?
    requires Failover.Successor(s.leader) == Some(v.ballot.candidate)
    requires n.lead.certificates == s.certificates && n.lead.timeout == s.timeout && n.lead.nonce == s.nonce
    requires n.lead.term == s.term && n.lead.leader == s.leader && n.lead.nonce == Position(n.positions)
    ensures var c := Failover.Submit(s, v).value.certificate.value;
            Leads(RecordCertificate(n, c), v.ballot.candidate, s.term + 1)
  {
    Failover.PeersConverge(s, v, n.lead);
    var c := Failover.Submit(s, v).value.certificate.value;
    assert c !in n.lead.certificates by {
      Failover.CertificateIsNew(s, v);
    }
    hide Failover.Submit, Failover.Live, Failover.FromSnapshot, Position;
  }

  /** A vote that can be cast on a restored copy, and a second one that completes it. */
  lemma TwoVotesComplete(lead: Failover.Leadership, own: Failover.Vote, other: Failover.Vote)
    requires Failover.SnapshotOk(Failover.SnapshotOf(lead))
    requires own.ballot.voter != other.ballot.voter && own.ballot.tick == other.ballot.tick
    requires Failover.VotePending(lead, own) && Failover.VotePending(lead, other)
    ensures CompleteCertificate(lead, own, other).Some?
    ensures var s := lead.(votes := [own]);
            && Failover.Live(s) && Failover.Submit(s, other).Ok?
            && Failover.Submit(s, other).value.certificate == CompleteCertificate(lead, own, other)
            && CompleteCertificate(lead, own, other).value.leader == own.ballot.candidate
            && CompleteCertificate(lead, own, other).value.term == lead.term + 1
  {
    var trial := lead.(votes := []);
    assert Failover.FromSnapshot(Failover.SnapshotOf(lead)) == Ok(trial);
    assert Failover.VoteOf([], own.ballot.voter) == [] && [] + [own] == [own];
    assert Failover.Submit(trial, own) == Ok(Failover.Submission(lead.(votes := [own]), None));
    assert Failover.VoteOf([own], other.ballot.voter) == [] by {
      assert [own][1..] == [];
    }
    assert [own] + [other] == [own, other];
  }

  lemma ElectionHappens(n: Node, w: Node, tick: int, now: int)
    requires CleanMatch(n, w) && SeesSilence(n, tick) && ThirdRole(n, w.role)
    requires tick - w.lead.tick >= w.lead.timeout && -1 <= tick - now <= 1
    ensures Elects(n, w, tick, now)
  {
    var own := OwnVote(n, tick);
    hide Position, Failover.Live, Failover.SnapshotOk;
    var answer := TimeoutVote(w, own, n.core.ledger, now);
    assert answer == Ok(Failover.SignVote(own.ballot.(voter := w.role)));
    hide TimeoutVote;
    TwoVotesComplete(n.lead, own, answer.value);
    hide CompleteCertificate, Failover.Submit;
    var s := n.lead.(votes := [own]);
    CompletedIsTaken(n, s, answer.value);
    CompletedIsTaken(w, s, answer.value);
  }

  lemma ElectionNeeds(n: Node, w: Node, tick: int, now: int)
    requires CleanMatch(n, w)
    requires var answer := TimeoutVote(w, OwnVote(n, tick), n.core.ledger, now);
             answer.Ok? && CompleteCertificate(n.lead, OwnVote(n, tick), answer.value).Some?
    ensures SeesSilence(n, tick) && ThirdRole(n, w.role)
    ensures tick - w.lead.tick >= w.lead.timeout && -1 <= tick - now <= 1
  {
    hide Position, Failover.SnapshotOk;
    assert Failover.FromSnapshot(Failover.SnapshotOf(n.lead)).Ok?;
    assert Failover.Submit(n.lead.(votes := []), OwnVote(n, tick)).Ok?;
  }

  /**
   Between two nodes at the same clean position the election goes through if and only if the
   candidate is the successor, the other node is the third role, both have missed the leader
   for the timeout, and their clocks agree to within a tick.
   */
  lemma ElectsIff(n: Node, w: Node, tick: int, now: int)
    requires CleanMatch(n, w)
    ensures Elects(n, w, tick, now) <==>
              && SeesSilence(n, tick) && ThirdRole(n, w.role)
              && tick - w.lead.tick >= w.lead.timeout && -1 <= tick - now <= 1
  {
    hide CleanMatch, SeesSilence, CompleteCertificate, TimeoutVote, OwnVote, Leads;
    if Elects(n, w, tick, now) {
      ElectionNeeds(n, w, tick, now);
    } else if SeesSilence(n, tick) && ThirdRole(n, w.role)
              && tick - w.lead.tick >= w.lead.timeout && -1 <= tick - now <= 1 {
      ElectionHappens(n, w, tick, now);
    }
  }
}
