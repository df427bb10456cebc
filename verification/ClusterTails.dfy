/** What becomes of entries that were committed locally but never confirmed. */
module ClusterTails {
  import opened Common
  import opened NodeModel
  import opened NodeInvariants
  import opened Failover
  import opened Spine
  import opened Cluster
  import opened ClusterSafety
  import opened ClusterTheorems

  /** An entry that a later leader lacks was never copied from its signer's log. */
  lemma MissingMeansOneCopy(ls: Lines, e: Envelope, leader: Role, q: Role)
    requires SpineOk(ls) && Holds(ls, e.leader, e) && !Holds(ls, leader, e)
    requires Term(ls, leader) >= Index(leader) >= Index(e.leader)
    ensures q != e.leader ==> !Holds(ls, q, e)
  {
    if q != e.leader && Holds(ls, q, e) {
      TwoCopiesSurvive(ls, e, q, leader);
    }
  }

  /** A signer that has left its own term shares its entries with everyone who crossed after it. */
  lemma FencedSignerShared(ls: Lines, e: Envelope, q: Role)
    requires SpineOk(ls) && Holds(ls, e.leader, e) && Term(ls, e.leader) > Index(e.leader)
    ensures Holds(ls, q, e)
  {
    var l, i := ls.Of(e.leader), Index(e.leader);
    assert LineOk(l);
    FencedLast(ls, e.leader, q);
    hide LinesOk, Ordered, Origin, Endorsed, LineOk, Crossings;
    CrossedTogether(ls, e.leader, q, i, e);
  }

  lemma StaleTail(ls: Lines, e: Envelope, leader: Role)
    requires SpineOk(ls) && Holds(ls, e.leader, e) && !Holds(ls, leader, e)
    requires Term(ls, leader) >= Index(leader) >= Index(e.leader)
    ensures Term(ls, e.leader) == Index(e.leader) < Index(leader)
  {
    SignerAdopted(ls, e);
    if Term(ls, e.leader) > Index(e.leader) {
      FencedSignerShared(ls, e, leader);
    }
    assert RoleAt(Index(leader)) == leader && RoleAt(Index(e.leader)) == e.leader;
  }

  /**
   The only entries a change of leader can drop are the unconfirmed tail of a stale leader:
   if any log holds an entry that a node certified for the same or a later term does not
   have at its index, then that log is its signer's, no other log holds the entry, and its
   signer has not yet learnt that it was replaced.
   */
  lemma {:induction false} DroppedEntriesAreStaleTails(cfg: Config, steps: seq<Step>, r: Role, k: nat, leader: Role)
    requires ConfigOk(cfg) && k < |Execution(cfg, steps).At(r).node.log|
    requires var c := Execution(cfg, steps);
             var e := c.At(r).node.log[k];
             && |c.At(leader).node.lead.certificates| >= Index(leader) >= Index(e.leader)
             && (k < |c.At(leader).node.log| ==> c.At(leader).node.log[k] != e)
    ensures var c := Execution(cfg, steps);
            var e := c.At(r).node.log[k];
            && r == e.leader && Index(e.leader) < Index(leader)
            && c.At(r).node.lead.leader == r
            && forall q :: q != e.leader ==> e !in c.At(q).node.log
  {
    hide Execution, ClusterOk, NodeOk, SpineOk, ConfigOk;
    var c := Execution(cfg, steps);
    var e := c.At(r).node.log[k];
    RunIsOk(cfg, steps);
    OwnEntry(cfg, c, r, k);
    MemberIs(cfg, c, leader);
    MemberIs(cfg, c, e.leader);
    PositionIsLength(cfg, c, e.leader);
    hide LineOk;
    var ls := SpineOf(c);
    assert !Holds(ls, leader, e);
    StaleTail(ls, e, leader);
    MissingMeansOneCopy(ls, e, leader, r);
    forall q | q != e.leader
      ensures e !in c.At(q).node.log
    {
      MissingMeansOneCopy(ls, e, leader, q);
      NotHeldIsNotLogged(cfg, c, q, e);
    }
  }

  lemma NotHeldIsNotLogged(cfg: Config, c: Cluster, q: Role, e: Envelope)
    requires ClusterOk(cfg, c) && !Holds(SpineOf(c), q, e)
    ensures e !in c.At(q).node.log
  {
    hide ClusterOk, NodeOk, SpineOk;
    forall k | 0 <= k < |c.At(q).node.log|
      ensures c.At(q).node.log[k] != e
    {
      OwnEntry(cfg, c, q, k);
    }
  }
}
