/**
 The safety argument of the cluster on its durable spine: the three logs and the three
 certificate chains. Terms move in one order only (witness, then candidate, then accused),
 so at most one certificate per term is ever adopted and logs agree up to its position.
 */
module Spine {
  import opened Common
  import opened NodeModel
  import opened NodeInvariants
  import opened Failover

  datatype Line = Line(log: seq<Envelope>, certs: seq<Certificate>)

  datatype Lines = Lines(p: Line, s: Line, t: Line) {
    function Of(r: Role): Line {
      match r
      case Primary => p
      case Secondary => s
      case Tertiary => t
    }

    function With(r: Role, l: Line): (ls: Lines)
      ensures forall q :: ls.Of(q) == if q == r then l else Of(q)
    {
      match r
      case Primary => this.(p := l)
      case Secondary => this.(s := l)
      case Tertiary => this.(t := l)
    }
  }

  function Term(ls: Lines, r: Role): nat { |ls.Of(r).certs| }

  /** The role that is neither the accused leader of term `i` nor its successor. */
  function WitnessAt(i: nat): Role
    requires i < 2
  {
    if i == 0 then Tertiary else Primary
  }

  predicate ChainShape(cs: seq<Certificate>) {
    && |cs| < ROLE_COUNT
    && forall i :: 0 <= i < |cs| ==>
         cs[i].term == i + 1 && cs[i].leader == RoleAt(i + 1) && cs[i].nonce >= 0
         && (i > 0 ==> cs[i - 1].nonce <= cs[i].nonce)
  }

  ghost predicate LineOk(l: Line) {
    && ChainShape(l.certs)
    && LogOk(l.log, l.certs)
    && forall i :: 0 <= i < |l.certs| ==> l.certs[i].nonce <= |l.log|
  }

  /** In each term the witness adopts first, then the candidate, then the accused. */
  predicate Ordered(ls: Lines) {
    && (Term(ls, Secondary) > 0 ==> Term(ls, Tertiary) > 0)
    && (Term(ls, Primary) > 0 ==> Term(ls, Secondary) > 0)
    && (Term(ls, Tertiary) > 1 ==> Term(ls, Primary) > 1)
    && (Term(ls, Secondary) > 1 ==> Term(ls, Tertiary) > 1)
  }

  /** Whoever adopted a term adopted the same certificate, at the same log. */
  ghost predicate Agreed(ls: Lines, r: Role, q: Role, i: nat)
    requires i < |ls.Of(r).certs|
  {
    i < |ls.Of(q).certs| ==>
      var n := ls.Of(r).certs[i].nonce;
      && ls.Of(q).certs[i] == ls.Of(r).certs[i]
      && 0 <= n <= |ls.Of(r).log| && n <= |ls.Of(q).log|
      && ls.Of(r).log[..n] == ls.Of(q).log[..n]
  }

  ghost predicate Crossings(ls: Lines) {
    forall r, q, i :: 0 <= i < |ls.Of(r).certs| ==> Agreed(ls, r, q, i)
  }

  /** Up to any entry, a log is a prefix of the log of the entry's own signer. */
  ghost predicate FollowsSigner(ls: Lines, r: Role, k: nat)
    requires k < |ls.Of(r).log|
  {
    var s := ls.Of(r).log[k].leader;
    k < |ls.Of(s).log| && ls.Of(r).log[..k + 1] == ls.Of(s).log[..k + 1]
  }

  ghost predicate Origin(ls: Lines) {
    forall r, k :: 0 <= k < |ls.Of(r).log| ==> FollowsSigner(ls, r, k)
  }

  /** An adopted certificate never runs ahead of the log of the leader it names. */
  ghost predicate Endorsed(ls: Lines) {
    forall r, i :: 0 <= i < |ls.Of(r).certs| && i < 2 ==> ls.Of(r).certs[i].nonce <= |ls.Of(RoleAt(i + 1)).log|
  }

  ghost predicate LinesOk(ls: Lines) {
    forall r :: LineOk(ls.Of(r))
  }

  ghost predicate SpineOk(ls: Lines) {
    LinesOk(ls) && Ordered(ls) && Crossings(ls) && Origin(ls) && Endorsed(ls)
  }

  ghost predicate Holds(ls: Lines, r: Role, e: Envelope) {
    1 <= e.nonce <= |ls.Of(r).log| && ls.Of(r).log[e.nonce - 1] == e
  }

  lemma EmptySpineOk(ls: Lines)
    requires forall r :: ls.Of(r) == Line([], [])
    ensures SpineOk(ls)
  {
  }

  // ---------------------------------------------------------------- signers

  /** The inferred signer of an entry belongs to term `i` or earlier iff certificate `i` comes after it. */
  lemma {:induction false} SignerIndex(cs: seq<Certificate>, k: int, i: nat)
    requires ChainShape(cs) && i < |cs|
    ensures Index(ExpectedSigner(cs, k)) <= i <==> k < cs[i].nonce
    ensures Index(ExpectedSigner(cs, k)) <= |cs|
  {
    var n := |cs| - 1;
    if n > 0 {
      assert forall j :: 0 <= j < n ==> cs[..n][j] == cs[j];
      if i < n { SignerIndex(cs[..n], k, i); } else { SignerIndex(cs[..n], k, 0); }
    }
  }

  lemma SignerAtMost(cs: seq<Certificate>, k: int)
    requires ChainShape(cs)
    ensures Index(ExpectedSigner(cs, k)) <= |cs|
  {
    if cs != [] { SignerIndex(cs, k, 0); }
  }

  lemma SignerAtEnd(cs: seq<Certificate>, k: int)
    requires ChainShape(cs) && (cs != [] ==> cs[|cs| - 1].nonce <= k)
    ensures ExpectedSigner(cs, k) == RoleAt(|cs|)
  {
  }

  /** Later certificates do not change the signer inferred before their position. */
  lemma {:induction false} SignerStable(cs: seq<Certificate>, i: nat, k: int)
    requires ChainShape(cs) && i <= |cs| && (i < |cs| ==> k < cs[i].nonce)
    ensures ExpectedSigner(cs, k) == ExpectedSigner(cs[..i], k)
    decreases |cs|
  {
    if i < |cs| {
      var n := |cs| - 1;
      assert cs[..n][..i] == cs[..i];
      assert i < n ==> cs[i].nonce <= cs[n].nonce;
      SignerStable(cs[..n], i, k);
    } else {
      assert cs[..i] == cs;
    }
  }

  // ---------------------------------------------------------------- prefixes

  /** Logs whose last common entry has the same signer agree up to it. */
  lemma SameSignerAgrees(ls: Lines, r: Role, q: Role, p: nat)
    requires Origin(ls) && 0 < p <= |ls.Of(r).log| && p <= |ls.Of(q).log|
    requires ls.Of(r).log[p - 1].leader == ls.Of(q).log[p - 1].leader
    ensures ls.Of(r).log[..p] == ls.Of(q).log[..p]
  {
    assert FollowsSigner(ls, r, p - 1) && FollowsSigner(ls, q, p - 1);
  }

  /** Two nodes that share their first `i` certificates agree below certificate `i`. */
  lemma AgreeBelow(ls: Lines, r: Role, q: Role, i: nat, p: nat)
    requires LineOk(ls.Of(r)) && LineOk(ls.Of(q)) && Origin(ls)
    requires i <= |ls.Of(r).certs| && i <= |ls.Of(q).certs| && ls.Of(r).certs[..i] == ls.Of(q).certs[..i]
    requires i < |ls.Of(r).certs| ==> p <= ls.Of(r).certs[i].nonce
    requires i < |ls.Of(q).certs| ==> p <= ls.Of(q).certs[i].nonce
    requires p <= |ls.Of(r).log| && p <= |ls.Of(q).log|
    ensures ls.Of(r).log[..p] == ls.Of(q).log[..p]
  {
    if p > 0 {
      SignerStable(ls.Of(r).certs, i, p - 1);
      SignerStable(ls.Of(q).certs, i, p - 1);
      SameSignerAgrees(ls, r, q, p);
    }
  }

  /** Common terms mean common certificates. */
  lemma CommonChain(ls: Lines, r: Role, q: Role, i: nat)
    requires Crossings(ls) && i <= Term(ls, r) && i <= Term(ls, q)
    ensures ls.Of(r).certs[..i] == ls.Of(q).certs[..i]
  {
    forall j | 0 <= j < i
      ensures ls.Of(r).certs[j] == ls.Of(q).certs[j]
    {
      assert Agreed(ls, r, q, j);
    }
  }

  /** A leader that has not adopted its own term yet is exactly one term behind its witness. */
  lemma LaggingLeader(ls: Lines, r: Role)
    requires LinesOk(ls) && Ordered(ls) && Endorsed(ls)
    requires 0 < Term(ls, r) < ROLE_COUNT && Term(ls, RoleAt(Term(ls, r))) < Term(ls, r)
    ensures Term(ls, RoleAt(Term(ls, r))) == Term(ls, r) - 1
    ensures ls.Of(r).certs[Term(ls, r) - 1].nonce <= |ls.Of(RoleAt(Term(ls, r))).log|
  {
    assert LineOk(ls.p) && LineOk(ls.s) && LineOk(ls.t);
    assert ls.Of(r) == ls.p || ls.Of(r) == ls.s || ls.Of(r) == ls.t;
  }

  /** A log that stops at its last certificate agrees with the certified leader's log. */
  lemma FollowsLeaderAtCrossing(ls: Lines, r: Role)
    requires SpineOk(ls)
    requires 0 < Term(ls, r) < ROLE_COUNT && |ls.Of(r).log| == ls.Of(r).certs[Term(ls, r) - 1].nonce
    ensures ls.Of(r).log <= ls.Of(RoleAt(Term(ls, r))).log
  {
    var t, n := Term(ls, r), |ls.Of(r).log|;
    var leader := RoleAt(t);
    assert LineOk(ls.Of(r)) && LineOk(ls.Of(leader));
    assert ls.Of(r).log[..n] == ls.Of(r).log;
    if Term(ls, leader) >= t {
      hide LinesOk, Ordered, Endorsed, Origin, LineOk;
      assert Agreed(ls, r, leader, t - 1);
    } else {
      LaggingLeader(ls, r);
      hide LinesOk, Ordered, Endorsed;
      CommonChain(ls, r, leader, t - 1);
      hide Crossings, LogOk, ChainShape, FollowsSigner;
      AgreeBelow(ls, r, leader, t - 1, n);
    }
  }

  /** A log that goes beyond its last certificate ends with an entry of its term's leader. */
  lemma FollowsLeaderInTerm(ls: Lines, r: Role)
    requires LineOk(ls.Of(r)) && Origin(ls) && ls.Of(r).log != []
    requires Term(ls, r) > 0 ==> ls.Of(r).certs[Term(ls, r) - 1].nonce < |ls.Of(r).log|
    ensures ls.Of(r).log <= ls.Of(RoleAt(Term(ls, r))).log
  {
    var l := ls.Of(r);
    var n := |l.log|;
    SignerAtEnd(l.certs, n - 1);
    assert l.log[n - 1].leader == RoleAt(|l.certs|);
    assert FollowsSigner(ls, r, n - 1);
    assert l.log[..n] == l.log;
  }

  /** A log is a prefix of the log of its own term's leader. */
  lemma FollowsLeader(ls: Lines, r: Role)
    requires SpineOk(ls)
    ensures Term(ls, r) < ROLE_COUNT
    ensures ls.Of(r).log <= ls.Of(RoleAt(Term(ls, r))).log
  {
    var t, l := Term(ls, r), ls.Of(r);
    assert LineOk(l);
    assert t < ROLE_COUNT && (t > 0 ==> l.certs[t - 1].nonce <= |l.log|);
    hide LinesOk, Ordered, Crossings, Origin, Endorsed, LineOk, ChainShape, LogOk;
    if t > 0 && l.certs[t - 1].nonce == |l.log| {
      FollowsLeaderAtCrossing(ls, r);
    } else if l.log != [] {
      FollowsLeaderInTerm(ls, r);
    }
  }

  // ---------------------------------------------------------------- the two ways the spine grows

  /** The signer of an entry in its own log has adopted its own term. */
  lemma SignerAdopted(ls: Lines, e: Envelope)
    requires LinesOk(ls) && Holds(ls, e.leader, e)
    ensures Term(ls, e.leader) >= Index(e.leader)
  {
    assert LineOk(ls.Of(e.leader));
    SignerAtMost(ls.Of(e.leader).certs, e.nonce - 1);
  }

  ghost predicate MayAppend(ls: Lines, r: Role, e: Envelope) {
    && Term(ls, r) < ROLE_COUNT && e.leader == RoleAt(Term(ls, r))
    && e.nonce == |ls.Of(r).log| + 1 && Genuine(e)
    && (r == e.leader || Holds(ls, e.leader, e))
  }

  function Appended(ls: Lines, r: Role, e: Envelope): Lines {
    ls.With(r, Line(ls.Of(r).log + [e], ls.Of(r).certs))
  }

  lemma LineGrows(l: Line, e: Envelope)
    requires LineOk(l) && e.nonce == |l.log| + 1 && Genuine(e) && e.leader == RoleAt(|l.certs|)
    ensures LineOk(Line(l.log + [e], l.certs))
  {
    SignerAtEnd(l.certs, |l.log|);
    hide ExpectedSigner, ChainShape, Genuine;
    LogGrows(l.log, l.certs, e);
    hide LogOk;
  }

  lemma AppendedLine(ls: Lines, r: Role, e: Envelope)
    requires SpineOk(ls) && MayAppend(ls, r, e)
    ensures LinesOk(Appended(ls, r, e))
  {
    assert LineOk(ls.Of(r));
    hide Crossings, Ordered, Origin, Endorsed;
    LineGrows(ls.Of(r), e);
    hide LineOk, MayAppend;
    forall q
      ensures LineOk(Appended(ls, r, e).Of(q))
    {
      assert LineOk(ls.Of(q));
    }
  }

  /** Extending one log keeps every earlier agreement. */
  lemma AppendedAgreements(ls: Lines, r: Role, e: Envelope)
    requires Crossings(ls) && Endorsed(ls) && Ordered(ls)
    ensures Crossings(Appended(ls, r, e)) && Endorsed(Appended(ls, r, e)) && Ordered(Appended(ls, r, e))
  {
    var ls' := Appended(ls, r, e);
    assert forall q :: ls'.Of(q).certs == ls.Of(q).certs && |ls.Of(q).log| <= |ls'.Of(q).log|;
    forall a, b, i | 0 <= i < |ls'.Of(a).certs|
      ensures Agreed(ls', a, b, i)
    {
      hide Endorsed;
      assert Agreed(ls, a, b, i);
    }
  }

  /** The new entry extends a prefix of its signer's log by that log's next entry. */
  lemma AppendedOrigin(ls: Lines, r: Role, e: Envelope)
    requires Origin(ls) && MayAppend(ls, r, e) && ls.Of(r).log <= ls.Of(e.leader).log
    ensures Origin(Appended(ls, r, e))
  {
    var ls' := Appended(ls, r, e);
    var n := |ls.Of(r).log|;
    assert forall q :: ls.Of(q).log <= ls'.Of(q).log;
    forall q, k | 0 <= k < |ls'.Of(q).log|
      ensures FollowsSigner(ls', q, k)
    {
      if k < |ls.Of(q).log| {
        assert FollowsSigner(ls, q, k);
        var s := ls.Of(q).log[k].leader;
        assert ls'.Of(q).log[..k + 1] == ls.Of(q).log[..k + 1];
        assert ls'.Of(s).log[..k + 1] == ls.Of(s).log[..k + 1];
      } else if r != e.leader {
        assert ls.Of(e.leader).log[..n + 1] == ls.Of(r).log + [e];
      }
    }
  }

  lemma AppendKeepsSpine(ls: Lines, r: Role, e: Envelope)
    requires SpineOk(ls) && MayAppend(ls, r, e)
    ensures SpineOk(Appended(ls, r, e))
  {
    hide LinesOk, Crossings, Endorsed, Ordered, Origin;
    AppendedLine(ls, r, e);
    AppendedAgreements(ls, r, e);
    FollowsLeader(ls, r);
    AppendedOrigin(ls, r, e);
  }

  /** `r` may adopt `c`: it is the witness, or the role before it in the order already has. */
  ghost predicate MayAdopt(ls: Lines, r: Role, c: Certificate) {
    var i := Term(ls, r);
    && i < 2 && c.term == i + 1 && c.leader == RoleAt(i + 1)
    && c.nonce == |ls.Of(r).log| && c.nonce <= |ls.Of(c.leader).log|
    && (|| r == WitnessAt(i)
        || (r == RoleAt(i + 1) && Term(ls, WitnessAt(i)) > i && ls.Of(WitnessAt(i)).certs[i] == c)
        || (r == RoleAt(i) && Term(ls, RoleAt(i + 1)) > i && ls.Of(RoleAt(i + 1)).certs[i] == c))
  }

  function AdoptedLines(ls: Lines, r: Role, c: Certificate): Lines {
    ls.With(r, Line(ls.Of(r).log, ls.Of(r).certs + [c]))
  }

  lemma AdoptedLine(l: Line, c: Certificate)
    requires LineOk(l) && |l.certs| + 1 < ROLE_COUNT
    requires c.term == |l.certs| + 1 && c.leader == RoleAt(|l.certs| + 1) && c.nonce == |l.log|
    ensures LineOk(Line(l.log, l.certs + [c]))
  {
    LogAcceptsCertificate(l.log, l.certs, c);
  }

  /** Everyone already in the new term adopted the very certificate `r` is adopting. */
  lemma EarlierAdopters(ls: Lines, r: Role, c: Certificate, q: Role)
    requires LinesOk(ls) && Crossings(ls) && Ordered(ls) && MayAdopt(ls, r, c) && Term(ls, q) > Term(ls, r)
    ensures ls.Of(q).certs[Term(ls, r)] == c
  {
    var i := Term(ls, r);
    assert LineOk(ls.p) && LineOk(ls.s) && LineOk(ls.t);
    assert r != WitnessAt(i);
    var first := if r == RoleAt(i + 1) then WitnessAt(i) else RoleAt(i + 1);
    assert Agreed(ls, first, q, i);
  }

  lemma AdoptKeepsOrder(ls: Lines, r: Role, c: Certificate)
    requires LinesOk(ls) && Ordered(ls) && MayAdopt(ls, r, c)
    ensures Ordered(AdoptedLines(ls, r, c)) && LinesOk(AdoptedLines(ls, r, c))
  {
    var ls' := AdoptedLines(ls, r, c);
    assert LineOk(ls.p) && LineOk(ls.s) && LineOk(ls.t);
    AdoptedLine(ls.Of(r), c);
    assert Term(ls', r) == Term(ls, r) + 1;
    forall q
      ensures LineOk(ls'.Of(q))
    {
      assert LineOk(ls.Of(q));
    }
    match r
    case Primary => assert Term(ls', Secondary) == Term(ls, Secondary) && Term(ls', Tertiary) == Term(ls, Tertiary);
    case Secondary => assert Term(ls', Primary) == Term(ls, Primary) && Term(ls', Tertiary) == Term(ls, Tertiary);
    case Tertiary => assert Term(ls', Primary) == Term(ls, Primary) && Term(ls', Secondary) == Term(ls, Secondary);
  }

  /** The adopter agrees with everyone who is already in the term. */
  lemma AdopterAgrees(ls: Lines, r: Role, c: Certificate, q: Role)
    requires SpineOk(ls) && MayAdopt(ls, r, c) && Term(ls, q) > Term(ls, r)
    ensures ls.Of(q).certs[Term(ls, r)] == c && c.nonce <= |ls.Of(q).log|
    ensures ls.Of(q).log[..c.nonce] == ls.Of(r).log[..c.nonce]
  {
    var i := Term(ls, r);
    EarlierAdopters(ls, r, c, q);
    assert LineOk(ls.Of(q)) && LineOk(ls.Of(r));
    CommonChain(ls, r, q, i);
    assert ls.Of(r).certs[..i] == ls.Of(r).certs;
    hide LinesOk, Crossings, Endorsed, Ordered;
    AgreeBelow(ls, r, q, i, c.nonce);
  }

  lemma AdoptKeepsCrossings(ls: Lines, r: Role, c: Certificate)
    requires SpineOk(ls) && MayAdopt(ls, r, c)
    ensures Crossings(AdoptedLines(ls, r, c))
  {
    var ls' := AdoptedLines(ls, r, c);
    forall a, b, j | 0 <= j < |ls'.Of(a).certs|
      ensures Agreed(ls', a, b, j)
    {
      AdoptedAgreement(ls, r, c, a, b, j);
    }
  }

  /** Adopting changes nothing about certificates both nodes already had. */
  lemma OldAgreement(ls: Lines, r: Role, c: Certificate, a: Role, b: Role, j: nat)
    requires Crossings(ls) && j < |ls.Of(a).certs| && j < |ls.Of(b).certs|
    ensures j < |AdoptedLines(ls, r, c).Of(a).certs| && Agreed(AdoptedLines(ls, r, c), a, b, j)
  {
    var ls' := AdoptedLines(ls, r, c);
    assert Agreed(ls, a, b, j);
    assert ls'.Of(a).log == ls.Of(a).log && ls'.Of(b).log == ls.Of(b).log;
    assert ls'.Of(a).certs[j] == ls.Of(a).certs[j] && ls'.Of(b).certs[j] == ls.Of(b).certs[j];
  }

  /** The adopter's new certificate, compared with a node that had it already. */
  lemma NewAgreement(ls: Lines, r: Role, c: Certificate, q: Role)
    requires SpineOk(ls) && MayAdopt(ls, r, c) && q != r && Term(ls, q) > Term(ls, r)
    ensures var ls', i := AdoptedLines(ls, r, c), Term(ls, r);
            i < |ls'.Of(r).certs| && i < |ls'.Of(q).certs| && Agreed(ls', r, q, i) && Agreed(ls', q, r, i)
  {
    AdopterAgrees(ls, r, c, q);
    assert c.nonce >= 0 && c.nonce == |ls.Of(r).log| by { assert LineOk(ls.Of(r)); }
    var ls' := AdoptedLines(ls, r, c);
    assert ls'.Of(r).log == ls.Of(r).log && ls'.Of(q) == ls.Of(q);
    assert ls'.Of(r).certs[Term(ls, r)] == c;
    hide SpineOk, MayAdopt;
  }

  lemma SelfAgreement(ls: Lines, r: Role, i: nat)
    requires LineOk(ls.Of(r)) && i < |ls.Of(r).certs|
    ensures Agreed(ls, r, r, i)
  {
  }

  lemma AdoptedAgreement(ls: Lines, r: Role, c: Certificate, a: Role, b: Role, j: nat)
    requires SpineOk(ls) && MayAdopt(ls, r, c) && j < |AdoptedLines(ls, r, c).Of(a).certs|
    ensures Agreed(AdoptedLines(ls, r, c), a, b, j)
  {
    var ls' := AdoptedLines(ls, r, c);
    if j >= |ls'.Of(b).certs| {
      hide SpineOk, MayAdopt, AdoptedLines;
    } else if j < |ls.Of(a).certs| && j < |ls.Of(b).certs| {
      assert Crossings(ls);
      hide SpineOk, MayAdopt, Agreed, AdoptedLines;
      OldAgreement(ls, r, c, a, b, j);
    } else if a == b {
      AdoptKeepsOrder(ls, r, c);
      assert LineOk(ls'.Of(a));
      hide SpineOk, MayAdopt, Agreed, AdoptedLines, LineOk;
      SelfAgreement(ls', a, j);
    } else {
      var q := if a == r then b else a;
      CertCounts(ls, r, c, a);
      CertCounts(ls, r, c, b);
      hide SpineOk, MayAdopt, Agreed, AdoptedLines;
      NewAgreement(ls, r, c, q);
    }
  }

  lemma CertCounts(ls: Lines, r: Role, c: Certificate, q: Role)
    ensures |AdoptedLines(ls, r, c).Of(q).certs| == |ls.Of(q).certs| + if q == r then 1 else 0
  {
  }

  lemma AdoptKeepsOrigin(ls: Lines, r: Role, c: Certificate)
    requires Origin(ls)
    ensures Origin(AdoptedLines(ls, r, c))
  {
    var ls' := AdoptedLines(ls, r, c);
    assert forall q :: ls'.Of(q).log == ls.Of(q).log;
    forall q, k | 0 <= k < |ls'.Of(q).log|
      ensures FollowsSigner(ls', q, k)
    {
      assert FollowsSigner(ls, q, k);
    }
  }

  lemma AdoptKeepsEndorsed(ls: Lines, r: Role, c: Certificate)
    requires Endorsed(ls) && MayAdopt(ls, r, c)
    ensures Endorsed(AdoptedLines(ls, r, c))
  {
    var ls' := AdoptedLines(ls, r, c);
    assert forall q :: ls'.Of(q).log == ls.Of(q).log;
  }

  lemma AdoptKeepsSpine(ls: Lines, r: Role, c: Certificate)
    requires SpineOk(ls) && MayAdopt(ls, r, c)
    ensures SpineOk(AdoptedLines(ls, r, c))
  {
    AdoptKeepsOrder(ls, r, c);
    AdoptKeepsCrossings(ls, r, c);
    AdoptKeepsOrigin(ls, r, c);
    AdoptKeepsEndorsed(ls, r, c);
    hide LinesOk, Crossings, Ordered, Endorsed, Origin;
  }

  // ---------------------------------------------------------------- consequences

  /** Once the leader of a later term has taken office, every role but the old leader has crossed. */
  lemma AllCrossed(ls: Lines, former: Role, leader: Role, r: Role)
    requires LinesOk(ls) && Ordered(ls) && Term(ls, leader) >= Index(leader) > Index(former) && r != former
    ensures Term(ls, r) > Index(former)
  {
    assert LineOk(ls.p) && LineOk(ls.s) && LineOk(ls.t);
  }

  /** A fenced leader is the last to leave its term. */
  lemma FencedLast(ls: Lines, r: Role, q: Role)
    requires LinesOk(ls) && Ordered(ls) && Term(ls, r) > Index(r)
    ensures Term(ls, q) > Index(r)
  {
    assert LineOk(ls.p) && LineOk(ls.s) && LineOk(ls.t);
  }

  /** An entry that precedes a crossing is at the same index in every log that crossed. */
  lemma CrossedTogether(ls: Lines, r: Role, q: Role, i: nat, e: Envelope)
    requires LineOk(ls.Of(r)) && Crossings(ls) && Holds(ls, r, e)
    requires Index(e.leader) == i < Term(ls, r) && i < Term(ls, q)
    ensures Holds(ls, q, e)
  {
    SignerIndex(ls.Of(r).certs, e.nonce - 1, i);
    assert Agreed(ls, r, q, i);
    var n := ls.Of(r).certs[i].nonce;
    assert ls.Of(r).log[..n][e.nonce - 1] == e;
    assert ls.Of(q).log[..n][e.nonce - 1] == e;
  }

  /**
   Two copies are enough: an entry in its signer's log and in one replica's log is in the
   log of every role that has ever been certified for the same or a later term.
   */
  lemma TwoCopiesSurvive(ls: Lines, e: Envelope, replica: Role, leader: Role)
    requires SpineOk(ls)
    requires replica != e.leader && Holds(ls, e.leader, e) && Holds(ls, replica, e)
    requires Term(ls, leader) >= Index(leader) >= Index(e.leader)
    ensures Holds(ls, leader, e)
  {
    if leader != e.leader {
      AllCrossed(ls, e.leader, leader, replica);
      assert LineOk(ls.Of(replica));
      hide LinesOk, Ordered, Origin, Endorsed, LineOk, Crossings;
      CrossedTogether(ls, replica, leader, Index(e.leader), e);
    }
  }
}
