/** Two-thirds quorums: validator membership, joint transitions and three-round finality. */
module Quorum {
  import opened Common

  type Name = string

  /** `(2 * n + 2) // 3`. */
  function QuorumSize(n: nat): nat {
    (2 * n + 2) / 3
  }

  /** The quorum is two thirds of the voters, rounded up. */
  lemma QuorumIsTwoThirds(n: nat)
    ensures 3 * QuorumSize(n) >= 2 * n
    ensures n > 0 ==> 3 * (QuorumSize(n) - 1) < 2 * n
    ensures QuorumSize(n) <= n
  {
  }

  datatype Membership = Membership(epoch: int, validators: seq<Name>)

  function NameSet(names: seq<Name>): set<Name> {
    set name | name in names
  }

  function Members(m: Membership): set<Name> {
    NameSet(m.validators)
  }

  predicate MembershipOk(m: Membership) {
    && m.epoch >= 0 && |m.validators| >= 3
    && (forall i, j :: 0 <= i < j < |m.validators| ==> m.validators[i] != m.validators[j])
    && (forall i :: 0 <= i < |m.validators| ==> m.validators[i] != "")
  }

  predicate Approves(m: Membership, voters: set<Name>) {
    |voters * Members(m)| >= QuorumSize(|m.validators|)
  }

  datatype JointMembership = JointMembership(previous: Membership, candidate: Membership)

  predicate JointOk(j: JointMembership) {
    && MembershipOk(j.previous) && MembershipOk(j.candidate)
    && j.candidate.epoch == j.previous.epoch + 1
    && Members(j.previous) <= Members(j.candidate)
  }

  predicate JointApproves(j: JointMembership, voters: set<Name>) {
    Approves(j.previous, voters) && Approves(j.candidate, voters)
  }

  lemma {:induction false} DistinctCount(names: seq<Name>)
    requires forall i, j :: 0 <= i < j < |names| ==> names[i] != names[j]
    ensures |NameSet(names)| == |names|
  {
    if names == [] {
      assert NameSet(names) == {};
    } else {
      var front, last := names[..|names| - 1], names[|names| - 1];
      DistinctCount(front);
      assert names == front + [last];
      assert NameSet(names) == NameSet(front) + {last};
    }
  }

  /** Two subsets of `all` of at least a quorum each share at least a third, rounded up. */
  lemma QuorumsShareAThird(all: set<Name>, a: set<Name>, b: set<Name>)
    requires a <= all && b <= all
    requires |a| >= QuorumSize(|all|) && |b| >= QuorumSize(|all|)
    ensures 3 * |a * b| >= |all|
  {
    SubsetSize(a + b, all);
    assert |a + b| == |a| + |b| - |a * b|;
  }

  lemma SubsetSize(a: set<Name>, b: set<Name>)
    requires a <= b
    ensures |a| <= |b|
  {
    assert a + (b - a) == b;
  }

  /** Any two approvals of one membership share at least a third of its validators. */
  lemma ApprovalsIntersect(m: Membership, x: set<Name>, y: set<Name>)
    requires MembershipOk(m) && Approves(m, x) && Approves(m, y)
    ensures 3 * |x * y * Members(m)| >= |m.validators|
  {
    DistinctCount(m.validators);
    QuorumsShareAThird(Members(m), x * Members(m), y * Members(m));
    assert (x * Members(m)) * (y * Members(m)) == x * y * Members(m);
  }

  /** Approval means two thirds of the validators, and in a transition two thirds of the old and of the new. */
  lemma ApprovesIff(j: JointMembership, voters: set<Name>)
    ensures Approves(j.previous, voters) <==> 3 * |voters * Members(j.previous)| >= 2 * |j.previous.validators|
    ensures JointApproves(j, voters) <==>
              && 3 * |voters * Members(j.previous)| >= 2 * |j.previous.validators|
              && 3 * |voters * Members(j.candidate)| >= 2 * |j.candidate.validators|
  {
    QuorumIsTwoThirds(|j.previous.validators|);
    QuorumIsTwoThirds(|j.candidate.validators|);
  }

  /** A joint approval meets every old quorum and every new quorum in a third of it. */
  lemma JointIntersectsBoth(j: JointMembership, joint: set<Name>, other: set<Name>)
    requires JointOk(j) && JointApproves(j, joint)
    ensures Approves(j.previous, other) ==> 3 * |joint * other * Members(j.previous)| >= |j.previous.validators|
    ensures Approves(j.candidate, other) ==> 3 * |joint * other * Members(j.candidate)| >= |j.candidate.validators|
  {
    if Approves(j.previous, other) { ApprovalsIntersect(j.previous, joint, other); }
    if Approves(j.candidate, other) { ApprovalsIntersect(j.candidate, joint, other); }
  }
}

/** Certified three-round finality: three successive quorums of the same observers. */
module Finality {
  import opened Common
  import opened Quorum

  const ROUNDS := 3
  const NO_VOTES: map<int, map<Name, FinalityVote>> := map[1 := map[], 2 := map[], 3 := map[]]

  datatype ObserverRole = PrimaryObserver | SecondaryObserver | TertiaryObserver

  datatype Content = Content(observer: Name, role: ObserverRole, branchId: string, digest: string, round: int)

  /** An HMAC by some verification key over the vote's content. */
  datatype Seal = SealedWith(key: string, content: Content) | ForgedSeal(tag: int)

  datatype FinalityVote = FinalityVote(content: Content, seal: Seal)

  datatype State = State(
    branchId: string,
    digest: string,
    observers: map<Name, ObserverRole>,
    round: int,
    votes: map<int, map<Name, FinalityVote>>,
    quarantined: set<Name>,
    finalized: bool)

  /** A refused vote may still quarantine its observer, so the state is always returned. */
  datatype Reply = Reply(state: State, outcome: Outcome<bool>)

  predicate ObserversOk(observers: map<Name, ObserverRole>) {
    |observers| >= 3 && observers.Values == {PrimaryObserver, SecondaryObserver, TertiaryObserver}
  }

  function Fresh(branchId: string, digest: string, observers: map<Name, ObserverRole>): State {
    State(branchId, digest, observers, 1, NO_VOTES, {}, false)
  }

  function NewFinality(branchId: string, digest: string, observers: map<Name, ObserverRole>): Outcome<State> {
    if !ObserversOk(observers) then Err("finality requires Primary, Secondary, and Tertiary observers")
    else Ok(Fresh(branchId, digest, observers))
  }

  /** What a caller presents besides the vote: the certificate's node, the authority's verdict, a key. */
  datatype Credential = Credential(node: Name, valid: bool, key: string)

  function Respond(s: State, v: FinalityVote, c: Credential): Reply {
    if s.finalized then Reply(s, Err("candidate is already final"))
    else if v.content.round != s.round || s.round !in s.votes then
      Reply(s, Err("vote is not for the current finality round"))
    else if v.content.branchId != s.branchId then Reply(s, Err("vote is for a different branch"))
    else if v.content.observer != c.node then Reply(s, Err("vote observer does not match certificate"))
    else if v.content.observer !in s.observers || v.content.role != s.observers[v.content.observer] then
      Reply(s, Err("observer is not assigned to this finality role"))
    else if v.content.digest != s.digest then
      Reply(s.(quarantined := s.quarantined + {v.content.observer}), Err("conflicting candidate vote"))
    else if !c.valid then Reply(s, Err("observer certificate is invalid"))
    else if v.seal != SealedWith(c.key, v.content) then Reply(s, Err("invalid finality vote signature"))
    else
      var current := s.votes[s.round];
      if v.content.observer in current then
        if current[v.content.observer] == v then Reply(s, Ok(s.finalized))
        else
          Reply(s.(quarantined := s.quarantined + {v.content.observer}), Err("observer equivocated in the same round"))
      else
        Reply(Counted(s, v), Ok(Counted(s, v).finalized))
  }

  /** Stores the vote; a full round opens the next one, or finalises. */
  function Counted(s: State, v: FinalityVote): State
    requires s.round in s.votes
  {
    var votes := s.votes[s.round][v.content.observer := v];
    var s' := s.(votes := s.votes[s.round := votes]);
    if |votes| < QuorumSize(|s.observers|) then s'
    else if s.round == ROUNDS then s'.(finalized := true)
    else s'.(round := s.round + 1)
  }

  datatype Call = Call(vote: FinalityVote, credential: Credential)

  function Run(s: State, calls: seq<Call>): State {
    if calls == [] then s
    else
      var before := Run(s, calls[..|calls| - 1]);
      var last := calls[|calls| - 1];
      Respond(before, last.vote, last.credential).state
  }

  /** A stored vote is the observer's own, sealed, for this round, branch and candidate. */
  ghost predicate VoteCounts(s: State, round: int, name: Name, v: FinalityVote) {
    && name in s.observers
    && v.content == Content(name, s.observers[name], s.branchId, s.digest, round)
    && v.seal.SealedWith? && v.seal.content == v.content
  }

  ghost predicate AllSealed(s: State) {
    forall r, name :: r in s.votes && name in s.votes[r] ==> VoteCounts(s, r, name, s.votes[r][name])
  }

  /** Closed rounds hold a quorum, the open one does not yet, later ones are empty. */
  ghost predicate InProgress(s: State) {
    && 1 <= s.round <= ROUNDS
    && s.votes.Keys == {1, 2, 3}
    && (forall r :: 1 <= r < s.round ==> |s.votes[r]| >= QuorumSize(|s.observers|))
    && (forall r :: s.round < r <= ROUNDS ==> s.votes[r] == map[])
    && (s.finalized <==> |s.votes[s.round]| >= QuorumSize(|s.observers|))
    && (s.finalized ==> s.round == ROUNDS)
  }

  ghost predicate Inv(s: State) {
    InProgress(s) && AllSealed(s)
  }

  lemma CountedInProgress(s: State, v: FinalityVote)
    requires InProgress(s) && !s.finalized && s.observers != map[]
    requires v.content.observer !in s.votes[s.round]
    ensures InProgress(Counted(s, v))
  {
    var votes := s.votes[s.round][v.content.observer := v];
    var t := Counted(s, v);
    assert t.votes == s.votes[s.round := votes];
    assert forall r :: r in s.votes && r != s.round ==> t.votes[r] == s.votes[r];
    QuorumIsTwoThirds(|s.observers|);
    assert QuorumSize(|s.observers|) > 0 by { assert |s.observers| > 0; }
    hide QuorumSize;
  }

  lemma CountedSealed(s: State, v: FinalityVote)
    requires AllSealed(s) && s.round in s.votes
    requires VoteCounts(s, s.round, v.content.observer, v)
    ensures AllSealed(Counted(s, v))
  {
    hide QuorumSize;
    var name := v.content.observer;
    var t := Counted(s, v);
    forall r, other | r in t.votes && other in t.votes[r]
      ensures VoteCounts(t, r, other, t.votes[r][other])
    {
      if r == s.round && other == name {
      } else {
        assert r in s.votes && other in s.votes[r] && t.votes[r][other] == s.votes[r][other];
      }
    }
  }

  /** A call either stores one checked vote or changes no more than the quarantine. */
  lemma RespondChanges(s: State, v: FinalityVote, c: Credential)
    ensures var t := Respond(s, v, c).state;
            || t == s.(quarantined := t.quarantined)
            || (&& !s.finalized && s.round in s.votes && v.content.observer !in s.votes[s.round]
                && VoteCounts(s, s.round, v.content.observer, v) && t == Counted(s, v))
    ensures Respond(s, v, c).outcome.Ok? ==> Respond(s, v, c).outcome.value == Respond(s, v, c).state.finalized
  {
    hide Counted;
  }

  /** The vote is the assigned observer's own, sealed and certified, for the open round of this candidate. */
  predicate Acceptable(s: State, v: FinalityVote, c: Credential) {
    && !s.finalized && v.content.observer in s.observers
    && v.content == Content(c.node, s.observers[v.content.observer], s.branchId, s.digest, s.round)
    && c.valid && v.seal == SealedWith(c.key, v.content)
  }

  /**
   A vote is acknowledged exactly if it is acceptable and its observer has cast no other in this
   round; a new one is stored, and when two thirds of the observers have voted the next round
   opens, or after the third the candidate is final. A refusal stores nothing.
   */
  lemma AcknowledgeIff(s: State, v: FinalityVote, c: Credential)
    requires Inv(s)
    ensures var r := Respond(s, v, c);
            var name := v.content.observer;
            var votes := s.votes[s.round];
            && (r.outcome.Ok? <==> Acceptable(s, v, c) && (name in votes ==> votes[name] == v))
            && (r.outcome.Ok? ==> r.outcome.value == r.state.finalized)
            && (r.outcome.Err? || name in votes ==> r.state == s.(quarantined := r.state.quarantined))
            && (r.outcome.Ok? && name !in votes ==>
                  var voted := votes[name := v];
                  var enough := 3 * |voted| >= 2 * |s.observers|;
                  r.state == s.(votes := s.votes[s.round := voted],
                                round := if enough && s.round < 3 then s.round + 1 else s.round,
                                finalized := enough && s.round == 3))
  {
    QuorumIsTwoThirds(|s.observers|);
    hide AllSealed, QuorumSize;
  }

  /** An observer is quarantined exactly for another candidate, or a second vote in the round. */
  lemma QuarantineIff(s: State, v: FinalityVote, c: Credential)
    requires Inv(s)
    ensures var name := v.content.observer;
            var ours := && !s.finalized && name in s.observers && name == c.node
                        && v.content == Content(name, s.observers[name], s.branchId, v.content.digest, s.round);
            Respond(s, v, c).state.quarantined ==
              if ours && v.content.digest != s.digest then s.quarantined + {name}
              else if Acceptable(s, v, c) && name in s.votes[s.round] && s.votes[s.round][name] != v
              then s.quarantined + {name}
              else s.quarantined
  {
    hide AllSealed, QuorumSize;
  }

  lemma AcknowledgeKeeps(s: State, v: FinalityVote, c: Credential)
    requires Inv(s)
    ensures Inv(Respond(s, v, c).state)
    ensures Respond(s, v, c).state.observers == s.observers
    ensures Respond(s, v, c).state.digest == s.digest && Respond(s, v, c).state.branchId == s.branchId
  {
    RespondChanges(s, v, c);
    var t := Respond(s, v, c).state;
    if t == s.(quarantined := t.quarantined) {
      hide Respond, Inv;
      QuarantineKeeps(s, t.quarantined);
    } else {
      assert v.content.observer in s.observers;
      CountedFrame(s, v);
      hide Respond, Counted, VoteCounts, AllSealed, InProgress;
      CountedInProgress(s, v);
      CountedSealed(s, v);
    }
  }

  lemma CountedFrame(s: State, v: FinalityVote)
    requires s.round in s.votes
    ensures Counted(s, v).observers == s.observers && Counted(s, v).digest == s.digest
    ensures Counted(s, v).branchId == s.branchId
  {
  }

  lemma QuarantineKeeps(s: State, names: set<Name>)
    requires Inv(s)
    ensures Inv(s.(quarantined := names))
  {
    var t := s.(quarantined := names);
    hide QuorumSize;
    forall r, name | r in t.votes && name in t.votes[r]
      ensures VoteCounts(t, r, name, t.votes[r][name])
    {
      assert VoteCounts(s, r, name, s.votes[r][name]);
    }
  }

  lemma {:induction false} RunKeeps(start: State, calls: seq<Call>)
    requires Inv(start)
    ensures Inv(Run(start, calls)) && Run(start, calls).observers == start.observers
    ensures Run(start, calls).digest == start.digest && Run(start, calls).branchId == start.branchId
  {
    if calls != [] {
      RunKeeps(start, calls[..|calls| - 1]);
      var last := calls[|calls| - 1];
      AcknowledgeKeeps(Run(start, calls[..|calls| - 1]), last.vote, last.credential);
    }
  }

  lemma FreshInv(branchId: string, digest: string, observers: map<Name, ObserverRole>)
    requires observers != map[]
    ensures Inv(Fresh(branchId, digest, observers))
  {
    var s := Fresh(branchId, digest, observers);
    assert s.votes[1] == map[] && s.votes[2] == map[] && s.votes[3] == map[];
    assert |s.observers| > 0;
    QuorumIsTwoThirds(|s.observers|);
    hide QuorumSize;
    assert AllSealed(s);
  }

  /** The state after a run of acknowledgements on a fresh object is in good order. */
  lemma RunInv(branchId: string, digest: string, observers: map<Name, ObserverRole>, calls: seq<Call>)
    requires ObserversOk(observers)
    ensures Inv(Run(Fresh(branchId, digest, observers), calls))
    ensures Run(Fresh(branchId, digest, observers), calls).observers == observers
    ensures Run(Fresh(branchId, digest, observers), calls).digest == digest
    ensures Run(Fresh(branchId, digest, observers), calls).branchId == branchId
  {
    assert observers != map[];
    FreshInv(branchId, digest, observers);
    hide Inv;
    RunKeeps(Fresh(branchId, digest, observers), calls);
  }

  /** The observers whose acknowledgement of the candidate was counted in round `r`. */
  function Voters(s: State, r: int): set<Name> {
    if r in s.votes then s.votes[r].Keys else {}
  }

  lemma VotersCount(s: State, r: int)
    requires r in s.votes
    ensures |Voters(s, r)| == |s.votes[r]|
  {
    assert Voters(s, r) == s.votes[r].Keys;
  }

  lemma VotersAreObservers(s: State, r: int)
    requires AllSealed(s)
    ensures Voters(s, r) <= s.observers.Keys
  {
    forall name | name in Voters(s, r)
      ensures name in s.observers
    {
      assert VoteCounts(s, r, name, s.votes[r][name]);
    }
  }

  lemma FinalRoundIsQuorum(s: State, r: int)
    requires Inv(s) && s.finalized && 1 <= r <= ROUNDS
    ensures r in s.votes && |Voters(s, r)| >= QuorumSize(|s.observers|)
  {
    hide AllSealed, QuorumSize;
    VotersCount(s, r);
  }

  /** Final means exactly that all three rounds reached the two-thirds quorum. */
  lemma {:induction false} FinalIffThreeQuorums(
    branchId: string, digest: string, observers: map<Name, ObserverRole>, calls: seq<Call>)
    requires ObserversOk(observers)
    ensures var s := Run(Fresh(branchId, digest, observers), calls);
            && (s.finalized <==> forall r :: 1 <= r <= ROUNDS ==> |Voters(s, r)| >= QuorumSize(|observers|))
            && (s.finalized <==> forall r :: 1 <= r <= 3 ==> 3 * |Voters(s, r)| >= 2 * |observers|)
  {
    QuorumIsTwoThirds(|observers|);
    var s := Run(Fresh(branchId, digest, observers), calls);
    RunInv(branchId, digest, observers, calls);
    hide Run, AllSealed, InProgress, QuorumSize, ObserversOk, Voters;
    if s.finalized {
      forall r | 1 <= r <= ROUNDS
        ensures |Voters(s, r)| >= QuorumSize(|observers|)
      {
        FinalRoundIsQuorum(s, r);
      }
    } else {
      OpenRoundLacksQuorum(s);
    }
  }

  lemma OpenRoundLacksQuorum(s: State)
    requires Inv(s) && !s.finalized
    ensures 1 <= s.round <= ROUNDS && |Voters(s, s.round)| < QuorumSize(|s.observers|)
  {
    hide AllSealed, QuorumSize;
    VotersCount(s, s.round);
  }

  /** An observer counted for both candidates in round `r` sealed two different votes there. */
  ghost predicate Equivocated(s1: State, s2: State, r: int, name: Name) {
    && r in s1.votes && name in s1.votes[r] && VoteCounts(s1, r, name, s1.votes[r][name])
    && r in s2.votes && name in s2.votes[r] && VoteCounts(s2, r, name, s2.votes[r][name])
    && s1.votes[r][name] != s2.votes[r][name]
  }

  /**
   Conflicting finality needs equivocation: when two runs over the same observers finalise
   different candidates, in each of the three rounds at least a third of the observers
   sealed a vote for both.
   */
  lemma {:induction false} ConflictNeedsAThird(
    branch1: string, digest1: string, calls1: seq<Call>,
    branch2: string, digest2: string, calls2: seq<Call>,
    observers: map<Name, ObserverRole>, r: int)
    requires ObserversOk(observers) && 1 <= r <= ROUNDS && digest1 != digest2
    requires Run(Fresh(branch1, digest1, observers), calls1).finalized
    requires Run(Fresh(branch2, digest2, observers), calls2).finalized
    ensures var s1 := Run(Fresh(branch1, digest1, observers), calls1);
            var s2 := Run(Fresh(branch2, digest2, observers), calls2);
            && 3 * |Voters(s1, r) * Voters(s2, r)| >= |observers|
            && forall name :: name in Voters(s1, r) * Voters(s2, r) ==> Equivocated(s1, s2, r, name)
  {
    var s1 := Run(Fresh(branch1, digest1, observers), calls1);
    var s2 := Run(Fresh(branch2, digest2, observers), calls2);
    RunInv(branch1, digest1, observers, calls1);
    RunInv(branch2, digest2, observers, calls2);
    hide Run, ObserversOk, InProgress, QuorumSize;
    FinalRoundIsQuorum(s1, r);
    FinalRoundIsQuorum(s2, r);
    VotersAreObservers(s1, r);
    VotersAreObservers(s2, r);
    assert |observers| == |observers.Keys|;
    QuorumsShareAThird(observers.Keys, Voters(s1, r), Voters(s2, r));
    forall name | name in Voters(s1, r) * Voters(s2, r)
      ensures Equivocated(s1, s2, r, name)
    {
    }
  }

  /** The mutable finality object. */
  class ThreeRoundFinality {
    const branchId: string
    const digest: string
    const observers: map<Name, ObserverRole>
    var round: int
    var votes: map<int, map<Name, FinalityVote>>
    var quarantined: set<Name>
    var finalized: bool

    ghost function View(): State
      reads this
    {
      State(branchId, digest, observers, round, votes, quarantined, finalized)
    }

    constructor (branchId: string, digest: string, observers: map<Name, ObserverRole>)
      requires ObserversOk(observers)
      ensures NewFinality(branchId, digest, observers) == Ok(View()) && Inv(View())
    {
      this.branchId := branchId;
      this.digest := digest;
      this.observers := observers;
      round := 1;
      votes := NO_VOTES;
      quarantined := {};
      finalized := false;
      new;
      assert observers != map[];
      FreshInv(branchId, digest, observers);
      hide Inv;
    }

    method Acknowledge(v: FinalityVote, c: Credential) returns (r: Outcome<bool>)
      requires Inv(View())
      modifies this
      ensures Reply(View(), r) == Respond(old(View()), v, c)
      ensures Inv(View())
    {
      ghost var s := View();
      AcknowledgeKeeps(s, v, c);
      assert s.round in s.votes;
      hide Inv, VoteCounts, Run, QuorumSize, Counted;
      if finalized { return Err("candidate is already final"); }
      if v.content.round != round || round !in votes { return Err("vote is not for the current finality round"); }
      if v.content.branchId != branchId { return Err("vote is for a different branch"); }
      var name := v.content.observer;
      if name != c.node { return Err("vote observer does not match certificate"); }
      if name !in observers || v.content.role != observers[name] {
        return Err("observer is not assigned to this finality role");
      }
      if v.content.digest != digest {
        quarantined := quarantined + {name};
        return Err("conflicting candidate vote");
      }
      if !c.valid { return Err("observer certificate is invalid"); }
      if v.seal != SealedWith(c.key, v.content) { return Err("invalid finality vote signature"); }
      var current := votes[round];
      if name in current {
        if current[name] == v { return Ok(finalized); }
        quarantined := quarantined + {name};
        return Err("observer equivocated in the same round");
      }
      Store(v);
      return Ok(finalized);
    }

    /** The last step of `Acknowledge`: keep the vote, then open the next round or finalise. */
    method Store(v: FinalityVote)
      requires round in votes
      modifies this
      ensures View() == Counted(old(View()), v)
    {
      hide QuorumSize;
      votes := votes[round := votes[round][v.content.observer := v]];
      if |votes[round]| >= QuorumSize(|observers|) {
        if round == ROUNDS {
          finalized := true;
        } else {
          round := round + 1;
        }
      }
    }
  }
}
