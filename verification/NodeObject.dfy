/** The mutable replica: its handlers, proved against the step functions of the cluster. */
module NodeObject {
  import opened Common
  import opened LedgerModel
  import opened LedgerInvariants
  import opened LedgerTheorems
  import opened NodeModel
  import opened NodeInvariants
  import opened Election
  import opened LedgerObject
  import opened LeadershipObject
  import Restore
  import Failover

  /** A sound core's ledger settles without missing keys, and its snapshot restores to itself. */
  lemma SoundLedger(cfg: Config, core: Core)
    requires ConfigOk(cfg) && CoreOk(cfg, core)
    ensures Settleable(core.ledger)
    ensures var s := Restore.SnapshotOf(core.ledger);
            Restore.FromSnapshot(s, None).Ok? ==> Restore.FromSnapshot(s, None) == Ok(core.ledger)
  {
    WellFormedSettles(core.ledger);
    Restore.RestoreExact(core.ledger, StartBalances(cfg));
  }

  class ReferenceNode {
    const cfg: Config
    const role: Role
    var ledger: Ledger
    var leadership: LeadershipState
    var replay: map<Account, int>
    var log: seq<Envelope>
    var pending: Option<Envelope>
    var positions: map<Role, int>
    var disk: Option<Record>

    ghost function CoreView(): Core
      reads this, ledger
    {
      Core(ledger.View(), replay)
    }

    ghost function View(): Node
      reads this, ledger, leadership
    {
      Node(role, CoreView(), log, pending, positions, leadership.View())
    }

    ghost predicate Sound()
      reads this, ledger
    {
      ConfigOk(cfg) && CoreOk(cfg, CoreView())
    }

    /** The durable record is the current state. */
    ghost predicate Durable()
      reads this, ledger, leadership
    {
      disk == Some(RecordOf(View()))
    }

    constructor (cfg: Config, role: Role)
      ensures View() == FreshNode(cfg, role) && disk == None
      ensures fresh(ledger) && fresh(leadership)
    {
      this.cfg := cfg;
      this.role := role;
      replay, log, pending, positions, disk := map[], [], None, map[], None;
      var l := new Ledger(cfg.genesis, cfg.balances);
      var s := new LeadershipState(DEFAULT_TIMEOUT);
      ledger := l;
      leadership := s;
    }

    method Save()
      modifies this`disk
      ensures Durable()
    {
      disk := Some(Record(ledger.Saved(), replay, positions, log, pending, leadership.Saved()));
    }

    /** One ledger call, dispatched by method name. */
    method Dispatch(op: Op) returns (r: Outcome<()>)
      requires Settleable(ledger.View())
      modifies ledger
      ensures match Execute(old(ledger.View()), op)
              case Ok(l) => ledger.View() == l && r.Ok?
              case Err(_) => ledger.View() == old(ledger.View()) && r.Err?
    {
      match op {
        case Offer(s, v, n, t) =>
          var o := ledger.Offer(s, v, n, t);
          r := if o.Ok? then Ok(()) else Err(o.reason);
        case Accept(id, v) =>
          var o := ledger.Accept(id, v);
          r := if o.Ok? then Ok(()) else Err(o.reason);
        case Commit(id, s, p) =>
          var o := ledger.Commit(id, s, p);
          r := if o.Ok? then Ok(()) else Err(o.reason);
        case Cancel(id, a) =>
          var o := ledger.Cancel(id, a);
          r := if o.Ok? then Ok(()) else Err(o.reason);
        case Advance(n) =>
          if n >= 1 { AdvanceSucceedsIff(ledger.View(), n); }
          var o := ledger.Advance(n);
          r := if o.Ok? then Ok(()) else Err(o.reason);
        case Register(a) =>
          var o := ledger.RegisterAccount(a);
          r := if o.Ok? then Ok(()) else Err(o.reason);
      }
    }

    /** `_apply_mutation(record_auth=True)`: all of it happens, or none of it. */
    method ApplyMutation(m: Mutation) returns (r: Outcome<()>)
      requires Sound()
      modifies this`replay, ledger
      ensures match Apply(cfg, old(CoreView()), m)
              case Ok(core) => CoreView() == core && r.Ok?
              case Err(_) => CoreView() == old(CoreView()) && r.Err?
      ensures Sound()
    {
      SoundLedger(cfg, CoreView());
      if Apply(cfg, CoreView(), m).Ok? { ApplyKeeps(cfg, CoreView(), m); }
      hide CoreOk, ConfigOk, Execute;
      var actor := VerifyActor(cfg, replay, m);
      if actor.Err? { return Err(actor.reason); }
      r := Dispatch(m.op);
      if r.Ok? && actor.value.Some? {
        replay := replay[actor.value.value := m.auth.value.nonce];
      }
    }

    /** The dry run: the ledger is swapped for a restored copy and put back. */
    method TryMutation(m: Mutation) returns (r: Outcome<()>)
      requires Sound()
      modifies this`ledger
      ensures ledger == old(ledger) && ledger.View() == old(ledger.View())
      ensures r.Ok? <==> Trial(cfg, old(CoreView()), m).Ok?
    {
      SoundLedger(cfg, CoreView());
      hide CoreOk, ConfigOk, Execute, Restore.FromSnapshot;
      var copy := Ledger.Restored(ledger.Saved(), None);
      if copy.Err? { return Err(copy.reason); }
      var original := ledger;
      ledger := copy.value;
      var actor := VerifyActor(cfg, replay, m);
      if actor.Err? {
        r := Err(actor.reason);
      } else {
        r := Dispatch(m.op);
      }
      ledger := original;
    }

    /** `_verify_replica_envelope`. */
    predicate Accepts(e: Envelope)
      reads this, leadership
    {
      && !(leadership.leader != Failover.Primary && e.leader == Failover.Primary)
      && role != leadership.leader
      && EnvelopeOk(e, Position(positions), leadership.leader)
    }

    method PrepareReplica(e: Envelope) returns (r: Outcome<()>)
      requires Sound()
      modifies this
      ensures ledger == old(ledger) && leadership == old(leadership)
      ensures match NodeModel.PrepareReplica(cfg, old(View()), e)
              case Ok(n) => View() == n && r.Ok? && (n != old(View()) ==> Durable())
              case Err(_) => View() == old(View()) && r.Err?
    {
      hide Trial, CoreOk, ConfigOk;
      if !Accepts(e) { return Err("invalid or replayed replication envelope"); }
      if pending.Some? {
        if pending.value == e { return Ok(()); }
        return Err("replica already has a different prepared mutation");
      }
      var tried := TryMutation(e.mutation);
      if tried.Err? { return Err(tried.reason); }
      pending := Some(e);
      Save();
      return Ok(());
    }

    /** Records a decided envelope in ledger, nonce table, log and leadership, then saves. */
    method AppendDecided(e: Envelope) returns (r: Outcome<()>)
      requires Sound()
      modifies this, ledger, leadership
      ensures ledger == old(ledger) && leadership == old(leadership)
      ensures match Append(cfg, old(View()), e)
              case Ok(n) => View() == n && r.Ok? && Durable() && Sound()
              case Err(_) => View() == old(View()) && r.Err?
    {
      hide CoreOk, ConfigOk, Apply;
      var applied := ApplyMutation(e.mutation);
      if applied.Err? { return Err(applied.reason); }
      positions := positions[e.leader := e.nonce];
      log := log + [e];
      leadership.nonce := e.nonce;
      pending := None;
      Save();
      return Ok(());
    }

    method CommitReplica(e: Envelope) returns (r: Outcome<()>)
      requires Sound()
      modifies this, ledger, leadership
      ensures ledger == old(ledger) && leadership == old(leadership)
      ensures match NodeModel.CommitReplica(cfg, old(View()), e)
              case Ok(n) => View() == n && r.Ok? && Durable() && Sound()
              case Err(_) => View() == old(View()) && r.Err?
    {
      hide CoreOk, ConfigOk, Append;
      if !Accepts(e) { return Err("invalid or replayed replication envelope"); }
      if pending != Some(e) { return Err("replica commit does not match its prepared mutation"); }
      r := AppendDecided(e);
    }

    method AbortReplica(e: Envelope) returns (r: Outcome<()>)
      modifies this
      ensures ledger == old(ledger) && leadership == old(leadership)
      ensures match NodeModel.AbortReplica(old(View()), e)
              case Ok(n) => View() == n && r.Ok? && Durable()
              case Err(_) => View() == old(View()) && r.Err?
    {
      if !Accepts(e) { return Err("invalid or replayed replication envelope"); }
      if pending.Some? && pending.value != e { return Err("replica abort does not match its prepared mutation"); }
      pending := None;
      Save();
      return Ok(());
    }

    /** First half of `replicate_mutation`: returns the signed envelope to send out. */
    method BeginReplication(m: Mutation) returns (r: Outcome<Envelope>)
      requires Sound()
      modifies this
      ensures ledger == old(ledger) && leadership == old(leadership)
      ensures match Propose(cfg, old(View()).(pending := None), m)
              case Ok(n) => View() == n && r == Ok(n.pending.value) && Durable()
              case Err(_) => View() == old(View()).(pending := None) && r.Err?
    {
      hide Trial, CoreOk, ConfigOk;
      if pending.Some? {
        pending := None;
        Save();
      }
      var tried := TryMutation(m);
      if tried.Err? { return Err(tried.reason); }
      var envelope := SignEnvelope(role, Position(positions) + 1, m);
      pending := Some(envelope);
      Save();
      return Ok(envelope);
    }

    /** Second half: with an acknowledgement commit locally, without one withdraw. */
    method FinishReplication(e: Envelope, acknowledgements: nat) returns (r: Outcome<()>)
      requires Sound()
      modifies this, ledger, leadership
      ensures ledger == old(ledger) && leadership == old(leadership)
      ensures acknowledgements < 1 ==> View() == old(View()).(pending := None) && r.Err? && Durable()
      ensures acknowledgements >= 1 ==>
                match Append(cfg, old(View()), e)
                case Ok(n) => View() == n && r.Ok? && Durable() && Sound()
                case Err(_) => View() == old(View()) && r.Err?
    {
      hide CoreOk, ConfigOk, Append;
      if acknowledgements < 1 {
        pending := None;
        Save();
        return Err("mutation did not receive a 2/3 cluster quorum");
      }
      r := AppendDecided(e);
    }

    method RecordLeadershipCertificate(c: Failover.Certificate) returns (r: Outcome<()>)
      modifies this, leadership
      ensures ledger == old(ledger) && leadership == old(leadership)
      ensures match RecordCertificate(old(View()), c)
              case Ok(n) => View() == n && r.Ok? && (n != old(View()) ==> Durable())
              case Err(_) => View() == old(View()) && r.Err?
    {
      hide Failover.FromSnapshot;
      if leadership.certificates != [] && c == leadership.certificates[|leadership.certificates| - 1] {
        return Ok(());
      }
      if leadership.nonce != Position(positions) { return Err("leadership position is behind the replica"); }
      var adopted := leadership.AcceptCertificate(c);
      if adopted.Err? { return Err(adopted.reason); }
      pending := None;
      Save();
      return Ok(());
    }

    method ReceiveHeartbeat(h: SignedHeartbeat) returns (r: Outcome<()>)
      modifies this, leadership
      ensures ledger == old(ledger) && leadership == old(leadership)
      ensures match NodeModel.ReceiveHeartbeat(old(View()), h)
              case Ok(n) => View() == n && r.Ok? && (n != old(View()) ==> Durable())
              case Err(_) => View() == old(View()) && r.Err?
    {
      if !GenuineHeartbeat(h) { return Err("invalid leadership heartbeat"); }
      if h.nonce != Position(positions) { return Err("heartbeat position differs from local replica"); }
      if h.tick == leadership.tick { return Ok(()); }
      var beat := leadership.Heartbeat(h.leader, h.term, h.tick, h.nonce);
      if beat.Err? { return Err(beat.reason); }
      Save();
      return Ok(());
    }

    /** `receive_timeout_vote`; the two ledgers are compared through their digests. */
    method ReceiveTimeoutVote(v: Failover.Vote, candidate: Restore.Snapshot, now: int)
      returns (r: Outcome<Failover.Vote>)
      ensures forall l :: candidate == Restore.SnapshotOf(l) ==>
                match TimeoutVote(View(), v, l, now)
                case Ok(u) => r == Ok(u)
                case Err(_) => r.Err?
    {
      var successor := Failover.Successor(leadership.leader);
      if successor.None? { return Err("ordered leadership is exhausted"); }
      var b := v.ballot;
      if Some(role) != Witness(leadership.leader) || b.voter != successor.value || !Failover.Authentic(v)
         || b.term != leadership.term + 1 || b.accused != leadership.leader || b.candidate != successor.value
         || b.tick - leadership.tick < leadership.timeout
         || b.tick - now > 1 || now - b.tick > 1
         || b.nonce != Position(positions)
         || pending.Some? || |log| != Position(positions)
         || candidate != ledger.Saved()
      {
        return Err("timeout vote lacks a matching clean replica");
      }
      return Ok(Failover.SignVote(b.(voter := role)));
    }

    /** The leader's part of `failover_step` under the lock: what it will announce to its peers. */
    method BeatAsLeader(tick: int) returns (r: Outcome<(SignedHeartbeat, Option<Failover.Certificate>)>)
      modifies this, leadership
      ensures ledger == old(ledger) && leadership == old(leadership)
      ensures match LeaderBeat(old(View()), tick)
              case Ok(n) =>
                && View() == n && (n != old(View()) ==> Durable())
                && r == Ok((OwnHeartbeat(n, tick), LastCertificate(n)))
              case Err(_) => View() == old(View()) && r.Err?
    {
      if tick > leadership.tick {
        var beat := leadership.Heartbeat(role, leadership.term, tick, Position(positions));
        if beat.Err? { return Err(beat.reason); }
        Save();
      }
      hide Position;
      var heartbeat := SignHeartbeat(role, leadership.term, tick, Position(positions));
      var certificate := None;
      if leadership.certificates != [] {
        certificate := Some(leadership.certificates[|leadership.certificates| - 1]);
      }
      return Ok((heartbeat, certificate));
    }

    /** The successor's tests in `failover_step`, before it talks to its peers. */
    method CallForVotes(tick: int) returns (asked: Option<Role>)
      ensures asked.Some? <==>
                Failover.Successor(leadership.leader) == Some(role) && tick - leadership.tick >= leadership.timeout
      ensures asked.Some? ==>
                {asked.value, role, leadership.leader} == {Failover.Primary, Failover.Secondary, Failover.Tertiary}
      ensures forall w, now :: CleanMatch(View(), w) ==>
                (Elects(View(), w, tick, now) <==>
                 asked == Some(w.role) && tick - w.lead.tick >= w.lead.timeout && -1 <= tick - now <= 1)
    {
      forall w, now | CleanMatch(View(), w)
        ensures Elects(View(), w, tick, now) <==>
                  && SeesSilence(View(), tick) && ThirdRole(View(), w.role)
                  && tick - w.lead.tick >= w.lead.timeout && -1 <= tick - now <= 1
      {
        ElectsIff(View(), w, tick, now);
      }
      hide CleanMatch, Elects;
      if leadership.leader == Failover.Tertiary || Failover.Successor(leadership.leader) != Some(role) { return None; }
      if tick - leadership.tick < leadership.timeout { return None; }
      return Witness(leadership.leader);
    }

    /** The vote signed once the peers have been reconciled, from the state of that moment. */
    method SignOwnVote(tick: int) returns (vote: Failover.Vote)
      ensures vote == OwnVote(View(), tick)
    {
      hide Position;
      vote := Failover.SignVote(Failover.Ballot(
        role, leadership.term + 1, leadership.leader, role, tick, Position(positions)));
    }

    /** Both votes go to a restored copy; this node's own state is left alone until the witness agrees. */
    method TryCertificate(own: Failover.Vote, other: Failover.Vote) returns (r: Option<Failover.Certificate>)
      ensures r == CompleteCertificate(leadership.View(), own, other)
    {
      hide Failover.SnapshotOk, Failover.Submit;
      var trial := LeadershipState.Restored(leadership.Saved());
      if trial.Err? { return None; }
      var first := trial.value.Submit(own);
      if first.Err? { return None; }
      var second := trial.value.Submit(other);
      if second.Err? { return None; }
      return second.value;
    }

    /** The inner loop of `_sync_from_peer`: entries are prepared and committed one by one. */
    method TakeHistory(entries: seq<Envelope>) returns (ok: bool)
      requires Sound()
      modifies this, ledger, leadership
      ensures ledger == old(ledger) && leadership == old(leadership)
      ensures (View(), ok) == TakeEntries(cfg, old(View()), entries)
    {
      hide CoreOk, ConfigOk, Trial, Append, ReplicaAccepts;
      for i := 0 to |entries|
        invariant Sound() && ledger == old(ledger) && leadership == old(leadership)
        invariant TakeEntries(cfg, View(), entries[i..]) == TakeEntries(cfg, old(View()), entries)
      {
        var e := entries[i];
        assert entries[i..][0] == e && entries[i..][1..] == entries[i + 1..];
        if pending.Some? && pending.value != e { return false; }
        if pending.None? {
          var prepared := PrepareReplica(e);
          if prepared.Err? { return false; }
        }
        var committed := CommitReplica(e);
        if committed.Err? { return false; }
      }
      return true;
    }

    /** The constructor's pass over the log, inferring each entry's signer from the certificates. */
    static method VerifyLog(log: seq<Envelope>, start: int, cs: seq<Failover.Certificate>) returns (r: Outcome<int>)
      ensures match CheckLog(log, start, cs)
              case Ok(last) => r == Ok(last)
              case Err(_) => r.Err?
    {
      var last := start;
      for i := 0 to |log|
        invariant CheckLog(log, start, cs) == CheckLog(log[i..], last, cs)
      {
        var expected := Failover.Primary;
        for j := 0 to |cs|
          invariant expected == ExpectedSigner(cs[..j], last)
        {
          assert cs[..j + 1][..j] == cs[..j];
          if last >= cs[j].nonce { expected := cs[j].leader; }
        }
        assert cs[..|cs|] == cs;
        assert log[i..][0] == log[i] && log[i..][1..] == log[i + 1..];
        if !EnvelopeOk(log[i], last, expected) { return Err("invalid or replayed replication envelope"); }
        last := log[i].nonce;
      }
      return Ok(last);
    }

    static method VerifyHistory(log: seq<Envelope>, position: int, cs: seq<Failover.Certificate>) returns (ok: bool)
      ensures ok <==> LogFits(log, position, cs)
    {
      if log == [] { return true; }
      if position < |log| { return false; }
      var checked := VerifyLog(log, position - |log|, cs);
      ok := checked == Ok(position);
    }

    /** `__init__` from a saved record: every check the constructor makes before serving. */
    static method Restarted(cfg: Config, role: Role, saved: Record) returns (r: Outcome<ReferenceNode>)
      ensures match Restart(cfg, role, saved)
              case Ok(n) => r.Ok? && fresh(r.value) && r.value.View() == n
              case Err(_) => r.Err?
    {
      hide Restore.FromSnapshot, Failover.SnapshotOk, LogFits, Position;
      var ledger := Ledger.Restored(saved.ledger, cfg.genesis);
      if ledger.Err? { return Err(ledger.reason); }
      if cfg.registry.Some? && exists a | a in saved.replay :: saved.replay[a] < 0 {
        return Err("invalid replay state");
      }
      var leadership := LeadershipState.Restored(saved.leadership);
      if leadership.Err? { return Err(leadership.reason); }
      if leadership.value.nonce != Position(saved.positions) {
        return Err("leadership record does not match committed replica position");
      }
      var fits := VerifyHistory(saved.log, Position(saved.positions), leadership.value.certificates);
      if !fits { return Err("replication log does not match committed position"); }
      var node := new ReferenceNode.Reloaded(cfg, role, saved, ledger.value, leadership.value);
      return Ok(node);
    }

    constructor Reloaded(cfg: Config, role: Role, saved: Record, ledger: Ledger, leadership: LeadershipState)
      ensures View() == Node(role, Core(ledger.View(), if cfg.registry.Some? then saved.replay else map[]),
                             saved.log, saved.pending, saved.positions, leadership.View())
      ensures disk == Some(saved)
    {
      this.cfg := cfg;
      this.role := role;
      this.ledger := ledger;
      this.leadership := leadership;
      replay := if cfg.registry.Some? then saved.replay else map[];
      log, pending, positions := saved.log, saved.pending, saved.positions;
      disk := Some(saved);
    }
  }
}
