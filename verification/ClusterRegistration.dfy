/** Whose registrations a cluster acknowledges, over every run. */
module ClusterRegistration {
  import opened Common
  import opened LedgerModel
  import opened NodeModel
  import opened NodeInvariants
  import opened Spine
  import opened Cluster
  import opened ClusterSafety
  import opened ClusterTheorems
  import opened ClusterWitness

  /** In a log that replays under a registry, every registration is the operator's. */
  lemma {:induction false} LoggedRegistrations(cfg: Config, log: seq<Envelope>, i: nat)
    requires Replay(cfg, log).Ok? && cfg.registry.Some? && i < |log| && log[i].mutation.op.Register?
    ensures ByOperator(cfg, log[i].mutation)
  {
    hide Apply, ByOperator;
    var n := |log| - 1;
    if i < n {
      LoggedRegistrations(cfg, log[..n], i);
      assert log[..n][i] == log[i];
    } else {
      AppliedByOperator(cfg, Replay(cfg, log[..n]).value, log[n].mutation);
    }
  }

  lemma AckedRegistrations(cfg: Config, steps: seq<Step>, e: Envelope)
    requires ConfigOk(cfg) && cfg.registry.Some?
    requires e in Execution(cfg, steps).acked && e.mutation.op.Register?
    ensures ByOperator(cfg, e.mutation)
  {
    hide Execution, ConfigOk, ByOperator, ClusterOk, SpineOk, CoreOk;
    var c := Execution(cfg, steps);
    RunIsOk(cfg, steps);
    AckedTwice(cfg, c, e);
    StateIsReplay(cfg, steps, e.leader);
    assert Holds(SpineOf(c), e.leader, e);
    LoggedRegistrations(cfg, c.At(e.leader).node.log, e.nonce - 1);
  }

  /** On the initial ledger any free account can be registered, by anybody if there is no registry. */
  lemma OpenRegistration(cfg: Config, account: Account)
    requires ConfigOk(cfg) && cfg.registry.None? && Registrable(account) && account !in StartBalances(cfg)
    ensures Trial(cfg, InitialCore(cfg), Mutation(Register(account), "", None)).Ok?
  {
    NewLedgerCore(cfg);
    TrialPredictsApply(cfg, InitialCore(cfg), Mutation(Register(account), "", None));
    hide CoreOk, ConfigOk, Trial, Registrable;
  }

  /**
   In every run, every acknowledged registration is the operator's, if and only if the cluster
   has a credential registry: without one, some run acknowledges an unsigned registration of any
   account that is free at the start.
   */
  lemma RegistrationClosedIff(cfg: Config, account: Account)
    requires ConfigOk(cfg) && Registrable(account) && account !in StartBalances(cfg)
    ensures (forall steps, e :: e in Execution(cfg, steps).acked && e.mutation.op.Register?
                                ==> ByOperator(cfg, e.mutation))
            <==> cfg.registry.Some?
    ensures cfg.registry.None? ==>
              exists steps :: FirstEntry(Mutation(Register(account), "", None)) in Execution(cfg, steps).acked
  {
    hide ConfigOk, Registrable, Execution;
    if cfg.registry.Some? {
      forall steps, e | e in Execution(cfg, steps).acked && e.mutation.op.Register?
        ensures ByOperator(cfg, e.mutation)
      {
        AckedRegistrations(cfg, steps, e);
      }
    } else {
      var m := Mutation(Register(account), "", None);
      OpenRegistration(cfg, account);
      hide Trial, Apply;
      var c := CanSucceed(cfg, m);
      var steps :| Execution(cfg, steps) == c;
      assert FirstEntry(m) in Execution(cfg, steps).acked && !ByOperator(cfg, m);
    }
  }
}
