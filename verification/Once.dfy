/** The one-shot mode: a single sweep and nothing else. */
module Once {
  import opened Objects
  import opened Api
  import opened Passes
  import opened Election
  import R = Registrar

  /** On a store nobody else touches, one sweep succeeds and leaves a free cluster
      name with its eldest claimant, if that one is discoverable on an address of
      its own that nobody keeps. */
  method SweepOnce(registrar: R.Registrar, ghost e: Child) returns (failed: bool)
    requires registrar.Inv() && registrar.Calm() && !registrar.cfg.dryRun
    requires Ready(registrar.cfg, registrar.api.world, e) && OwnAddress(registrar.cfg, registrar.api.world, e)
    requires Finds(registrar.cfg, registrar.api.world, e.namespace, e)
    modifies registrar, registrar.api
    ensures registrar.Inv() && !failed
    ensures HeldBy(registrar.cfg, registrar.api.world, e.cluster, e.namespace)
    ensures Live(registrar.cfg, registrar.api.world, e.namespace, SecretName(e.cluster))
  {
    ghost var w := registrar.api.world;
    var broke, sweep := registrar.Reconcile();
    assert registrar.api.policy == CALM;
    EldestHolds(registrar.cfg, w, registrar.api.world, sweep.value, e);
    return broke;
  }

  /** And while that claimant has nothing to register, the name stays free. */
  method SweepBlocked(registrar: R.Registrar, ghost cluster: string, ghost ns: string) returns (failed: bool)
    requires registrar.Inv() && registrar.Calm() && !registrar.cfg.dryRun
    requires Blocked(registrar.cfg, registrar.api.world, cluster, ns)
    modifies registrar, registrar.api
    ensures registrar.Inv() && !failed && SecretName(cluster) !in registrar.api.world.secrets
  {
    ghost var w := registrar.api.world;
    var broke, sweep := registrar.Reconcile();
    assert registrar.api.policy == CALM;
    UndiscoverableEldestBlocks(registrar.cfg, w, registrar.api.world, sweep.value, cluster, ns);
    return broke;
  }
}
