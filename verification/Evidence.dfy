/** What must have been observed before a write is allowed, and what a run of
    justified writes keeps. */
module Evidence {
  import opened Results
  import opened Text
  import opened KeySpace
  import opened Kubeconfig
  import opened Objects
  import opened Merge
  import opened Contest
  import opened Api
  import opened Expiry

  // ---------------------------------------------------------------- selectors

  function OwnedSelector(cfg: Settings): Labels {
    map[cfg.keys.managedBy := cfg.owner]
  }

  function SourceSelector(cfg: Settings, ns: string): Labels {
    map[cfg.keys.managedBy := cfg.owner, cfg.keys.source := ns]
  }

  function ClaimSelector(cfg: Settings, cluster: string): Labels {
    map[cfg.keys.managedBy := cfg.owner, cfg.keys.cluster := cluster]
  }

  function ArgoSelector(cfg: Settings): Labels {
    map[cfg.keys.secretType := CLUSTER_TYPE]
  }

  lemma SourceSelects(cfg: Settings, ns: string, s: Secret)
    requires cfg.Usable() && ns != ""
    ensures Matches(SourceSelector(cfg, ns), s.labels) <==> Owned(cfg, s) && Source(cfg, s) == ns
  {
  }

  // ----------------------------------------------------------------- evidence

  /** This pass read the key's namespace: live, ours, not being torn down. */
  ghost predicate Vouches(cfg: Settings, seen: set<Observation>, key: string, ns: Namespace) {
    && key != ""
    && SawNamespace(key, Some(ns)) in seen
    && ns.name == key
    && Get(ns.labels, cfg.keys.managedBy) == cfg.owner
    && !ns.terminating
  }

  /** A definite NotFound for the key's namespace. */
  ghost predicate Gone(seen: set<Observation>, key: string) {
    SawNamespace(key, None) in seen
  }

  /** The child was discovered in a namespace this pass vouches for. */
  ghost predicate Backed(cfg: Settings, seen: set<Observation>, key: string, c: Child) {
    && ChildOk(cfg, c) && c.namespace == key
    && exists ns ::
         Vouches(cfg, seen, key, ns) && c.namespaceUid == ns.uid && c.cluster == Get(ns.labels, cfg.keys.cluster)
  }

  /** `s` reads as a registration of the key's live namespace. */
  ghost predicate Registers(cfg: Settings, seen: set<Observation>, key: string, s: Secret) {
    && Owned(cfg, s) && Source(cfg, s) == key && Visible(cfg, s) && !Marked(cfg, s)
    && exists ns :: Vouches(cfg, seen, key, ns) && RecordedUid(cfg, s) == ns.uid
  }

  ghost predicate Witnessed(seen: set<Observation>, s: Secret) {
    || SawSecret(s) in seen
    || Wrote(Created(s)) in seen
    || exists before :: Wrote(Updated(before, s)) in seen
  }

  /** This pass wrote, or found up to date, a registration of that name. */
  ghost predicate Registered(cfg: Settings, seen: set<Observation>, key: string, name: string) {
    exists s :: Witnessed(seen, s) && s.name == name && Registers(cfg, seen, key, s)
  }

  /** A listed ArgoCD Secret does not stand in the way of claiming `server`. */
  ghost predicate Yields(cfg: Settings, seen: set<Observation>, key: string, server: string, s: Secret) {
    || (Source(cfg, s) != "" && Source(cfg, s) == key)
    || Marked(cfg, s)
    || TrimSlashes(Server(s)) != server
    || (!Pinned(cfg, s) && Source(cfg, s) != "" && SawNamespace(Source(cfg, s), None) in seen)
  }

  ghost predicate AddressClear(cfg: Settings, seen: set<Observation>, key: string, server: string) {
    exists items :: SawSecrets(ArgoSelector(cfg), items) in seen
                    && forall s :: s in items ==> Yields(cfg, seen, key, server, s)
  }

  ghost predicate NameClear(cfg: Settings, seen: set<Observation>, key: string, cluster: string) {
    exists items :: SawNamespaces(ClaimSelector(cfg, cluster), items) in seen && MayCreate(items, key)
  }

  /** Listed in this pass as owned, recording the key's namespace, not pinned. */
  ghost predicate Judged(cfg: Settings, seen: set<Observation>, key: string, s: Secret) {
    && (exists selector, items :: SawSecrets(selector, items) in seen && s in items)
    && Owned(cfg, s) && Source(cfg, s) == key && !Pinned(cfg, s)
  }

  /** The recorded UID is not that of the namespace now wearing the name. */
  ghost predicate Replaced(cfg: Settings, seen: set<Observation>, key: string, s: Secret) {
    && RecordedUid(cfg, s) != ""
    && exists ns :: Vouches(cfg, seen, key, ns) && ns.uid != "" && RecordedUid(cfg, s) != ns.uid
  }

  /** Past a positive TTL by a readable stamp. */
  predicate OutlivedAt(cfg: Settings, s: Secret, now: int) {
    var stamp := Get(s.labels, cfg.keys.staleSince);
    && cfg.demotedTtl > 0
    && stamp != ""
    && cfg.lib.unstamp(stamp).Some?
    && now - cfg.lib.unstamp(stamp).value > cfg.demotedTtl
  }

  ghost predicate Outlived(cfg: Settings, seen: set<Observation>, key: string, s: Secret) {
    && Marked(cfg, s)
    && (exists now :: SawTime(now) in seen && OutlivedAt(cfg, s, now))
    && exists heir :: heir != s.name && Registered(cfg, seen, key, heir)
  }

  // ------------------------------------------------------------ justification

  ghost predicate CreateBy(cfg: Settings, key: string, seen: set<Observation>, s: Secret, c: Child) {
    && Backed(cfg, seen, key, c)
    && s.name == SecretName(c.cluster)
    && s.labels == WantLabels(cfg, c) && s.annotations == c.annotations && s.data == WantData(c)
    && NameClear(cfg, seen, key, c.cluster)
    && AddressClear(cfg, seen, key, c.server)
  }

  ghost predicate JustifiedCreate(cfg: Settings, key: string, seen: set<Observation>, s: Secret) {
    exists c :: CreateBy(cfg, key, seen, s, c)
  }

  ghost predicate RefreshBy(cfg: Settings, key: string, seen: set<Observation>, before: Secret, after: Secret,
                            c: Child) {
    && Backed(cfg, seen, key, c)
    && before.name == SecretName(c.cluster)
    && after == Merged(cfg, before, c).(rv := after.rv)
    && (Source(cfg, before) == key || (Source(cfg, before) == "" && ClusterOf(cfg, before) == c.cluster))
    && (TrimSlashes(Server(before)) != c.server ==> AddressClear(cfg, seen, key, c.server))
  }

  ghost predicate IsRefresh(cfg: Settings, key: string, seen: set<Observation>, before: Secret, after: Secret) {
    exists c :: RefreshBy(cfg, key, seen, before, after, c)
  }

  ghost predicate DemotionFor(cfg: Settings, key: string, seen: set<Observation>, before: Secret, after: Secret,
                              now: int, heir: string) {
    && heir != before.name && Registered(cfg, seen, key, heir)
    && after == Demoted(cfg, before, heir, cfg.lib.stamp(now)).(rv := after.rv)
  }

  ghost predicate IsDemotion(cfg: Settings, key: string, seen: set<Observation>, before: Secret, after: Secret,
                             now: int) {
    && SawTime(now) in seen && 0 <= now < ERA_END
    && Judged(cfg, seen, key, before) && !Marked(cfg, before)
    && exists heir :: DemotionFor(cfg, key, seen, before, after, now, heir)
  }

  ghost predicate JustifiedUpdate(cfg: Settings, key: string, seen: set<Observation>, before: Secret, after: Secret) {
    && Owned(cfg, before)
    && (IsRefresh(cfg, key, seen, before, after) || exists now :: IsDemotion(cfg, key, seen, before, after, now))
  }

  ghost predicate JustifiedDelete(cfg: Settings, key: string, seen: set<Observation>, removed: Secret) {
    exists s :: Judged(cfg, seen, key, s) && s.name == removed.name && s.uid == removed.uid
      && (Gone(seen, key) || Replaced(cfg, seen, key, s) || (removed == s && Outlived(cfg, seen, key, s)))
  }

  ghost predicate Justified(cfg: Settings, w: Write) {
    match w.op
    case Created(s) => JustifiedCreate(cfg, w.key, w.seen, s)
    case Updated(before, after) => JustifiedUpdate(cfg, w.key, w.seen, before, after)
    case Deleted(s) => JustifiedDelete(cfg, w.key, w.seen, s)
  }

  ghost predicate AllJustified(cfg: Settings, log: seq<Write>) {
    forall w :: w in log ==> Justified(cfg, w)
  }

  /** Evidence is never lost as a pass goes on. */
  lemma RegisteredGrows(cfg: Settings, seen: set<Observation>, seen': set<Observation>, key: string, name: string)
    requires seen <= seen' && Registered(cfg, seen, key, name)
    ensures Registered(cfg, seen', key, name)
  {
  }

  lemma BackedGrows(cfg: Settings, seen: set<Observation>, seen': set<Observation>, key: string, c: Child)
    requires seen <= seen' && Backed(cfg, seen, key, c)
    ensures Backed(cfg, seen', key, c)
  {
  }

  // -------------------------------------------------------- what writes read as

  lemma CreatedReads(cfg: Settings, key: string, seen: set<Observation>, s: Secret)
    requires cfg.Usable() && JustifiedCreate(cfg, key, seen, s)
    ensures Owned(cfg, s) && Source(cfg, s) == key && Visible(cfg, s) && !Marked(cfg, s)
  {
    var c :| CreateBy(cfg, key, seen, s, c);
    ComputedLabelsSurvive(cfg, c);
  }

  /** Incumbency: no write moves a Secret from one source namespace to another;
      an empty source is filled only if the cluster label already matched; the
      owner never changes; and a write never leaves a Secret both visible to
      ArgoCD and marked as demoted. */
  lemma UpdatedReads(cfg: Settings, key: string, seen: set<Observation>, before: Secret, after: Secret)
    requires cfg.Usable() && JustifiedUpdate(cfg, key, seen, before, after)
    ensures Owned(cfg, before) && Owned(cfg, after)
    ensures after.name == before.name && after.uid == before.uid
    ensures Source(cfg, after) == key
    ensures Source(cfg, before) != "" ==> Source(cfg, after) == Source(cfg, before)
    ensures Source(cfg, before) == "" ==> ClusterOf(cfg, after) == ClusterOf(cfg, before)
    ensures !(Visible(cfg, after) && Marked(cfg, after))
    ensures Pinned(cfg, after) == Pinned(cfg, before)
  {
    if IsRefresh(cfg, key, seen, before, after) {
      RefreshedReads(cfg, key, seen, before, after);
    } else {
      var now :| IsDemotion(cfg, key, seen, before, after, now);
      var heir :| DemotionFor(cfg, key, seen, before, after, now, heir);
      DemotedReads(cfg, before, heir, cfg.lib.stamp(now));
    }
  }

  /** Refreshing a Secret erases its demotion marker and its stamp. */
  lemma RefreshedReads(cfg: Settings, key: string, seen: set<Observation>, before: Secret, after: Secret)
    requires cfg.Usable() && IsRefresh(cfg, key, seen, before, after)
    ensures Owned(cfg, after) && after.name == before.name && after.uid == before.uid
    ensures Source(cfg, after) == key && (Source(cfg, before) == key || Source(cfg, before) == "")
    ensures Source(cfg, before) == "" ==> ClusterOf(cfg, after) == ClusterOf(cfg, before)
    ensures Visible(cfg, after) && !Marked(cfg, after) && cfg.keys.staleSince !in after.labels
    ensures Pinned(cfg, after) == Pinned(cfg, before)
  {
    var c :| RefreshBy(cfg, key, seen, before, after, c);
    RefreshByReads(cfg, before, after, c);
  }

  lemma RefreshByReads(cfg: Settings, before: Secret, after: Secret, c: Child)
    requires cfg.Usable() && ChildOk(cfg, c)
    requires after == Merged(cfg, before, c).(rv := after.rv)
    ensures after.name == before.name && after.uid == before.uid
    ensures Owned(cfg, after) && Source(cfg, after) == c.namespace && RecordedUid(cfg, after) == c.namespaceUid
    ensures ClusterOf(cfg, after) == c.cluster && !Marked(cfg, after) && Visible(cfg, after)
    ensures Pinned(cfg, after) == Pinned(cfg, before) && cfg.keys.staleSince !in after.labels
    ensures Mirrors(cfg, after, c)
  {
    MergedVersionReads(cfg, before, c, after.rv);
  }

  lemma MergedVersionReads(cfg: Settings, s: Secret, c: Child, rv: nat)
    requires cfg.Usable() && ChildOk(cfg, c)
    ensures var r := Merged(cfg, s, c).(rv := rv);
            && r.name == s.name && r.uid == s.uid
            && Owned(cfg, r) && Source(cfg, r) == c.namespace && RecordedUid(cfg, r) == c.namespaceUid
            && ClusterOf(cfg, r) == c.cluster && !Marked(cfg, r) && Visible(cfg, r)
            && Pinned(cfg, r) == Pinned(cfg, s) && cfg.keys.staleSince !in r.labels && Mirrors(cfg, r, c)
  {
    MergedReads(cfg, s, c);
    MergedMirrors(cfg, s, c);
    SameLabelsRead(cfg, Merged(cfg, s, c), Merged(cfg, s, c).(rv := rv));
    MirrorsAnyVersion(cfg, Merged(cfg, s, c), Merged(cfg, s, c).(rv := rv), c);
  }

  lemma SameLabelsRead(cfg: Settings, a: Secret, b: Secret)
    requires a.labels == b.labels
    ensures Owned(cfg, a) == Owned(cfg, b) && Source(cfg, a) == Source(cfg, b) && ClusterOf(cfg, a) == ClusterOf(cfg, b)
    ensures Visible(cfg, a) == Visible(cfg, b) && Marked(cfg, a) == Marked(cfg, b) && Pinned(cfg, a) == Pinned(cfg, b)
    ensures RecordedUid(cfg, a) == RecordedUid(cfg, b)
  {
  }

  // ------------------------------------------------------- relations over runs

  /** Only Secrets of this key gain an owned, sourced Secret. */
  ghost predicate Rooted(cfg: Settings, key: string, w: World, w': World) {
    forall n :: n in w'.secrets && Owned(cfg, w'.secrets[n]) && Source(cfg, w'.secrets[n]) != "" ==>
      || Source(cfg, w'.secrets[n]) == key
      || (n in w.secrets && Owned(cfg, w.secrets[n]) && Source(cfg, w.secrets[n]) == Source(cfg, w'.secrets[n]))
  }

  predicate Stable(rule: Rule) {
    rule == HandsOff || rule == Quiet
  }

  ghost predicate StaysOurs(cfg: Settings, s: Secret, s': Secret) {
    s.uid == s'.uid && Owned(cfg, s) && Source(cfg, s) != "" ==>
      Owned(cfg, s') && Source(cfg, s') == Source(cfg, s) && Pinned(cfg, s') == Pinned(cfg, s)
  }

  /** A registration stays one for as long as the object lives. */
  ghost predicate Keeps(cfg: Settings, w: World, w': World) {
    forall n :: n in w.secrets && n in w'.secrets ==> StaysOurs(cfg, w.secrets[n], w'.secrets[n])
  }

  predicate InScope(cfg: Settings, key: string, s: Secret) {
    Owned(cfg, s) && (Source(cfg, s) == key || Source(cfg, s) == "")
  }

  /** Secrets that are not ours, or record another namespace, stay as they are. */
  ghost predicate Spares(cfg: Settings, key: string, w: World, w': World) {
    forall n :: n in w.secrets && !InScope(cfg, key, w.secrets[n]) ==> n in w'.secrets && w'.secrets[n] == w.secrets[n]
  }

  /** One pass for `key`, together with whatever others did meanwhile. */
  ghost predicate Evolves(cfg: Settings, rule: Rule, key: string, w: World, w': World) {
    && ValidWorld(w') && Since(w, w')
    && (rule != Hostile ==> Rooted(cfg, key, w, w'))
    && (Stable(rule) ==> w.clock <= w'.clock && Keeps(cfg, w, w'))
    && (rule == Quiet ==> w'.namespaces == w.namespaces && w'.sources == w.sources && Spares(cfg, key, w, w'))
  }

  lemma PermittedEvolves(cfg: Settings, rule: Rule, key: string, w: World, w': World)
    requires ValidWorld(w) && Permits(cfg, rule, w, w')
    ensures Evolves(cfg, rule, key, w, w')
  {
  }

  lemma EvolvesTransitive(cfg: Settings, rule: Rule, key: string, a: World, b: World, c: World)
    requires ValidWorld(a)
    requires Evolves(cfg, rule, key, a, b) && Evolves(cfg, rule, key, b, c)
    ensures Evolves(cfg, rule, key, a, c)
  {
    SinceTransitive(a, b, c);
    if Stable(rule) { KeepsTransitive(cfg, a, b, c); }
  }

  lemma KeepsTransitive(cfg: Settings, a: World, b: World, c: World)
    requires ValidWorld(a) && Since(a, b) && Since(b, c)
    requires Keeps(cfg, a, b) && Keeps(cfg, b, c)
    ensures Keeps(cfg, a, c)
  {
  }

  /** What a justified write does to the one name it touches. */
  ghost predicate Benign(cfg: Settings, write: Write) {
    match write.op
    case Created(s) => Owned(cfg, s) && Source(cfg, s) == write.key
    case Updated(before, after) =>
      && InScope(cfg, write.key, before) && StaysOurs(cfg, before, after)
      && Owned(cfg, after) && Source(cfg, after) == write.key
    case Deleted(s) => true
  }

  lemma WriteIsBenign(cfg: Settings, write: Write)
    requires cfg.Usable() && Justified(cfg, write)
    ensures Benign(cfg, write)
  {
    match write.op
    case Created(s) => CreatedReads(cfg, write.key, write.seen, s);
    case Updated(before, after) => UpdatedReads(cfg, write.key, write.seen, before, after);
    case Deleted(s) =>
  }

  lemma BenignKeeps(cfg: Settings, w: World, write: Write)
    requires ValidWorld(w) && Issued(w, write.op) && Benign(cfg, write)
    ensures Keeps(cfg, w, Perform(w, write.op)) && Rooted(cfg, write.key, w, Perform(w, write.op))
    ensures FairDelete(cfg, write) ==> Spares(cfg, write.key, w, Perform(w, write.op))
  {
    match write.op
    case Created(_) =>
    case Updated(_, _) =>
    case Deleted(_) =>
  }

  lemma WriteEvolves(cfg: Settings, rule: Rule, w: World, write: Write)
    requires cfg.Usable() && ValidWorld(w) && Issued(w, write.op) && Justified(cfg, write)
    requires Stable(rule) ==> FairDelete(cfg, write)
    ensures Evolves(cfg, rule, write.key, w, Perform(w, write.op))
  {
    PerformIsStep(w, write.op);
    WriteIsBenign(cfg, write);
    BenignKeeps(cfg, w, write);
  }

  // ---------------------------------------------------- invariants of hands-off

  /** No owned Secret is both visible to ArgoCD and marked as demoted. */
  ghost predicate NeverBoth(cfg: Settings, w: World) {
    forall n :: n in w.secrets && Owned(cfg, w.secrets[n]) ==>
      !(Visible(cfg, w.secrets[n]) && Marked(cfg, w.secrets[n]))
  }

  ghost predicate DemotedBy(cfg: Settings, write: Write, s: Secret, now: int) {
    && write.op.Updated? && write.op.after == s
    && IsDemotion(cfg, write.key, write.seen, write.op.before, s, now)
  }

  /** The stored version of every marked Secret is the one its demotion wrote,
      or was marked before the run began. */
  ghost predicate Stamped(cfg: Settings, baseline: set<Secret>, log: seq<Write>, w: World) {
    forall n :: n in w.secrets && Owned(cfg, w.secrets[n]) && Marked(cfg, w.secrets[n]) ==>
      || w.secrets[n] in baseline
      || exists i, now :: 0 <= i < |log| && DemotedBy(cfg, log[i], w.secrets[n], now)
  }

  /** What is deleted is, at that moment, an unpinned registration of the key. */
  ghost predicate FairDelete(cfg: Settings, write: Write) {
    write.op.Deleted? ==>
      var s := write.op.secret;
      Owned(cfg, s) && Source(cfg, s) == write.key && !Pinned(cfg, s)
  }

  ghost predicate FairDeletes(cfg: Settings, log: seq<Write>) {
    forall w :: w in log ==> FairDelete(cfg, w)
  }

  /** A marked Secret that is deleted is the version some earlier demotion
      wrote, or was marked before the run began. */
  ghost predicate TracedAt(cfg: Settings, baseline: set<Secret>, log: seq<Write>, j: nat)
    requires j < |log|
  {
    log[j].op.Deleted? && Marked(cfg, log[j].op.secret) ==>
      || log[j].op.secret in baseline
      || exists i, now :: 0 <= i < j && DemotedBy(cfg, log[i], log[j].op.secret, now)
  }

  ghost predicate Traced(cfg: Settings, baseline: set<Secret>, log: seq<Write>) {
    forall j :: 0 <= j < |log| ==> TracedAt(cfg, baseline, log, j)
  }

  ghost predicate Coherent(cfg: Settings, rule: Rule, baseline: set<Secret>, log: seq<Write>, w: World) {
    Stable(rule) ==>
      NeverBoth(cfg, w) && Stamped(cfg, baseline, log, w) && FairDeletes(cfg, log) && Traced(cfg, baseline, log)
  }

  lemma WriteTraced(cfg: Settings, baseline: set<Secret>, log: seq<Write>, w: World, write: Write)
    requires Issued(w, write.op) && FairDelete(cfg, write)
    requires Stamped(cfg, baseline, log, w) && Traced(cfg, baseline, log)
    ensures Traced(cfg, baseline, log + [write])
  {
    var log' := log + [write];
    forall j | 0 <= j < |log'| ensures TracedAt(cfg, baseline, log', j) {
      if log'[j].op.Deleted? && Marked(cfg, log'[j].op.secret) && log'[j].op.secret !in baseline {
        assert j < |log| ==> TracedAt(cfg, baseline, log, j) && log[j] == log'[j];
        var i, now :| 0 <= i < j && DemotedBy(cfg, log[i], log'[j].op.secret, now);
        assert log'[i] == log[i];
      }
    }
  }

  lemma PermitsCoherent(cfg: Settings, rule: Rule, baseline: set<Secret>, log: seq<Write>, w: World, w': World)
    requires Permits(cfg, rule, w, w') && Coherent(cfg, rule, baseline, log, w)
    ensures Coherent(cfg, rule, baseline, log, w')
  {
  }

  lemma WriteCoherent(cfg: Settings, rule: Rule, baseline: set<Secret>, log: seq<Write>, w: World, write: Write)
    requires cfg.Usable() && Issued(w, write.op) && Justified(cfg, write)
    requires Coherent(cfg, rule, baseline, log, w) && (Stable(rule) ==> FairDelete(cfg, write))
    ensures Coherent(cfg, rule, baseline, log + [write], Perform(w, write.op))
  {
    if Stable(rule) {
      var w' := Perform(w, write.op);
      WriteTraced(cfg, baseline, log, w, write);
      forall n | n in w'.secrets && Owned(cfg, w'.secrets[n])
        ensures !(Visible(cfg, w'.secrets[n]) && Marked(cfg, w'.secrets[n]))
        ensures Marked(cfg, w'.secrets[n]) ==>
          || w'.secrets[n] in baseline
          || exists i, now :: 0 <= i < |log + [write]| && DemotedBy(cfg, (log + [write])[i], w'.secrets[n], now)
      {
        if n in w.secrets && w'.secrets[n] == w.secrets[n] {
          if Marked(cfg, w.secrets[n]) && w.secrets[n] !in baseline {
            var i, now :| 0 <= i < |log| && DemotedBy(cfg, log[i], w.secrets[n], now);
            assert (log + [write])[i] == log[i];
          }
        } else {
          WrittenCoherent(cfg, log, write, w'.secrets[n]);
        }
      }
    }
  }

  lemma WrittenCoherent(cfg: Settings, log: seq<Write>, write: Write, s: Secret)
    requires cfg.Usable() && Justified(cfg, write)
    requires (write.op.Created? && write.op.secret == s) || (write.op.Updated? && write.op.after == s)
    ensures !(Visible(cfg, s) && Marked(cfg, s))
    ensures Marked(cfg, s) ==> exists i, now :: 0 <= i < |log + [write]| && DemotedBy(cfg, (log + [write])[i], s, now)
  {
    if write.op.Created? {
      CreatedReads(cfg, write.key, write.seen, s);
    } else {
      var before := write.op.before;
      UpdatedReads(cfg, write.key, write.seen, before, s);
      if IsRefresh(cfg, write.key, write.seen, before, s) {
        RefreshedReads(cfg, write.key, write.seen, before, s);
      } else {
        var now :| IsDemotion(cfg, write.key, write.seen, before, s, now);
        assert (log + [write])[|log|] == write;
        assert DemotedBy(cfg, (log + [write])[|log|], s, now);
      }
    }
  }

  // --------------------------------------------------------- the TTL guarantee

  /** Formatting to the second and parsing back floors the time to the second. */
  ghost predicate StampRoundTrips(lib: Library) {
    forall t :: 0 <= t < ERA_END ==> lib.stamp(t) != "" && lib.unstamp(lib.stamp(t)) == Some(t / SECOND * SECOND)
  }

  /** Its stamp is the one that a demotion at this time writes. */
  ghost predicate StampedAt(cfg: Settings, s: Secret, at: int) {
    StampRoundTrips(cfg.lib) && 0 <= at < ERA_END && Get(s.labels, cfg.keys.staleSince) == cfg.lib.stamp(at)
  }

  lemma DemotionStamps(cfg: Settings, write: Write, s: Secret, demotedAt: int)
    requires cfg.Usable() && StampRoundTrips(cfg.lib) && DemotedBy(cfg, write, s, demotedAt)
    ensures StampedAt(cfg, s, demotedAt)
  {
    var before := write.op.before;
    var heir :| DemotionFor(cfg, write.key, write.seen, before, s, demotedAt, heir);
    DemotedReads(cfg, before, heir, cfg.lib.stamp(demotedAt));
  }

  /** The clock of a demotion, both ways: its TTL is over as soon as more than the
      TTL has passed since the second in which it was made. */
  lemma AgedExactly(cfg: Settings, s: Secret, at: int, now: int)
    requires StampedAt(cfg, s, at)
    ensures OutlivedAt(cfg, s, now) <==> cfg.demotedTtl > 0 && now - at / SECOND * SECOND > cfg.demotedTtl
    ensures cfg.demotedTtl > 0 && now - at > cfg.demotedTtl ==> OutlivedAt(cfg, s, now)
  {
  }

  /** A Secret this run demoted at `demotedAt` outlives its TTL only when more than
      the TTL less one second has passed. */
  lemma OutlivedMeansElapsed(cfg: Settings, write: Write, s: Secret, demotedAt: int, now: int)
    requires cfg.Usable() && StampRoundTrips(cfg.lib)
    requires DemotedBy(cfg, write, s, demotedAt) && OutlivedAt(cfg, s, now)
    ensures now - demotedAt > cfg.demotedTtl - SECOND
  {
  }

  // ------------------------------------------------------------ whole snapshots

  /** The invariant of every run: a usable configuration, a valid store, and
      nothing in the log that was not justified when it was written. */
  ghost predicate Sound(cfg: Settings, rule: Rule, baseline: set<Secret>, s: Snap) {
    && cfg.Usable() && ValidWorld(s.world)
    && AllJustified(cfg, s.log)
    && Coherent(cfg, rule, baseline, s.log, s.world)
  }

  /** From one point of a pass to a later one: the invariant is kept, evidence
      and log only grow, without a write every change is by others' hands, and a
      dry run writes nothing. */
  ghost predicate Advance(cfg: Settings, rule: Rule, baseline: set<Secret>, s: Snap, t: Snap) {
    && Sound(cfg, rule, baseline, t)
    && t.key == s.key && s.seen <= t.seen && s.log <= t.log
    && Evolves(cfg, rule, s.key, s.world, t.world)
    && (t.log == s.log ==> Permits(cfg, rule, s.world, t.world))
    && (cfg.dryRun ==> t.log == s.log)
  }

  lemma ReadAdvances(cfg: Settings, rule: Rule, baseline: set<Secret>, s: Snap, t: Snap)
    requires Sound(cfg, rule, baseline, s)
    requires t.key == s.key && s.seen <= t.seen && s.log == t.log && Permits(cfg, rule, s.world, t.world)
    ensures Advance(cfg, rule, baseline, s, t)
  {
    PermitsCoherent(cfg, rule, baseline, s.log, s.world, t.world);
    PermittedEvolves(cfg, rule, s.key, s.world, t.world);
  }

  lemma WriteAdvances(cfg: Settings, rule: Rule, baseline: set<Secret>, s: Snap, mid: World, op: Op, t: Snap)
    requires Sound(cfg, rule, baseline, s) && !cfg.dryRun
    requires Permits(cfg, rule, s.world, mid) && Issued(mid, op)
    requires Justified(cfg, Write(s.key, s.seen, op)) && (Stable(rule) ==> FairDelete(cfg, Write(s.key, s.seen, op)))
    requires t.world == Perform(mid, op) && t.key == s.key
    requires t.seen == s.seen + {Wrote(op)} && t.log == s.log + [Write(s.key, s.seen, op)]
    ensures Advance(cfg, rule, baseline, s, t)
  {
    var write := Write(s.key, s.seen, op);
    PermitsCoherent(cfg, rule, baseline, s.log, s.world, mid);
    PermittedEvolves(cfg, rule, s.key, s.world, mid);
    WriteCoherent(cfg, rule, baseline, s.log, mid, write);
    WriteEvolves(cfg, rule, mid, write);
    EvolvesTransitive(cfg, rule, s.key, s.world, mid, t.world);
  }

  lemma AdvanceTransitive(cfg: Settings, rule: Rule, baseline: set<Secret>, s: Snap, t: Snap, u: Snap)
    requires ValidWorld(s.world)
    requires Advance(cfg, rule, baseline, s, t) && Advance(cfg, rule, baseline, t, u)
    ensures Advance(cfg, rule, baseline, s, u)
  {
    EvolvesTransitive(cfg, rule, s.key, s.world, t.world, u.world);
    if u.log == s.log { PermitsTransitive(cfg, rule, s.world, t.world, u.world); }
  }

  /** If the store still holds the version that was read, it holds what was read. */
  ghost predicate Carried(w: World, s: Secret) {
    && s.name != "" && s.rv < w.nextRv
    && (s.name in w.secrets && w.secrets[s.name].rv == s.rv ==> w.secrets[s.name] == s)
  }

  lemma CarriedStays(w: World, w': World, s: Secret)
    requires Carried(w, s) && Since(w, w')
    ensures Carried(w', s)
  {
  }

  /** Carried, and, when others keep their hands off, the object of that identity
      is still an unpinned registration of the key. */
  ghost predicate Tracked(cfg: Settings, rule: Rule, key: string, w: World, s: Secret) {
    && Carried(w, s) && s.uid < w.nextUid
    && (Stable(rule) && !Pinned(cfg, s) && s.name in w.secrets && w.secrets[s.name].uid == s.uid ==>
          FairDelete(cfg, Write(key, {}, Deleted(w.secrets[s.name]))))
  }

  lemma ListedIsTracked(cfg: Settings, rule: Rule, key: string, w: World, w': World, s: Secret)
    requires ValidWorld(w) && Stored(w, s) && Owned(cfg, s) && Source(cfg, s) == key && key != ""
    requires Evolves(cfg, rule, key, w, w')
    ensures Tracked(cfg, rule, key, w', s)
  {
  }

  lemma TrackedStays(cfg: Settings, rule: Rule, key: string, w: World, w': World, s: Secret)
    requires key != "" && Evolves(cfg, rule, key, w, w') && Tracked(cfg, rule, key, w, s)
    ensures Tracked(cfg, rule, key, w', s)
  {
  }

  ghost predicate Stored(w: World, s: Secret) {
    s.name in w.secrets && w.secrets[s.name] == s
  }

  /** The two worlds agree about one name. */
  ghost predicate Same(w: World, w': World, n: string) {
    (n in w.secrets <==> n in w'.secrets) && (n in w.secrets ==> w.secrets[n] == w'.secrets[n])
  }

  ghost predicate OnlyAt(w: World, w': World, name: string) {
    forall n :: n != name ==> Same(w, w', n)
  }

  lemma NoMintTransitive(cfg: Settings, a: World, b: World, c: World)
    requires NoMint(cfg, a, b) && NoMint(cfg, b, c)
    ensures NoMint(cfg, a, c)
  {
  }
}
