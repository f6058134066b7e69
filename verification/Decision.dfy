/** What apply decides when nothing interferes: the verdict of one claim on one
    state of the store, and the state it leaves. */
module Decision {
  import opened Results
  import opened Text
  import opened Objects
  import opened Merge
  import opened Contest
  import opened Api
  import opened Evidence

  /** checkOwnership: incumbency, and adoption only of a Secret that already
      names this exact cluster. */
  function CheckOwnership(cfg: Settings, existing: Secret, c: Child): Option<Reason> {
    if !Owned(cfg, existing) then Some(NotManaged)
    else if Source(cfg, existing) == c.namespace then None
    else if Source(cfg, existing) == "" then
      if ClusterOf(cfg, existing) != c.cluster then Some(OrphanClusterMismatch) else None
    else Some(Incumbent)
  }

  /** How many adoptions a passed ownership check counts: one if it gives a
      namespace to a Secret that recorded none. */
  function AdoptionsOf(cfg: Settings, existing: Secret, c: Child): nat {
    if CheckOwnership(cfg, existing, c) == None && Source(cfg, existing) != c.namespace then 1 else 0
  }

  function AdoptionsIn(cfg: Settings, w: World, c: Child): nat {
    if SecretName(c.cluster) in w.secrets then AdoptionsOf(cfg, w.secrets[SecretName(c.cluster)], c) else 0
  }

  ghost predicate Claims(cfg: Settings, cluster: string, ns: Namespace) {
    Matches(ClaimSelector(cfg, cluster), ns.labels) && !ns.terminating
  }

  /** An older live namespace claims the name as well. */
  ghost predicate NameTaken(cfg: Settings, w: World, c: Child) {
    exists n :: n in w.namespaces && n != c.namespace && Claims(cfg, c.cluster, w.namespaces[n])
      && forall m :: m in w.namespaces && Claims(cfg, c.cluster, w.namespaces[m]) ==>
           m == n || Older(w.namespaces[n], w.namespaces[m])
  }

  /** The namespace is the eldest of those that claim the cluster's name: no other
      was created earlier, nor at the same time with a lesser name. */
  ghost predicate Eldest(cfg: Settings, w: World, cluster: string, ns: string) {
    && ns in w.namespaces && Claims(cfg, cluster, w.namespaces[ns])
    && forall m :: m in w.namespaces && Claims(cfg, cluster, w.namespaces[m]) && m != ns ==>
         || w.namespaces[ns].created < w.namespaces[m].created
         || (w.namespaces[ns].created == w.namespaces[m].created
             && Less(w.namespaces[ns].name, w.namespaces[m].name))
  }

  ghost predicate KeepsByLabels(cfg: Settings, w: World, c: Child, s: Secret) {
    var source := Get(s.labels, cfg.keys.source);
    && Get(s.labels, cfg.keys.secretType) == "cluster" && Get(s.labels, cfg.keys.orphaned) == ""
    && TrimSlashes(Get(s.data, "server")) == c.server
    && (source == "" || source != c.namespace)
    && (Get(s.labels, cfg.keys.prune) == "disabled" || source == "" || source in w.namespaces)
  }

  /** What keeps an address, by the labels of its holder: ArgoCD sees it, it is not
      demoted and not this namespace's own, and it is pinned, or of no namespace, or of
      one that is there. */
  lemma AddressTakenByLabels(cfg: Settings, w: World, c: Child)
    ensures AddressTaken(cfg, w, c) <==> exists n :: n in w.secrets && KeepsByLabels(cfg, w, c, w.secrets[n])
  {
    forall n | n in w.secrets
      ensures Matches(ArgoSelector(cfg), w.secrets[n].labels) <==>
              Get(w.secrets[n].labels, cfg.keys.secretType) == "cluster"
    {
      assert cfg.keys.secretType in ArgoSelector(cfg);
    }
  }

  /** Why a claim of a name that is held is refused, by the labels of the holder:
      not ours; another namespace's; or nobody's, and of another cluster. Otherwise it
      is the namespace's own, or is adopted because it names this very cluster. */
  lemma OwnershipByLabels(cfg: Settings, w: World, c: Child)
    requires SecretName(c.cluster) in w.secrets
    ensures var labels := w.secrets[SecretName(c.cluster)].labels;
            var ours := Get(labels, cfg.keys.managedBy) == cfg.owner;
            var source, cluster := Get(labels, cfg.keys.source), Get(labels, cfg.keys.cluster);
            && (Decide(cfg, w, c) == Refuse(NotManaged) <==> !ours)
            && (Decide(cfg, w, c) == Refuse(Incumbent) <==> ours && source !in {"", c.namespace})
            && (Decide(cfg, w, c) == Refuse(OrphanClusterMismatch) <==>
                  ours && source == "" != c.namespace && cluster != c.cluster)
            && (Decide(cfg, w, c) in {UpToDate, WouldUpdate, Refuse(ServerCollision)} <==>
                  ours && (source == c.namespace || (source == "" && cluster == c.cluster)))
            && (AdoptionsIn(cfg, w, c) == 1 <==> ours && source == "" != c.namespace && cluster == c.cluster)
            && AdoptionsIn(cfg, w, c) <= 1
  {
  }

  /** A claim is refused for its address exactly when it is made of a free name that the
      contest leaves it, or moves the trimmed address of a registration it may write,
      and somebody keeps the address. */
  lemma CollisionExactly(cfg: Settings, w: World, c: Child)
    requires TrimSlashes(c.server) == c.server
    ensures Decide(cfg, w, c) == Refuse(ServerCollision) <==>
            && (exists n :: n in w.secrets && KeepsByLabels(cfg, w, c, w.secrets[n]))
            && if SecretName(c.cluster) !in w.secrets then !NameTaken(cfg, w, c)
               else && CheckOwnership(cfg, w.secrets[SecretName(c.cluster)], c) == None
                    && TrimSlashes(Get(w.secrets[SecretName(c.cluster)].data, "server")) != c.server
  {
    AddressTakenByLabels(cfg, w, c);
    if SecretName(c.cluster) in w.secrets { MovedIsChanged(cfg, w.secrets[SecretName(c.cluster)], c); }
  }

  lemma MovedIsChanged(cfg: Settings, s: Secret, c: Child)
    requires TrimSlashes(c.server) == c.server
    ensures TrimSlashes(Get(s.data, "server")) != c.server ==> IsChanged(cfg, s, c)
  {
    assert WantData(c)["server"] == c.server;
  }

  /** A live namespace of ours that carries this cluster label. */
  ghost predicate LiveClaimant(cfg: Settings, w: World, cluster: string, ns: string) {
    && cluster != "" && ns in w.namespaces && !w.namespaces[ns].terminating
    && Get(w.namespaces[ns].labels, cfg.keys.managedBy) == cfg.owner
    && Get(w.namespaces[ns].labels, cfg.keys.cluster) == cluster
  }

  /** Some other live namespace of ours carries this cluster label, and was created
      earlier, or at the same time with a lesser name. */
  ghost predicate EarlierClaimant(cfg: Settings, w: World, cluster: string, ns: string)
    requires ns in w.namespaces
  {
    exists m :: m != ns && LiveClaimant(cfg, w, cluster, m)
      && (|| w.namespaces[m].created < w.namespaces[ns].created
          || (w.namespaces[m].created == w.namespaces[ns].created && Less(m, ns)))
  }

  /** This Secret keeps the address from a claim out of `key`. */
  ghost predicate Blocks(cfg: Settings, w: World, key: string, server: string, s: Secret) {
    && Matches(ArgoSelector(cfg), s.labels)
    && !(Source(cfg, s) != "" && Source(cfg, s) == key)
    && !Marked(cfg, s)
    && TrimSlashes(Server(s)) == server
    && (Pinned(cfg, s) || Source(cfg, s) == "" || Source(cfg, s) in w.namespaces)
  }

  ghost predicate AddressTaken(cfg: Settings, w: World, c: Child) {
    exists n :: n in w.secrets && Blocks(cfg, w, c.namespace, c.server, w.secrets[n])
  }

  datatype Verdict = Refuse(reason: Reason) | WouldCreate | WouldUpdate | UpToDate

  ghost function Decide(cfg: Settings, w: World, c: Child): Verdict {
    var name := SecretName(c.cluster);
    if name !in w.secrets then
      if NameTaken(cfg, w, c) then Refuse(ContestedName)
      else if AddressTaken(cfg, w, c) then Refuse(ServerCollision)
      else WouldCreate
    else
      var existing := w.secrets[name];
      var refused := CheckOwnership(cfg, existing, c);
      if refused.Some? then Refuse(refused.value)
      else if !IsChanged(cfg, existing, c) then UpToDate
      else if TrimSlashes(Server(existing)) != c.server && AddressTaken(cfg, w, c) then Refuse(ServerCollision)
      else WouldUpdate
  }

  function Draft(cfg: Settings, c: Child): Secret {
    Secret(SecretName(c.cluster), 0, 0, WantLabels(cfg, c), c.annotations, WantData(c))
  }

  /** The store after a real apply of this child. */
  ghost function AfterApply(cfg: Settings, w: World, c: Child): World {
    match Decide(cfg, w, c)
    case WouldCreate => Perform(w, Created(Draft(cfg, c).(uid := w.nextUid, rv := w.nextRv)))
    case WouldUpdate =>
      var s := w.secrets[SecretName(c.cluster)];
      Perform(w, Updated(s, Merged(cfg, s, c).(rv := w.nextRv)))
    case _ => w
  }

  /** A verdict does not depend on the time. */
  lemma DecideIgnoresClock(cfg: Settings, w: World, w': World, c: Child)
    requires w' == w.(clock := w'.clock)
    ensures Decide(cfg, w', c) == Decide(cfg, w, c)
    ensures AfterApply(cfg, w', c) == AfterApply(cfg, w, c).(clock := w'.clock)
    ensures NameTaken(cfg, w', c) == NameTaken(cfg, w, c)
    ensures AddressTaken(cfg, w', c) == AddressTaken(cfg, w, c)
  {
    assert forall s :: Blocks(cfg, w', c.namespace, c.server, s) == Blocks(cfg, w, c.namespace, c.server, s);
    NameIgnoresClock(cfg, w, w', c);
    NameIgnoresClock(cfg, w', w, c);
  }

  lemma NameIgnoresClock(cfg: Settings, w: World, w': World, c: Child)
    requires w'.namespaces == w.namespaces
    ensures NameTaken(cfg, w, c) ==> NameTaken(cfg, w', c)
  {
  }

  /** A verdict does not depend on dry-run: a rehearsal refuses exactly what a
      real apply would refuse, for the same reason. */
  lemma DecideIgnoresDryRun(cfg: Settings, w: World, c: Child, dry: bool)
    ensures Decide(cfg.(dryRun := dry), w, c) == Decide(cfg, w, c)
  {
    var cfg' := cfg.(dryRun := dry);
    assert forall s :: Blocks(cfg', w, c.namespace, c.server, s) == Blocks(cfg, w, c.namespace, c.server, s);
    assert forall ns :: Claims(cfg', c.cluster, ns) == Claims(cfg, c.cluster, ns);
    NameIgnoresDryRun(cfg, cfg', w, c);
    NameIgnoresDryRun(cfg', cfg, w, c);
  }

  lemma NameIgnoresDryRun(cfg: Settings, cfg': Settings, w: World, c: Child)
    requires forall ns :: Claims(cfg', c.cluster, ns) == Claims(cfg, c.cluster, ns)
    ensures NameTaken(cfg, w, c) ==> NameTaken(cfg', w, c)
  {
  }

  /** The list of claimants leaves the name to the child's namespace exactly
      when no other namespace takes it. */
  lemma ListedClaim(cfg: Settings, w: World, items: seq<Namespace>, c: Child)
    requires ValidWorld(w) && ListsNamespaces(w, ClaimSelector(cfg, c.cluster), items)
    ensures MayCreate(items, c.namespace) <==> !NameTaken(cfg, w, c)
  {
    if NoClaimant(items) {
      forall n | n in w.namespaces ensures !Claims(cfg, c.cluster, w.namespaces[n]) {
        if Matches(ClaimSelector(cfg, c.cluster), w.namespaces[n].labels) { assert w.namespaces[n] in items; }
      }
    } else {
      SomeEldest(items);
      var x :| IsEldest(items, x);
      assert x.name in w.namespaces && w.namespaces[x.name] == x;
      forall m | m in w.namespaces && Claims(cfg, c.cluster, w.namespaces[m])
        ensures m == x.name || Older(x, w.namespaces[m])
      {
        assert w.namespaces[m] in items;
      }
      if x.name == c.namespace {
        if NameTaken(cfg, w, c) {
          var n :| n in w.namespaces && n != c.namespace && Claims(cfg, c.cluster, w.namespaces[n])
            && forall m :: m in w.namespaces && Claims(cfg, c.cluster, w.namespaces[m]) ==>
                 m == n || Older(w.namespaces[n], w.namespaces[m]);
          OlderAsymmetric(x, w.namespaces[n]);
        }
      } else if MayCreate(items, c.namespace) {
        var y :| IsEldest(items, y) && y.name == c.namespace;
        EldestUnique(items, items, x, y);
      }
    }
  }

  /** Where anyone claims the name there is an eldest, and only one. */
  lemma SomeoneIsEldest(cfg: Settings, w: World, cluster: string, claimant: string) returns (ns: string)
    requires ValidWorld(w) && claimant in w.namespaces && Claims(cfg, cluster, w.namespaces[claimant])
    ensures Eldest(cfg, w, cluster, ns)
    ensures forall other :: Eldest(cfg, w, cluster, other) ==> other == ns
  {
    ns := claimant;
    var left := w.namespaces.Keys - {claimant};
    while left != {}
      invariant ns in w.namespaces && Claims(cfg, cluster, w.namespaces[ns]) && ns !in left
      invariant forall m :: m in w.namespaces && m !in left && Claims(cfg, cluster, w.namespaces[m]) ==>
                  m == ns || Older(w.namespaces[ns], w.namespaces[m])
      decreases left
    {
      var m :| m in left;
      var rest := left - {m};
      if Claims(cfg, cluster, w.namespaces[m]) {
        OlderTotal(w.namespaces[m], w.namespaces[ns]);
        if Older(w.namespaces[m], w.namespaces[ns]) {
          forall x | x in w.namespaces && x !in rest && Claims(cfg, cluster, w.namespaces[x])
            ensures x == m || Older(w.namespaces[m], w.namespaces[x])
          {
            if x != m && x != ns { OlderTransitive(w.namespaces[m], w.namespaces[ns], w.namespaces[x]); }
          }
          ns := m;
        }
      }
      left := rest;
    }
    forall other | Eldest(cfg, w, cluster, other) ensures other == ns {
      if other != ns { OlderAsymmetric(w.namespaces[ns], w.namespaces[other]); }
    }
  }

  lemma ClaimsByLabel(cfg: Settings, cluster: string, ns: Namespace)
    requires cfg.Usable() && cluster != ""
    ensures Claims(cfg, cluster, ns) <==>
            && Get(ns.labels, cfg.keys.managedBy) == cfg.owner && Get(ns.labels, cfg.keys.cluster) == cluster
            && !ns.terminating
  {
    OwnKeys(cfg);
    var selector := ClaimSelector(cfg, cluster);
    assert cfg.keys.managedBy in selector && cfg.keys.cluster in selector;
  }

  /** A live claimant loses the contest exactly to an earlier one. */
  lemma TakenExactlyByEarlier(cfg: Settings, w: World, c: Child)
    requires cfg.Usable() && ValidWorld(w) && LiveClaimant(cfg, w, c.cluster, c.namespace)
    ensures NameTaken(cfg, w, c) <==> EarlierClaimant(cfg, w, c.cluster, c.namespace)
  {
    forall m | m in w.namespaces
      ensures Claims(cfg, c.cluster, w.namespaces[m]) <==> LiveClaimant(cfg, w, c.cluster, m)
    {
      ClaimsByLabel(cfg, c.cluster, w.namespaces[m]);
    }
    var eldest := SomeoneIsEldest(cfg, w, c.cluster, c.namespace);
    if m :| m in w.namespaces && m != c.namespace && Claims(cfg, c.cluster, w.namespaces[m])
            && Older(w.namespaces[m], w.namespaces[c.namespace]) {
      OlderAsymmetric(w.namespaces[m], w.namespaces[c.namespace]);
    }
  }

  /** Namespace `k` deleted and made again, so created later; or just found to be. */
  ghost predicate Recreated(w: World, w': World, k: string) {
    && k in w.namespaces && k in w'.namespaces && w' == w.(namespaces := w.namespaces[k := w'.namespaces[k]])
    && w'.namespaces[k].labels == w.namespaces[k].labels && w'.namespaces[k].terminating == w.namespaces[k].terminating
    && w.namespaces[k].created <= w'.namespaces[k].created
  }

  /** Why the oldest wins: making a namespace again never turns its refusal into a
      success, and never costs another claimant the win. */
  lemma RecreatingNeverHelps(cfg: Settings, w: World, w': World, k: string, c: Child)
    requires cfg.Usable() && ValidWorld(w) && ValidWorld(w') && Recreated(w, w', k)
    requires LiveClaimant(cfg, w, c.cluster, c.namespace)
    ensures c.namespace == k ==> NameTaken(cfg, w, c) ==> NameTaken(cfg, w', c)
    ensures c.namespace != k ==> !NameTaken(cfg, w, c) ==> !NameTaken(cfg, w', c)
  {
    TakenExactlyByEarlier(cfg, w, c);
    TakenExactlyByEarlier(cfg, w', c);
    EarlierThanRecreated(cfg, w, w', k, c.cluster, c.namespace);
  }

  lemma EarlierThanRecreated(cfg: Settings, w: World, w': World, k: string, cluster: string, ns: string)
    requires Recreated(w, w', k) && ns in w.namespaces
    ensures ns == k && EarlierClaimant(cfg, w, cluster, ns) ==> EarlierClaimant(cfg, w', cluster, ns)
    ensures ns != k && EarlierClaimant(cfg, w', cluster, ns) ==> EarlierClaimant(cfg, w, cluster, ns)
  {
    forall m ensures LiveClaimant(cfg, w', cluster, m) <==> LiveClaimant(cfg, w, cluster, m) {
    }
    if ns == k && EarlierClaimant(cfg, w, cluster, ns) {
      var m :| m != ns && LiveClaimant(cfg, w, cluster, m) && w.namespaces[m].created <= w.namespaces[ns].created
               && (w.namespaces[m].created < w.namespaces[ns].created || Less(m, ns));
      assert LiveClaimant(cfg, w', cluster, m);
    }
  }

  lemma EldestOutlastsRecreation(cfg: Settings, w: World, w': World, k: string, cluster: string, ns: string)
    requires ValidWorld(w) && ValidWorld(w') && Recreated(w, w', k) && ns != k && Eldest(cfg, w, cluster, ns)
    ensures Eldest(cfg, w', cluster, ns)
  {
  }
}
