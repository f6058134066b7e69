/** Sweeps over a contested cluster name: who ends up holding it. */
module Election {
  import opened Results
  import opened Text
  import opened Objects
  import opened Merge
  import opened Contest
  import opened Api
  import opened Evidence
  import opened Decision
  import opened Selection
  import opened Claiming
  import opened Collection
  import opened Passes

  /** Applies of these children one after the other, nothing interfering. */
  ghost function ApplyAll(cfg: Settings, w: World, order: seq<Child>): World
    decreases |order|
  {
    if order == [] then w else ApplyAll(cfg, AfterApply(cfg, w, order[0]), order[1..])
  }

  /** The cluster's Secret is registered to this namespace. */
  ghost predicate HeldBy(cfg: Settings, w: World, cluster: string, ns: string) {
    var name := SecretName(cluster);
    name in w.secrets && Owned(cfg, w.secrets[name]) && Source(cfg, w.secrets[name]) == ns && ns != ""
  }

  lemma SecretNameInjective(a: string, b: string)
    requires SecretName(a) == SecretName(b)
    ensures a == b
  {
    var prefix := "cluster-";
    assert SecretName(a)[|prefix|..] == a && SecretName(b)[|prefix|..] == b;
  }

  ghost predicate NamedRight(w: World) {
    forall n :: n in w.secrets ==> w.secrets[n].name == n
  }

  lemma PerformFrame(w: World, op: Op)
    requires NamedRight(w) && !op.Deleted?
    ensures var s := if op.Created? then op.secret else op.after;
            var w' := Perform(w, op);
            NamedRight(w') && w'.namespaces == w.namespaces && OnlyAt(w, w', s.name)
  {
  }

  /** One apply touches no Secret but the child's own, and no namespace. */
  lemma ApplyFrame(cfg: Settings, w: World, c: Child)
    requires NamedRight(w)
    ensures var w' := AfterApply(cfg, w, c);
            NamedRight(w') && w'.namespaces == w.namespaces && OnlyAt(w, w', SecretName(c.cluster))
  {
    match Decide(cfg, w, c)
    case WouldCreate =>
      PerformFrame(w, Created(Draft(cfg, c).(uid := w.nextUid, rv := w.nextRv)));
    case WouldUpdate =>
      var s := w.secrets[SecretName(c.cluster)];
      PerformFrame(w, Updated(s, Merged(cfg, s, c).(rv := w.nextRv)));
    case _ =>
  }

  lemma CreatedIsUpToDate(cfg: Settings, w: World, c: Child)
    requires cfg.Usable() && ChildOk(cfg, c) && Decide(cfg, w, c).WouldCreate?
    ensures var w' := AfterApply(cfg, w, c); Decide(cfg, w', c) == UpToDate && AfterApply(cfg, w', c) == w'
  {
    var s := Draft(cfg, c).(uid := w.nextUid, rv := w.nextRv);
    MadeReads(cfg, c, w.nextUid, w.nextRv);
    FreshIsUnchanged(cfg, c, s);
    WrittenIsUpToDate(cfg, AfterApply(cfg, w, c), s, c);
  }

  lemma FreshIsUnchanged(cfg: Settings, c: Child, s: Secret)
    requires s.labels == WantLabels(cfg, c) && s.annotations == c.annotations && s.data == WantData(c)
    ensures !IsChanged(cfg, s, c)
  {
  }

  lemma UpdatedIsUpToDate(cfg: Settings, w: World, c: Child)
    requires cfg.Usable() && ChildOk(cfg, c) && NamedRight(w) && Decide(cfg, w, c).WouldUpdate?
    ensures var w' := AfterApply(cfg, w, c); Decide(cfg, w', c) == UpToDate && AfterApply(cfg, w', c) == w'
  {
    UpdatedIs(cfg, w, c);
    MergedIsUpToDate(cfg, AfterApply(cfg, w, c), w.secrets[SecretName(c.cluster)], c, w.nextRv);
  }

  /** What updating a child's Secret comes to. */
  lemma UpdatedIs(cfg: Settings, w: World, c: Child)
    requires NamedRight(w) && Decide(cfg, w, c).WouldUpdate?
    ensures var s, name := w.secrets[SecretName(c.cluster)], SecretName(c.cluster);
            && s.name == name && CheckOwnership(cfg, s, c) == None
            && AfterApply(cfg, w, c) == AfterUpdate(w, s, Merged(cfg, s, c))
            && Stored(AfterApply(cfg, w, c), Merged(cfg, s, c).(rv := w.nextRv))
  {
    var s := w.secrets[SecretName(c.cluster)];
    UpdateStores(w, s, Merged(cfg, s, c).(rv := w.nextRv));
  }

  lemma MergedIsUpToDate(cfg: Settings, w: World, s: Secret, c: Child, rv: nat)
    requires cfg.Usable() && ChildOk(cfg, c) && s.name == SecretName(c.cluster)
    requires Stored(w, Merged(cfg, s, c).(rv := rv))
    ensures Decide(cfg, w, c) == UpToDate && AfterApply(cfg, w, c) == w
  {
    MergedVersionReads(cfg, s, c, rv);
    MergeConverges(cfg, s, c);
    VersionIsNoChange(cfg, Merged(cfg, s, c), rv, c);
    WrittenIsUpToDate(cfg, w, Merged(cfg, s, c).(rv := rv), c);
  }

  /** Convergence: an apply that was not refused leaves nothing for the next one
      to write, and a second apply changes nothing either way. */
  lemma ApplyIsIdempotent(cfg: Settings, w: World, c: Child)
    requires cfg.Usable() && ChildOk(cfg, c) && NamedRight(w)
    ensures !Decide(cfg, w, c).Refuse? ==> Decide(cfg, AfterApply(cfg, w, c), c) == UpToDate
    ensures AfterApply(cfg, AfterApply(cfg, w, c), c) == AfterApply(cfg, w, c)
  {
    match Decide(cfg, w, c)
    case WouldCreate => CreatedIsUpToDate(cfg, w, c);
    case WouldUpdate => UpdatedIsUpToDate(cfg, w, c);
    case _ =>
  }

  lemma VersionIsNoChange(cfg: Settings, s: Secret, rv: nat, c: Child)
    ensures IsChanged(cfg, s.(rv := rv), c) == IsChanged(cfg, s, c)
  {
  }

  lemma WrittenIsUpToDate(cfg: Settings, w: World, s: Secret, c: Child)
    requires s.name == SecretName(c.cluster) && Stored(w, s)
    requires Owned(cfg, s) && Source(cfg, s) == c.namespace && !IsChanged(cfg, s, c)
    ensures Decide(cfg, w, c) == UpToDate && AfterApply(cfg, w, c) == w
  {
  }

  /** Whoever holds a name keeps it, whichever child is applied. */
  lemma IncumbentStep(cfg: Settings, w: World, c: Child, cluster: string, ns: string)
    requires cfg.Usable() && ChildOk(cfg, c) && NamedRight(w) && HeldBy(cfg, w, cluster, ns)
    ensures HeldBy(cfg, AfterApply(cfg, w, c), cluster, ns)
  {
    if c.cluster == cluster {
      OwnStep(cfg, w, c, ns);
    } else {
      ApplyFrame(cfg, w, c);
      if SecretName(c.cluster) == SecretName(cluster) { SecretNameInjective(c.cluster, cluster); }
      assert Same(w, AfterApply(cfg, w, c), SecretName(cluster));
    }
  }

  lemma OwnStep(cfg: Settings, w: World, c: Child, ns: string)
    requires cfg.Usable() && ChildOk(cfg, c) && NamedRight(w) && HeldBy(cfg, w, c.cluster, ns)
    ensures HeldBy(cfg, AfterApply(cfg, w, c), c.cluster, ns)
  {
    if Decide(cfg, w, c).WouldUpdate? { OwnUpdate(cfg, w, c, ns); }
  }

  lemma OwnUpdate(cfg: Settings, w: World, c: Child, ns: string)
    requires cfg.Usable() && ChildOk(cfg, c) && NamedRight(w) && HeldBy(cfg, w, c.cluster, ns)
    requires Decide(cfg, w, c).WouldUpdate?
    ensures HeldBy(cfg, AfterApply(cfg, w, c), c.cluster, ns)
  {
    MergedVersionReads(cfg, w.secrets[SecretName(c.cluster)], c, w.nextRv);
    UpdatedIs(cfg, w, c);
  }

  lemma UpdateStores(w: World, before: Secret, after: Secret)
    requires after.name == before.name
    ensures Stored(Perform(w, Updated(before, after)), after)
  {
  }

  lemma {:induction false} IncumbentStays(cfg: Settings, w: World, order: seq<Child>, cluster: string, ns: string)
    requires cfg.Usable() && NamedRight(w) && HeldBy(cfg, w, cluster, ns)
    requires forall c :: c in order ==> ChildOk(cfg, c)
    ensures HeldBy(cfg, ApplyAll(cfg, w, order), cluster, ns)
    decreases |order|
  {
    if order != [] {
      ApplyFrame(cfg, w, order[0]);
      IncumbentStep(cfg, w, order[0], cluster, ns);
      IncumbentStays(cfg, AfterApply(cfg, w, order[0]), order[1..], cluster, ns);
    }
  }

  /** Only the eldest claimant passes the contest, and it does. */
  lemma OnlyEldestPasses(cfg: Settings, w: World, cluster: string, ns: string, c: Child)
    requires Eldest(cfg, w, cluster, ns) && c.cluster == cluster
    ensures NameTaken(cfg, w, c) <==> c.namespace != ns
  {
    if c.namespace == ns && NameTaken(cfg, w, c) {
      var n :| n in w.namespaces && n != c.namespace && Claims(cfg, cluster, w.namespaces[n])
        && forall m :: m in w.namespaces && Claims(cfg, cluster, w.namespaces[m]) ==>
             m == n || Older(w.namespaces[n], w.namespaces[m]);
      OlderAsymmetric(w.namespaces[n], w.namespaces[ns]);
    }
  }

  /** What the eldest's child needs: the name free, and its address not kept. */
  ghost predicate Ready(cfg: Settings, w: World, e: Child) {
    && SecretName(e.cluster) !in w.secrets
    && Eldest(cfg, w, e.cluster, e.namespace) && e.namespace != "" && !AddressTaken(cfg, w, e)
  }

  /** No other namespace's child is on this child's address. */
  ghost predicate OwnAddress(cfg: Settings, w: World, e: Child) {
    forall k, c :: Finds(cfg, w, k, c) && k != e.namespace ==> c.server != e.server
  }

  lemma EldestCreates(cfg: Settings, w: World, e: Child)
    requires Ready(cfg, w, e)
    ensures Decide(cfg, w, e) == WouldCreate
  {
    OnlyEldestPasses(cfg, w, e.cluster, e.namespace, e);
  }

  // ------------------------------------------------- others' passes let it be

  /** What changed does not keep the address. */
  ghost predicate Harmless(cfg: Settings, w: World, w': World, e: Child) {
    w'.namespaces == w.namespaces
    && forall n :: n in w'.secrets ==> Same(w, w', n) || !Blocks(cfg, w', e.namespace, e.server, w'.secrets[n])
  }

  lemma HarmlessTransitive(cfg: Settings, a: World, b: World, c: World, e: Child)
    requires Harmless(cfg, a, b, e) && Harmless(cfg, b, c, e)
    ensures Harmless(cfg, a, c, e)
  {
    forall n | n in c.secrets ensures Same(a, c, n) || !Blocks(cfg, c, e.namespace, e.server, c.secrets[n]) {
      if Same(b, c, n) { assert Same(a, b, n) || !Blocks(cfg, b, e.namespace, e.server, b.secrets[n]); }
    }
  }

  lemma ReadyKept(cfg: Settings, w: World, w': World, e: Child)
    requires Ready(cfg, w, e) && SecretName(e.cluster) !in w'.secrets && Harmless(cfg, w, w', e)
    ensures Ready(cfg, w', e)
  {
    forall n | n in w'.secrets ensures !Blocks(cfg, w', e.namespace, e.server, w'.secrets[n]) {
      assert Same(w, w', n) ==> n in w.secrets && !Blocks(cfg, w, e.namespace, e.server, w.secrets[n]);
    }
  }

  lemma ReadyCleared(cfg: Settings, w: World, w': World, e: Child, k: string, uid: string)
    requires Ready(cfg, w, e) && TimeOnly(Cleared(cfg, w, k, uid), w')
    ensures Ready(cfg, w', e)
  {
    ReadyKept(cfg, w, w', e);
  }

  lemma HiddenBlocksNothing(cfg: Settings, w: World, key: string, server: string, s: Secret)
    requires !Visible(cfg, s)
    ensures !Blocks(cfg, w, key, server, s)
  {
    assert cfg.keys.secretType in ArgoSelector(cfg);
  }

  lemma CollectingIsHarmless(cfg: Settings, w: World, w': World, k: string, applied: string, exists_: bool, e: Child)
    requires cfg.Usable() && Collected(cfg, w, w', k, applied, exists_)
    ensures Harmless(cfg, w, w', e)
  {
    CollectionHides(cfg, w, w', k, applied, exists_);
    forall n | n in w'.secrets ensures Same(w, w', n) || !Blocks(cfg, w', e.namespace, e.server, w'.secrets[n]) {
      if !Same(w, w', n) { HiddenBlocksNothing(cfg, w', e.namespace, e.server, w'.secrets[n]); }
    }
  }

  /** A child on another address. */
  lemma ApplyingIsHarmless(cfg: Settings, w: World, c: Child, e: Child)
    requires cfg.Usable() && ChildOk(cfg, c) && NamedRight(w) && c.server != e.server
    ensures Harmless(cfg, w, AfterApply(cfg, w, c), e)
  {
    ApplyFrame(cfg, w, c);
    var w' := AfterApply(cfg, w, c);
    forall n | n in w'.secrets ensures Same(w, w', n) || !Blocks(cfg, w', e.namespace, e.server, w'.secrets[n]) {
      if n == SecretName(c.cluster) && !Same(w, w', n) { WrittenServer(cfg, w, c); }
    }
  }

  lemma WrittenServer(cfg: Settings, w: World, c: Child)
    requires cfg.Usable() && ChildOk(cfg, c) && NamedRight(w) && AfterApply(cfg, w, c).secrets != w.secrets
    ensures var s := AfterApply(cfg, w, c).secrets;
            SecretName(c.cluster) in s && Server(s[SecretName(c.cluster)]) == c.server
  {
    match Decide(cfg, w, c)
    case WouldCreate => CreatedIs(cfg, w, c);
    case WouldUpdate =>
      UpdatedIs(cfg, w, c);
      MergedVersionReads(cfg, w.secrets[SecretName(c.cluster)], c, w.nextRv);
    case _ =>
  }

  lemma ClaimIsHarmless(cfg: Settings, w: World, w': World, c: Child, ending: Ending, e: Child)
    requires cfg.Usable() && !cfg.dryRun && ChildOk(cfg, c) && NamedRight(w) && c.server != e.server
    requires Claimed(cfg, w, w', c, ending)
    ensures Harmless(cfg, w, w', e)
  {
    if !Decide(cfg, w, c).Refuse? {
      var mid := AfterApply(cfg, w, c);
      ApplyingIsHarmless(cfg, w, c, e);
      CollectingIsHarmless(cfg, mid, w', c.namespace, SecretName(c.cluster), true, e);
      HarmlessTransitive(cfg, w, mid, w', e);
    }
  }

  /** A pass that finds no child on the address, whatever else it does. */
  lemma PassIsHarmless(cfg: Settings, w: World, w': World, k: string, ending: Ending, e: Child)
    requires cfg.Usable() && !cfg.dryRun && ValidWorld(w) && Passed(cfg, w, w', k, ending)
    requires forall c :: Finds(cfg, w, k, c) ==> c.server != e.server
    ensures Harmless(cfg, w, w', e)
  {
    if k !in w.namespaces {
      CollectingIsHarmless(cfg, w, w', k, "", false, e);
    } else if Standing(cfg, w, k) {
      SurveyIsHarmless(cfg, w, w', k, ending, e);
    }
  }

  lemma SurveyIsHarmless(cfg: Settings, w: World, w': World, k: string, ending: Ending, e: Child)
    requires cfg.Usable() && !cfg.dryRun && ValidWorld(w) && k in w.namespaces && Surveyed(cfg, w, w', k, ending)
    requires forall c :: Finds(cfg, w, k, c) ==> c.server != e.server
    ensures Harmless(cfg, w, w', e)
  {
    var mid := Cleared(cfg, w, k, w.namespaces[k].uid);
    if c :| Finds(cfg, w, k, c) && Claimed(cfg, mid, w', c, ending) {
      FoundChild(cfg, w, k, c);
      ClaimIsHarmless(cfg, mid, w', c, ending, e);
    }
    HarmlessTransitive(cfg, w, mid, w', e);
  }

  /** While the name is free, a claim of it that passes is the eldest's. */
  lemma OnlyOtherClusters(cfg: Settings, w: World, cluster: string, ns: string, c: Child)
    requires SecretName(cluster) !in w.secrets && Eldest(cfg, w, cluster, ns)
    requires c.namespace != ns && !Decide(cfg, w, c).Refuse?
    ensures SecretName(c.cluster) != SecretName(cluster)
  {
    if SecretName(c.cluster) == SecretName(cluster) {
      SecretNameInjective(c.cluster, cluster);
      OnlyEldestPasses(cfg, w, cluster, ns, c);
    }
  }

  /** The child a pass found belongs to its key. */
  lemma FoundChild(cfg: Settings, w: World, k: string, c: Child)
    requires cfg.Usable() && ValidWorld(w) && Finds(cfg, w, k, c)
    ensures ChildOk(cfg, c) && c.namespace == k && c.cluster == Get(w.namespaces[k].labels, cfg.keys.cluster)
    ensures c.namespaceUid == w.namespaces[k].uid
  {
    DiscoveredChild(cfg, w.namespaces[k], SourcesOf(w, k), c);
  }

  /** A pass that registers made its claim in the state that clearing away left. */
  lemma RegisteringPass(cfg: Settings, w: World, w': World, k: string, ending: Ending) returns (c: Child)
    requires cfg.Usable() && ValidWorld(w) && Passed(cfg, w, w', k, ending) && ending.RegisteredAs?
    ensures Standing(cfg, w, k) && Finds(cfg, w, k, c) && ChildOk(cfg, c) && c.namespace == k
    ensures ending.name == SecretName(c.cluster)
    ensures var mid := Cleared(cfg, w, k, w.namespaces[k].uid);
            && !Decide(cfg, mid, c).Refuse?
            && Collected(cfg, Applied(cfg, mid, c), w', k, ending.name, true)
  {
    c :| Finds(cfg, w, k, c) && Claimed(cfg, Cleared(cfg, w, k, w.namespaces[k].uid), w', c, ending);
    FoundChild(cfg, w, k, c);
  }

  lemma CollectedAddsNothing(cfg: Settings, w: World, w': World, k: string, applied: string, exists_: bool,
                             name: string)
    requires Collected(cfg, w, w', k, applied, exists_) && name !in w.secrets
    ensures name !in w'.secrets
  {
    assert if RecordedAt(cfg, w, k, name) && name != applied then Tidy(cfg, w, w', name, exists_)
           else Same(w, w', name);
  }

  /** Another namespace's claim leaves the name free. */
  lemma FreeClaimed(cfg: Settings, w: World, w': World, c: Child, ending: Ending, cluster: string, ns: string)
    requires !cfg.dryRun && NamedRight(w) && SecretName(cluster) !in w.secrets && Eldest(cfg, w, cluster, ns)
    requires c.namespace != ns && Claimed(cfg, w, w', c, ending)
    ensures SecretName(cluster) !in w'.secrets
  {
    if !Decide(cfg, w, c).Refuse? {
      OnlyOtherClusters(cfg, w, cluster, ns, c);
      ApplyFrame(cfg, w, c);
      assert Same(w, AfterApply(cfg, w, c), SecretName(cluster));
      CollectedAddsNothing(cfg, AfterApply(cfg, w, c), w', c.namespace, SecretName(c.cluster), true,
                           SecretName(cluster));
    }
  }

  /** A pass leaves a free name free if it is not the eldest's, or finds nothing. */
  lemma FreePassed(cfg: Settings, w: World, w': World, k: string, ending: Ending, cluster: string, ns: string)
    requires cfg.Usable() && !cfg.dryRun && ValidWorld(w)
    requires SecretName(cluster) !in w.secrets && Eldest(cfg, w, cluster, ns) && Passed(cfg, w, w', k, ending)
    requires k != ns || forall c :: !Finds(cfg, w, ns, c)
    ensures SecretName(cluster) !in w'.secrets
  {
    if k !in w.namespaces {
      CollectedAddsNothing(cfg, w, w', k, "", false, SecretName(cluster));
    } else if Standing(cfg, w, k) {
      FreeSurveyed(cfg, w, w', k, ending, cluster, ns);
    }
  }

  lemma FreeSurveyed(cfg: Settings, w: World, w': World, k: string, ending: Ending, cluster: string, ns: string)
    requires cfg.Usable() && !cfg.dryRun && ValidWorld(w) && k in w.namespaces
    requires SecretName(cluster) !in w.secrets && Eldest(cfg, w, cluster, ns) && Surveyed(cfg, w, w', k, ending)
    requires k != ns || forall c :: !Finds(cfg, w, ns, c)
    ensures SecretName(cluster) !in w'.secrets
  {
    var mid := Cleared(cfg, w, k, w.namespaces[k].uid);
    if c :| Finds(cfg, w, k, c) && Claimed(cfg, mid, w', c, ending) {
      FoundChild(cfg, w, k, c);
      FreeClaimed(cfg, mid, w', c, ending, cluster, ns);
    }
  }

  /** An undisturbed pass for another key leaves the eldest's child what it needs. */
  lemma ReadyPassed(cfg: Settings, w: World, w': World, k: string, ending: Ending, e: Child)
    requires cfg.Usable() && !cfg.dryRun && ValidWorld(w) && Ready(cfg, w, e) && OwnAddress(cfg, w, e)
    requires k != e.namespace && Passed(cfg, w, w', k, ending)
    ensures Ready(cfg, w', e)
  {
    FreePassed(cfg, w, w', k, ending, e.cluster, e.namespace);
    PassIsHarmless(cfg, w, w', k, ending, e);
    ReadyKept(cfg, w, w', e);
  }

  /** The eldest's own pass then registers it. */
  lemma EldestRegisters(cfg: Settings, w: World, w': World, ending: Ending, e: Child)
    requires cfg.Usable() && ValidWorld(w) && Ready(cfg, w, e) && Finds(cfg, w, e.namespace, e)
    requires Passed(cfg, w, w', e.namespace, ending)
    ensures ending == RegisteredAs(SecretName(e.cluster))
  {
    var k := e.namespace;
    var uid := w.namespaces[k].uid;
    ClaimantStands(cfg, w, e.cluster, k);
    OnlyClaim(cfg, w, w', k, e, ending);
    ReadyCleared(cfg, w, Cleared(cfg, w, k, uid), e, k, uid);
    EldestCreates(cfg, Cleared(cfg, w, k, uid), e);
  }

  lemma ClaimantStands(cfg: Settings, w: World, cluster: string, k: string)
    requires cfg.Usable() && k in w.namespaces && Claims(cfg, cluster, w.namespaces[k])
    ensures Standing(cfg, w, k) && Get(w.namespaces[k].labels, cfg.keys.cluster) == cluster
  {
    OwnKeys(cfg);
    assert cfg.keys.managedBy in ClaimSelector(cfg, cluster) && cfg.keys.cluster in ClaimSelector(cfg, cluster);
  }

  // ------------------------------------------------------------ whole sweeps

  const CALM := Policy(Quiet, false)

  lemma OwnAddressKept(cfg: Settings, w: World, w': World, e: Child)
    requires SourcesKept(w, w') && OwnAddress(cfg, w, e)
    ensures OwnAddress(cfg, w', e)
  {
    forall k, c | Finds(cfg, w', k, c) && k != e.namespace ensures c.server != e.server {
      assert Finds(cfg, w, k, c);
    }
  }

  lemma {:induction false} ReadyUntil(cfg: Settings, keys: seq<string>, passes: seq<Pass>, w: World, w': World,
                                      e: Child)
    requires cfg.Usable() && !cfg.dryRun && ValidWorld(w) && Ready(cfg, w, e) && OwnAddress(cfg, w, e)
    requires PassesMade(cfg, CALM, keys, passes, false) && Chained(w, passes, w')
    requires forall p :: p in passes ==> p.key != e.namespace
    ensures Ready(cfg, w', e)
    decreases |passes|
  {
    if passes != [] {
      var n := |passes| - 1;
      MadePrefix(cfg, CALM, keys, passes, false, n);
      ReadyUntil(cfg, keys, passes[..n], w, passes[n].before, e);
      ChainKeeps(cfg, CALM, keys, passes[..n], false, w, passes[n].before);
      OwnAddressKept(cfg, w, passes[n].before, e);
      assert passes[n] in passes && PassHeld(cfg, CALM, passes[n]);
      ReadyPassed(cfg, passes[n].before, w', keys[n], passes[n].ending, e);
    }
  }

  /** The eldest claimant's key is among those of the sweep. */
  lemma EldestIsVisited(cfg: Settings, w: World, w': World, sweep: Sweep, cluster: string, ns: string) returns (j: nat)
    requires cfg.Usable() && ValidWorld(w) && SweptFleet(cfg, CALM, w, w', sweep, false)
    requires ns in w.namespaces && Claims(cfg, cluster, w.namespaces[ns])
    ensures j < |sweep.keys| && sweep.keys[j] == ns
  {
    ClaimantStands(cfg, w, cluster, ns);
    assert ManagedAt(cfg, sweep.managed, ns);
    j :| 0 <= j < |sweep.keys| && sweep.keys[j] == ns;
  }

  /** An undisturbed sweep, in whatever order it takes its keys and whatever else
      it has to delete, demote or register, leaves a free name with its eldest
      claimant, if that one is discoverable on its own address. */
  lemma EldestHolds(cfg: Settings, w: World, w': World, sweep: Sweep, e: Child)
    requires cfg.Usable() && !cfg.dryRun && ValidWorld(w) && SweptFleet(cfg, CALM, w, w', sweep, false)
    requires Ready(cfg, w, e) && Finds(cfg, w, e.namespace, e) && OwnAddress(cfg, w, e)
    ensures HeldBy(cfg, w', e.cluster, e.namespace) && Live(cfg, w', e.namespace, SecretName(e.cluster))
  {
    var j := EldestIsVisited(cfg, w, w', sweep, e.cluster, e.namespace);
    var p := sweep.passes[j];
    ReadyAtTurn(cfg, w, w', sweep, e, j);
    PassSources(cfg, CALM, w, w', sweep, false, j);
    assert Finds(cfg, p.before, e.namespace, e);
    EldestRegisters(cfg, p.before, p.after, p.ending, e);
    SweepDelivers(cfg, CALM, w, w', sweep, false, j);
  }

  lemma ReadyAtTurn(cfg: Settings, w: World, w': World, sweep: Sweep, e: Child, j: nat)
    requires cfg.Usable() && !cfg.dryRun && ValidWorld(w) && SweptFleet(cfg, CALM, w, w', sweep, false)
    requires Ready(cfg, w, e) && OwnAddress(cfg, w, e) && j < |sweep.keys| && sweep.keys[j] == e.namespace
    ensures Ready(cfg, sweep.passes[j].before, e)
  {
    ReadyLater(cfg, w, sweep.listed, e);
    ReadyAlong(cfg, sweep.keys, sweep.passes, sweep.listed, sweep.last, e, j);
  }

  lemma ReadyLater(cfg: Settings, w: World, w': World, e: Child)
    requires Ready(cfg, w, e) && OwnAddress(cfg, w, e) && TimeOnly(w, w')
    ensures Ready(cfg, w', e) && OwnAddress(cfg, w', e)
  {
    ReadyKept(cfg, w, w', e);
    OwnAddressKept(cfg, w, w', e);
  }

  lemma ReadyAlong(cfg: Settings, keys: seq<string>, passes: seq<Pass>, w: World, w': World, e: Child, j: nat)
    requires cfg.Usable() && !cfg.dryRun && ValidWorld(w) && Ready(cfg, w, e) && OwnAddress(cfg, w, e)
    requires PassesMade(cfg, CALM, keys, passes, false) && Chained(w, passes, w') && Distinct(keys)
    requires j < |passes| && keys[j] == e.namespace
    ensures Ready(cfg, passes[j].before, e)
  {
    ChainPrefix(w, passes, w', j);
    MadePrefix(cfg, CALM, keys, passes, false, j);
    forall p | p in passes[..j] ensures p.key != e.namespace {
      var i :| 0 <= i < j && passes[i] == p;
      assert keys[i] != keys[j];
    }
    ReadyUntil(cfg, keys, passes[..j], w, passes[j].before, e);
  }

  /** The holder does not depend on the order of the keys, nor on anything else
      that may differ between two sweeps out of one state. */
  lemma SameHolderInAnyOrder(cfg: Settings, w: World, w1: World, w2: World, one: Sweep, other: Sweep, e: Child)
    requires cfg.Usable() && !cfg.dryRun && ValidWorld(w)
    requires SweptFleet(cfg, CALM, w, w1, one, false) && SweptFleet(cfg, CALM, w, w2, other, false)
    requires Ready(cfg, w, e) && Finds(cfg, w, e.namespace, e) && OwnAddress(cfg, w, e)
    ensures HeldBy(cfg, w1, e.cluster, e.namespace) && HeldBy(cfg, w2, e.cluster, e.namespace)
    ensures multiset(one.keys) == multiset(other.keys)
  {
    EldestHolds(cfg, w, w1, one, e);
    EldestHolds(cfg, w, w2, other, e);
    SameKeys(cfg, w, w1, w2, one, other);
  }

  /** Two sweeps out of one state have the same keys, each in its own order. */
  lemma SameKeys(cfg: Settings, w: World, w1: World, w2: World, one: Sweep, other: Sweep)
    requires SweptFleet(cfg, CALM, w, w1, one, false) && SweptFleet(cfg, CALM, w, w2, other, false)
    ensures multiset(one.keys) == multiset(other.keys)
  {
    forall k ensures k in one.keys <==> k in other.keys {
      assert NoneLeft(cfg, one.listed, k) <==> NoneLeft(cfg, other.listed, k) by {
        assert forall n :: RecordedAt(cfg, one.listed, k, n) <==> RecordedAt(cfg, other.listed, k, n);
      }
    }
    DistinctCount(one.keys);
    DistinctCount(other.keys);
    forall k ensures multiset(one.keys)[k] == multiset(other.keys)[k] {
      assert k in one.keys <==> k in other.keys;
    }
  }

  lemma {:induction false} DistinctCount(s: seq<string>)
    requires Distinct(s)
    ensures forall k :: multiset(s)[k] == if k in s then 1 else 0
  {
    if s != [] {
      var n := |s| - 1;
      DistinctCount(s[..n]);
      assert s == s[..n] + [s[n]];
      assert s[n] !in s[..n];
    }
  }

  // ------------------------------------------------------- an incumbent stays

  /** Its own pass has no grounds to remove it: opted out, or recorded against no
      other UID and not demoted. */
  ghost predicate Secure(cfg: Settings, w: World, name: string, uid: string) {
    name in w.secrets && FreshAt(cfg, w, name, uid) && (Pinned(cfg, w.secrets[name]) || !Marked(cfg, w.secrets[name]))
  }

  lemma HeldThroughCollection(cfg: Settings, w: World, w': World, k: string, applied: string, cluster: string)
    requires cfg.Usable() && HeldBy(cfg, w, cluster, k) && Collected(cfg, w, w', k, applied, true)
    requires var s := w.secrets[SecretName(cluster)];
             SecretName(cluster) == applied || Pinned(cfg, s) || !Marked(cfg, s)
    ensures HeldBy(cfg, w', cluster, k)
  {
    var name := SecretName(cluster);
    assert if RecordedAt(cfg, w, k, name) && name != applied then Tidy(cfg, w, w', name, true) else Same(w, w', name);
    if !Same(w, w', name) {
      var s, d := w.secrets[name], w'.secrets[name];
      var heir, stamp :| d == Demoted(cfg, s, heir, stamp).(rv := d.rv);
      DemotedReads(cfg, s, heir, stamp);
      SameLabelsRead(cfg, Demoted(cfg, s, heir, stamp), d);
    }
  }

  lemma HeldThroughClaim(cfg: Settings, w: World, w': World, c: Child, ending: Ending, cluster: string, uid: string)
    requires cfg.Usable() && !cfg.dryRun && ChildOk(cfg, c) && NamedRight(w)
    requires HeldBy(cfg, w, cluster, c.namespace) && Secure(cfg, w, SecretName(cluster), uid)
    requires Claimed(cfg, w, w', c, ending)
    ensures HeldBy(cfg, w', cluster, c.namespace)
  {
    if !Decide(cfg, w, c).Refuse? {
      var mid, name := AfterApply(cfg, w, c), SecretName(cluster);
      IncumbentStep(cfg, w, c, cluster, c.namespace);
      ApplyFrame(cfg, w, c);
      assert name == SecretName(c.cluster) || Same(w, mid, name);
      HeldThroughCollection(cfg, mid, w', c.namespace, SecretName(c.cluster), cluster);
    }
  }

  /** The holder's own pass, whatever it finds and registers. */
  lemma HeldThroughOwnPass(cfg: Settings, w: World, w': World, k: string, ending: Ending, cluster: string)
    requires cfg.Usable() && !cfg.dryRun && ValidWorld(w) && k in w.namespaces && HeldBy(cfg, w, cluster, k)
    requires Secure(cfg, w, SecretName(cluster), w.namespaces[k].uid) && Passed(cfg, w, w', k, ending)
    ensures HeldBy(cfg, w', cluster, k)
  {
    if Standing(cfg, w, k) {
      var uid := w.namespaces[k].uid;
      var mid := Cleared(cfg, w, k, uid);
      assert Same(w, mid, SecretName(cluster));
      if c :| Finds(cfg, w, k, c) && Claimed(cfg, mid, w', c, ending) {
        FoundChild(cfg, w, k, c);
        HeldThroughClaim(cfg, mid, w', c, ending, cluster, uid);
      }
    }
  }

  lemma HeldThroughPass(cfg: Settings, w: World, p: Pass, cluster: string, ns: string)
    requires cfg.Usable() && !cfg.dryRun && ns in w.namespaces && PassHeld(cfg, CALM, p) && p.key != ""
    requires Secure(cfg, w, SecretName(cluster), w.namespaces[ns].uid) && SourcesKept(w, p.before)
    requires HeldBy(cfg, p.before, cluster, ns) && (p.key == ns ==> Same(w, p.before, SecretName(cluster)))
    ensures HeldBy(cfg, p.after, cluster, ns)
    ensures p.key != ns ==> Same(p.before, p.after, SecretName(cluster))
  {
    if p.key == ns {
      HeldThroughOwnPass(cfg, p.before, p.after, ns, p.ending, cluster);
    } else {
      assert !InScope(cfg, p.key, p.before.secrets[SecretName(cluster)]);
    }
  }

  lemma {:induction false} HeldAlong(cfg: Settings, keys: seq<string>, passes: seq<Pass>, w: World, w': World,
                                     cluster: string, ns: string)
    requires cfg.Usable() && !cfg.dryRun && ValidWorld(w) && ns in w.namespaces && HeldBy(cfg, w, cluster, ns)
    requires Secure(cfg, w, SecretName(cluster), w.namespaces[ns].uid)
    requires PassesMade(cfg, CALM, keys, passes, false) && Chained(w, passes, w') && Distinct(keys) && "" !in keys
    ensures HeldBy(cfg, w', cluster, ns)
    ensures ns !in keys[..|passes|] ==> Same(w, w', SecretName(cluster))
    decreases |passes|
  {
    if passes != [] {
      var n := |passes| - 1;
      MadePrefix(cfg, CALM, keys, passes, false, n);
      HeldAlong(cfg, keys, passes[..n], w, passes[n].before, cluster, ns);
      ChainKeeps(cfg, CALM, keys, passes[..n], false, w, passes[n].before);
      FirstTime(keys, n);
      assert PassHeld(cfg, CALM, passes[n]);
      HeldThroughPass(cfg, w, passes[n], cluster, ns);
    }
  }

  lemma FirstTime(keys: seq<string>, n: nat)
    requires Distinct(keys) && "" !in keys && n < |keys|
    ensures keys[n] !in keys[..n] && keys[n] != "" && keys[..n + 1] == keys[..n] + [keys[n]]
  {
  }

  /** Incumbency through whole sweeps: whoever holds a name keeps it through an
      undisturbed sweep, with all that it deletes, demotes and registers, unless
      its own registration is a predecessor's or was demoted before. */
  lemma HolderOutlastsSweep(cfg: Settings, w: World, w': World, sweep: Sweep, cluster: string, ns: string)
    requires cfg.Usable() && !cfg.dryRun && ValidWorld(w) && SweptFleet(cfg, CALM, w, w', sweep, false)
    requires ns in w.namespaces && HeldBy(cfg, w, cluster, ns)
    requires Secure(cfg, w, SecretName(cluster), w.namespaces[ns].uid)
    ensures HeldBy(cfg, w', cluster, ns)
  {
    HeldAlong(cfg, sweep.keys, sweep.passes, sweep.listed, sweep.last, cluster, ns);
  }

  // ------------------------------------------------------ a silent eldest blocks

  /** The name is free, and its eldest claimant has nothing to register. */
  ghost predicate Blocked(cfg: Settings, w: World, cluster: string, ns: string) {
    && SecretName(cluster) !in w.secrets && Eldest(cfg, w, cluster, ns)
    && forall c :: !Finds(cfg, w, ns, c)
  }

  lemma BlockedPassed(cfg: Settings, w: World, w': World, k: string, ending: Ending, cluster: string, ns: string)
    requires cfg.Usable() && !cfg.dryRun && ValidWorld(w) && Blocked(cfg, w, cluster, ns)
    requires SourcesKept(w, w') && Passed(cfg, w, w', k, ending)
    ensures Blocked(cfg, w', cluster, ns)
  {
    FreePassed(cfg, w, w', k, ending, cluster, ns);
    BlockedKept(cfg, w, w', cluster, ns);
  }

  lemma BlockedKept(cfg: Settings, w: World, w': World, cluster: string, ns: string)
    requires Blocked(cfg, w, cluster, ns) && SourcesKept(w, w') && SecretName(cluster) !in w'.secrets
    ensures Blocked(cfg, w', cluster, ns)
  {
    forall c ensures !Finds(cfg, w', ns, c) {
      assert !Finds(cfg, w, ns, c);
    }
  }

  lemma {:induction false} BlockedUntil(cfg: Settings, keys: seq<string>, passes: seq<Pass>, w: World, w': World,
                                        cluster: string, ns: string)
    requires cfg.Usable() && !cfg.dryRun && ValidWorld(w) && Blocked(cfg, w, cluster, ns)
    requires PassesMade(cfg, CALM, keys, passes, false) && Chained(w, passes, w')
    ensures Blocked(cfg, w', cluster, ns)
    decreases |passes|
  {
    if passes != [] {
      var n := |passes| - 1;
      MadePrefix(cfg, CALM, keys, passes, false, n);
      BlockedUntil(cfg, keys, passes[..n], w, passes[n].before, cluster, ns);
      assert PassHeld(cfg, CALM, passes[n]);
      BlockedPassed(cfg, passes[n].before, w', keys[n], passes[n].ending, cluster, ns);
    }
  }

  /** A claimant that cannot be discovered still counts: while it is the eldest,
      an undisturbed sweep leaves a free name free, however healthy the younger
      claimants are. */
  lemma UndiscoverableEldestBlocks(cfg: Settings, w: World, w': World, sweep: Sweep, cluster: string, ns: string)
    requires cfg.Usable() && !cfg.dryRun && ValidWorld(w) && SweptFleet(cfg, CALM, w, w', sweep, false)
    requires Blocked(cfg, w, cluster, ns)
    ensures SecretName(cluster) !in w'.secrets
  {
    BlockedKept(cfg, w, sweep.listed, cluster, ns);
    BlockedUntil(cfg, sweep.keys, sweep.passes, sweep.listed, sweep.last, cluster, ns);
  }

  lemma BlockedAtTurn(cfg: Settings, w: World, w': World, sweep: Sweep, cluster: string, ns: string, j: nat)
    requires cfg.Usable() && !cfg.dryRun && ValidWorld(w) && SweptFleet(cfg, CALM, w, w', sweep, false)
    requires Blocked(cfg, w, cluster, ns) && j < |sweep.keys|
    ensures Blocked(cfg, sweep.passes[j].before, cluster, ns)
  {
    var start, passes := sweep.listed, sweep.passes;
    BlockedKept(cfg, w, start, cluster, ns);
    ChainPrefix(start, passes, sweep.last, j);
    MadePrefix(cfg, CALM, sweep.keys, passes, false, j);
    BlockedUntil(cfg, sweep.keys, passes[..j], start, passes[j].before, cluster, ns);
  }

  /** Every other claimant that has something to register is refused by such a
      sweep, because the name is contested. */
  lemma HealthyIsRefused(cfg: Settings, w: World, w': World, sweep: Sweep, cluster: string, ns: string, c: Child,
                         j: nat)
    requires cfg.Usable() && !cfg.dryRun && ValidWorld(w) && SweptFleet(cfg, CALM, w, w', sweep, false)
    requires Blocked(cfg, w, cluster, ns) && j < |sweep.keys| && sweep.keys[j] == c.namespace != ns
    requires Finds(cfg, w, c.namespace, c) && Claims(cfg, cluster, w.namespaces[c.namespace])
    ensures sweep.passes[j].ending == RefusedAs(ContestedName)
  {
    var p := sweep.passes[j];
    BlockedAtTurn(cfg, w, w', sweep, cluster, ns, j);
    PassSources(cfg, CALM, w, w', sweep, false, j);
    MadeAt(cfg, CALM, sweep.keys, sweep.passes, false, j);
    assert Finds(cfg, p.before, c.namespace, c);
    RefusedWhileBlocked(cfg, p.before, p.after, cluster, ns, c, p.ending);
  }

  lemma RefusedWhileBlocked(cfg: Settings, w: World, w': World, cluster: string, ns: string, c: Child, ending: Ending)
    requires cfg.Usable() && ValidWorld(w) && Blocked(cfg, w, cluster, ns) && c.namespace != ns
    requires Finds(cfg, w, c.namespace, c) && Claims(cfg, cluster, w.namespaces[c.namespace])
    requires Passed(cfg, w, w', c.namespace, ending)
    ensures ending == RefusedAs(ContestedName)
  {
    var k := c.namespace;
    ClaimantStands(cfg, w, cluster, k);
    FoundChild(cfg, w, k, c);
    OnlyClaim(cfg, w, w', k, c, ending);
    OnlyEldestPasses(cfg, Cleared(cfg, w, k, w.namespaces[k].uid), cluster, ns, c);
  }

  /** So a free name is taken by an undisturbed sweep exactly when its eldest
      claimant has something to register, provided that is on an address of its
      own that nobody keeps. */
  lemma TakenExactlyWhenEldestDiscoverable(cfg: Settings, w: World, w': World, sweep: Sweep, cluster: string,
                                           ns: string)
    requires cfg.Usable() && !cfg.dryRun && ValidWorld(w) && SweptFleet(cfg, CALM, w, w', sweep, false)
    requires SecretName(cluster) !in w.secrets && Eldest(cfg, w, cluster, ns)
    requires forall c :: Finds(cfg, w, ns, c) ==> OwnAddress(cfg, w, c) && !AddressTaken(cfg, w, c)
    ensures SecretName(cluster) in w'.secrets <==> exists c :: Finds(cfg, w, ns, c)
  {
    if e :| Finds(cfg, w, ns, e) {
      FoundChild(cfg, w, ns, e);
      ClaimantStands(cfg, w, cluster, ns);
      EldestHolds(cfg, w, w', sweep, e);
    } else {
      UndiscoverableEldestBlocks(cfg, w, w', sweep, cluster, ns);
    }
  }
}
