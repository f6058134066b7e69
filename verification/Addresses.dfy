/** Who may hold an address, and what keeps every address with one holder. */
module Addresses {
  import opened Results
  import opened Text
  import opened KeySpace
  import opened Objects
  import opened Merge
  import opened Api
  import opened Evidence
  import opened Decision
  import opened Selection
  import opened Claiming
  import opened Collection
  import opened Passes
  import opened Election

  // ------------------------------------------------------------------ claiming

  /** The verdict creates, or moves the trimmed address. */
  ghost predicate ClaimsAddress(cfg: Settings, w: World, c: Child) {
    var v := Decide(cfg, w, c);
    v == WouldCreate || (v == WouldUpdate && TrimSlashes(Server(w.secrets[SecretName(c.cluster)])) != c.server)
  }

  lemma ClaimMeansFree(cfg: Settings, w: World, c: Child)
    requires ClaimsAddress(cfg, w, c)
    ensures !AddressTaken(cfg, w, c)
  {
  }

  /** Claiming an address, by creating or by moving, succeeds only over Secrets
      of the same namespace, demoted ones, and unpinned ones whose namespace is
      gone. */
  lemma AddressExclusive(cfg: Settings, w: World, c: Child, n: string)
    requires cfg.Usable() && ValidWorld(w) && ClaimsAddress(cfg, w, c)
    requires n in AfterApply(cfg, w, c).secrets && n != SecretName(c.cluster)
    ensures var s := AfterApply(cfg, w, c).secrets[n];
            Get(s.labels, cfg.keys.secretType) == CLUSTER_TYPE && TrimSlashes(Server(s)) == c.server ==>
              || (Source(cfg, s) == c.namespace && c.namespace != "")
              || Marked(cfg, s)
              || (!Pinned(cfg, s) && Source(cfg, s) != "" && Source(cfg, s) !in w.namespaces)
  {
    var s := AfterApply(cfg, w, c).secrets[n];
    ApplyFrame(cfg, w, c);
    assert Same(w, AfterApply(cfg, w, c), n);
    ClaimMeansFree(cfg, w, c);
    if Get(s.labels, cfg.keys.secretType) == CLUSTER_TYPE && TrimSlashes(Server(s)) == c.server {
      FreeMeans(cfg, w, c, s);
    }
  }

  lemma FreeMeans(cfg: Settings, w: World, c: Child, s: Secret)
    requires Stored(w, s) && !AddressTaken(cfg, w, c) && Get(s.labels, cfg.keys.secretType) == CLUSTER_TYPE
    requires TrimSlashes(Server(s)) == c.server
    ensures || (Source(cfg, s) == c.namespace && c.namespace != "")
            || Marked(cfg, s)
            || (!Pinned(cfg, s) && Source(cfg, s) != "" && Source(cfg, s) !in w.namespaces)
  {
  }

  /** Over a run, every create, and every update that moves the trimmed address,
      was made over listed holders of the address that all gave way. */
  lemma ClaimsWereClear(cfg: Settings, log: seq<Write>, j: nat)
    requires cfg.Usable() && AllJustified(cfg, log) && j < |log|
    ensures match log[j].op
            case Created(s) => AddressClear(cfg, log[j].seen, log[j].key, Server(s))
            case Updated(before, after) =>
              TrimSlashes(Server(before)) != TrimSlashes(Server(after)) ==>
                AddressClear(cfg, log[j].seen, log[j].key, Server(after))
            case Deleted(_) => true
  {
    var w := log[j];
    assert Justified(cfg, w);
    match w.op
    case Created(s) =>
      CreatesWereClear(cfg, w.key, w.seen, s);
    case Updated(before, after) => MovesWereClear(cfg, w.key, w.seen, before, after);
    case Deleted(_) =>
  }

  lemma CreatesWereClear(cfg: Settings, key: string, seen: set<Observation>, s: Secret)
    requires JustifiedCreate(cfg, key, seen, s)
    ensures AddressClear(cfg, seen, key, Server(s))
  {
    var c :| CreateBy(cfg, key, seen, s, c);
    assert Server(s) == c.server;
  }

  lemma MovesWereClear(cfg: Settings, key: string, seen: set<Observation>, before: Secret, after: Secret)
    requires cfg.Usable() && JustifiedUpdate(cfg, key, seen, before, after)
    ensures TrimSlashes(Server(before)) != TrimSlashes(Server(after)) ==> AddressClear(cfg, seen, key, Server(after))
  {
    if IsRefresh(cfg, key, seen, before, after) {
      var c :| RefreshBy(cfg, key, seen, before, after, c);
      MergedReads(cfg, before, c);
    } else {
      var now :| IsDemotion(cfg, key, seen, before, after, now);
      var heir :| DemotionFor(cfg, key, seen, before, after, now, heir);
      assert after.data == before.data;
    }
  }

  // ---------------------------------------------------------------- uniqueness

  /** ArgoCD sees this Secret, and it gives its address up to no other namespace. */
  ghost predicate Occupies(cfg: Settings, w: World, s: Secret) {
    && Matches(ArgoSelector(cfg), s.labels) && !Marked(cfg, s)
    && (Pinned(cfg, s) || Source(cfg, s) == "" || Source(cfg, s) in w.namespaces)
  }

  predicate SameSource(cfg: Settings, s: Secret, t: Secret) {
    Source(cfg, s) != "" && Source(cfg, s) == Source(cfg, t)
  }

  /** The two do not sit on one address for different namespaces. */
  ghost predicate ApartAt(cfg: Settings, w: World, m: string, n: string)
    requires m in w.secrets && n in w.secrets
  {
    Occupies(cfg, w, w.secrets[m]) && Occupies(cfg, w, w.secrets[n])
    && TrimSlashes(Server(w.secrets[m])) == TrimSlashes(Server(w.secrets[n])) ==>
      SameSource(cfg, w.secrets[m], w.secrets[n])
  }

  /** Addresses are unique: no two Secrets occupy one, unless they are of the same
      namespace, whose own collection settles which of them stays. */
  ghost predicate Apart(cfg: Settings, w: World) {
    forall m, n :: m in w.secrets && n in w.secrets && m != n ==> ApartAt(cfg, w, m, n)
  }

  /** Some other Secret keeps the child's address. */
  ghost predicate KeptByAnother(cfg: Settings, w: World, c: Child) {
    exists n :: n in w.secrets && n != SecretName(c.cluster) && Blocks(cfg, w, c.namespace, c.server, w.secrets[n])
  }

  /** The child's Secret is rewritten where it is, on an address that another keeps. */
  ghost predicate Reclaims(cfg: Settings, w: World, c: Child) {
    && Decide(cfg, w, c) == WouldUpdate
    && TrimSlashes(Server(w.secrets[SecretName(c.cluster)])) == c.server
    && KeptByAnother(cfg, w, c)
  }

  /** What a claim that writes leaves at the child's name. */
  lemma WrittenOccupies(cfg: Settings, w: World, c: Child)
    requires cfg.Usable() && ChildOk(cfg, c) && ValidWorld(w) && c.namespace in w.namespaces
    requires Decide(cfg, w, c) in {WouldCreate, WouldUpdate}
    ensures var w', name := AfterApply(cfg, w, c), SecretName(c.cluster);
            && name in w'.secrets && Source(cfg, w'.secrets[name]) == c.namespace
            && Server(w'.secrets[name]) == c.server && Occupies(cfg, w', w'.secrets[name])
  {
    ApplyFrame(cfg, w, c);
    match Decide(cfg, w, c)
    case WouldCreate =>
      CreatedIs(cfg, w, c);
      DraftMatches(cfg, c);
    case WouldUpdate =>
      var s := w.secrets[SecretName(c.cluster)];
      UpdatedIs(cfg, w, c);
      MergedVersionReads(cfg, s, c, w.nextRv);
      MergedMatches(cfg, s, c);
  }

  lemma DraftMatches(cfg: Settings, c: Child)
    requires cfg.Usable() && ChildOk(cfg, c)
    ensures Matches(ArgoSelector(cfg), WantLabels(cfg, c))
  {
    ComputedLabelsSurvive(cfg, c);
  }

  lemma MergedMatches(cfg: Settings, s: Secret, c: Child)
    requires cfg.Usable() && ChildOk(cfg, c)
    ensures Matches(ArgoSelector(cfg), Merged(cfg, s, c).labels)
  {
    var want := WantLabels(cfg, c);
    DraftMatches(cfg, c);
    assert cfg.keys.secretType in ArgoSelector(cfg);
    MapFrame(s.labels, want, cfg.keys, cfg.keys.secretType);
  }

  lemma NobodyElseKeeps(cfg: Settings, w: World, c: Child, n: string)
    requires !KeptByAnother(cfg, w, c) && n in w.secrets && n != SecretName(c.cluster)
    requires Occupies(cfg, w, w.secrets[n]) && TrimSlashes(Server(w.secrets[n])) == c.server
    ensures Source(cfg, w.secrets[n]) == c.namespace && c.namespace != ""
  {
    assert !Blocks(cfg, w, c.namespace, c.server, w.secrets[n]);
  }

  lemma WrittenElseFree(cfg: Settings, w: World, c: Child)
    requires Decide(cfg, w, c) in {WouldCreate, WouldUpdate}
    ensures KeptByAnother(cfg, w, c) <==> Reclaims(cfg, w, c)
  {
  }

  /** A claim keeps addresses unique exactly when it is not a rewrite in place of
      a Secret whose address another has come to keep. */
  lemma ClaimKeepsApart(cfg: Settings, w: World, c: Child)
    requires cfg.Usable() && ChildOk(cfg, c) && ValidWorld(w) && c.namespace in w.namespaces && Apart(cfg, w)
    ensures Apart(cfg, AfterApply(cfg, w, c)) <==> !Reclaims(cfg, w, c)
  {
    if Decide(cfg, w, c) in {WouldCreate, WouldUpdate} {
      WrittenElseFree(cfg, w, c);
      if KeptByAnother(cfg, w, c) { var _ := ReclaimShares(cfg, w, c); } else { FreeClaimKeepsApart(cfg, w, c); }
    }
  }

  /** A Secret that was written clear of all others, against one of those. */
  lemma WrittenApart(cfg: Settings, w: World, c: Child, n: string)
    requires cfg.Usable() && ChildOk(cfg, c) && ValidWorld(w) && c.namespace in w.namespaces
    requires Decide(cfg, w, c) in {WouldCreate, WouldUpdate} && !KeptByAnother(cfg, w, c)
    requires n in w.secrets && n != SecretName(c.cluster)
    ensures var w', name := AfterApply(cfg, w, c), SecretName(c.cluster);
            && n in w'.secrets && name in w'.secrets && ApartAt(cfg, w', name, n) && ApartAt(cfg, w', n, name)
  {
    var w' := AfterApply(cfg, w, c);
    ApplyFrame(cfg, w, c);
    assert Same(w, w', n);
    WrittenOccupies(cfg, w, c);
    if Occupies(cfg, w, w.secrets[n]) && TrimSlashes(Server(w.secrets[n])) == c.server {
      NobodyElseKeeps(cfg, w, c, n);
    }
  }

  lemma UnmovedApart(cfg: Settings, w: World, w': World, m: string, n: string)
    requires Apart(cfg, w) && w'.namespaces == w.namespaces && Same(w, w', m) && Same(w, w', n)
    requires m in w'.secrets && n in w'.secrets && m != n
    ensures ApartAt(cfg, w', m, n)
  {
    assert ApartAt(cfg, w, m, n);
  }

  lemma FreeClaimKeepsApart(cfg: Settings, w: World, c: Child)
    requires cfg.Usable() && ChildOk(cfg, c) && ValidWorld(w) && c.namespace in w.namespaces && Apart(cfg, w)
    requires Decide(cfg, w, c) in {WouldCreate, WouldUpdate} && !KeptByAnother(cfg, w, c)
    ensures Apart(cfg, AfterApply(cfg, w, c))
  {
    var w', name := AfterApply(cfg, w, c), SecretName(c.cluster);
    ApplyFrame(cfg, w, c);
    forall m, n | m in w'.secrets && n in w'.secrets && m != n ensures ApartAt(cfg, w', m, n) {
      if m == name {
        WrittenApart(cfg, w, c, n);
      } else if n == name {
        WrittenApart(cfg, w, c, m);
      } else {
        UnmovedApart(cfg, w, w', m, n);
      }
    }
  }

  /** Two Secrets that occupy one address for different namespaces. */
  lemma ReclaimShares(cfg: Settings, w: World, c: Child) returns (n: string)
    requires cfg.Usable() && ChildOk(cfg, c) && ValidWorld(w) && c.namespace in w.namespaces && Reclaims(cfg, w, c)
    ensures var w', name := AfterApply(cfg, w, c), SecretName(c.cluster);
            && n != name && name in w'.secrets && n in w'.secrets && !ApartAt(cfg, w', name, n)
            && Source(cfg, w'.secrets[n]) != c.namespace
    ensures !Apart(cfg, AfterApply(cfg, w, c))
  {
    var w' := AfterApply(cfg, w, c);
    n :| n in w.secrets && n != SecretName(c.cluster) && Blocks(cfg, w, c.namespace, c.server, w.secrets[n]);
    ApplyFrame(cfg, w, c);
    assert Same(w, w', n);
    WrittenOccupies(cfg, w, c);
  }

  lemma OutOfSight(cfg: Settings, w: World, s: Secret, t: Secret, ns: string)
    requires Source(cfg, s) in {"", ns} && ns in w.namespaces
    requires Blocks(cfg, w, ns, TrimSlashes(Server(s)), t)
    requires Occupies(cfg, w, s) && Occupies(cfg, w, t) ==> SameSource(cfg, s, t)
    ensures Marked(cfg, s) || !Matches(ArgoSelector(cfg), s.labels)
  {
  }

  lemma UpdatesOwn(cfg: Settings, w: World, c: Child)
    requires Decide(cfg, w, c) == WouldUpdate
    ensures SecretName(c.cluster) in w.secrets && Source(cfg, w.secrets[SecretName(c.cluster)]) in {"", c.namespace}
  {
  }

  /** Where addresses are unique so far, only the restoring of a registration that
      ArgoCD had lost sight of can be such a rewrite. */
  lemma OnlyRestoringReclaims(cfg: Settings, w: World, c: Child)
    requires ValidWorld(w) && c.namespace in w.namespaces && Apart(cfg, w) && Reclaims(cfg, w, c)
    ensures var s := w.secrets[SecretName(c.cluster)];
            Marked(cfg, s) || !Matches(ArgoSelector(cfg), s.labels)
  {
    var n :| n in w.secrets && n != SecretName(c.cluster) && Blocks(cfg, w, c.namespace, c.server, w.secrets[n]);
    assert ApartAt(cfg, w, SecretName(c.cluster), n);
    UpdatesOwn(cfg, w, c);
    OutOfSight(cfg, w, w.secrets[SecretName(c.cluster)], w.secrets[n], c.namespace);
  }

  // ------------------------------------------------------------ whole passes

  /** What changed occupies no address. */
  ghost predicate OnlyVacates(cfg: Settings, w: World, w': World) {
    w'.namespaces == w.namespaces
    && forall n :: n in w'.secrets ==> Same(w, w', n) || !Occupies(cfg, w', w'.secrets[n])
  }

  lemma VacatingKeepsApart(cfg: Settings, w: World, w': World)
    requires Apart(cfg, w) && OnlyVacates(cfg, w, w')
    ensures Apart(cfg, w')
  {
    forall m, n | m in w'.secrets && n in w'.secrets && m != n ensures ApartAt(cfg, w', m, n) {
      if Same(w, w', m) && Same(w, w', n) { UnmovedApart(cfg, w, w', m, n); }
    }
  }

  lemma CollectionVacates(cfg: Settings, w: World, w': World, k: string, applied: string, exists_: bool)
    requires cfg.Usable() && Collected(cfg, w, w', k, applied, exists_)
    ensures OnlyVacates(cfg, w, w')
  {
    CollectionHides(cfg, w, w', k, applied, exists_);
    assert cfg.keys.secretType in ArgoSelector(cfg);
  }

  /** A pass for this key, out of this state, rewrites in place a Secret whose
      address another keeps. */
  ghost predicate PassReclaims(cfg: Settings, w: World, k: string) {
    && !cfg.dryRun && Standing(cfg, w, k)
    && exists c :: Finds(cfg, w, k, c) && Reclaims(cfg, Cleared(cfg, w, k, w.namespaces[k].uid), c)
  }

  lemma ClearedIsApart(cfg: Settings, w: World, k: string, uid: string)
    requires ValidWorld(w) && Apart(cfg, w)
    ensures ValidWorld(Cleared(cfg, w, k, uid)) && Apart(cfg, Cleared(cfg, w, k, uid))
  {
    VacatingKeepsApart(cfg, w, Cleared(cfg, w, k, uid));
  }

  /** Collecting after a claim does not bring the two apart again. */
  lemma StillShared(cfg: Settings, w: World, w': World, c: Child)
    requires cfg.Usable() && ChildOk(cfg, c) && ValidWorld(w) && c.namespace in w.namespaces && Reclaims(cfg, w, c)
    requires Collected(cfg, AfterApply(cfg, w, c), w', c.namespace, SecretName(c.cluster), true)
    ensures !Apart(cfg, w')
  {
    var mid, name := AfterApply(cfg, w, c), SecretName(c.cluster);
    ApplyFrame(cfg, w, c);
    var n := ReclaimShares(cfg, w, c);
    assert Same(mid, w', name) && Same(mid, w', n);
    assert !ApartAt(cfg, w', name, n);
  }

  lemma ClaimedKeepsApart(cfg: Settings, w: World, w': World, c: Child, ending: Ending)
    requires cfg.Usable() && ChildOk(cfg, c) && ValidWorld(w) && c.namespace in w.namespaces && Apart(cfg, w)
    requires Claimed(cfg, w, w', c, ending)
    ensures Apart(cfg, w') <==> cfg.dryRun || !Reclaims(cfg, w, c)
  {
    if Decide(cfg, w, c).Refuse? {
      VacatingKeepsApart(cfg, w, w');
    } else if !cfg.dryRun && Reclaims(cfg, w, c) {
      StillShared(cfg, w, w', c);
    } else {
      ClaimKeepsApart(cfg, w, c);
      ApplyFrame(cfg, w, c);
      var mid := Applied(cfg, w, c);
      CollectionVacates(cfg, mid, w', c.namespace, SecretName(c.cluster), true);
      VacatingKeepsApart(cfg, mid, w');
    }
  }

  /** An undisturbed pass keeps addresses unique exactly when it is not such a
      rewrite, whatever it clears away, registers, demotes or deletes. */
  lemma PassKeepsApart(cfg: Settings, w: World, w': World, k: string, ending: Ending)
    requires cfg.Usable() && ValidWorld(w) && Apart(cfg, w) && Passed(cfg, w, w', k, ending)
    ensures Apart(cfg, w') <==> !PassReclaims(cfg, w, k)
  {
    if k !in w.namespaces {
      CollectionVacates(cfg, w, w', k, "", false);
      VacatingKeepsApart(cfg, w, w');
    } else if !Standing(cfg, w, k) {
      VacatingKeepsApart(cfg, w, w');
    } else {
      SurveyKeepsApart(cfg, w, w', k, ending);
    }
  }

  lemma SurveyKeepsApart(cfg: Settings, w: World, w': World, k: string, ending: Ending)
    requires cfg.Usable() && ValidWorld(w) && Apart(cfg, w) && Standing(cfg, w, k) && Surveyed(cfg, w, w', k, ending)
    ensures Apart(cfg, w') <==> !PassReclaims(cfg, w, k)
  {
    var mid := Cleared(cfg, w, k, w.namespaces[k].uid);
    ClearedIsApart(cfg, w, k, w.namespaces[k].uid);
    if c :| Finds(cfg, w, k, c) && Claimed(cfg, mid, w', c, ending) {
      FoundChild(cfg, w, k, c);
      ClaimedKeepsApart(cfg, mid, w', c, ending);
      OnlyFound(cfg, w, k, c);
    } else {
      VacatingKeepsApart(cfg, mid, w');
      NoneFound(cfg, w, k);
    }
  }

  lemma OnlyFound(cfg: Settings, w: World, k: string, c: Child)
    requires Finds(cfg, w, k, c)
    ensures forall d :: Finds(cfg, w, k, d) ==> d == c
  {
    forall d | Finds(cfg, w, k, d) ensures d == c {
      FoundOnce(cfg, w, k, c, Some(d));
    }
  }

  lemma NoneFound(cfg: Settings, w: World, k: string)
    requires k in w.namespaces && Discovers(cfg, w.namespaces[k], SourcesOf(w, k), None)
    ensures forall c :: !Finds(cfg, w, k, c)
  {
    forall c ensures !Finds(cfg, w, k, c) {
      if Finds(cfg, w, k, c) { FoundOnce(cfg, w, k, c, None); }
    }
  }

  // ------------------------------------------------------------ whole sweeps

  ghost predicate AllApart(cfg: Settings, passes: seq<Pass>) {
    forall p :: p in passes ==> Apart(cfg, p.after)
  }

  ghost predicate NoneReclaims(cfg: Settings, passes: seq<Pass>) {
    forall p :: p in passes ==> !PassReclaims(cfg, p.before, p.key)
  }

  lemma OneMore(cfg: Settings, passes: seq<Pass>, p: Pass)
    ensures AllApart(cfg, passes + [p]) <==> AllApart(cfg, passes) && Apart(cfg, p.after)
    ensures NoneReclaims(cfg, passes + [p]) <==> NoneReclaims(cfg, passes) && !PassReclaims(cfg, p.before, p.key)
  {
    assert p in passes + [p];
  }

  lemma {:induction false} ChainKeepsApart(cfg: Settings, keys: seq<string>, passes: seq<Pass>, w: World, w': World)
    requires cfg.Usable() && ValidWorld(w) && Apart(cfg, w)
    requires PassesMade(cfg, CALM, keys, passes, false) && Chained(w, passes, w')
    ensures AllApart(cfg, passes) <==> NoneReclaims(cfg, passes)
    ensures AllApart(cfg, passes) ==> Apart(cfg, w')
    decreases |passes|
  {
    if passes != [] {
      var n := |passes| - 1;
      var p := passes[n];
      assert passes == passes[..n] + [p];
      OneMore(cfg, passes[..n], p);
      MadePrefix(cfg, CALM, keys, passes, false, n);
      ChainKeepsApart(cfg, keys, passes[..n], w, p.before);
      MadeAt(cfg, CALM, keys, passes, false, n);
      if NoneReclaims(cfg, passes[..n]) { PassKeepsApart(cfg, p.before, p.after, p.key, p.ending); }
    }
  }

  /** From unique addresses, an undisturbed sweep never leaves two Secrets on one
      address for different namespaces, not even between two of its passes, exactly
      when none of its passes restores a registration over another's address. */
  lemma SweepKeepsApart(cfg: Settings, w: World, w': World, sweep: Sweep)
    requires cfg.Usable() && ValidWorld(w) && Apart(cfg, w) && SweptFleet(cfg, CALM, w, w', sweep, false)
    ensures AllApart(cfg, sweep.passes) <==> NoneReclaims(cfg, sweep.passes)
    ensures AllApart(cfg, sweep.passes) ==> Apart(cfg, w')
  {
    VacatingKeepsApart(cfg, w, sweep.listed);
    ChainKeepsApart(cfg, sweep.keys, sweep.passes, sweep.listed, sweep.last);
    if AllApart(cfg, sweep.passes) { VacatingKeepsApart(cfg, sweep.last, w'); }
  }

  // ------------------------------------------------- rename, move and revert

  /** Somebody relabels a namespace, or replaces the kubeconfigs in it. */
  ghost predicate Edited(w: World, w': World, k: string) {
    && w'.secrets == w.secrets && k in w.namespaces && k in w'.namespaces
    && w'.namespaces == w.namespaces[k := w'.namespaces[k]] && w'.namespaces[k].uid == w.namespaces[k].uid
    && forall n :: n != k ==> SourcesOf(w', n) == SourcesOf(w, n)
  }

  function Without(w: World, name: string): World {
    w.(secrets := w.secrets - {name})
  }

  /** A pass that registers the namespace elsewhere demotes the registration it had. */
  lemma RenameDemotes(cfg: Settings, w: World, w': World, a: Child, moved: Child, ending: Ending)
    requires cfg.Usable() && !cfg.dryRun && ValidWorld(w) && Passed(cfg, w, w', a.namespace, ending)
    requires Finds(cfg, w, a.namespace, moved) && moved.cluster != a.cluster && ending.RegisteredAs?
    requires OthersSettled(cfg, w', a.namespace, ending.name, true)
    requires HoldsIn(cfg, w, a) && !Pinned(cfg, w.secrets[SecretName(a.cluster)])
    requires a.namespaceUid == w.namespaces[a.namespace].uid
    ensures LeftInFavour(cfg, w, w', SecretName(a.cluster))
  {
    var k, name := a.namespace, SecretName(a.cluster);
    var mid := Cleared(cfg, w, k, w.namespaces[k].uid);
    FoundChild(cfg, w, k, moved);
    OnlyClaim(cfg, w, w', k, moved, ending);
    assert Same(w, mid, name);
    ClaimDemotes(cfg, mid, w', a, moved, ending);
  }

  /** It was there and is there still, demoted. */
  ghost predicate LeftInFavour(cfg: Settings, w: World, w': World, name: string) {
    && name in w.secrets && name in w'.secrets
    && DemotedFrom(cfg, w.secrets[name], w'.secrets[name]) && !Visible(cfg, w'.secrets[name])
  }

  lemma ClaimDemotes(cfg: Settings, w: World, w': World, a: Child, moved: Child, ending: Ending)
    requires cfg.Usable() && !cfg.dryRun && NamedRight(w) && moved.cluster != a.cluster
    requires moved.namespace == a.namespace && Claimed(cfg, w, w', moved, ending) && ending.RegisteredAs?
    requires OthersSettled(cfg, w', a.namespace, ending.name, true)
    requires HoldsIn(cfg, w, a) && !Pinned(cfg, w.secrets[SecretName(a.cluster)])
    ensures LeftInFavour(cfg, w, w', SecretName(a.cluster))
  {
    var name, mid := SecretName(a.cluster), AfterApply(cfg, w, moved);
    if SecretName(moved.cluster) == name { SecretNameInjective(moved.cluster, a.cluster); }
    ApplyFrame(cfg, w, moved);
    assert Same(w, mid, name);
    LeftDemoted(cfg, mid, w', a.namespace, SecretName(moved.cluster), name);
  }

  lemma LeftDemoted(cfg: Settings, w: World, w': World, k: string, applied: string, name: string)
    requires cfg.Usable() && Collected(cfg, w, w', k, applied, true) && OthersSettled(cfg, w', k, applied, true)
    requires RecordedAt(cfg, w, k, name) && name != applied
    requires !Pinned(cfg, w.secrets[name]) && Visible(cfg, w.secrets[name]) && !Marked(cfg, w.secrets[name])
    ensures LeftInFavour(cfg, w, w', name)
  {
    assert Tidy(cfg, w, w', name, true);
    assert Same(w, w', name) ==> RecordedAt(cfg, w', k, name);
    if name in w'.secrets { TidyHides(cfg, w, w', name, true); }
  }

  /** Then the address is free for a child that only that registration kept off it. */
  lemma ThenClaimable(cfg: Settings, w: World, w': World, k: string, ending: Ending, moved: Child, b: Child,
                      name: string)
    requires cfg.Usable() && !cfg.dryRun && ValidWorld(w) && Passed(cfg, w, w', k, ending) && k != b.namespace
    requires Finds(cfg, w, k, moved) && moved.server != b.server && SecretName(b.cluster) != name
    requires Ready(cfg, Without(w, name), b)
    requires name in w'.secrets && !Visible(cfg, w'.secrets[name])
    ensures Ready(cfg, w', b)
  {
    OnlyFound(cfg, w, k, moved);
    PassIsHarmless(cfg, w, w', k, ending, b);
    FreePassed(cfg, w, w', k, ending, b.cluster, b.namespace);
    ReadyOnceHidden(cfg, w, w', b, name);
  }

  lemma ReadyOnceHidden(cfg: Settings, w: World, w': World, b: Child, name: string)
    requires Ready(cfg, Without(w, name), b) && Harmless(cfg, w, w', b) && SecretName(b.cluster) !in w'.secrets
    requires name in w'.secrets && !Visible(cfg, w'.secrets[name])
    ensures Ready(cfg, w', b)
  {
    forall n | n in w'.secrets ensures !Blocks(cfg, w', b.namespace, b.server, w'.secrets[n]) {
      if n == name {
        HiddenBlocksNothing(cfg, w', b.namespace, b.server, w'.secrets[n]);
      } else {
        StillElsewhere(cfg, w, w', name, n, b);
      }
    }
  }

  lemma StillElsewhere(cfg: Settings, w: World, w': World, name: string, n: string, b: Child)
    requires !AddressTaken(cfg, Without(w, name), b) && Harmless(cfg, w, w', b) && n in w'.secrets && n != name
    ensures !Blocks(cfg, w', b.namespace, b.server, w'.secrets[n])
  {
    if Same(w, w', n) {
      assert n in Without(w, name).secrets && !Blocks(cfg, Without(w, name), b.namespace, b.server, w.secrets[n]);
    }
  }

  /** What a claim that is not refused leaves. */
  lemma AppliedHolds(cfg: Settings, w: World, c: Child)
    requires cfg.Usable() && ChildOk(cfg, c) && NamedRight(w) && !Decide(cfg, w, c).Refuse?
    ensures HoldsIn(cfg, AfterApply(cfg, w, c), c)
  {
    match Decide(cfg, w, c)
    case WouldCreate => CreatedIs(cfg, w, c);
    case WouldUpdate =>
      var s := w.secrets[SecretName(c.cluster)];
      UpdatedIs(cfg, w, c);
      MergedVersionReads(cfg, s, c, w.nextRv);
    case UpToDate => UnchangedReads(cfg, w.secrets[SecretName(c.cluster)], c);
    case Refuse(_) =>
  }

  lemma ClaimedHolds(cfg: Settings, w: World, w': World, c: Child, ending: Ending)
    requires cfg.Usable() && !cfg.dryRun && ChildOk(cfg, c) && NamedRight(w)
    requires Claimed(cfg, w, w', c, ending) && !Decide(cfg, w, c).Refuse?
    ensures ending == RegisteredAs(SecretName(c.cluster)) && HoldsIn(cfg, w', c)
  {
    AppliedHolds(cfg, w, c);
    assert Same(AfterApply(cfg, w, c), w', SecretName(c.cluster));
  }

  /** The pass that claims the address then registers on it. */
  lemma ClaimTakesAddress(cfg: Settings, w: World, w': World, b: Child, ending: Ending)
    requires cfg.Usable() && !cfg.dryRun && ValidWorld(w) && Passed(cfg, w, w', b.namespace, ending)
    requires Finds(cfg, w, b.namespace, b) && Ready(cfg, w, b)
    ensures ending == RegisteredAs(SecretName(b.cluster)) && HoldsIn(cfg, w', b)
    ensures Occupies(cfg, w', w'.secrets[SecretName(b.cluster)])
  {
    var k := b.namespace;
    var mid := Cleared(cfg, w, k, w.namespaces[k].uid);
    ClaimantStands(cfg, w, b.cluster, k);
    FoundChild(cfg, w, k, b);
    OnlyClaim(cfg, w, w', k, b, ending);
    ReadyCleared(cfg, w, mid, b, k, w.namespaces[k].uid);
    EldestCreates(cfg, mid, b);
    ClaimedHolds(cfg, mid, w', b, ending);
    WrittenOccupies(cfg, mid, b);
    assert Same(AfterApply(cfg, mid, b), w', SecretName(b.cluster));
  }

  /** The verdict on a demoted registration whose address has not moved. */
  lemma DemotedIsRestored(cfg: Settings, w: World, s: Secret, c: Child)
    requires cfg.Usable() && ChildOk(cfg, c) && SecretName(c.cluster) in w.secrets
    requires DemotedFrom(cfg, s, w.secrets[SecretName(c.cluster)])
    requires Owned(cfg, s) && Source(cfg, s) == c.namespace && Server(s) == c.server
    ensures Decide(cfg, w, c) == WouldUpdate
    ensures TrimSlashes(Server(w.secrets[SecretName(c.cluster)])) == c.server
  {
    var d := w.secrets[SecretName(c.cluster)];
    var heir, stamp :| d == Demoted(cfg, s, heir, stamp).(rv := d.rv);
    DemotedReads(cfg, s, heir, stamp);
    SameLabelsRead(cfg, Demoted(cfg, s, heir, stamp), d);
    RestoreIsNeverSkipped(cfg, s, c, heir, stamp);
    VersionIsNoChange(cfg, Demoted(cfg, s, heir, stamp), d.rv, c);
  }

  /** A demoted registration whose address another now keeps is restored over it. */
  lemma RevertShares(cfg: Settings, w: World, w': World, a: Child, ending: Ending, s: Secret, other: string)
    requires cfg.Usable() && !cfg.dryRun && ValidWorld(w) && Passed(cfg, w, w', a.namespace, ending)
    requires Standing(cfg, w, a.namespace) && Finds(cfg, w, a.namespace, a)
    requires SecretName(a.cluster) in w.secrets && DemotedFrom(cfg, s, w.secrets[SecretName(a.cluster)])
    requires ReadsAs(cfg, s, a)
    requires other in w.secrets && other != SecretName(a.cluster)
    requires Source(cfg, w.secrets[other]) != a.namespace && Blocks(cfg, w, a.namespace, a.server, w.secrets[other])
    ensures ending == RegisteredAs(SecretName(a.cluster)) && HoldsIn(cfg, w', a) && !Apart(cfg, w')
  {
    var k := a.namespace;
    var mid := Cleared(cfg, w, k, w.namespaces[k].uid);
    FoundChild(cfg, w, k, a);
    OnlyClaim(cfg, w, w', k, a, ending);
    DemotedStays(cfg, w, s, a);
    assert Same(w, mid, other);
    RestoreShares(cfg, mid, w', a, ending, s, other);
  }

  lemma RestoreShares(cfg: Settings, w: World, w': World, a: Child, ending: Ending, s: Secret, other: string)
    requires cfg.Usable() && !cfg.dryRun && ValidWorld(w) && ChildOk(cfg, a) && a.namespace in w.namespaces
    requires Claimed(cfg, w, w', a, ending)
    requires SecretName(a.cluster) in w.secrets && DemotedFrom(cfg, s, w.secrets[SecretName(a.cluster)])
    requires ReadsAs(cfg, s, a)
    requires other in w.secrets && other != SecretName(a.cluster)
    requires Blocks(cfg, w, a.namespace, a.server, w.secrets[other])
    ensures ending == RegisteredAs(SecretName(a.cluster)) && HoldsIn(cfg, w', a) && !Apart(cfg, w')
  {
    RestoreReclaims(cfg, w, s, a, other);
    ClaimedHolds(cfg, w, w', a, ending);
    StillShared(cfg, w, w', a);
  }

  lemma RestoreReclaims(cfg: Settings, w: World, s: Secret, a: Child, other: string)
    requires cfg.Usable() && ChildOk(cfg, a) && SecretName(a.cluster) in w.secrets
    requires DemotedFrom(cfg, s, w.secrets[SecretName(a.cluster)]) && ReadsAs(cfg, s, a)
    requires other in w.secrets && other != SecretName(a.cluster)
    requires Blocks(cfg, w, a.namespace, a.server, w.secrets[other])
    ensures Reclaims(cfg, w, a)
  {
    DemotedIsRestored(cfg, w, s, a);
  }

  lemma DemotedStays(cfg: Settings, w: World, s: Secret, a: Child)
    requires cfg.Usable() && a.namespace in w.namespaces && a.namespaceUid == w.namespaces[a.namespace].uid
    requires SecretName(a.cluster) in w.secrets && DemotedFrom(cfg, s, w.secrets[SecretName(a.cluster)])
    requires ReadsAs(cfg, s, a)
    ensures Same(w, Cleared(cfg, w, a.namespace, a.namespaceUid), SecretName(a.cluster))
  {
    var d := w.secrets[SecretName(a.cluster)];
    var heir, stamp :| d == Demoted(cfg, s, heir, stamp).(rv := d.rv);
    DemotedReads(cfg, s, heir, stamp);
    SameLabelsRead(cfg, Demoted(cfg, s, heir, stamp), d);
  }

  /** After the rename and the claim: the one registration demoted, the other made. */
  lemma ClaimedMeanwhile(cfg: Settings, w: World, w1: World, w2: World, a: Child, moved: Child, b: Child,
                         renamed: Ending, claimed: Ending)
    requires cfg.Usable() && !cfg.dryRun && a.namespace != b.namespace && b.server != moved.server
    requires a.cluster != b.cluster && moved.cluster != a.cluster
    requires a.namespace in w.namespaces && a.namespaceUid == w.namespaces[a.namespace].uid
    requires ValidWorld(w) && Passed(cfg, w, w1, a.namespace, renamed) && renamed.RegisteredAs?
    requires ValidWorld(w1) && Passed(cfg, w1, w2, b.namespace, claimed) && Spares(cfg, b.namespace, w1, w2)
    requires OthersSettled(cfg, w1, a.namespace, renamed.name, true)
    requires HoldsIn(cfg, w, a) && !Pinned(cfg, w.secrets[SecretName(a.cluster)]) && a.namespace != ""
    requires Finds(cfg, w, a.namespace, moved) && Ready(cfg, Without(w, SecretName(a.cluster)), b)
    requires Finds(cfg, w1, b.namespace, b)
    ensures SecretName(b.cluster) != SecretName(a.cluster) && LeftInFavour(cfg, w, w2, SecretName(a.cluster))
    ensures claimed == RegisteredAs(SecretName(b.cluster)) && HoldsIn(cfg, w2, b)
    ensures Occupies(cfg, w2, w2.secrets[SecretName(b.cluster)])
  {
    var name := SecretName(a.cluster);
    if SecretName(b.cluster) == name { SecretNameInjective(a.cluster, b.cluster); }
    RenameDemotes(cfg, w, w1, a, moved, renamed);
    ThenClaimable(cfg, w, w1, a.namespace, renamed, moved, b, name);
    ClaimTakesAddress(cfg, w1, w2, b, claimed);
    DemotedElsewhere(cfg, w, w1, b.namespace, name);
  }

  lemma DemotedElsewhere(cfg: Settings, w: World, w': World, k: string, name: string)
    requires cfg.Usable() && LeftInFavour(cfg, w, w', name) && Source(cfg, w.secrets[name]) !in {"", k}
    ensures !InScope(cfg, k, w'.secrets[name])
  {
    var s, d := w.secrets[name], w'.secrets[name];
    var heir, stamp :| d == Demoted(cfg, s, heir, stamp).(rv := d.rv);
    DemotedReads(cfg, s, heir, stamp);
    SameLabelsRead(cfg, Demoted(cfg, s, heir, stamp), d);
  }

  lemma OccupantBlocks(cfg: Settings, w: World, w': World, b: Child, k: string)
    requires Edited(w, w', k) && HoldsIn(cfg, w, b) && Occupies(cfg, w, w.secrets[SecretName(b.cluster)])
    requires b.namespace != k && TrimSlashes(b.server) == b.server
    ensures Blocks(cfg, w', k, b.server, w'.secrets[SecretName(b.cluster)])
  {
  }

  /** The registration made meanwhile still stands after the revert. */
  lemma BothHold(cfg: Settings, w: World, w': World, b: Child, k: string)
    requires HoldsIn(cfg, w, b) && Spares(cfg, k, w, w') && b.namespace !in {"", k}
    ensures HoldsIn(cfg, w', b)
  {
    assert !InScope(cfg, k, w.secrets[SecretName(b.cluster)]);
  }

  lemma PassKeeps(cfg: Settings, p: Pass)
    requires PassHeld(cfg, CALM, p) && ValidWorld(p.before)
    ensures ValidWorld(p.after) && SourcesKept(p.before, p.after) && Spares(cfg, p.key, p.before, p.after)
    ensures Passed(cfg, p.before, p.after, p.key, p.ending)
    ensures !cfg.dryRun && p.ending.RegisteredAs? ==> OthersSettled(cfg, p.after, p.key, p.ending.name, true)
  {
  }

  /** Addresses are not unique in the store. A namespace that was renamed and moved
      in one edit has its old registration demoted; another namespace may then claim
      the old address; and when the edit is reverted the old registration is restored
      over that claim, although the code refuses any other claim of a kept address. */
  lemma RestoreSharesAddress(cfg: Settings, a: Child, moved: Child, b: Child, rename: Pass, claim: Pass, revert: Pass)
    requires cfg.Usable() && !cfg.dryRun && a.namespace != b.namespace && a.server == b.server != moved.server
    requires a.cluster != b.cluster && moved.cluster != a.cluster
    requires PassHeld(cfg, CALM, rename) && PassHeld(cfg, CALM, claim) && PassHeld(cfg, CALM, revert)
    requires rename.key == revert.key == a.namespace && claim.key == b.namespace
    requires claim.before == rename.after && Edited(claim.after, revert.before, a.namespace)
    requires HoldsIn(cfg, rename.before, a) && !Pinned(cfg, rename.before.secrets[SecretName(a.cluster)])
    requires Finds(cfg, rename.before, a.namespace, moved) && rename.ending.RegisteredAs?
    requires Finds(cfg, claim.before, b.namespace, b) && Ready(cfg, Without(rename.before, SecretName(a.cluster)), b)
    requires Standing(cfg, revert.before, a.namespace) && Finds(cfg, revert.before, a.namespace, a)
    ensures claim.ending == RegisteredAs(SecretName(b.cluster)) && revert.ending == RegisteredAs(SecretName(a.cluster))
    ensures HoldsIn(cfg, revert.after, a) && HoldsIn(cfg, revert.after, b) && !Apart(cfg, revert.after)
  {
    PassKeeps(cfg, rename);
    PassKeeps(cfg, claim);
    PassKeeps(cfg, revert);
    FoundChild(cfg, revert.before, a.namespace, a);
    ClaimedMeanwhile(cfg, rename.before, claim.before, claim.after, a, moved, b, rename.ending, claim.ending);
    OccupantBlocks(cfg, claim.after, revert.before, b, a.namespace);
    RevertShares(cfg, revert.before, revert.after, a, revert.ending, rename.before.secrets[SecretName(a.cluster)],
                 SecretName(b.cluster));
    BothHold(cfg, revert.before, revert.after, b, a.namespace);
  }

  /** A store of two namespaces and two Secrets. */
  lemma TwoOfEach(m: string, n: string, d: Secret, t: Secret) returns (w: World)
    requires m != "" && n != "" && d.name != "" && t.name != "" && d.name != t.name
    requires d.uid == d.rv == t.uid == t.rv == 0
    ensures ValidWorld(w) && Stored(w, d) && Stored(w, t) && m in w.namespaces && n in w.namespaces
    ensures forall x :: x in w.secrets <==> x in {d.name, t.name}
  {
    w := World(map[m := Namespace(m, m, map[], map[], 0, false), n := Namespace(n, n, map[], map[], 0, false)],
               map[d.name := d, t.name := t], map[], 1, 1, 0);
  }

  lemma HiddenOccupiesNothing(cfg: Settings, w: World, s: Secret)
    requires !Visible(cfg, s)
    ensures !Occupies(cfg, w, s)
  {
    assert cfg.keys.secretType in ArgoSelector(cfg);
  }

  lemma DemotedDraft(cfg: Settings, c: Child, heir: string, stamp: string)
    requires cfg.Usable() && ChildOk(cfg, c)
    ensures var d := Demoted(cfg, Draft(cfg, c), heir, stamp);
            d.name == SecretName(c.cluster) && !Visible(cfg, d) && DemotedFrom(cfg, Draft(cfg, c), d)
  {
    var d := Demoted(cfg, Draft(cfg, c), heir, stamp);
    DemotedReads(cfg, Draft(cfg, c), heir, stamp);
    assert d == Demoted(cfg, Draft(cfg, c), heir, stamp).(rv := d.rv);
  }

  lemma OneOccupantIsApart(cfg: Settings, w: World, hidden: string, other: string)
    requires forall n :: n in w.secrets ==> n in {hidden, other}
    requires hidden in w.secrets && !Occupies(cfg, w, w.secrets[hidden])
    ensures Apart(cfg, w)
  {
    forall m, n | m in w.secrets && n in w.secrets && m != n ensures ApartAt(cfg, w, m, n) {
      assert m == hidden || n == hidden;
    }
  }

  lemma StandOffBreaks(cfg: Settings, a: Child, n: string, s: Secret, d: Secret, t: Secret) returns (w: World)
    requires cfg.Usable() && ChildOk(cfg, a) && a.namespace != "" && n != "" && a.namespace != n
    requires d.name == SecretName(a.cluster) != t.name && t.name != "" && d.uid == d.rv == t.uid == t.rv == 0
    requires DemotedFrom(cfg, s, d) && ReadsAs(cfg, s, a) && !Visible(cfg, d)
    requires Source(cfg, t) == n && Server(t) == a.server && !Marked(cfg, t) && Matches(ArgoSelector(cfg), t.labels)
    ensures ValidWorld(w) && Apart(cfg, w) && Reclaims(cfg, w, a) && !Apart(cfg, AfterApply(cfg, w, a))
  {
    w := TwoOfEach(a.namespace, n, d, t);
    HiddenOccupiesNothing(cfg, w, d);
    BreaksFrom(cfg, w, a, s, d.name, t.name);
  }

  lemma BreaksFrom(cfg: Settings, w: World, a: Child, s: Secret, hidden: string, other: string)
    requires cfg.Usable() && ChildOk(cfg, a) && ValidWorld(w) && a.namespace in w.namespaces
    requires forall n :: n in w.secrets <==> n in {hidden, other}
    requires hidden == SecretName(a.cluster) != other && DemotedFrom(cfg, s, w.secrets[hidden])
    requires ReadsAs(cfg, s, a) && !Occupies(cfg, w, w.secrets[hidden])
    requires Blocks(cfg, w, a.namespace, a.server, w.secrets[other])
    ensures Apart(cfg, w) && Reclaims(cfg, w, a) && !Apart(cfg, AfterApply(cfg, w, a))
  {
    OneOccupantIsApart(cfg, w, hidden, other);
    RestoreReclaims(cfg, w, s, a, other);
    ClaimKeepsApart(cfg, w, a);
  }

  /** For every usable configuration and any two children on one address there is
      such a state: addresses are unique in it, and one claim makes them not so. */
  lemma ReclaimExists(cfg: Settings, a: Child, b: Child) returns (w: World)
    requires cfg.Usable() && ChildOk(cfg, a) && ChildOk(cfg, b) && a.server == b.server && a.cluster != b.cluster
    requires a.namespace != "" && b.namespace != "" && a.namespace != b.namespace
    ensures ValidWorld(w) && Apart(cfg, w) && Reclaims(cfg, w, a) && !Apart(cfg, AfterApply(cfg, w, a))
  {
    if SecretName(a.cluster) == SecretName(b.cluster) { SecretNameInjective(a.cluster, b.cluster); }
    DemotedDraft(cfg, a, b.cluster, "");
    DraftReads(cfg, a);
    DraftReads(cfg, b);
    DraftMatches(cfg, b);
    w := StandOffBreaks(cfg, a, b.namespace, Draft(cfg, a), Demoted(cfg, Draft(cfg, a), b.cluster, ""), Draft(cfg, b));
  }
}
