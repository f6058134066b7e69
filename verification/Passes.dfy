/** How a whole pass over one namespace ends, and what it leaves. */
module Passes {
  import opened Results
  import opened Text
  import opened Objects
  import opened Api
  import opened Evidence
  import opened Decision
  import opened Expiry
  import opened Audit
  import opened Selection
  import opened Claiming
  import opened Collection

  /** Which return of ReconcileOne was taken. */
  datatype Ending =
    | Failed | Retired | Kept | NotOurs | Terminating | Undiscovered
    | RefusedAs(reason: Reason) | RegisteredAs(name: string)

  function SourcesOf(w: World, ns: string): seq<SourceSecret> {
    if ns in w.sources then w.sources[ns] else []
  }

  /** The Secret reads as the live registration of the namespace as it now is. */
  ghost predicate Live(cfg: Settings, w: World, ns: string, name: string) {
    && name in w.secrets && ns in w.namespaces
    && var s := w.secrets[name];
       Owned(cfg, s) && Source(cfg, s) == ns && RecordedUid(cfg, s) == w.namespaces[ns].uid
       && Visible(cfg, s) && !Marked(cfg, s)
  }

  /** Namespaces and the Secrets inside them are only ever read. */
  predicate SourcesKept(w: World, w': World) {
    w'.namespaces == w.namespaces && w'.sources == w.sources
  }

  function Counting(ending: Ending): multiset<Reason> {
    match ending
    case RefusedAs(reason) => multiset{reason}
    case _ => multiset{}
  }

  /** The namespace carries our label. */
  ghost predicate ManagedAt(cfg: Settings, w: World, k: string) {
    k in w.namespaces && Get(w.namespaces[k].labels, cfg.keys.managedBy) == cfg.owner
  }

  /** It does, and is not being torn down. */
  ghost predicate Standing(cfg: Settings, w: World, k: string) {
    ManagedAt(cfg, w, k) && !w.namespaces[k].terminating
  }

  /** Discovery in this state finds this child. */
  ghost predicate Finds(cfg: Settings, w: World, k: string, c: Child) {
    k in w.namespaces && Discovers(cfg, w.namespaces[k], SourcesOf(w, k), Some(c))
  }

  ghost function Applied(cfg: Settings, w: World, c: Child): World {
    if cfg.dryRun then w else AfterApply(cfg, w, c)
  }

  /** How an undisturbed claim ends, and what it leaves: the verdict decides, and
      after a registration only the namespace's other ones are collected. */
  ghost predicate Claimed(cfg: Settings, w: World, w': World, c: Child, ending: Ending) {
    match Decide(cfg, w, c)
    case Refuse(reason) => ending == RefusedAs(reason) && TimeOnly(w, w')
    case _ =>
      && ending == RegisteredAs(SecretName(c.cluster))
      && Collected(cfg, Applied(cfg, w, c), w', c.namespace, SecretName(c.cluster), true)
  }

  /** How an undisturbed pass over a live namespace of ours ends: the claim is made
      in the state that the stale collection leaves. */
  ghost predicate Surveyed(cfg: Settings, w: World, w': World, k: string, ending: Ending)
    requires k in w.namespaces
  {
    var mid := Cleared(cfg, w, k, w.namespaces[k].uid);
    || (ending == Undiscovered && Discovers(cfg, w.namespaces[k], SourcesOf(w, k), None) && TimeOnly(mid, w'))
    || exists c :: Finds(cfg, w, k, c) && Claimed(cfg, mid, w', c, ending)
  }

  /** How an undisturbed pass ends, by the state it starts in, and what it leaves. */
  ghost predicate Passed(cfg: Settings, w: World, w': World, k: string, ending: Ending) {
    if k !in w.namespaces then
      ending == (if LeftBehind(cfg, w, k) then Kept else Retired) && Collected(cfg, w, w', k, "", false)
    else if !ManagedAt(cfg, w, k) then ending == NotOurs && TimeOnly(w, w')
    else if w.namespaces[k].terminating then ending == Terminating && TimeOnly(w, w')
    else Surveyed(cfg, w, w', k, ending)
  }

  /** A namespace discovers one child, or none. */
  lemma FoundOnce(cfg: Settings, w: World, k: string, c: Child, r: Option<Child>)
    requires Finds(cfg, w, k, c) && Discovers(cfg, w.namespaces[k], SourcesOf(w, k), r)
    ensures r == Some(c)
  {
    DiscoveryIgnoresListOrder(cfg, w.namespaces[k], SourcesOf(w, k), SourcesOf(w, k), Some(c), r);
  }

  lemma ClaimIsDetermined(cfg: Settings, w: World, w1: World, w2: World, k: string, c: Child, a: Ending, b: Ending)
    requires Finds(cfg, w, k, c) && Surveyed(cfg, w, w1, k, a) && Surveyed(cfg, w, w2, k, b)
    ensures a == b
  {
    OnlyClaim(cfg, w, w1, k, c, a);
    OnlyClaim(cfg, w, w2, k, c, b);
  }

  lemma SurveyIsDetermined(cfg: Settings, w: World, w1: World, w2: World, k: string, a: Ending, b: Ending)
    requires k in w.namespaces && Surveyed(cfg, w, w1, k, a) && Surveyed(cfg, w, w2, k, b)
    ensures a == b
  {
    if c :| Finds(cfg, w, k, c) { ClaimIsDetermined(cfg, w, w1, w2, k, c, a, b); }
  }

  /** Where a child is found, the pass ends as its claim does. */
  lemma OnlyClaim(cfg: Settings, w: World, w': World, k: string, c: Child, ending: Ending)
    requires Finds(cfg, w, k, c) && Surveyed(cfg, w, w', k, ending)
    ensures Claimed(cfg, Cleared(cfg, w, k, w.namespaces[k].uid), w', c, ending)
  {
    var mid := Cleared(cfg, w, k, w.namespaces[k].uid);
    if d :| Finds(cfg, w, k, d) && Claimed(cfg, mid, w', d, ending) {
      FoundOnce(cfg, w, k, c, Some(d));
    } else {
      FoundOnce(cfg, w, k, c, None);
    }
  }

  /** The state a pass starts in determines how it ends. */
  lemma EndingIsDetermined(cfg: Settings, w: World, w1: World, w2: World, k: string, a: Ending, b: Ending)
    requires Passed(cfg, w, w1, k, a) && Passed(cfg, w, w2, k, b)
    ensures a == b
  {
    if Standing(cfg, w, k) { SurveyIsDetermined(cfg, w, w1, w2, k, a, b); }
  }

  lemma UndisturbedNeverFails(cfg: Settings, w: World, w': World, k: string, ending: Ending)
    requires Passed(cfg, w, w', k, ending)
    ensures ending != Failed
    ensures ending == Retired <==> k !in w.namespaces && !LeftBehind(cfg, w, k)
  {
  }

  lemma ClaimedIgnoresClock(cfg: Settings, w: World, later: World, w': World, c: Child, ending: Ending)
    requires TimeOnly(w, later) && Claimed(cfg, later, w', c, ending)
    ensures Claimed(cfg, w, w', c, ending)
  {
    DecideIgnoresClock(cfg, w, later, c);
    if !Decide(cfg, w, c).Refuse? {
      CollectedIgnoresClock(cfg, Applied(cfg, w, c), Applied(cfg, later, c), w', c.namespace, SecretName(c.cluster),
                            true);
    }
  }

  lemma PassedFromEarlier(cfg: Settings, w: World, later: World, w': World, k: string, ending: Ending)
    requires TimeOnly(w, later) && Passed(cfg, later, w', k, ending)
    ensures Passed(cfg, w, w', k, ending)
  {
    if k !in w.namespaces {
      LeftIgnoresClock(cfg, w, later, k);
      CollectedIgnoresClock(cfg, w, later, w', k, "", false);
    } else if Standing(cfg, w, k) {
      SurveyedFromEarlier(cfg, w, later, w', k, ending);
    }
  }

  lemma SurveyedFromEarlier(cfg: Settings, w: World, later: World, w': World, k: string, ending: Ending)
    requires k in w.namespaces && TimeOnly(w, later) && Surveyed(cfg, later, w', k, ending)
    ensures Surveyed(cfg, w, w', k, ending)
  {
    var uid := w.namespaces[k].uid;
    var mid, mid' := Cleared(cfg, w, k, uid), Cleared(cfg, later, k, uid);
    ClearedIgnoresClock(cfg, w, later, k, uid);
    if c :| Finds(cfg, later, k, c) && Claimed(cfg, mid', w', c, ending) {
      assert Finds(cfg, w, k, c);
      ClaimedIgnoresClock(cfg, mid, mid', w', c, ending);
    }
  }

  /** What the claim and the collection of one registration come to. */
  lemma ClaimEnds(cfg: Settings, w: World, applied: World, w': World, c: Child, r: Outcome, ending: Ending)
    requires Answers(cfg, w, applied, c, r)
    requires match r
             case Refused(reason) => ending == RefusedAs(reason) && applied == w'
             case _ => && ending == RegisteredAs(SecretName(c.cluster))
                       && Collected(cfg, applied, w', c.namespace, SecretName(c.cluster), true)
    ensures Claimed(cfg, w, w', c, ending)
  {
    if r.Refused? {
      assert Applied(cfg, w, c) == w;
    } else {
      CollectedIgnoresClock(cfg, Applied(cfg, w, c), applied, w', c.namespace, SecretName(c.cluster), true);
    }
  }

  /** The Secret says what discovery finds in its namespace. */
  ghost predicate Mirrored(cfg: Settings, w: World, ns: string, name: string) {
    exists c :: Finds(cfg, w, ns, c) && SecretName(c.cluster) == name && HoldsIn(cfg, w, c)
  }

  /** What an uninterfered pass leaves behind. After a registration: exactly one
      live registration for the namespace, and every other Secret recording it
      pinned or out of ArgoCD's sight. After a failed discovery: at least no
      unpinned registration of a predecessor. */
  ghost predicate Delivered(cfg: Settings, w: World, ns: string, ending: Ending) {
    match ending
    case RegisteredAs(name) =>
      Live(cfg, w, ns, name) && Mirrored(cfg, w, ns, name) && OthersSettled(cfg, w, ns, name, true)
    case Retired => NoneLeft(cfg, w, ns)
    case Kept => OthersSettled(cfg, w, ns, "", false)
    case Undiscovered =>
      ns in w.namespaces && (w.namespaces[ns].uid != "" ==> NoneStale(cfg, w, ns, w.namespaces[ns].uid))
    case _ => true
  }

  /** What stale collection, discovery and registration come to. */
  lemma SurveyEnds(cfg: Settings, w: World, mid: World, w': World, k: string, child: Option<Child>, ending: Ending)
    requires k in w.namespaces && Discovers(cfg, w.namespaces[k], SourcesOf(w, k), child)
    requires TimeOnly(Cleared(cfg, w, k, w.namespaces[k].uid), mid)
    requires match child
             case None => ending == Undiscovered && mid == w'
             case Some(c) => Claimed(cfg, mid, w', c, ending)
    ensures Surveyed(cfg, w, w', k, ending)
  {
    if child.Some? {
      assert Finds(cfg, w, k, child.value);
      ClaimedIgnoresClock(cfg, Cleared(cfg, w, k, w.namespaces[k].uid), mid, w', child.value, ending);
    }
  }

  lemma RegisterDelivers(cfg: Settings, w: World, w': World, ns: string, c: Child)
    requires ns in w.namespaces && c.namespace == ns && c.namespaceUid == w.namespaces[ns].uid && SourcesKept(w, w')
    requires HoldsIn(cfg, w', c) && OthersSettled(cfg, w', ns, SecretName(c.cluster), true)
    requires Discovers(cfg, w.namespaces[ns], SourcesOf(w, ns), Some(c))
    ensures Delivered(cfg, w', ns, RegisteredAs(SecretName(c.cluster)))
  {
    assert Finds(cfg, w', ns, c);
  }

  lemma HoldsStays(cfg: Settings, w: World, w': World, c: Child)
    requires HoldsIn(cfg, w, c) && Same(w, w', SecretName(c.cluster))
    ensures HoldsIn(cfg, w', c)
  {
  }

  // ------------------------------------------------------------- whole sweeps

  /** The keys of a sweep: the namespaces labelled for us in one state, and the
      sources recorded on our registrations in another. */
  ghost predicate KeysOf(cfg: Settings, managed: World, listed: World, keys: seq<string>) {
    && Distinct(keys)
    && forall k :: k in keys <==> ManagedAt(cfg, managed, k) || (k != "" && !NoneLeft(cfg, listed, k))
  }

  ghost function OwnedSecrets(cfg: Settings, w: World): set<Secret> {
    set n | n in w.secrets && Owned(cfg, w.secrets[n]) :: w.secrets[n]
  }

  /** The gauges say exactly what is registered in this state at this time. */
  ghost predicate Audited(cfg: Settings, w: World, now: int, gauges: map<Series, nat>, unrouted: nat) {
    var owned := OwnedSecrets(cfg, w);
    && (forall x :: x in gauges && gauges[x] == |Members(Classifier(cfg, now), owned, x)|)
    && Sum(ALL_SERIES, gauges) == |owned|
    && unrouted == |Unrouted(cfg, owned)|
  }

  lemma ListedOnce(w: World, selector: Labels, items: seq<Secret>)
    requires Lists(w, selector, items)
    ensures Distinct(items)
  {
  }

  lemma AuditIsExact(cfg: Settings, w: World, items: seq<Secret>, now: int, counts: map<Series, nat>,
                     gauges: map<Series, nat>)
    requires cfg.Usable() && ValidWorld(w) && Lists(w, OwnedSelector(cfg), items)
    requires Counted(Classifier(cfg, now), ItemSet(items), counts)
    requires gauges.Keys == (set x | x in ALL_SERIES) && forall x :: x in ALL_SERIES ==> gauges[x] == Look(counts, x)
    ensures Audited(cfg, w, now, gauges, |Unrouted(cfg, ItemSet(items))|)
  {
    forall s ensures s in ItemSet(items) <==> s in OwnedSecrets(cfg, w) {
      OwnedSelects(cfg, s.labels);
    }
    assert ItemSet(items) == OwnedSecrets(cfg, w);
    GaugesConserve(Classifier(cfg, now), ItemSet(items), counts, gauges);
    forall x ensures x in gauges {
      EverySeriesPublished(x);
    }
  }

  /** The names on a list of namespaces. */
  method NamespaceKeys(items: seq<Namespace>) returns (found: set<string>)
    ensures forall k :: k in found <==> exists ns :: ns in items && ns.name == k
  {
    found := {};
    for i := 0 to |items|
      invariant forall k :: k in found <==> exists ns :: ns in items[..i] && ns.name == k
    {
      assert items[..i + 1] == items[..i] + [items[i]];
      found := found + {items[i].name};
    }
    assert items[..|items|] == items;
  }

  /** The source namespaces recorded on a list of Secrets, added to `known`. */
  method SourceKeys(cfg: Settings, items: seq<Secret>, known: set<string>) returns (found: set<string>)
    ensures forall k :: k in found <==> k in known || (k != "" && exists s :: s in items && Source(cfg, s) == k)
  {
    found := known;
    for i := 0 to |items|
      invariant forall k :: k in found <==>
          k in known || (k != "" && exists s :: s in items[..i] && Source(cfg, s) == k)
    {
      assert items[..i + 1] == items[..i] + [items[i]];
      var src := Source(cfg, items[i]);
      if src != "" {
        found := found + {src};
      }
    }
    assert items[..|items|] == items;
  }

  /** A set's elements, each once. */
  method InSomeOrder(found: set<string>) returns (out: seq<string>)
    ensures Distinct(out) && forall k :: k in out <==> k in found
  {
    out := [];
    var left := found;
    while left != {}
      invariant left <= found && Distinct(out)
      invariant forall k :: k in out <==> k in found - left
      decreases left
    {
      var k :| k in left;
      left := left - {k};
      assert forall j :: j in out + [k] <==> j in out || j == k;
      out := out + [k];
    }
  }

  lemma KeysAreExact(cfg: Settings, managed: World, listed: World, namespaces: seq<Namespace>, secrets: seq<Secret>,
                     byName: set<string>, found: set<string>, keys: seq<string>)
    requires cfg.Usable() && ValidWorld(managed) && ValidWorld(listed)
    requires ListsNamespaces(managed, OwnedSelector(cfg), namespaces) && Lists(listed, OwnedSelector(cfg), secrets)
    requires forall k :: k in byName <==> exists ns :: ns in namespaces && ns.name == k
    requires forall k :: k in found <==> k in byName || (k != "" && exists s :: s in secrets && Source(cfg, s) == k)
    requires Distinct(keys) && forall k :: k in keys <==> k in found
    ensures KeysOf(cfg, managed, listed, keys) && "" !in keys
  {
    forall k ensures k in byName <==> ManagedAt(cfg, managed, k) {
      if ManagedAt(cfg, managed, k) {
        OwnedSelects(cfg, managed.namespaces[k].labels);
        assert managed.namespaces[k] in namespaces;
      }
      if k in byName {
        var ns :| ns in namespaces && ns.name == k;
        OwnedSelects(cfg, ns.labels);
      }
    }
    forall k | k != "" ensures (exists s :: s in secrets && Source(cfg, s) == k) <==> !NoneLeft(cfg, listed, k) {
      if s :| s in secrets && Source(cfg, s) == k {
        OwnedSelects(cfg, s.labels);
        assert RecordedAt(cfg, listed, k, s.name);
      }
      if n :| RecordedAt(cfg, listed, k, n) {
        OwnedSelects(cfg, listed.secrets[n].labels);
        assert listed.secrets[n] in secrets;
      }
    }
  }

  lemma OwnedSelects(cfg: Settings, labels: Labels)
    requires cfg.Usable()
    ensures Matches(OwnedSelector(cfg), labels) <==> Get(labels, cfg.keys.managedBy) == cfg.owner
  {
  }

  /** A pass for one key leaves what a pass for another key delivered. */
  lemma PassesDoNotInterfere(cfg: Settings, k: string, other: string, w: World, w': World, ending: Ending)
    requires cfg.Usable() && k != "" && k != other
    requires Evolves(cfg, Quiet, other, w, w')
    ensures Delivered(cfg, w, k, ending) ==> Delivered(cfg, w', k, ending)
  {
    forall n | RecordedAt(cfg, w', k, n) ensures RecordedAt(cfg, w, k, n) && w'.secrets[n] == w.secrets[n] {
    }
    forall n | RecordedAt(cfg, w, k, n) ensures RecordedAt(cfg, w', k, n) && w'.secrets[n] == w.secrets[n] {
      assert !InScope(cfg, other, w.secrets[n]);
    }
    if ending.RegisteredAs? && Live(cfg, w, k, ending.name) && Mirrored(cfg, w, k, ending.name) {
      MirroredStays(cfg, w, w', k, ending.name);
    }
  }

  lemma MirroredStays(cfg: Settings, w: World, w': World, k: string, name: string)
    requires Mirrored(cfg, w, k, name) && SourcesKept(w, w') && Same(w, w', name)
    ensures Mirrored(cfg, w', k, name)
  {
    var c :| Finds(cfg, w, k, c) && SecretName(c.cluster) == name && HoldsIn(cfg, w, c);
    assert Finds(cfg, w', k, c) && HoldsIn(cfg, w', c);
  }

  function KeySet(keys: seq<string>): set<string> {
    set k | k in keys
  }

  /** Every source namespace on record is one of the keys. */
  ghost predicate Covered(cfg: Settings, w: World, keys: set<string>) {
    forall n, k :: RecordedAt(cfg, w, k, n) && k != "" ==> k in keys
  }

  lemma CoveredStays(cfg: Settings, rule: Rule, key: string, w: World, w': World, keys: set<string>)
    requires rule != Hostile && Evolves(cfg, rule, key, w, w') && (key == "" || key in keys)
    requires Covered(cfg, w, keys)
    ensures Covered(cfg, w', keys)
  {
    forall n, k | RecordedAt(cfg, w', k, n) && k != "" && k != key ensures k in keys {
      assert RecordedAt(cfg, w, k, n);
    }
  }

  lemma KeysCover(cfg: Settings, managed: World, listed: World, keys: seq<string>)
    requires KeysOf(cfg, managed, listed, keys)
    ensures Covered(cfg, listed, KeySet(keys))
  {
  }

  /** One pass of a sweep: its key, the states before and after, how it ended. */
  datatype Pass = Pass(key: string, before: World, after: World, ending: Ending)

  /** A record of one sweep: the states it took its keys from, its passes, and the
      state after the last of them. */
  datatype Sweep = Sweep(managed: World, listed: World, keys: seq<string>, passes: seq<Pass>, last: World)

  ghost predicate PassHeld(cfg: Settings, policy: Policy, p: Pass) {
    && ValidWorld(p.before) && Evolves(cfg, policy.rule, p.key, p.before, p.after)
    && (policy.rule == Quiet && !cfg.dryRun ==> Delivered(cfg, p.after, p.key, p.ending))
    && (policy.Calm() ==> Passed(cfg, p.before, p.after, p.key, p.ending))
  }

  /** Each pass starts where the one before it ended. */
  ghost predicate Chained(w: World, passes: seq<Pass>, w': World)
    decreases |passes|
  {
    if passes == [] then w' == w
    else
      var n := |passes| - 1;
      passes[n].after == w' && Chained(w, passes[..n], passes[n].before)
  }

  /** The passes made are those for the first keys, in order. */
  ghost predicate PassesMade(cfg: Settings, policy: Policy, keys: seq<string>, passes: seq<Pass>, failed: bool) {
    && |passes| <= |keys|
    && forall j :: 0 <= j < |passes| ==>
         passes[j].key == keys[j] && PassHeld(cfg, policy, passes[j]) && (passes[j].ending == Failed ==> failed)
  }

  /** What a sweep comes to: a pass for every key, whatever failed before it, one
      after the other and with nothing but others' steps around them; a failure
      is reported, and undisturbed there is none. */
  ghost predicate SweptFleet(cfg: Settings, policy: Policy, w: World, w': World, sweep: Sweep, failed: bool) {
    && KeysOf(cfg, sweep.managed, sweep.listed, sweep.keys) && "" !in sweep.keys
    && Permits(cfg, policy.rule, w, sweep.managed) && Permits(cfg, policy.rule, sweep.managed, sweep.listed)
    && |sweep.passes| == |sweep.keys| && PassesMade(cfg, policy, sweep.keys, sweep.passes, failed)
    && Chained(sweep.listed, sweep.passes, sweep.last) && Permits(cfg, policy.rule, sweep.last, w')
    && (policy.Calm() ==> !failed)
  }

  lemma ChainAppend(w: World, passes: seq<Pass>, p: Pass)
    requires Chained(w, passes, p.before)
    ensures Chained(w, passes + [p], p.after)
  {
    assert (passes + [p])[..|passes|] == passes;
  }

  lemma MadeAppend(cfg: Settings, policy: Policy, keys: seq<string>, passes: seq<Pass>, p: Pass, failed: bool)
    requires PassesMade(cfg, policy, keys, passes, failed) && |passes| < |keys| && p.key == keys[|passes|]
    requires PassHeld(cfg, policy, p)
    ensures PassesMade(cfg, policy, keys, passes + [p], failed || p.ending == Failed)
  {
  }

  lemma {:induction false} ChainPrefix(w: World, passes: seq<Pass>, w': World, j: nat)
    requires Chained(w, passes, w') && j < |passes|
    ensures Chained(w, passes[..j], passes[j].before)
    decreases |passes|
  {
    var n := |passes| - 1;
    if j < n {
      ChainPrefix(w, passes[..n], passes[n].before, j);
      assert passes[..n][..j] == passes[..j];
    }
  }

  /** What every state along an undisturbed chain has in common with its start. */
  lemma {:induction false} ChainKeeps(cfg: Settings, policy: Policy, keys: seq<string>, passes: seq<Pass>, failed: bool,
                                      w: World, w': World)
    requires ValidWorld(w) && PassesMade(cfg, policy, keys, passes, failed) && Chained(w, passes, w')
    ensures ValidWorld(w')
    ensures policy.rule == Quiet ==> SourcesKept(w, w')
    ensures policy.rule != Hostile && Covered(cfg, w, KeySet(keys)) ==> Covered(cfg, w', KeySet(keys))
    decreases |passes|
  {
    if passes != [] {
      var n := |passes| - 1;
      ChainKeeps(cfg, policy, keys, passes[..n], failed, w, passes[n].before);
      if policy.rule != Hostile && Covered(cfg, w, KeySet(keys)) {
        CoveredStays(cfg, policy.rule, keys[n], passes[n].before, w', KeySet(keys));
      }
    }
  }

  lemma KeyApart(keys: seq<string>, i: nat, j: nat)
    requires Distinct(keys) && "" !in keys && i < j < |keys|
    ensures keys[i] != keys[j] && keys[i] != ""
  {
  }

  /** What each pass delivered still stands at the end of the chain. */
  lemma {:induction false} ChainDelivers(cfg: Settings, policy: Policy, keys: seq<string>, passes: seq<Pass>,
                                         failed: bool, w: World, w': World, j: nat, made: Pass)
    requires cfg.Usable() && !cfg.dryRun && policy.rule == Quiet && Distinct(keys) && "" !in keys
    requires PassesMade(cfg, policy, keys, passes, failed) && Chained(w, passes, w')
    requires j < |passes| && passes[j] == made
    ensures Delivered(cfg, w', made.key, made.ending)
    decreases |passes|
  {
    var n := |passes| - 1;
    var last := passes[n];
    assert PassHeld(cfg, policy, last) && last.key == keys[n] && made.key == keys[j] && last.after == w';
    if j < n {
      MadePrefix(cfg, policy, keys, passes, failed, n);
      ChainDelivers(cfg, policy, keys, passes[..n], failed, w, last.before, j, made);
      KeyApart(keys, j, n);
      DeliveredThrough(cfg, policy, last, made.key, made.ending);
    } else {
      DeliveredByItself(cfg, policy, last);
    }
  }

  lemma DeliveredByItself(cfg: Settings, policy: Policy, p: Pass)
    requires !cfg.dryRun && policy.rule == Quiet && PassHeld(cfg, policy, p)
    ensures Delivered(cfg, p.after, p.key, p.ending)
  {
  }

  lemma DeliveredThrough(cfg: Settings, policy: Policy, p: Pass, k: string, ending: Ending)
    requires cfg.Usable() && policy.rule == Quiet && PassHeld(cfg, policy, p) && k != "" && k != p.key
    requires Delivered(cfg, p.before, k, ending)
    ensures Delivered(cfg, p.after, k, ending)
  {
    PassesDoNotInterfere(cfg, k, p.key, p.before, p.after, ending);
  }

  /** What the record says of one pass. */
  lemma MadeAt(cfg: Settings, policy: Policy, keys: seq<string>, passes: seq<Pass>, failed: bool, j: nat)
    requires PassesMade(cfg, policy, keys, passes, failed) && j < |passes|
    ensures passes[j].key == keys[j] && ValidWorld(passes[j].before)
    ensures Evolves(cfg, policy.rule, keys[j], passes[j].before, passes[j].after)
    ensures policy.rule == Quiet && !cfg.dryRun ==> Delivered(cfg, passes[j].after, keys[j], passes[j].ending)
    ensures policy.Calm() ==> Passed(cfg, passes[j].before, passes[j].after, keys[j], passes[j].ending)
  {
    assert PassHeld(cfg, policy, passes[j]);
  }

  /** What each pass of a sweep delivered still stands at its end. */
  lemma SweepDelivers(cfg: Settings, policy: Policy, w: World, w': World, sweep: Sweep, failed: bool, j: nat)
    requires cfg.Usable() && !cfg.dryRun && policy.rule == Quiet && ValidWorld(w)
    requires SweptFleet(cfg, policy, w, w', sweep, failed) && j < |sweep.keys|
    ensures Delivered(cfg, w', sweep.keys[j], sweep.passes[j].ending)
  {
    ChainDelivers(cfg, policy, sweep.keys, sweep.passes, failed, sweep.listed, sweep.last, j, sweep.passes[j]);
    ChainKeeps(cfg, policy, sweep.keys, sweep.passes, failed, sweep.listed, sweep.last);
    PermittedEvolves(cfg, policy.rule, "", sweep.last, w');
    PassesDoNotInterfere(cfg, sweep.keys[j], "", sweep.last, w', sweep.passes[j].ending);
  }

  /** What a registration that stands says: the stored address and credential are what
      was parsed from the kubeconfig the selection rule picks, under the name that the
      namespace claims. */
  lemma RegistrationCarries(cfg: Settings, w: World, k: string, name: string) returns (o: Offer)
    requires Mirrored(cfg, w, k, name)
    ensures Chosen(cfg, SourcesOf(w, k), o) && name in w.secrets && k in w.namespaces
    ensures var data, labels, parsed := w.secrets[name].data, w.secrets[name].labels, ParseOffer(cfg, o).value;
            && Get(data, "config") == cfg.lib.encodeJson(parsed.config) && Get(data, "server") == parsed.server
            && Get(data, "name") == Get(w.namespaces[k].labels, cfg.keys.cluster)
            && name == "cluster-" + Get(data, "name")
            && Get(labels, cfg.keys.source) == w.namespaces[k].name
            && Get(labels, cfg.keys.provider) == cfg.providers[o.p].name
  {
    var c :| Finds(cfg, w, k, c) && SecretName(c.cluster) == name && HoldsIn(cfg, w, c);
    o := ChildIsParsed(cfg, w.namespaces[k], SourcesOf(w, k), c);
    StoredSays(cfg, w, c);
  }

  lemma StoredSays(cfg: Settings, w: World, c: Child)
    requires HoldsIn(cfg, w, c)
    ensures var s := w.secrets[SecretName(c.cluster)];
            && Get(s.data, "name") == c.cluster && Get(s.data, "server") == c.server
            && Get(s.data, "config") == c.config && Get(s.labels, cfg.keys.provider) == c.provider
            && Get(s.labels, cfg.keys.source) == c.namespace && SecretName(c.cluster) == "cluster-" + c.cluster
  {
  }

  /** The audit reads back what was written: a registration that stands counts as active,
      under the time its credential has left. */
  lemma AuditReadsBack(cfg: Settings, w: World, k: string, name: string, now: int) returns (o: Offer)
    requires Mirrored(cfg, w, k, name)
    ensures Chosen(cfg, SourcesOf(w, k), o) && name in w.secrets
    ensures SeriesOf(cfg, w.secrets[name], now) ==
            Series(Active, CredentialExpiry(cfg.lib, cfg.lib.encodeJson(ParseOffer(cfg, o).value.config), now))
  {
    var c :| Finds(cfg, w, k, c) && SecretName(c.cluster) == name && HoldsIn(cfg, w, c);
    o := ChildIsParsed(cfg, w.namespaces[k], SourcesOf(w, k), c);
    StoredSays(cfg, w, c);
    assert !Marked(cfg, w.secrets[name]);
  }

  /** And so does every registration that an undisturbed sweep made, at its end. */
  lemma SweepCarries(cfg: Settings, policy: Policy, w: World, w': World, sweep: Sweep, failed: bool, j: nat)
      returns (o: Offer)
    requires cfg.Usable() && !cfg.dryRun && policy.rule == Quiet && ValidWorld(w)
    requires SweptFleet(cfg, policy, w, w', sweep, failed) && j < |sweep.keys| && sweep.passes[j].ending.RegisteredAs?
    ensures var k, name := sweep.keys[j], sweep.passes[j].ending.name;
            && Chosen(cfg, SourcesOf(w, k), o) && name in w'.secrets
            && Get(w'.secrets[name].data, "config") == cfg.lib.encodeJson(ParseOffer(cfg, o).value.config)
            && Get(w'.secrets[name].data, "server") == ParseOffer(cfg, o).value.server
  {
    SweepDelivers(cfg, policy, w, w', sweep, failed, j);
    PassSources(cfg, policy, w, w', sweep, failed, j);
    o := RegistrationCarries(cfg, w', sweep.keys[j], sweep.passes[j].ending.name);
  }

  /** Every registration there is after a sweep had its pass, unless others mint
      registrations. */
  lemma SweepCovers(cfg: Settings, policy: Policy, w: World, w': World, sweep: Sweep, failed: bool, n: string,
                    k: string)
      returns (j: nat)
    requires policy.rule != Hostile && ValidWorld(w) && SweptFleet(cfg, policy, w, w', sweep, failed)
    requires RecordedAt(cfg, w', k, n) && k != ""
    ensures j < |sweep.keys| && sweep.keys[j] == k
  {
    KeysCover(cfg, sweep.managed, sweep.listed, sweep.keys);
    ChainKeeps(cfg, policy, sweep.keys, sweep.passes, failed, sweep.listed, sweep.last);
    PermittedEvolves(cfg, policy.rule, "", sweep.last, w');
    CoveredStays(cfg, policy.rule, "", sweep.last, w', KeySet(sweep.keys));
    j :| 0 <= j < |sweep.keys| && sweep.keys[j] == k;
  }

  /** After an undisturbed sweep the fleet is settled: a registration of a
      namespace that is gone is left only if it is pinned, and a namespace that
      registered has no other unpinned registration that ArgoCD can see. */
  lemma CleanSweep(cfg: Settings, w: World, w': World, sweep: Sweep, n: string, k: string) returns (j: nat)
    requires cfg.Usable() && !cfg.dryRun && ValidWorld(w)
    requires SweptFleet(cfg, Policy(Quiet, false), w, w', sweep, false)
    requires RecordedAt(cfg, w', k, n) && k != "" && !Pinned(cfg, w'.secrets[n])
    ensures j < |sweep.keys| && sweep.keys[j] == k && k in w'.namespaces
    ensures sweep.passes[j].ending.RegisteredAs? && Visible(cfg, w'.secrets[n]) ==>
      n == sweep.passes[j].ending.name && Live(cfg, w', k, n)
  {
    var policy := Policy(Quiet, false);
    j := SweepCovers(cfg, policy, w, w', sweep, false, n, k);
    SweepDelivers(cfg, policy, w, w', sweep, false, j);
    var p := sweep.passes[j];
    PassSources(cfg, policy, w, w', sweep, false, j);
    assert ValidWorld(w') && n != "";
    assert p.ending.Kept? ==> Settled(cfg, w', n, false);
    assert p.ending.RegisteredAs? && n != p.ending.name ==> Settled(cfg, w', n, true);
  }

  /** Namespaces and sources are the same before each pass as before the sweep and
      after it. */
  lemma PassSources(cfg: Settings, policy: Policy, w: World, w': World, sweep: Sweep, failed: bool, j: nat)
    requires policy.rule == Quiet && ValidWorld(w) && SweptFleet(cfg, policy, w, w', sweep, failed) && j < |sweep.keys|
    ensures SourcesKept(w, sweep.passes[j].before) && SourcesKept(w, w')
  {
    ChainSources(cfg, policy, sweep.keys, sweep.passes, failed, sweep.listed, sweep.last, j);
  }

  lemma ChainSources(cfg: Settings, policy: Policy, keys: seq<string>, passes: seq<Pass>, failed: bool,
                     w: World, w': World, j: nat)
    requires policy.rule == Quiet && ValidWorld(w) && PassesMade(cfg, policy, keys, passes, failed)
    requires Chained(w, passes, w') && j < |passes|
    ensures SourcesKept(w, passes[j].before) && SourcesKept(w, w')
  {
    ChainPrefix(w, passes, w', j);
    MadePrefix(cfg, policy, keys, passes, failed, j);
    ChainKeeps(cfg, policy, keys, passes[..j], failed, w, passes[j].before);
    ChainKeeps(cfg, policy, keys, passes, failed, w, w');
  }

  lemma MadePrefix(cfg: Settings, policy: Policy, keys: seq<string>, passes: seq<Pass>, failed: bool, j: nat)
    requires PassesMade(cfg, policy, keys, passes, failed) && j <= |passes|
    ensures PassesMade(cfg, policy, keys, passes[..j], failed)
  {
  }
}
