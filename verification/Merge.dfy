/** What apply writes over an existing Secret, what demote writes, and what
    changed() compares. */
module Merge {
  import opened Text
  import opened KeySpace
  import opened Propagation
  import opened Objects

  // -------------------------------------------------------------- definitions

  /** The labels apply computes itself. */
  function ComputedLabels(cfg: Settings, c: Child): Labels {
    map[cfg.keys.secretType := CLUSTER_TYPE,
        cfg.keys.managedBy := cfg.owner,
        cfg.keys.cluster := c.cluster,
        cfg.keys.source := c.namespace,
        cfg.keys.sourceUid := c.namespaceUid,
        cfg.keys.provider := c.provider]
  }

  /** Propagated labels are copied last. */
  function WantLabels(cfg: Settings, c: Child): Labels {
    ComputedLabels(cfg, c) + c.labels
  }

  function WantData(c: Child): map<string, string> {
    map["name" := c.cluster, "server" := c.server, "config" := c.config]
  }

  /** A prefixed key that upstream no longer has; the prune opt-out is exempt. */
  predicate Stale(k: string, want: Labels, keys: Keys) {
    k != keys.prune && HasPrefix(k, keys.prefix) && k !in want
  }

  function Swept(m: Labels, want: Labels, keys: Keys): Labels {
    map k | k in m && !Stale(k, want, keys) :: m[k]
  }

  function MergeMap(m: Labels, want: Labels, keys: Keys): Labels {
    Swept(m + want, want, keys)
  }

  function Merged(cfg: Settings, s: Secret, c: Child): Secret {
    s.(data := s.data + WantData(c),
       labels := MergeMap(s.labels, WantLabels(cfg, c), cfg.keys),
       annotations := MergeMap(s.annotations, c.annotations, cfg.keys))
  }

  /** The labels demote leaves; `heir` is recorded only if it is a label value. */
  function DemotedLabels(cfg: Settings, m: Labels, heir: string, stamp: string): Labels {
    var parked := if cfg.keys.secretType in m
                     then (m - {cfg.keys.secretType})[cfg.keys.orphaned := m[cfg.keys.secretType]] else m;
    var superseded := if cfg.lib.labelValue(heir) then parked[cfg.keys.supersededBy := heir] else parked;
    superseded[cfg.keys.staleSince := stamp]
  }

  function Demoted(cfg: Settings, s: Secret, heir: string, stamp: string): Secret {
    s.(labels := DemotedLabels(cfg, s.labels, heir, stamp))
  }

  /** Some wanted key does not read as wanted. */
  ghost predicate Lacks(m: Labels, want: Labels) {
    exists k :: k in want && Get(m, k) != want[k]
  }

  ghost predicate HasStale(m: Labels, want: Labels, keys: Keys) {
    exists k :: k in m && Stale(k, want, keys)
  }

  ghost predicate IsChanged(cfg: Settings, s: Secret, c: Child) {
    || Lacks(s.data, WantData(c))
    || Lacks(s.labels, WantLabels(cfg, c)) || HasStale(s.labels, WantLabels(cfg, c), cfg.keys)
    || Lacks(s.annotations, c.annotations) || HasStale(s.annotations, c.annotations, cfg.keys)
  }

  // ------------------------------------------------------------------ methods

  method AnyLacking(m: Labels, want: Labels) returns (b: bool)
    ensures b <==> Lacks(m, want)
  {
    var unseen := want.Keys;
    while unseen != {}
      invariant unseen <= want.Keys
      invariant forall k :: k in want && k !in unseen ==> Get(m, k) == want[k]
      decreases unseen
    {
      var k :| k in unseen;
      unseen := unseen - {k};
      if Get(m, k) != want[k] {
        return true;
      }
    }
    return false;
  }

  method AnyStale(m: Labels, want: Labels, keys: Keys) returns (b: bool)
    ensures b <==> HasStale(m, want, keys)
  {
    var unseen := m.Keys;
    while unseen != {}
      invariant unseen <= m.Keys
      invariant forall k :: k in m && k !in unseen ==> !Stale(k, want, keys)
      decreases unseen
    {
      var k :| k in unseen;
      unseen := unseen - {k};
      if k == keys.prune {
        continue;
      }
      if HasPrefix(k, keys.prefix) {
        if k !in want {
          assert Stale(k, want, keys);
          return true;
        }
      }
    }
    return false;
  }

  method Changed(cfg: Settings, s: Secret, c: Child) returns (b: bool)
    ensures b <==> IsChanged(cfg, s, c)
  {
    b := AnyLacking(s.data, WantData(c));
    if b { return; }
    b := AnyLacking(s.labels, WantLabels(cfg, c));
    if b { return; }
    b := AnyStale(s.labels, WantLabels(cfg, c), cfg.keys);
    if b { return; }
    b := AnyLacking(s.annotations, c.annotations);
    if b { return; }
    b := AnyStale(s.annotations, c.annotations, cfg.keys);
  }

  /** The copy-then-sweep loop of apply, over labels or annotations. */
  method CopyAndSweep(m: Labels, want: Labels, keys: Keys) returns (r: Labels)
    ensures r == MergeMap(m, want, keys)
  {
    r := m + want;
    var unseen := r.Keys;
    while unseen != {}
      invariant unseen <= (m + want).Keys
      invariant r == map k | k in m + want && (k in unseen || !Stale(k, want, keys)) :: (m + want)[k]
      decreases unseen
    {
      var k :| k in unseen;
      unseen := unseen - {k};
      if k == keys.prune {
        continue;
      }
      if HasPrefix(k, keys.prefix) {
        if k !in want {
          r := r - {k};
        }
      }
    }
  }

  /** The relabelling of demote, step by step. */
  method Park(cfg: Settings, s: Secret, heir: string, stamp: string) returns (updated: Secret)
    requires cfg.keys.Sound()
    ensures updated == Demoted(cfg, s, heir, stamp)
  {
    var labels := s.labels;
    if cfg.keys.secretType in labels {
      labels := labels[cfg.keys.orphaned := labels[cfg.keys.secretType]];
      labels := labels - {cfg.keys.secretType};
    }
    if cfg.lib.labelValue(heir) {
      labels := labels[cfg.keys.supersededBy := heir];
    }
    labels := labels[cfg.keys.staleSince := stamp];
    assert cfg.keys.orphaned in cfg.keys.Reserved();
    updated := s.(labels := labels);
  }

  // --------------------------------------------------------------- properties

  /** What discovery guarantees of a child. */
  ghost predicate ChildOk(cfg: Settings, c: Child) {
    && c.cluster != ""
    && c.provider != ""
    && TrimSlashes(c.server) == c.server
    && (forall k :: k in c.labels ==> Eligible(k, cfg.keys))
    && (forall k :: k in c.annotations ==> Eligible(k, cfg.keys))
  }

  /** The six computed labels survive the later copy of propagated labels, so a
      namespace cannot lie about its own registration. */
  lemma ComputedLabelsSurvive(cfg: Settings, c: Child)
    requires cfg.keys.Sound() && ChildOk(cfg, c)
    ensures var w := WantLabels(cfg, c);
            && w.Keys >= {cfg.keys.secretType, cfg.keys.managedBy, cfg.keys.cluster, cfg.keys.source,
                         cfg.keys.sourceUid, cfg.keys.provider}
            && w[cfg.keys.secretType] == CLUSTER_TYPE
            && w[cfg.keys.managedBy] == cfg.owner
            && w[cfg.keys.cluster] == c.cluster
            && w[cfg.keys.source] == c.namespace
            && w[cfg.keys.sourceUid] == c.namespaceUid
            && w[cfg.keys.provider] == c.provider
    ensures forall k :: k in {cfg.keys.orphaned, cfg.keys.supersededBy, cfg.keys.staleSince, cfg.keys.prune}
                        ==> k !in WantLabels(cfg, c) && k !in c.annotations
    ensures forall k :: k in WantLabels(cfg, c) && k != cfg.keys.secretType ==> HasPrefix(k, cfg.keys.prefix)
  {
    assert forall k :: k in cfg.keys.Reserved() ==> k !in c.labels && k !in c.annotations && k != cfg.keys.secretType;
  }

  /** After the merge nothing differs, so a second apply of the same child
      writes nothing. */
  lemma MergeConverges(cfg: Settings, s: Secret, c: Child)
    ensures !IsChanged(cfg, Merged(cfg, s, c), c)
  {
  }

  /** Two maps that no lookup can tell apart. */
  ghost predicate ReadsSame(a: Labels, b: Labels) {
    forall k :: Get(a, k) == Get(b, k)
  }

  ghost predicate SecretReadsSame(a: Secret, b: Secret) {
    ReadsSame(a.labels, b.labels) && ReadsSame(a.annotations, b.annotations) && ReadsSame(a.data, b.data)
  }

  lemma MapMergeReads(m: Labels, want: Labels, keys: Keys)
    ensures Lacks(m, want) || HasStale(m, want, keys) <==>
            !ReadsSame(MergeMap(m, want, keys), m) || HasStale(m, want, keys)
  {
  }

  lemma DataMergeReads(m: Labels, want: Labels)
    ensures Lacks(m, want) <==> !ReadsSame(m + want, m)
  {
  }

  /** A write is skipped exactly when it would change nothing a lookup can see
      and there is no stale prefixed key to sweep. */
  lemma SkippedExactlyWhenInert(cfg: Settings, s: Secret, c: Child)
    ensures !IsChanged(cfg, s, c) <==>
            && SecretReadsSame(Merged(cfg, s, c), s)
            && !HasStale(s.labels, WantLabels(cfg, c), cfg.keys)
            && !HasStale(s.annotations, c.annotations, cfg.keys)
  {
    MapMergeReads(s.labels, WantLabels(cfg, c), cfg.keys);
    MapMergeReads(s.annotations, c.annotations, cfg.keys);
    DataMergeReads(s.data, WantData(c));
  }

  /** The frame of merging one map: every key is wanted, swept, or untouched. */
  lemma MapFrame(m: Labels, want: Labels, keys: Keys, k: string)
    ensures var r := MergeMap(m, want, keys);
            && (k in want ==> k in r && r[k] == want[k])
            && (Stale(k, want, keys) ==> k !in r)
            && (k !in want && !Stale(k, want, keys) ==> (k in r <==> k in m) && Get(r, k) == Get(m, k))
  {
  }

  /** The exact frame of a merge: wanted keys get their wanted value, prefixed
      keys that are not wanted go (except the prune opt-out), and every other
      label, annotation and data key is left as it was. */
  lemma MergeFrame(cfg: Settings, s: Secret, c: Child, k: string)
    requires cfg.keys.Sound() && ChildOk(cfg, c)
    ensures var r := Merged(cfg, s, c);
            && (k in WantLabels(cfg, c) ==> k in r.labels && r.labels[k] == WantLabels(cfg, c)[k])
            && (k in c.annotations ==> k in r.annotations && r.annotations[k] == c.annotations[k])
            && (Stale(k, WantLabels(cfg, c), cfg.keys) ==> k !in r.labels)
            && (Stale(k, c.annotations, cfg.keys) ==> k !in r.annotations)
            && (k == cfg.keys.prune || (!HasPrefix(k, cfg.keys.prefix) && k != cfg.keys.secretType) ==>
                (k in r.labels <==> k in s.labels) && Get(r.labels, k) == Get(s.labels, k))
            && (k == cfg.keys.prune || !HasPrefix(k, cfg.keys.prefix) ==>
                (k in r.annotations <==> k in s.annotations) && Get(r.annotations, k) == Get(s.annotations, k))
            && (k !in {"name", "server", "config"} ==>
                (k in r.data <==> k in s.data) && Get(r.data, k) == Get(s.data, k))
            && r.name == s.name && r.uid == s.uid && r.rv == s.rv
  {
    ComputedLabelsSurvive(cfg, c);
    MapFrame(s.labels, WantLabels(cfg, c), cfg.keys, k);
    MapFrame(s.annotations, c.annotations, cfg.keys, k);
  }

  /** No key of ArgoCD's own is swept or overwritten, bar the one label that
      makes the Secret a cluster. */
  lemma ArgoKeysUntouched(cfg: Settings, s: Secret, c: Child, k: string)
    requires cfg.keys.Sound() && cfg.keys.ClearOfArgo() && ChildOk(cfg, c)
    requires HasPrefix(k, ARGO_DOMAIN) && k != cfg.keys.secretType
    ensures var r := Merged(cfg, s, c);
            && (k in r.labels <==> k in s.labels) && Get(r.labels, k) == Get(s.labels, k)
            && (k in r.annotations <==> k in s.annotations) && Get(r.annotations, k) == Get(s.annotations, k)
  {
  }

  /** Demotion touches only keys that are wanted (the ArgoCD label) or stale. */
  lemma DemotionTouches(cfg: Settings, m: Labels, heir: string, stamp: string, k: string)
    requires k != cfg.keys.secretType && k !in {cfg.keys.orphaned, cfg.keys.supersededBy, cfg.keys.staleSince}
    ensures var d := DemotedLabels(cfg, m, heir, stamp);
            (k in d <==> k in m) && Get(d, k) == Get(m, k)
  {
  }

  lemma RevertKey(cfg: Settings, s: Secret, c: Child, heir: string, stamp: string, k: string)
    requires cfg.keys.Sound() && ChildOk(cfg, c)
    ensures var want := WantLabels(cfg, c);
            var a := MergeMap(DemotedLabels(cfg, s.labels, heir, stamp), want, cfg.keys);
            var b := MergeMap(s.labels, want, cfg.keys);
            (k in a <==> k in b) && Get(a, k) == Get(b, k)
  {
    if k == cfg.keys.secretType || k in {cfg.keys.orphaned, cfg.keys.supersededBy, cfg.keys.staleSince} {
      RevertOwnKey(cfg, s, c, heir, stamp, k);
    } else {
      DemotionTouches(cfg, s.labels, heir, stamp, k);
    }
  }

  /** A key that demotion touches is wanted or swept. */
  lemma RevertOwnKey(cfg: Settings, s: Secret, c: Child, heir: string, stamp: string, k: string)
    requires cfg.keys.Sound() && ChildOk(cfg, c)
    requires k == cfg.keys.secretType || k in {cfg.keys.orphaned, cfg.keys.supersededBy, cfg.keys.staleSince}
    ensures var want := WantLabels(cfg, c);
            var a := MergeMap(DemotedLabels(cfg, s.labels, heir, stamp), want, cfg.keys);
            var b := MergeMap(s.labels, want, cfg.keys);
            (k in a <==> k in b) && Get(a, k) == Get(b, k)
  {
    var want := WantLabels(cfg, c);
    ComputedLabelsSurvive(cfg, c);
    OwnKeys(cfg);
    MapFrame(DemotedLabels(cfg, s.labels, heir, stamp), want, cfg.keys, k);
    MapFrame(s.labels, want, cfg.keys, k);
  }

  /** Rename then revert is lossless: restoring a demoted registration gives
      exactly what refreshing the original would have given. */
  lemma RevertIsLossless(cfg: Settings, s: Secret, c: Child, heir: string, stamp: string)
    requires cfg.keys.Sound() && ChildOk(cfg, c)
    ensures Merged(cfg, Demoted(cfg, s, heir, stamp), c) == Merged(cfg, s, c)
  {
    var a := MergeMap(DemotedLabels(cfg, s.labels, heir, stamp), WantLabels(cfg, c), cfg.keys);
    var b := MergeMap(s.labels, WantLabels(cfg, c), cfg.keys);
    forall k ensures (k in a <==> k in b) && (k in a ==> a[k] == b[k]) {
      RevertKey(cfg, s, c, heir, stamp, k);
      assert Get(a, k) == Get(b, k);
    }
    assert a == b;
  }

  lemma OwnKeys(cfg: Settings)
    requires cfg.keys.Sound()
    ensures var k := cfg.keys;
            && (forall x :: x in {k.orphaned, k.supersededBy, k.staleSince} ==>
                 HasPrefix(x, k.prefix) && x != k.prune && x != cfg.keys.secretType && x != k.managedBy && x != k.source
                 && x != k.sourceUid && x != k.cluster && x != k.provider)
            && k.orphaned != k.supersededBy && k.orphaned != k.staleSince && k.supersededBy != k.staleSince
            && cfg.keys.secretType !in k.Reserved()
            && k.managedBy != k.source && k.managedBy != k.cluster && k.source != k.cluster
            && k.source != k.sourceUid && k.prune !in {k.managedBy, k.source, k.sourceUid, k.cluster, k.provider}
  {
  }

  /** The restore is never skipped as up to date. */
  lemma RestoreIsNeverSkipped(cfg: Settings, s: Secret, c: Child, heir: string, stamp: string)
    requires cfg.keys.Sound() && ChildOk(cfg, c)
    ensures IsChanged(cfg, Demoted(cfg, s, heir, stamp), c)
  {
    ComputedLabelsSurvive(cfg, c);
    OwnKeys(cfg);
    assert cfg.keys.staleSince in Demoted(cfg, s, heir, stamp).labels;
    assert Stale(cfg.keys.staleSince, WantLabels(cfg, c), cfg.keys);
  }

  /** The Secret says of the cluster all that the child says, and under the prefix
      nothing else: its name, address and credential, ArgoCD's label, the provider,
      and the labels and annotations that are propagated. */
  ghost predicate Mirrors(cfg: Settings, s: Secret, c: Child) {
    && Get(s.data, "name") == c.cluster && Get(s.data, "server") == c.server && Get(s.data, "config") == c.config
    && Get(s.labels, cfg.keys.secretType) == "cluster" && Get(s.labels, cfg.keys.provider) == c.provider
    && (forall k :: k in c.labels ==> Get(s.labels, k) == c.labels[k])
    && (forall k :: k in c.annotations ==> Get(s.annotations, k) == c.annotations[k])
    && (forall k :: k in s.labels && HasPrefix(k, cfg.keys.prefix) ==>
          k in c.labels || k in {cfg.keys.managedBy, cfg.keys.cluster, cfg.keys.source, cfg.keys.sourceUid,
                                 cfg.keys.provider, cfg.keys.prune})
    && (forall k :: k in s.annotations && HasPrefix(k, cfg.keys.prefix) ==>
          k in c.annotations || k == cfg.keys.prune)
  }

  /** No wanted key reads otherwise, and no stale one is there. */
  lemma UnchangedMirrors(cfg: Settings, s: Secret, c: Child)
    requires cfg.keys.Sound() && ChildOk(cfg, c) && !IsChanged(cfg, s, c)
    ensures Mirrors(cfg, s, c)
  {
    var want := WantLabels(cfg, c);
    ComputedLabelsSurvive(cfg, c);
    DataWanted(c);
    LabelsWanted(cfg, c);
    forall k | k in s.labels && HasPrefix(k, cfg.keys.prefix)
      ensures k in want || k == cfg.keys.prune
    {
      assert !Stale(k, want, cfg.keys);
    }
    forall k | k in s.annotations && HasPrefix(k, cfg.keys.prefix)
      ensures k in c.annotations || k == cfg.keys.prune
    {
      assert !Stale(k, c.annotations, cfg.keys);
    }
  }

  lemma DataWanted(c: Child)
    ensures var d := WantData(c);
            "name" in d && "server" in d && "config" in d
            && d["name"] == c.cluster && d["server"] == c.server && d["config"] == c.config
  {
  }

  lemma LabelsWanted(cfg: Settings, c: Child)
    ensures var want := WantLabels(cfg, c);
            && (forall k :: k in c.labels ==> k in want && want[k] == c.labels[k])
            && (forall k :: k in want ==>
                 k in c.labels || k in {cfg.keys.managedBy, cfg.keys.cluster, cfg.keys.source, cfg.keys.sourceUid,
                                        cfg.keys.provider, cfg.keys.secretType})
  {
  }

  lemma MergedMirrors(cfg: Settings, s: Secret, c: Child)
    requires cfg.keys.Sound() && ChildOk(cfg, c)
    ensures Mirrors(cfg, Merged(cfg, s, c), c)
  {
    MergeConverges(cfg, s, c);
    UnchangedMirrors(cfg, Merged(cfg, s, c), c);
  }

  lemma MirrorsAnyVersion(cfg: Settings, s: Secret, t: Secret, c: Child)
    requires Mirrors(cfg, s, c) && t.labels == s.labels && t.annotations == s.annotations && t.data == s.data
    ensures Mirrors(cfg, t, c)
  {
  }

  /** What a merged Secret reads as. */
  lemma MergedReads(cfg: Settings, s: Secret, c: Child)
    requires cfg.Usable() && ChildOk(cfg, c)
    ensures var r := Merged(cfg, s, c);
            && Owned(cfg, r) && Source(cfg, r) == c.namespace && RecordedUid(cfg, r) == c.namespaceUid
            && ClusterOf(cfg, r) == c.cluster && !Marked(cfg, r) && Visible(cfg, r) && Server(r) == c.server
            && Pinned(cfg, r) == Pinned(cfg, s) && cfg.keys.staleSince !in r.labels
  {
    var want := WantLabels(cfg, c);
    var keys := cfg.keys;
    assert want == WantLabels(cfg, c);
    ComputedLabelsSurvive(cfg, c);
    MapFrame(s.labels, want, keys, keys.secretType);
    MapFrame(s.labels, want, keys, keys.managedBy);
    MapFrame(s.labels, want, keys, keys.cluster);
    MapFrame(s.labels, want, keys, keys.source);
    MapFrame(s.labels, want, keys, keys.sourceUid);
    MapFrame(s.labels, want, keys, keys.orphaned);
    MapFrame(s.labels, want, keys, keys.staleSince);
    MapFrame(s.labels, want, keys, keys.prune);
    OwnPrefixed(keys);
  }

  lemma OwnPrefixed(keys: Keys)
    requires keys.Sound()
    ensures HasPrefix(keys.orphaned, keys.prefix) && HasPrefix(keys.staleSince, keys.prefix)
    ensures keys.orphaned != keys.prune && keys.staleSince != keys.prune
  {
  }

  /** An unchanged Secret reads as the registration it would be merged into. */
  lemma UnchangedReads(cfg: Settings, s: Secret, c: Child)
    requires cfg.Usable() && ChildOk(cfg, c) && !IsChanged(cfg, s, c)
    ensures Owned(cfg, s) && Source(cfg, s) == c.namespace && RecordedUid(cfg, s) == c.namespaceUid
    ensures ClusterOf(cfg, s) == c.cluster && !Marked(cfg, s) && Visible(cfg, s) && Mirrors(cfg, s, c)
  {
    UnchangedMirrors(cfg, s, c);
    MergedReads(cfg, s, c);
    SkippedExactlyWhenInert(cfg, s, c);
    ComputedLabelsSurvive(cfg, c);
    assert Get(s.labels, cfg.keys.secretType) == CLUSTER_TYPE;
  }

  /** What a demoted Secret reads as: hidden from ArgoCD, everything else about
      its ownership, its data and its annotations as before. */
  lemma DemotedReads(cfg: Settings, s: Secret, heir: string, stamp: string)
    requires cfg.keys.Sound()
    ensures var r := Demoted(cfg, s, heir, stamp);
            && Owned(cfg, r) == Owned(cfg, s) && Source(cfg, r) == Source(cfg, s)
            && RecordedUid(cfg, r) == RecordedUid(cfg, s) && ClusterOf(cfg, r) == ClusterOf(cfg, s)
            && Pinned(cfg, r) == Pinned(cfg, s)
            && !Visible(cfg, r)
            && (Visible(cfg, s) ==> Get(r.labels, cfg.keys.orphaned) == s.labels[cfg.keys.secretType])
            && (!Visible(cfg, s) ==> Marked(cfg, r) == Marked(cfg, s))
            && Get(r.labels, cfg.keys.staleSince) == stamp
            && Get(r.labels, cfg.keys.supersededBy) ==
               (if cfg.lib.labelValue(heir) then heir else Get(s.labels, cfg.keys.supersededBy))
            && (forall k ::
                  k !in {cfg.keys.secretType, cfg.keys.orphaned, cfg.keys.supersededBy, cfg.keys.staleSince} ==>
                    (k in r.labels <==> k in s.labels) && Get(r.labels, k) == Get(s.labels, k))
            && r.data == s.data && r.annotations == s.annotations
            && r.name == s.name && r.uid == s.uid && r.rv == s.rv
  {
    OwnKeys(cfg);
    forall k | k in {cfg.keys.managedBy, cfg.keys.source, cfg.keys.sourceUid, cfg.keys.cluster, cfg.keys.prune}
      ensures Get(DemotedLabels(cfg, s.labels, heir, stamp), k) == Get(s.labels, k)
    {
      DemotionTouches(cfg, s.labels, heir, stamp, k);
    }
  }
}
