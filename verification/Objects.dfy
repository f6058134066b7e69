/** Configuration, and the objects the tool reads and writes. */
module Objects {
  import opened Results
  import opened Text
  import opened KeySpace
  import opened Kubeconfig

  /** One provisioner's kubeconfig Secret shape. */
  datatype Provider = Provider(
    name: string, pattern: string, keys: seq<string>, secretType: string, allowExec: bool)

  /** `owner` is the managed-by value; `keys` the label keys of the configured
      prefix, computed once; `demotedTtl` is in nanoseconds. */
  datatype Settings = Settings(
    targetNamespace: string, owner: string, providers: seq<Provider>, keys: Keys,
    dryRun: bool, execCredentials: bool, demotedTtl: int, lib: Library)
  {
    /** What the rest of the model needs of an accepted configuration. */
    ghost predicate Usable() {
      && keys.Sound()
      && owner != ""
      && demotedTtl >= 0
      && (forall p :: p in providers ==> p.name != "" && Distinct(p.keys))
      && (forall i, j :: 0 <= i < j < |providers| ==> providers[i].name != providers[j].name)
    }
  }

  // --------------------------------------------------------------- validation

  datatype ConfigError =
    | NoTargetNamespace | NoManagedBy | NoProviders
    | NamelessProvider | BadProviderName | DuplicateProvider | NoPattern | NoKeys | EmptyKey | DuplicateKey | BadGlob
    | PrefixInArgoDomain | NegativeTtl | NoPrefix | PrefixWithoutSlash | BadPrefix

  ghost predicate ProviderAccepted(lib: Library, p: Provider) {
    && p.name != "" && lib.labelValue(p.name)
    && p.pattern != "" && lib.globValid(p.pattern)
    && p.keys != [] && "" !in p.keys && Distinct(p.keys)
  }

  ghost predicate Accepted(c: Settings) {
    && c.targetNamespace != "" && c.owner != "" && c.providers != []
    && (forall p :: p in c.providers ==> ProviderAccepted(c.lib, p))
    && (forall i, j :: 0 <= i < j < |c.providers| ==> c.providers[i].name != c.providers[j].name)
    && c.demotedTtl >= 0
    && PrefixAccepted(c.keys.prefix, c.lib.qualifiedParts)
  }

  method CheckKeys(keys: seq<string>) returns (err: Option<ConfigError>)
    ensures err.None? <==> "" !in keys && Distinct(keys)
  {
    var seen: set<string> := {};
    for i := 0 to |keys|
      invariant forall k :: k in seen <==> k in keys[..i]
      invariant "" !in keys[..i] && Distinct(keys[..i])
    {
      if keys[i] == "" {
        return Some(EmptyKey);
      }
      if keys[i] in seen {
        ghost var j :| 0 <= j < i && keys[j] == keys[i];
        return Some(DuplicateKey);
      }
      seen := seen + {keys[i]};
    }
    assert keys[..|keys|] == keys;
    return None;
  }

  method CheckProvider(lib: Library, p: Provider, seen: set<string>) returns (err: Option<ConfigError>)
    ensures err.None? <==> ProviderAccepted(lib, p) && p.name !in seen
  {
    if p.name == "" {
      return Some(NamelessProvider);
    }
    if !lib.labelValue(p.name) {
      return Some(BadProviderName);
    }
    if p.name in seen {
      return Some(DuplicateProvider);
    }
    if p.pattern == "" {
      return Some(NoPattern);
    }
    if |p.keys| == 0 {
      return Some(NoKeys);
    }
    err := CheckKeys(p.keys);
    if err.Some? {
      return;
    }
    if !lib.globValid(p.pattern) {
      return Some(BadGlob);
    }
    return None;
  }

  /** Config.Validate accepts exactly the configurations described above. */
  method Validate(c: Settings) returns (err: Option<ConfigError>)
    requires c.keys == KeysFor(c.keys.prefix)
    ensures err.None? <==> Accepted(c)
  {
    if c.targetNamespace == "" {
      return Some(NoTargetNamespace);
    }
    if c.owner == "" {
      return Some(NoManagedBy);
    }
    if |c.providers| == 0 {
      return Some(NoProviders);
    }
    var seen: set<string> := {};
    for i := 0 to |c.providers|
      invariant forall n :: n in seen <==> exists j :: 0 <= j < i && c.providers[j].name == n
      invariant forall p :: p in c.providers[..i] ==> ProviderAccepted(c.lib, p)
      invariant forall j, k :: 0 <= j < k < i ==> c.providers[j].name != c.providers[k].name
    {
      err := CheckProvider(c.lib, c.providers[i], seen);
      if err.Some? {
        assert c.providers[i] in c.providers;
        return;
      }
      seen := seen + {c.providers[i].name};
    }
    assert c.providers[..|c.providers|] == c.providers;
    var prefix := c.keys.prefix;
    if prefix != "" && HasPrefix(ARGO_DOMAIN, prefix) {
      return Some(PrefixInArgoDomain);
    }
    if c.demotedTtl < 0 {
      return Some(NegativeTtl);
    }
    if prefix == "" {
      return Some(NoPrefix);
    }
    if prefix[|prefix| - 1] != '/' {
      return Some(PrefixWithoutSlash);
    }
    if !QualifiedName(c.keys.managedBy, c.lib.qualifiedParts) {
      return Some(BadPrefix);
    }
    return None;
  }

  lemma AcceptedIsUsable(c: Settings)
    requires Accepted(c) && c.keys == KeysFor(c.keys.prefix)
    ensures c.Usable() && c.keys.ClearOfArgo()
  {
    AcceptedPrefixIsSound(c.keys.prefix, c.lib.qualifiedParts);
  }

  // ------------------------------------------------------------------ objects

  datatype Namespace = Namespace(
    name: string, uid: string, labels: Labels, annotations: Labels, created: int, terminating: bool)

  /** A Secret in the target namespace. `uid` identifies the object, `rv` one
      stored version of it. */
  datatype Secret = Secret(
    name: string, uid: nat, rv: nat, labels: Labels, annotations: Labels, data: map<string, string>)

  /** A Secret in a source namespace; `controllers` are the controller flags of
      its owner references. */
  datatype SourceSecret = SourceSecret(
    name: string, secretType: string, controllers: seq<bool>, data: map<string, string>)

  /** One discovered cluster ready to be written out. */
  datatype Child = Child(
    cluster: string, namespace: string, namespaceUid: string, server: string, config: string,
    provider: string, labels: Labels, annotations: Labels)

  datatype Reason =
    | NotManaged | OrphanClusterMismatch | Incumbent | ContestedName | CreateRace | ServerCollision

  function SecretName(cluster: string): string {
    "cluster-" + cluster
  }

  // -------------------------------------------------------- reading a Secret

  predicate Owned(cfg: Settings, s: Secret) {
    Get(s.labels, cfg.keys.managedBy) == cfg.owner
  }

  function Source(cfg: Settings, s: Secret): string {
    Get(s.labels, cfg.keys.source)
  }

  function RecordedUid(cfg: Settings, s: Secret): string {
    Get(s.labels, cfg.keys.sourceUid)
  }

  function ClusterOf(cfg: Settings, s: Secret): string {
    Get(s.labels, cfg.keys.cluster)
  }

  /** Demoted on an earlier pass. */
  predicate Marked(cfg: Settings, s: Secret) {
    Get(s.labels, cfg.keys.orphaned) != ""
  }

  predicate Pinned(cfg: Settings, s: Secret) {
    Get(s.labels, cfg.keys.prune) == PRUNE_DISABLED
  }

  /** Carries the label by which ArgoCD finds clusters. */
  predicate Visible(cfg: Settings, s: Secret) {
    cfg.keys.secretType in s.labels
  }

  function Server(s: Secret): string {
    Get(s.data, "server")
  }
}
