/** The label keys the tool reads and writes, and the part of configuration
    validation that keeps them apart from ArgoCD's own keys. */
module KeySpace {
  import opened Text

  const ARGO_DOMAIN := "argocd.argoproj.io/"
  const SECRET_TYPE := "argocd.argoproj.io/secret-type"
  const CLUSTER_TYPE := "cluster"
  const PRUNE_DISABLED := "disabled"

  /** Every key derived from one label prefix, and the label by which ArgoCD
      finds clusters. */
  datatype Keys = Keys(
    prefix: string,
    secretType: string,
    managedBy: string,
    cluster: string,
    source: string,
    sourceUid: string,
    provider: string,
    orphaned: string,
    supersededBy: string,
    staleSince: string,
    prune: string)
  {
    /** reservedSuffixes: never copied off a source namespace. */
    function Reserved(): set<string> {
      {managedBy, cluster, source, sourceUid, provider, orphaned, supersededBy, staleSince, prune}
    }

    ghost predicate PairwiseDistinct() {
      && managedBy !in {cluster, source, sourceUid, provider, orphaned, supersededBy, staleSince, prune}
      && cluster !in {source, sourceUid, provider, orphaned, supersededBy, staleSince, prune}
      && source !in {sourceUid, provider, orphaned, supersededBy, staleSince, prune}
      && sourceUid !in {provider, orphaned, supersededBy, staleSince, prune}
      && provider !in {orphaned, supersededBy, staleSince, prune}
      && orphaned !in {supersededBy, staleSince, prune}
      && supersededBy !in {staleSince, prune}
      && staleSince != prune
    }

    /** What the rest of the tool relies on about its key space. */
    ghost predicate Sound() {
      && PairwiseDistinct()
      && (forall k :: k in Reserved() ==> HasPrefix(k, prefix))
      && !HasPrefix(secretType, prefix)
    }

    /** No key is both under the prefix and under ArgoCD's domain. */
    ghost predicate ClearOfArgo() {
      forall k :: HasPrefix(k, ARGO_DOMAIN) ==> !HasPrefix(k, prefix)
    }
  }

  function KeysFor(prefix: string): Keys {
    Keys(prefix,
         SECRET_TYPE,
         prefix + "managed-by",
         prefix + "cluster",
         prefix + "source-namespace",
         prefix + "source-namespace-uid",
         prefix + "provider",
         prefix + "orphaned-secret-type",
         prefix + "superseded-by",
         prefix + "stale-since",
         prefix + "prune")
  }

  function Slashes(s: string): nat {
    if s == "" then 0 else (if s[0] == '/' then 1 else 0) + Slashes(s[1..])
  }

  /** IsQualifiedName splits on '/' and accepts one or two parts; what it asks
      of each part is the caller's `parts`. */
  predicate QualifiedName(k: string, parts: string -> bool) {
    Slashes(k) <= 1 && parts(k)
  }

  /** The four label-prefix branches of Config.Validate. */
  predicate PrefixAccepted(prefix: string, parts: string -> bool) {
    && !(prefix != "" && HasPrefix(ARGO_DOMAIN, prefix))
    && prefix != ""
    && prefix[|prefix| - 1] == '/'
    && QualifiedName(KeysFor(prefix).managedBy, parts)
  }

  lemma {:induction false} SlashesSplit(a: string, b: string)
    ensures Slashes(a + b) == Slashes(a) + Slashes(b)
  {
    if a == "" {
      assert a + b == b;
    } else {
      assert (a + b)[1..] == a[1..] + b;
      SlashesSplit(a[1..], b);
    }
  }

  lemma SlashesAt(s: string, i: nat)
    requires i < |s| && s[i] == '/'
    ensures Slashes(s) >= 1 + Slashes(s[..i])
  {
    SlashesSplit(s[..i], s[i..]);
    assert s == s[..i] + s[i..];
  }

  /** A prefix of the accepted shape can share a key with a domain only by being
      a prefix of that domain: exactly the case the guard refuses. */
  lemma OverlapExactly(prefix: string, domain: string)
    requires prefix != "" && prefix[|prefix| - 1] == '/' && Slashes(prefix) <= 1
    requires domain != "" && domain[|domain| - 1] == '/'
    ensures (exists k :: HasPrefix(k, prefix) && HasPrefix(k, domain)) <==> HasPrefix(domain, prefix)
  {
    if HasPrefix(domain, prefix) {
      assert HasPrefix(domain, domain);
    }
    forall k | HasPrefix(k, prefix) && HasPrefix(k, domain)
      ensures HasPrefix(domain, prefix)
    {
      SharedKey(prefix, domain, k);
    }
  }

  lemma SharedKey(prefix: string, domain: string, k: string)
    requires prefix != "" && prefix[|prefix| - 1] == '/' && Slashes(prefix) <= 1
    requires domain != "" && domain[|domain| - 1] == '/'
    requires HasPrefix(k, prefix) && HasPrefix(k, domain)
    ensures HasPrefix(domain, prefix)
  {
    if |prefix| > |domain| {
      var d := |domain| - 1;
      assert k[d] == domain[d] == '/' && k[d] == prefix[d];
      SlashesAt(prefix, |prefix| - 1);
      SlashesAt(prefix[..|prefix| - 1], d);
    } else {
      assert forall i :: 0 <= i < |prefix| ==> prefix[i] == k[i] == domain[i];
    }
  }

  lemma AppendInjective(p: string, a: string, b: string)
    requires p + a == p + b
    ensures a == b
  {
    assert a == (p + a)[|p|..] && b == (p + b)[|p|..];
  }

  lemma DistinctKeys(prefix: string)
    ensures KeysFor(prefix).PairwiseDistinct()
  {
    var suffixes := ["managed-by", "cluster", "source-namespace", "source-namespace-uid", "provider",
                     "orphaned-secret-type", "superseded-by", "stale-since", "prune"];
    SuffixesDistinct();
    forall i, j | 0 <= i < j < 9 ensures prefix + suffixes[i] != prefix + suffixes[j] {
      if prefix + suffixes[i] == prefix + suffixes[j] { AppendInjective(prefix, suffixes[i], suffixes[j]); }
    }
    var k := KeysFor(prefix);
    assert k.managedBy == prefix + suffixes[0] && k.cluster == prefix + suffixes[1];
    assert k.source == prefix + suffixes[2] && k.sourceUid == prefix + suffixes[3];
    assert k.provider == prefix + suffixes[4] && k.orphaned == prefix + suffixes[5];
    assert k.supersededBy == prefix + suffixes[6] && k.staleSince == prefix + suffixes[7];
    assert k.prune == prefix + suffixes[8];
  }

  lemma SuffixesDistinct()
    ensures Distinct(["managed-by", "cluster", "source-namespace", "source-namespace-uid", "provider",
                      "orphaned-secret-type", "superseded-by", "stale-since", "prune"])
  {
  }

  /** The trust boundary: every configuration Validate accepts yields keys that
      are pairwise distinct and never collide with anything under ArgoCD's domain. */
  lemma AcceptedPrefixIsSound(prefix: string, parts: string -> bool)
    requires PrefixAccepted(prefix, parts)
    ensures KeysFor(prefix).Sound() && KeysFor(prefix).ClearOfArgo()
  {
    var keys := KeysFor(prefix);
    DistinctKeys(prefix);
    SlashesSplit(prefix, "managed-by");
    assert keys.managedBy == prefix + "managed-by";
    SecretTypeUnderDomain();
    forall k | HasPrefix(k, ARGO_DOMAIN) ensures !HasPrefix(k, prefix) {
      OverlapExactly(prefix, ARGO_DOMAIN);
    }
    ReservedPrefixed(prefix);
  }

  lemma SecretTypeUnderDomain()
    ensures HasPrefix(SECRET_TYPE, ARGO_DOMAIN)
  {
  }

  lemma ReservedPrefixed(prefix: string)
    ensures forall k :: k in KeysFor(prefix).Reserved() ==> HasPrefix(k, prefix)
  {
  }
}
