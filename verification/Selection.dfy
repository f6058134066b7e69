/** Which Secret of a namespace a cluster is registered from. */
module Selection {
  import opened Results
  import opened Text
  import opened Propagation
  import opened Kubeconfig
  import opened Objects
  import opened Merge

  datatype Candidate = Candidate(
    secret: SourceSecret, provider: string, key: string, provenance: nat, allowExec: bool)

  /** How much a Secret looks like its provisioner wrote it. */
  function Provenance(s: SourceSecret, p: Provider): nat {
    (if p.secretType != "" && s.secretType == p.secretType then 2 else 0) + (if true in s.controllers then 1 else 0)
  }

  /** A matching declared type counts for more than a controlling owner. */
  lemma ProvenanceMeans(a: SourceSecret, b: SourceSecret, p: Provider)
    ensures var typed, controlled := (s: SourceSecret) => p.secretType != "" && s.secretType == p.secretType,
                                     (s: SourceSecret) => exists c :: c in s.controllers && c;
            Provenance(a, p) > Provenance(b, p) <==>
              || (typed(a) && !typed(b))
              || (typed(a) == typed(b) && controlled(a) && !controlled(b))
  {
  }

  // ------------------------------------------------------------ specification

  /** Provider number p offers key number k of Secret s. */
  datatype Offer = Offer(p: nat, s: SourceSecret, k: nat)

  /** The provider's glob matches the name and at least one key is present. */
  predicate Takes(lib: Library, p: Provider, s: SourceSecret) {
    lib.matches(p.pattern, s.name) && exists k :: k in p.keys && k in s.data
  }

  /** A Secret is offered by the first provider that takes it, once under each
      key present. */
  ghost predicate IsOffer(cfg: Settings, secrets: seq<SourceSecret>, o: Offer) {
    && o.s in secrets
    && o.p < |cfg.providers|
    && Takes(cfg.lib, cfg.providers[o.p], o.s)
    && (forall q :: 0 <= q < o.p ==> !Takes(cfg.lib, cfg.providers[q], o.s))
    && o.k < |cfg.providers[o.p].keys|
    && cfg.providers[o.p].keys[o.k] in o.s.data
  }

  /** Most provisioner-written first, then by name. */
  predicate Better(p: Provider, a: SourceSecret, b: SourceSecret) {
    || Provenance(a, p) > Provenance(b, p)
    || (Provenance(a, p) == Provenance(b, p) && Less(a.name, b.name))
  }

  /** Provider precedence, then provenance, then name, then declared key order. */
  predicate Before(cfg: Settings, a: Offer, b: Offer)
    requires a.p < |cfg.providers|
  {
    || a.p < b.p
    || (a.p == b.p && (Better(cfg.providers[a.p], a.s, b.s) || (a.s == b.s && a.k < b.k)))
  }

  ghost predicate Ordered(cfg: Settings, offers: seq<Offer>) {
    && (forall o :: o in offers ==> o.p < |cfg.providers|)
    && (forall i, j :: 0 <= i < j < |offers| ==> Before(cfg, offers[i], offers[j]))
  }

  ghost predicate Catalogue(cfg: Settings, secrets: seq<SourceSecret>, offers: seq<Offer>) {
    Ordered(cfg, offers) && forall o :: o in offers <==> IsOffer(cfg, secrets, o)
  }

  function CandidateOf(cfg: Settings, o: Offer): Candidate
    requires o.p < |cfg.providers| && o.k < |cfg.providers[o.p].keys|
  {
    var p := cfg.providers[o.p];
    Candidate(o.s, p.name, p.keys[o.k], Provenance(o.s, p), p.allowExec)
  }

  /** The candidates are these offers, one for one. */
  ghost predicate Rendered(cfg: Settings, out: seq<Candidate>, offers: seq<Offer>) {
    && |out| == |offers|
    && forall i :: 0 <= i < |offers| ==>
         offers[i].p < |cfg.providers| && offers[i].k < |cfg.providers[offers[i].p].keys|
         && out[i] == CandidateOf(cfg, offers[i])
  }

  lemma RenderedAppend(cfg: Settings, a: seq<Candidate>, x: seq<Offer>, b: seq<Candidate>, y: seq<Offer>)
    requires Rendered(cfg, a, x) && Rendered(cfg, b, y)
    ensures Rendered(cfg, a + b, x + y)
  {
  }

  ghost predicate Unique(secrets: seq<SourceSecret>) {
    forall i, j :: 0 <= i < j < |secrets| ==> secrets[i].name != secrets[j].name
  }

  // ------------------------------------------------------------------ sorting

  ghost predicate ByName(s: seq<SourceSecret>) {
    forall i, j :: 0 <= i < j < |s| ==> Less(s[i].name, s[j].name)
  }

  ghost predicate ByProvenance(p: Provider, s: seq<SourceSecret>) {
    forall i, j :: 0 <= i < j < |s| ==> Better(p, s[i], s[j])
  }

  function InsertByName(x: SourceSecret, t: seq<SourceSecret>): (u: seq<SourceSecret>)
    ensures forall y :: y in u <==> y == x || y in t
  {
    if t == [] || Less(x.name, t[0].name) then [x] + t
    else
      assert forall y :: y in t <==> y == t[0] || y in t[1..];
      [t[0]] + InsertByName(x, t[1..])
  }

  function SortByName(s: seq<SourceSecret>): (t: seq<SourceSecret>)
    ensures forall x :: x in t <==> x in s
  {
    if s == [] then []
    else
      assert forall x :: x in s <==> x == s[0] || x in s[1..];
      InsertByName(s[0], SortByName(s[1..]))
  }

  lemma {:induction false} InsertKeepsByName(x: SourceSecret, t: seq<SourceSecret>)
    requires ByName(t) && forall y :: y in t ==> y.name != x.name
    ensures ByName(InsertByName(x, t))
  {
    if t != [] {
      LessTotal(x.name, t[0].name);
      if Less(x.name, t[0].name) {
        forall j | 0 <= j < |t| ensures Less(x.name, t[j].name) {
          if j > 0 { LessTransitive(x.name, t[0].name, t[j].name); }
        }
      } else {
        assert t[0] in t;
        InsertKeepsByName(x, t[1..]);
        var rest := InsertByName(x, t[1..]);
        forall j | 0 <= j < |rest| ensures Less(t[0].name, rest[j].name) {
          assert rest[j] in rest;
          if rest[j] != x {
            var k :| 0 <= k < |t[1..]| && t[1..][k] == rest[j];
            assert t[k + 1] == rest[j];
          }
        }
      }
    }
  }

  lemma {:induction false} SortedByName(s: seq<SourceSecret>)
    requires Unique(s)
    ensures ByName(SortByName(s))
  {
    if s != [] {
      SortedByName(s[1..]);
      forall y | y in SortByName(s[1..]) ensures y.name != s[0].name {
        var k :| 0 <= k < |s[1..]| && s[1..][k] == y;
        assert s[k + 1] == y;
      }
      InsertKeepsByName(s[0], SortByName(s[1..]));
    }
  }

  /** sort.SliceStable by descending provenance: an element goes in front of
      every element it is not worse than. */
  function InsertStable(p: Provider, x: SourceSecret, t: seq<SourceSecret>): (u: seq<SourceSecret>)
    ensures forall y :: y in u <==> y == x || y in t
  {
    if t == [] || !(Provenance(t[0], p) > Provenance(x, p)) then [x] + t
    else
      assert forall y :: y in t <==> y == t[0] || y in t[1..];
      [t[0]] + InsertStable(p, x, t[1..])
  }

  function SortStable(p: Provider, s: seq<SourceSecret>): (t: seq<SourceSecret>)
    ensures forall x :: x in t <==> x in s
  {
    if s == [] then []
    else
      assert forall x :: x in s <==> x == s[0] || x in s[1..];
      InsertStable(p, s[0], SortStable(p, s[1..]))
  }

  lemma BetterTransitive(p: Provider, a: SourceSecret, b: SourceSecret, c: SourceSecret)
    requires Better(p, a, b) && Better(p, b, c)
    ensures Better(p, a, c)
  {
    if Less(a.name, b.name) && Less(b.name, c.name) { LessTransitive(a.name, b.name, c.name); }
  }

  lemma {:induction false} InsertKeepsByProvenance(p: Provider, x: SourceSecret, t: seq<SourceSecret>)
    requires ByProvenance(p, t) && forall y :: y in t ==> Less(x.name, y.name)
    ensures ByProvenance(p, InsertStable(p, x, t))
  {
    if t != [] {
      assert t[0] in t;
      if !(Provenance(t[0], p) > Provenance(x, p)) {
        assert Better(p, x, t[0]);
        forall j | 0 <= j < |t| ensures Better(p, x, t[j]) {
          if j > 0 { BetterTransitive(p, x, t[0], t[j]); }
        }
      } else {
        InsertKeepsByProvenance(p, x, t[1..]);
        var rest := InsertStable(p, x, t[1..]);
        forall j | 0 <= j < |rest| ensures Better(p, t[0], rest[j]) {
          assert rest[j] in rest;
          if rest[j] != x {
            var k :| 0 <= k < |t[1..]| && t[1..][k] == rest[j];
            assert t[k + 1] == rest[j];
          }
        }
      }
    }
  }

  /** Sorting a name-ordered list stably by provenance orders it by both. */
  lemma {:induction false} SortedByProvenance(p: Provider, s: seq<SourceSecret>)
    requires ByName(s)
    ensures ByProvenance(p, SortStable(p, s))
  {
    if s != [] {
      SortedByProvenance(p, s[1..]);
      forall y | y in SortStable(p, s[1..]) ensures Less(s[0].name, y.name) {
        var k :| 0 <= k < |s[1..]| && s[1..][k] == y;
        assert s[k + 1] == y;
      }
      InsertKeepsByProvenance(p, s[0], SortStable(p, s[1..]));
    }
  }

  // ----------------------------------------------------------------- the loop

  /** The keys of one Secret under one provider. */
  method OfferKeys(cfg: Settings, p: nat, s: SourceSecret) returns (out: seq<Candidate>, ghost offers: seq<Offer>)
    requires p < |cfg.providers|
    ensures |out| == |offers|
    ensures forall i :: 0 <= i < |offers| ==>
            offers[i].p == p && offers[i].s == s && offers[i].k < |cfg.providers[p].keys|
                                              && out[i] == CandidateOf(cfg, offers[i])
    ensures forall k: nat :: Offer(p, s, k) in offers <==>
             k < |cfg.providers[p].keys| && cfg.providers[p].keys[k] in s.data
    ensures forall i, j :: 0 <= i < j < |offers| ==> offers[i].k < offers[j].k
  {
    out, offers := [], [];
    var keys := cfg.providers[p].keys;
    for k := 0 to |keys|
      invariant |out| == |offers|
      invariant forall i :: 0 <= i < |offers| ==> offers[i].p == p && offers[i].s == s && offers[i].k < k
                                                  && out[i] == CandidateOf(cfg, offers[i])
      invariant forall j: nat :: Offer(p, s, j) in offers <==> j < k && keys[j] in s.data
      invariant forall i, j :: 0 <= i < j < |offers| ==> offers[i].k < offers[j].k
    {
      if keys[k] !in s.data {
        continue;
      }
      out := out + [Candidate(s, cfg.providers[p].name, keys[k],
                       Provenance(s, cfg.providers[p]), cfg.providers[p].allowExec)];
      offers := offers + [Offer(p, s, k)];
    }
  }

  /** The Secrets, in the order the provider visits them. */
  method Matched(cfg: Settings, p: Provider, sorted: seq<SourceSecret>) returns (matched: seq<SourceSecret>)
    requires ByName(sorted)
    ensures forall s :: s in matched <==> s in sorted && cfg.lib.matches(p.pattern, s.name)
    ensures ByProvenance(p, matched)
  {
    matched := [];
    for i := 0 to |sorted|
      invariant forall s :: s in matched <==> s in sorted[..i] && cfg.lib.matches(p.pattern, s.name)
      invariant ByName(matched)
    {
      assert sorted[..i + 1] == sorted[..i] + [sorted[i]];
      if cfg.lib.matches(p.pattern, sorted[i].name) {
        matched := matched + [sorted[i]];
      }
    }
    assert sorted[..|sorted|] == sorted;
    SortedByProvenance(p, matched);
    matched := SortStable(p, matched);
  }

  ghost predicate ClaimedBefore(cfg: Settings, secrets: seq<SourceSecret>, claimed: set<string>, n: nat)
    requires n <= |cfg.providers|
  {
    forall s :: s in secrets ==> (s.name in claimed <==> exists q :: 0 <= q < n && Takes(cfg.lib, cfg.providers[q], s))
  }

  lemma SameName(secrets: seq<SourceSecret>, a: SourceSecret, b: SourceSecret)
    requires Unique(secrets) && a in secrets && b in secrets && a.name == b.name
    ensures a == b
  {
  }

  /** The offers made by provider number p to the Secrets of `visited`. */
  ghost predicate OffersOf(cfg: Settings, secrets: seq<SourceSecret>, p: nat, visited: seq<SourceSecret>,
                           offers: seq<Offer>) {
    forall o :: o in offers <==> IsOffer(cfg, secrets, o) && o.p == p && o.s in visited
  }

  /** Names taken by earlier providers, or by provider p among the visited. */
  ghost predicate ClaimedSoFar(cfg: Settings, secrets: seq<SourceSecret>, claimed: set<string>, p: nat,
                               visited: seq<SourceSecret>)
    requires p < |cfg.providers|
  {
    forall s :: s in secrets ==> (s.name in claimed <==>
      (exists q :: 0 <= q < p && Takes(cfg.lib, cfg.providers[q], s))
      || (s in visited && Takes(cfg.lib, cfg.providers[p], s)))
  }

  /** One matched Secret: skipped if claimed, else offered under each key present. */
  method OfferSecret(cfg: Settings, secrets: seq<SourceSecret>, p: nat, s: SourceSecret, claimed: set<string>,
                     ghost visited: seq<SourceSecret>)
      returns (out: seq<Candidate>, claimed': set<string>, ghost offers: seq<Offer>)
    requires p < |cfg.providers| && Unique(secrets)
    requires s in secrets && s !in visited && cfg.lib.matches(cfg.providers[p].pattern, s.name)
    requires ClaimedSoFar(cfg, secrets, claimed, p, visited)
    ensures Rendered(cfg, out, offers) && Ordered(cfg, offers)
    ensures OffersOf(cfg, secrets, p, [s], offers)
    ensures ClaimedSoFar(cfg, secrets, claimed', p, visited + [s])
  {
    out, claimed', offers := [], claimed, [];
    forall x | x in secrets && x.name == s.name ensures x == s {
      SameName(secrets, x, s);
    }
    if s.name in claimed {
      assert exists q :: 0 <= q < p && Takes(cfg.lib, cfg.providers[q], s);
      return;
    }
    out, offers := OfferKeys(cfg, p, s);
    TakenIffOffered(cfg, p, s, offers);
    if |out| == 0 {
      return;
    }
    claimed' := claimed + {s.name};
    forall o ensures o in offers <==> IsOffer(cfg, secrets, o) && o.p == p && o.s in [s] {
      if o in offers {
        var i :| 0 <= i < |offers| && offers[i] == o;
        assert o == Offer(p, s, o.k);
      }
      if o.p == p && o.s == s {
        assert o == Offer(p, s, o.k);
      }
    }
  }

  method OfferProvider(cfg: Settings, secrets: seq<SourceSecret>, p: nat, matched: seq<SourceSecret>,
                       claimed: set<string>)
      returns (out: seq<Candidate>, claimed': set<string>, ghost offers: seq<Offer>)
    requires p < |cfg.providers| && Unique(secrets)
    requires forall s :: s in matched <==> s in secrets && cfg.lib.matches(cfg.providers[p].pattern, s.name)
    requires ByProvenance(cfg.providers[p], matched)
    requires ClaimedBefore(cfg, secrets, claimed, p)
    ensures Rendered(cfg, out, offers)
    ensures Ordered(cfg, offers) && OffersOf(cfg, secrets, p, matched, offers)
    ensures ClaimedBefore(cfg, secrets, claimed', p + 1)
  {
    out, claimed', offers := [], claimed, [];
    for m := 0 to |matched|
      invariant Rendered(cfg, out, offers)
      invariant Ordered(cfg, offers) && OffersOf(cfg, secrets, p, matched[..m], offers)
      invariant ClaimedSoFar(cfg, secrets, claimed', p, matched[..m])
    {
      NotVisited(cfg.providers[p], matched, m);
      assert matched[m] in matched;
      assert matched[..m + 1] == matched[..m] + [matched[m]];
      var more, c, moreOffers := OfferSecret(cfg, secrets, p, matched[m], claimed', matched[..m]);
      AppendOffers(cfg, secrets, p, matched, m, offers, moreOffers);
      RenderedAppend(cfg, out, offers, more, moreOffers);
      out := out + more;
      offers := offers + moreOffers;
      claimed' := c;
    }
    assert matched[..|matched|] == matched;
    ClaimsNext(cfg, secrets, claimed', p, matched);
  }

  lemma ClaimsNext(cfg: Settings, secrets: seq<SourceSecret>, claimed: set<string>, p: nat, matched: seq<SourceSecret>)
    requires p < |cfg.providers| && ClaimedSoFar(cfg, secrets, claimed, p, matched)
    requires forall s :: s in matched <==> s in secrets && cfg.lib.matches(cfg.providers[p].pattern, s.name)
    ensures ClaimedBefore(cfg, secrets, claimed, p + 1)
  {
  }

  lemma NotVisited(p: Provider, matched: seq<SourceSecret>, m: nat)
    requires ByProvenance(p, matched) && m < |matched|
    ensures matched[m] !in matched[..m]
  {
    forall i | 0 <= i < m ensures matched[i] != matched[m] {
      assert Better(p, matched[i], matched[m]);
      LessIrreflexive(matched[m].name);
    }
  }

  lemma TakenIffOffered(cfg: Settings, p: nat, s: SourceSecret, offers: seq<Offer>)
    requires p < |cfg.providers| && cfg.lib.matches(cfg.providers[p].pattern, s.name)
    requires forall i :: 0 <= i < |offers| ==> offers[i].p == p && offers[i].s == s
    requires forall k: nat :: Offer(p, s, k) in offers <==>
             k < |cfg.providers[p].keys| && cfg.providers[p].keys[k] in s.data
    ensures Takes(cfg.lib, cfg.providers[p], s) <==> offers != []
  {
    var keys := cfg.providers[p].keys;
    if offers != [] {
      var o := offers[0];
      assert o in offers && o == Offer(p, s, o.k);
      assert keys[o.k] in keys;
    }
    if Takes(cfg.lib, cfg.providers[p], s) {
      var key :| key in keys && key in s.data;
      var k :| 0 <= k < |keys| && keys[k] == key;
      assert Offer(p, s, k) in offers;
    }
  }

  lemma AppendOffers(cfg: Settings, secrets: seq<SourceSecret>, p: nat, matched: seq<SourceSecret>, m: nat,
                     before: seq<Offer>, more: seq<Offer>)
    requires p < |cfg.providers| && m < |matched|
    requires ByProvenance(cfg.providers[p], matched)
    requires Ordered(cfg, before) && OffersOf(cfg, secrets, p, matched[..m], before)
    requires Ordered(cfg, more) && OffersOf(cfg, secrets, p, [matched[m]], more)
    ensures Ordered(cfg, before + more) && OffersOf(cfg, secrets, p, matched[..m + 1], before + more)
  {
  }

  lemma NextProvider(cfg: Settings, secrets: seq<SourceSecret>, p: nat, matched: seq<SourceSecret>,
                     offers: seq<Offer>, more: seq<Offer>)
    requires p < |cfg.providers|
    requires forall s :: s in matched <==> s in secrets && cfg.lib.matches(cfg.providers[p].pattern, s.name)
    requires Ordered(cfg, offers) && forall o :: o in offers <==> IsOffer(cfg, secrets, o) && o.p < p
    requires Ordered(cfg, more) && OffersOf(cfg, secrets, p, matched, more)
    ensures Ordered(cfg, offers + more)
    ensures forall o :: o in offers + more <==> IsOffer(cfg, secrets, o) && o.p < p + 1
    ensures forall i :: 0 <= i < |more| ==> IsOffer(cfg, secrets, more[i]) && more[i].p == p
  {
  }

  /** findKubeconfigCandidates: the list is complete, duplicate-free and in
      order, whatever order the API listed the Secrets in. */
  method FindKubeconfigCandidates(cfg: Settings, secrets: seq<SourceSecret>)
      returns (out: seq<Candidate>, ghost offers: seq<Offer>)
    requires Unique(secrets)
    ensures Rendered(cfg, out, offers) && Catalogue(cfg, secrets, offers)
    ensures forall i :: 0 <= i < |offers| ==> IsOffer(cfg, secrets, offers[i])
    ensures OffersOnly(cfg, secrets, out)
  {
    SortedByName(secrets);
    var sorted := SortByName(secrets);
    out, offers := [], [];
    var claimed: set<string> := {};
    for p := 0 to |cfg.providers|
      invariant Rendered(cfg, out, offers) && Ordered(cfg, offers)
      invariant forall o :: o in offers <==> IsOffer(cfg, secrets, o) && o.p < p
      invariant ClaimedBefore(cfg, secrets, claimed, p)
    {
      var matched := Matched(cfg, cfg.providers[p], sorted);
      var more, claimed', moreOffers := OfferProvider(cfg, secrets, p, matched, claimed);
      NextProvider(cfg, secrets, p, matched, offers, moreOffers);
      RenderedAppend(cfg, out, offers, more, moreOffers);
      out := out + more;
      offers := offers + moreOffers;
      claimed := claimed';
    }
    forall i | 0 <= i < |offers| ensures IsOffer(cfg, secrets, offers[i]) {
      assert offers[i] in offers;
    }
    RenderedExactly(cfg, secrets, out, offers);
  }

  /** The candidates are all the offers there are, and nothing else. */
  ghost predicate OffersOnly(cfg: Settings, secrets: seq<SourceSecret>, out: seq<Candidate>) {
    forall c :: c in out <==> exists o :: IsOffer(cfg, secrets, o) && c == CandidateOf(cfg, o)
  }

  lemma RenderedExactly(cfg: Settings, secrets: seq<SourceSecret>, out: seq<Candidate>, offers: seq<Offer>)
    requires Rendered(cfg, out, offers) && Catalogue(cfg, secrets, offers)
    ensures OffersOnly(cfg, secrets, out)
  {
    forall c ensures c in out <==> exists o :: IsOffer(cfg, secrets, o) && c == CandidateOf(cfg, o) {
      if c in out {
        var i :| 0 <= i < |out| && out[i] == c;
        assert offers[i] in offers;
      }
      if o :| IsOffer(cfg, secrets, o) && c == CandidateOf(cfg, o) {
        var i :| 0 <= i < |offers| && offers[i] == o;
        assert out[i] == c;
      }
    }
  }

  // --------------------------------------------------------------- properties

  lemma BeforeIrreflexive(cfg: Settings, a: Offer)
    requires a.p < |cfg.providers|
    ensures !Before(cfg, a, a)
  {
    LessIrreflexive(a.s.name);
  }

  lemma BeforeAsymmetric(cfg: Settings, a: Offer, b: Offer)
    requires a.p < |cfg.providers| && b.p < |cfg.providers| && Before(cfg, a, b)
    ensures !Before(cfg, b, a)
  {
    LessIrreflexive(a.s.name);
    if Less(a.s.name, b.s.name) && Less(b.s.name, a.s.name) { LessTransitive(a.s.name, b.s.name, a.s.name); }
  }

  lemma {:induction false} OrderedUnique(cfg: Settings, a: seq<Offer>, b: seq<Offer>)
    requires Ordered(cfg, a) && Ordered(cfg, b)
    requires forall o :: o in a <==> o in b
    ensures a == b
  {
    if a != [] { assert a[0] in a; }
    if b != [] { assert b[0] in b; }
    if a != [] && b != [] {
      if a[0] != b[0] {
        assert Before(cfg, a[0], b[0]) && Before(cfg, b[0], a[0]);
        BeforeAsymmetric(cfg, a[0], b[0]);
      }
      forall o ensures o in a[1..] <==> o in b[1..] {
        OrderedTail(cfg, a, o);
        OrderedTail(cfg, b, o);
      }
      forall o | o in a[1..] ensures o.p < |cfg.providers| { assert o in a; }
      forall o | o in b[1..] ensures o.p < |cfg.providers| { assert o in b; }
      OrderedUnique(cfg, a[1..], b[1..]);
      assert a == [a[0]] + a[1..] && b == [b[0]] + b[1..];
    }
  }

  lemma OrderedTail(cfg: Settings, a: seq<Offer>, o: Offer)
    requires Ordered(cfg, a) && a != []
    ensures o in a[1..] <==> o in a && o != a[0]
  {
    assert a[0] in a;
    BeforeIrreflexive(cfg, a[0]);
    if o in a && o != a[0] {
      var k :| 0 <= k < |a| && a[k] == o;
      assert a[1..][k - 1] == o;
    }
    if o in a[1..] {
      var k :| 0 <= k < |a[1..]| && a[1..][k] == o;
      assert a[k + 1] == o && Before(cfg, a[0], a[k + 1]);
    }
  }

  /** The candidate list does not depend on the order of the API's list. */
  lemma CatalogueIgnoresListOrder(cfg: Settings, listed: seq<SourceSecret>, relisted: seq<SourceSecret>,
                                  a: seq<Offer>, b: seq<Offer>)
    requires forall s :: s in listed <==> s in relisted
    requires Catalogue(cfg, listed, a) && Catalogue(cfg, relisted, b)
    ensures a == b
  {
    OrderedUnique(cfg, a, b);
  }

  function ParseOffer(cfg: Settings, o: Offer): Result<Parsed, ParseError>
    requires o.p < |cfg.providers| && o.k < |cfg.providers[o.p].keys| && cfg.providers[o.p].keys[o.k] in o.s.data
  {
    Parse(cfg.lib, o.s.data[cfg.providers[o.p].keys[o.k]], cfg.execCredentials && cfg.providers[o.p].allowExec)
  }

  /** The least usable offer: the one a namespace registers from. */
  ghost predicate Chosen(cfg: Settings, secrets: seq<SourceSecret>, o: Offer) {
    && IsOffer(cfg, secrets, o) && ParseOffer(cfg, o).Ok?
    && forall x :: IsOffer(cfg, secrets, x) && ParseOffer(cfg, x).Ok? ==> x == o || Before(cfg, o, x)
  }

  lemma ChosenIsUnique(cfg: Settings, listed: seq<SourceSecret>, relisted: seq<SourceSecret>, a: Offer, b: Offer)
    requires forall s :: s in listed <==> s in relisted
    requires Chosen(cfg, listed, a) && Chosen(cfg, relisted, b)
    ensures a == b
  {
    if a != b {
      assert IsOffer(cfg, relisted, a) && IsOffer(cfg, listed, b);
      BeforeAsymmetric(cfg, a, b);
    }
  }

  // ---------------------------------------------------------------- discovery

  ghost function ChildFrom(cfg: Settings, ns: Namespace, o: Offer): Child
    requires o.p < |cfg.providers| && o.k < |cfg.providers[o.p].keys| && cfg.providers[o.p].keys[o.k] in o.s.data
    requires ParseOffer(cfg, o).Ok?
  {
    var parsed := ParseOffer(cfg, o).value;
    Child(Get(ns.labels, cfg.keys.cluster), ns.name, ns.uid, parsed.server, cfg.lib.encodeJson(parsed.config),
          cfg.providers[o.p].name,
          Propagated(ns.labels, cfg.keys, UNLIMITED).out,
          Propagated(ns.annotations, cfg.keys, ANNOTATION_LIMITS).out)
  }

  predicate Nameable(cfg: Settings, ns: Namespace) {
    var name := Get(ns.labels, cfg.keys.cluster);
    name != "" && cfg.lib.dns1123(SecretName(name))
  }

  /** What discoverOne returns given the Secrets it listed. */
  ghost predicate Discovers(cfg: Settings, ns: Namespace, secrets: seq<SourceSecret>, r: Option<Child>) {
    match r
    case Some(c) => Nameable(cfg, ns) && exists o :: Chosen(cfg, secrets, o) && c == ChildFrom(cfg, ns, o)
    case None => !Nameable(cfg, ns) || forall o :: IsOffer(cfg, secrets, o) ==> ParseOffer(cfg, o).Err?
  }

  /** The candidate is this offer, and its key is there to be parsed. */
  predicate Opens(cfg: Settings, c: Candidate, o: Offer) {
    && o.p < |cfg.providers| && o.k < |cfg.providers[o.p].keys| && cfg.providers[o.p].keys[o.k] in o.s.data
    && c == CandidateOf(cfg, o)
  }

  ghost predicate AllOpen(cfg: Settings, candidates: seq<Candidate>, offers: seq<Offer>) {
    |candidates| == |offers| && forall i :: 0 <= i < |offers| ==> Opens(cfg, candidates[i], offers[i])
  }

  ghost predicate Fails(cfg: Settings, o: Offer)
    requires o.p < |cfg.providers| && o.k < |cfg.providers[o.p].keys| && cfg.providers[o.p].keys[o.k] in o.s.data
  {
    ParseOffer(cfg, o).Err?
  }

  /** The candidate loop of discoverOne: the first that parses, and its number. */
  method FirstUsable(cfg: Settings, candidates: seq<Candidate>, ghost offers: seq<Offer>)
      returns (found: Option<Parsed>, at: nat)
    requires AllOpen(cfg, candidates, offers)
    ensures found.Some? ==> at < |candidates| && ParseOffer(cfg, offers[at]) == Ok(found.value)
    ensures forall j :: 0 <= j < (if found.Some? then at else |offers|) ==> Fails(cfg, offers[j])
  {
    for i := 0 to |candidates|
      invariant forall j :: 0 <= j < i ==> Fails(cfg, offers[j])
    {
      var c := candidates[i];
      assert Opens(cfg, c, offers[i]);
      var pk := ParseKubeconfig(cfg.lib, c.secret.data[c.key], cfg.execCredentials && c.allowExec);
      if pk.Err? {
        continue;
      }
      return Some(pk.value), i;
    }
    return None, 0;
  }

  lemma NoneUsable(cfg: Settings, secrets: seq<SourceSecret>, candidates: seq<Candidate>, offers: seq<Offer>)
    requires Catalogue(cfg, secrets, offers) && AllOpen(cfg, candidates, offers)
    requires forall j :: 0 <= j < |offers| ==> Opens(cfg, candidates[j], offers[j]) && Fails(cfg, offers[j])
    ensures forall o :: IsOffer(cfg, secrets, o) ==> ParseOffer(cfg, o).Err?
  {
    forall o | IsOffer(cfg, secrets, o) ensures ParseOffer(cfg, o).Err? {
      assert o in offers;
      var j :| 0 <= j < |offers| && offers[j] == o;
      assert Fails(cfg, offers[j]);
    }
  }

  /** What discoverOne makes of a namespace and the Secrets in it. */
  method DiscoverFrom(cfg: Settings, ns: Namespace, secrets: seq<SourceSecret>) returns (r: Option<Child>)
    requires cfg.Usable() && Unique(secrets)
    ensures Discovers(cfg, ns, secrets, r)
  {
    var name := Get(ns.labels, cfg.keys.cluster);
    if name == "" {
      return None;
    }
    if !cfg.lib.dns1123(SecretName(name)) {
      return None;
    }
    var candidates, offers := FindKubeconfigCandidates(cfg, secrets);
    assert AllOpen(cfg, candidates, offers);
    var found, at := FirstUsable(cfg, candidates, offers);
    if found.None? {
      NoneUsable(cfg, secrets, candidates, offers);
      return None;
    }
    FirstUsableIsChosen(cfg, secrets, offers, at);
    var labels, _ := Propagate(ns.labels, cfg.keys, UNLIMITED);
    var annotations, _ := Propagate(ns.annotations, cfg.keys, ANNOTATION_LIMITS);
    r := Some(Child(name, ns.name, ns.uid, found.value.server, cfg.lib.encodeJson(found.value.config),
                    candidates[at].provider, labels, annotations));
    assert r.value == ChildFrom(cfg, ns, offers[at]);
  }

  lemma FirstUsableIsChosen(cfg: Settings, secrets: seq<SourceSecret>, offers: seq<Offer>, i: nat)
    requires Catalogue(cfg, secrets, offers) && i < |offers|
    requires forall j :: 0 <= j < |offers| ==> IsOffer(cfg, secrets, offers[j])
    requires ParseOffer(cfg, offers[i]).Ok?
    requires forall j :: 0 <= j < i ==> ParseOffer(cfg, offers[j]).Err?
    ensures Chosen(cfg, secrets, offers[i])
  {
  }

  /** Discovery is a function of the set of Secrets, not of the list. */
  lemma DiscoveryIgnoresListOrder(cfg: Settings, ns: Namespace, listed: seq<SourceSecret>, relisted: seq<SourceSecret>,
                                  a: Option<Child>, b: Option<Child>)
    requires forall s :: s in listed <==> s in relisted
    requires Discovers(cfg, ns, listed, a) && Discovers(cfg, ns, relisted, b)
    ensures a == b
  {
    if a.Some? && b.Some? {
      var x :| Chosen(cfg, listed, x) && a.value == ChildFrom(cfg, ns, x);
      var y :| Chosen(cfg, relisted, y) && b.value == ChildFrom(cfg, ns, y);
      ChosenIsUnique(cfg, listed, relisted, x, y);
    } else if a.Some? {
      var x :| Chosen(cfg, listed, x) && a.value == ChildFrom(cfg, ns, x);
      assert IsOffer(cfg, relisted, x);
    } else if b.Some? {
      var y :| Chosen(cfg, relisted, y) && b.value == ChildFrom(cfg, ns, y);
      assert IsOffer(cfg, listed, y);
    }
  }

  /** What a discovered child carries: this namespace's identity, a trimmed
      address that is not the management cluster's own, only eligible labels
      and annotations, and an exec credential only with both gates on. */
  lemma DiscoveredChild(cfg: Settings, ns: Namespace, secrets: seq<SourceSecret>, c: Child)
    requires cfg.Usable() && Discovers(cfg, ns, secrets, Some(c))
    ensures ChildOk(cfg, c)
    ensures c.namespace == ns.name && c.namespaceUid == ns.uid && c.cluster == Get(ns.labels, cfg.keys.cluster)
    ensures !IsInCluster(cfg.lib, c.server)
    ensures exists o :: Chosen(cfg, secrets, o) && c == ChildFrom(cfg, ns, o)
                        && (ParseOffer(cfg, o).value.execCommand != "" ==>
                              cfg.execCredentials && cfg.providers[o.p].allowExec)
  {
    var o :| Chosen(cfg, secrets, o) && c == ChildFrom(cfg, ns, o);
    var p := cfg.providers[o.p];
    assert p in cfg.providers;
    var kc, ce, u := ParseIsFaithful(cfg.lib, o.s.data[p.keys[o.k]], cfg.execCredentials && p.allowExec);
    PropagatedKeys(ns.labels, cfg.keys, UNLIMITED);
    PropagatedKeys(ns.annotations, cfg.keys, ANNOTATION_LIMITS);
  }

  /** Where a child comes from: the kubeconfig chosen, and the namespace's own name. */
  lemma ChildIsParsed(cfg: Settings, ns: Namespace, secrets: seq<SourceSecret>, c: Child) returns (o: Offer)
    requires Discovers(cfg, ns, secrets, Some(c))
    ensures Chosen(cfg, secrets, o)
    ensures c.config == cfg.lib.encodeJson(ParseOffer(cfg, o).value.config)
    ensures c.server == ParseOffer(cfg, o).value.server
    ensures c.cluster == Get(ns.labels, cfg.keys.cluster) && c.namespace == ns.name
    ensures c.provider == cfg.providers[o.p].name
  {
    o :| Chosen(cfg, secrets, o) && c == ChildFrom(cfg, ns, o);
  }

  /** What is copied from the namespace: every eligible label with its own value and
      no other, and of the annotations no more than the limits allow. */
  lemma DiscoveredLabels(cfg: Settings, ns: Namespace, secrets: seq<SourceSecret>, c: Child)
    requires Discovers(cfg, ns, secrets, Some(c))
    ensures forall k :: k in c.labels <==>
              k in ns.labels && HasPrefix(k, cfg.keys.prefix) && k !in cfg.keys.Reserved()
    ensures forall k :: k in c.labels ==> c.labels[k] == ns.labels[k]
    ensures forall k :: k in c.annotations ==>
              && k in ns.annotations && HasPrefix(k, cfg.keys.prefix) && k !in cfg.keys.Reserved()
              && c.annotations[k] == ns.annotations[k]
              && |c.annotations[k]| <= 4096
    ensures |c.annotations| <= 32 && Bytes(Offered(ns.annotations, cfg.keys), c.annotations) <= 32768
  {
    LabelsCopied(ns.labels, cfg.keys);
    AnnotationsCopied(ns.annotations, cfg.keys);
  }

  /** A child is discovered exactly when the namespace names a cluster whose Secret may
      have that name, and some kubeconfig offered in it can be used. */
  lemma DiscoverableExactly(cfg: Settings, ns: Namespace, secrets: seq<SourceSecret>, r: Option<Child>)
    requires Discovers(cfg, ns, secrets, r)
    ensures r.Some? <==>
            var name := Get(ns.labels, cfg.keys.cluster);
            && name != "" && cfg.lib.dns1123("cluster-" + name)
            && exists o :: IsOffer(cfg, secrets, o) && ParseOffer(cfg, o).Ok?
  {
  }
}
