/** propagate: which labels and annotations of a source namespace are copied
    onto its registration. */
module Propagation {
  import opened Text
  import opened KeySpace

  /** Zero is unbounded. */
  datatype Limits = Limits(value: nat, total: nat, count: nat)

  const UNLIMITED := Limits(0, 0, 0)
  const ANNOTATION_LIMITS := Limits(4096, 32768, 32)

  predicate Eligible(k: string, keys: Keys) {
    HasPrefix(k, keys.prefix) && k !in keys.Reserved()
  }

  /** The running state of the admission loop. */
  datatype Grant = Grant(out: Labels, total: nat, dropped: seq<string>)

  /** Admitting a value of this size next would break a limit. */
  predicate Breaks(v: string, g: Grant, lim: Limits) {
    || (lim.value > 0 && |v| > lim.value)
    || (lim.count > 0 && |g.out| >= lim.count)
    || (lim.total > 0 && g.total + |v| > lim.total)
  }

  function Admit(k: string, v: string, g: Grant, lim: Limits): Grant {
    if Breaks(v, g, lim) then g.(dropped := g.dropped + [k])
    else Grant(g.out[k := v], g.total + |v|, g.dropped)
  }

  /** What has been granted after offering the keys of `order` one by one. */
  function Greedy(order: seq<string>, m: Labels, lim: Limits): Grant
    requires forall k :: k in order ==> k in m
  {
    if order == [] then Grant(map[], 0, [])
    else
      var k := order[|order| - 1];
      Admit(k, m[k], Greedy(order[..|order| - 1], m, lim), lim)
  }

  ghost function Listed(s: set<string>): (l: seq<string>)
    ensures forall x :: x in l <==> x in s
    ensures Distinct(l)
  {
    if s == {} then []
    else
      var x :| x in s;
      [x] + Listed(s - {x})
  }

  ghost function Offered(m: Labels, keys: Keys): seq<string> {
    SortStrings(Listed(set k | k in m && Eligible(k, keys)))
  }

  /** The specification of propagate: greedy admission in key order. */
  ghost function Propagated(m: Labels, keys: Keys, lim: Limits): Grant {
    Greedy(Offered(m, keys), m, lim)
  }

  /** Whatever order the eligible keys were gathered in, sorting gives one list. */
  lemma OrderIsCanonical(list: seq<string>, m: Labels, keys: Keys)
    requires Distinct(list)
    requires forall k :: k in list <==> k in m && Eligible(k, keys)
    ensures SortStrings(list) == Offered(m, keys)
    ensures forall k :: k in Offered(m, keys) ==> k in m
  {
    var eligible := set k | k in m && Eligible(k, keys);
    SortAscending(list);
    SortAscending(Listed(eligible));
    AscendingUnique(SortStrings(list), SortStrings(Listed(eligible)));
  }

  lemma GreedyStep(order: seq<string>, m: Labels, lim: Limits, i: nat)
    requires (forall k :: k in order ==> k in m) && i < |order|
    ensures Greedy(order[..i + 1], m, lim) == Admit(order[i], m[order[i]], Greedy(order[..i], m, lim), lim)
  {
    assert order[..i + 1][..i] == order[..i];
  }

  /** The eligible keys, in whatever order the map is visited. */
  method Gather(m: Labels, keys: Keys) returns (order: seq<string>)
    ensures Distinct(order) && forall k :: k in order <==> k in m && Eligible(k, keys)
  {
    var unseen := m.Keys;
    order := [];
    while unseen != {}
      invariant unseen <= m.Keys
      invariant Distinct(order)
      invariant forall k :: k in order <==> k in m && k !in unseen && Eligible(k, keys)
      decreases unseen
    {
      var k :| k in unseen;
      unseen := unseen - {k};
      if Eligible(k, keys) {
        order := order + [k];
      }
    }
  }

  method Propagate(m: Labels, keys: Keys, lim: Limits) returns (out: Labels, dropped: seq<string>)
    ensures out == Propagated(m, keys, lim).out
    ensures dropped == Propagated(m, keys, lim).dropped
  {
    var order := Gather(m, keys);
    OrderIsCanonical(order, m, keys);
    out, dropped := AdmitAll(SortStrings(order), m, lim);
  }

  /** The admission loop. */
  method AdmitAll(order: seq<string>, m: Labels, lim: Limits) returns (out: Labels, dropped: seq<string>)
    requires forall k :: k in order ==> k in m
    ensures out == Greedy(order, m, lim).out && dropped == Greedy(order, m, lim).dropped
  {
    out, dropped := map[], [];
    var total: nat := 0;
    for i := 0 to |order|
      invariant Grant(out, total, dropped) == Greedy(order[..i], m, lim)
    {
      var k := order[i];
      var v := m[k];
      GreedyStep(order, m, lim, i);
      if (lim.value > 0 && |v| > lim.value) ||
         (lim.count > 0 && |out| >= lim.count) ||
         (lim.total > 0 && total + |v| > lim.total) {
        dropped := dropped + [k];
        continue;
      }
      out := out[k := v];
      total := total + |v|;
    }
    assert order[..|order|] == order;
  }

  /** The bytes of the values of `m` under the keys of `order`. */
  function Bytes(order: seq<string>, m: Labels): nat {
    if order == [] then 0
    else Bytes(order[..|order| - 1], m) + |Get(m, order[|order| - 1])|
  }

  lemma {:induction false} BytesIgnores(order: seq<string>, m: Labels, k: string, v: string)
    requires k !in order
    ensures Bytes(order, m[k := v]) == Bytes(order, m)
  {
    if order != [] {
      BytesIgnores(order[..|order| - 1], m, k, v);
      assert order[|order| - 1] in order;
    }
  }

  /** Conservation and the limits: every offered key is granted with its own
      value or dropped, never both, and what is granted respects all limits. */
  lemma {:induction false} GrantIsBounded(order: seq<string>, m: Labels, lim: Limits)
    requires Distinct(order) && forall k :: k in order ==> k in m
    ensures var g := Greedy(order, m, lim);
            && (forall k :: k in order <==> k in g.out || k in g.dropped)
            && (forall k :: k in g.out ==> k !in g.dropped && g.out[k] == m[k])
            && g.total == Bytes(order, g.out)
            && (forall k :: k in g.out && lim.value > 0 ==> |g.out[k]| <= lim.value)
            && (lim.total > 0 ==> g.total <= lim.total)
            && (lim.count > 0 ==> |g.out| <= lim.count)
  {
    if order != [] {
      var n := |order| - 1;
      var k := order[n];
      assert k !in order[..n];
      GrantIsBounded(order[..n], m, lim);
      var before := Greedy(order[..n], m, lim);
      assert forall x :: x in order <==> x in order[..n] || x == k;
      if !Breaks(m[k], before, lim) {
        assert before.out[k := m[k]].Keys == before.out.Keys + {k};
        BytesIgnores(order[..n], before.out, k, m[k]);
      }
    }
  }

  /** Nothing is dropped without need and nothing is granted in spite of a
      limit: the i-th key is dropped exactly when it breaks a limit given the
      grants made before it. */
  lemma {:induction false} DropIsForced(order: seq<string>, m: Labels, lim: Limits, i: nat)
    requires Distinct(order) && (forall k :: k in order ==> k in m) && i < |order|
    ensures order[i] in Greedy(order, m, lim).dropped <==>
            var v, granted := m[order[i]], Greedy(order[..i], m, lim).out;
            || (lim.value > 0 && |v| > lim.value)
            || (lim.count > 0 && |granted| + 1 > lim.count)
            || (lim.total > 0 && Bytes(order[..i], granted) + |v| > lim.total)
  {
    var n := |order| - 1;
    var before := Greedy(order[..n], m, lim);
    assert Greedy(order, m, lim) == Admit(order[n], m[order[n]], before, lim);
    GrantIsBounded(order[..i], m, lim);
    if i < n {
      assert order[..n][i] == order[i] && order[..n][..i] == order[..i];
      DropIsForced(order[..n], m, lim, i);
    } else {
      GrantIsBounded(order[..n], m, lim);
      assert order[n] !in order[..n];
    }
  }

  /** The granted keys in the order they were offered. */
  function Kept(order: seq<string>, m: Labels, lim: Limits): seq<string>
    requires forall k :: k in order ==> k in m
  {
    if order == [] then []
    else
      var n := |order| - 1;
      var kept := Kept(order[..n], m, lim);
      if Breaks(m[order[n]], Greedy(order[..n], m, lim), lim) then kept else kept + [order[n]]
  }

  lemma {:induction false} KeptIsGranted(order: seq<string>, m: Labels, lim: Limits)
    requires Ascending(order) && forall k :: k in order ==> k in m
    ensures forall k :: k in Kept(order, m, lim) <==> k in Greedy(order, m, lim).out
    ensures forall k :: k in Kept(order, m, lim) ==> k in order
    ensures Ascending(Kept(order, m, lim))
  {
    if order != [] {
      var n := |order| - 1;
      KeptIsGranted(order[..n], m, lim);
      forall x | x in order[..n] ensures Less(x, order[n]) {
      }
    }
  }

  /** The last key's turn when it is offered again. */
  lemma RegrantLast(order: seq<string>, m: Labels, m': Labels, lim: Limits)
    requires order != [] && forall k :: k in order ==> k in m
    requires var n := |order| - 1;
             !Breaks(m[order[n]], Greedy(order[..n], m, lim), lim) && order[n] in m' && m'[order[n]] == m[order[n]]
    requires forall k :: k in Kept(order[..|order| - 1], m, lim) ==> k in m'
    requires Greedy(Kept(order[..|order| - 1], m, lim), m', lim) == Greedy(order[..|order| - 1], m, lim).(dropped := [])
    ensures (forall k :: k in Kept(order, m, lim) ==> k in m')
            && Greedy(Kept(order, m, lim), m', lim) == Greedy(order, m, lim).(dropped := [])
  {
    var n := |order| - 1;
    var kept := Kept(order[..n], m, lim);
    var all := kept + [order[n]];
    assert all == Kept(order, m, lim);
    assert all[..|kept|] == kept && all[|kept|] == order[n];
  }

  /** Offering only the kept keys, from any map that holds the same values for
      them, grants the same thing and drops nothing. */
  lemma {:induction false} RegrantKept(order: seq<string>, m: Labels, m': Labels, lim: Limits)
    requires Ascending(order) && forall k :: k in order ==> k in m
    requires forall k :: k in Kept(order, m, lim) ==> k in m && k in m' && m'[k] == m[k]
    ensures Greedy(Kept(order, m, lim), m', lim) == Greedy(order, m, lim).(dropped := [])
  {
    if order != [] {
      var n := |order| - 1;
      if Breaks(m[order[n]], Greedy(order[..n], m, lim), lim) {
        RegrantKept(order[..n], m, m', lim);
      } else {
        var kept := Kept(order[..n], m, lim);
        assert Kept(order, m, lim) == kept + [order[n]];
        assert order[n] in kept + [order[n]] && forall k :: k in kept ==> k in kept + [order[n]];
        RegrantKept(order[..n], m, m', lim);
        RegrantLast(order, m, m', lim);
      }
    }
  }

  lemma AscendingDistinct(s: seq<string>)
    requires Ascending(s)
    ensures Distinct(s)
  {
    forall i, j | 0 <= i < j < |s| ensures s[i] != s[j] {
      LessIrreflexive(s[i]);
    }
  }

  lemma OfferedOrder(m: Labels, keys: Keys)
    ensures Ascending(Offered(m, keys)) && Distinct(Offered(m, keys))
    ensures forall k :: k in Offered(m, keys) <==> k in m && Eligible(k, keys)
  {
    SortAscending(Listed(set k | k in m && Eligible(k, keys)));
    AscendingDistinct(Offered(m, keys));
  }

  /** What is copied is always a prefixed, unreserved key of the source with its
      own value; with no limits nothing is dropped. */
  lemma PropagatedKeys(m: Labels, keys: Keys, lim: Limits)
    ensures var g := Propagated(m, keys, lim);
            && (forall k :: k in m && Eligible(k, keys) <==> k in g.out || k in g.dropped)
            && (forall k :: k in g.out ==> k !in g.dropped && g.out[k] == m[k])
            && (forall k :: k in g.out && lim.value > 0 ==> |g.out[k]| <= lim.value)
            && (lim.total > 0 ==> Bytes(Offered(m, keys), g.out) <= lim.total)
            && (lim.count > 0 ==> |g.out| <= lim.count)
            && (lim == UNLIMITED ==> g.dropped == [])
  {
    OfferedOrder(m, keys);
    GrantIsBounded(Offered(m, keys), m, lim);
    if lim == UNLIMITED { NothingDropped(Offered(m, keys), m); }
  }

  /** Labels are copied whole: every eligible one with its own value, and no other. */
  lemma LabelsCopied(m: Labels, keys: Keys)
    ensures var out := Propagated(m, keys, UNLIMITED).out;
            && (forall k :: k in out <==> k in m && Eligible(k, keys))
            && (forall k :: k in out ==> out[k] == m[k])
  {
    PropagatedKeys(m, keys, UNLIMITED);
  }

  /** Of the annotations at most 32 are copied, of at most 4096 bytes each and 32768
      together, each with its own value. */
  lemma AnnotationsCopied(m: Labels, keys: Keys)
    ensures var out := Propagated(m, keys, ANNOTATION_LIMITS).out;
            && (forall k :: k in out ==> k in m && Eligible(k, keys) && out[k] == m[k] && |out[k]| <= 4096)
            && |out| <= 32 && Bytes(Offered(m, keys), out) <= 32768
  {
    PropagatedKeys(m, keys, ANNOTATION_LIMITS);
  }

  lemma {:induction false} NothingDropped(order: seq<string>, m: Labels)
    requires forall k :: k in order ==> k in m
    ensures Greedy(order, m, UNLIMITED).dropped == []
  {
    if order != [] { NothingDropped(order[..|order| - 1], m); }
  }

  /** Propagating the output again returns it unchanged and drops nothing, so
      the admitted set is stable from pass to pass. */
  lemma PropagateIdempotent(m: Labels, keys: Keys, lim: Limits)
    ensures var out := Propagated(m, keys, lim).out;
            Propagated(out, keys, lim).out == out && Propagated(out, keys, lim).dropped == []
  {
    var order := Offered(m, keys);
    var out := Greedy(order, m, lim).out;
    OfferedOrder(m, keys);
    OfferedOrder(out, keys);
    GrantIsBounded(order, m, lim);
    KeptIsGranted(order, m, lim);
    AscendingUnique(Kept(order, m, lim), Offered(out, keys));
    RegrantKept(order, m, out, lim);
  }

  /** No key under ArgoCD's domain is ever copied, whatever the namespace says. */
  lemma NeverArgoDomain(m: Labels, keys: Keys, lim: Limits, k: string)
    requires keys.ClearOfArgo() && k in Propagated(m, keys, lim).out
    ensures !HasPrefix(k, ARGO_DOMAIN) && k !in keys.Reserved()
  {
    PropagatedKeys(m, keys, lim);
  }
}
