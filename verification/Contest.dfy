/** Who may create a registration several namespaces claim and none holds. */
module Contest {
  import opened Text
  import opened Objects

  /** Created earlier, ties broken on name. */
  predicate Older(a: Namespace, b: Namespace) {
    a.created < b.created || (a.created == b.created && Less(a.name, b.name))
  }

  lemma OlderTransitive(a: Namespace, b: Namespace, c: Namespace)
    requires Older(a, b) && Older(b, c)
    ensures Older(a, c)
  {
    if Less(a.name, b.name) && Less(b.name, c.name) { LessTransitive(a.name, b.name, c.name); }
  }

  lemma OlderTotal(a: Namespace, b: Namespace)
    requires a.name != b.name
    ensures Older(a, b) || Older(b, a)
  {
    LessTotal(a.name, b.name);
  }

  lemma OlderAsymmetric(a: Namespace, b: Namespace)
    requires Older(a, b)
    ensures !Older(b, a)
  {
    LessIrreflexive(a.name);
    if Less(a.name, b.name) && Less(b.name, a.name) { LessTransitive(a.name, b.name, a.name); }
  }

  ghost predicate NamesUnique(items: seq<Namespace>) {
    && (forall i :: 0 <= i < |items| ==> items[i].name != "")
    && (forall i, j :: 0 <= i < j < |items| ==> items[i].name != items[j].name)
  }

  /** The eldest of the claimants that are not being torn down. */
  ghost predicate IsEldest(items: seq<Namespace>, w: Namespace) {
    && w in items && !w.terminating
    && forall m :: m in items && !m.terminating && m != w ==>
         w.created < m.created || (w.created == m.created && Less(w.name, m.name))
  }

  ghost predicate NoClaimant(items: seq<Namespace>) {
    forall m :: m in items ==> m.terminating
  }

  /** This list of claimants leaves the name to `ns`. */
  ghost predicate MayCreate(items: seq<Namespace>, ns: string) {
    NoClaimant(items) || exists w :: IsEldest(items, w) && w.name == ns
  }

  /** The fold of claimContestedName. */
  method Winner(items: seq<Namespace>) returns (winner: string)
    requires NamesUnique(items)
    ensures winner == "" <==> NoClaimant(items)
    ensures winner != "" ==> exists w :: IsEldest(items, w) && w.name == winner
  {
    winner := "";
    var winnerAt := 0;
    ghost var best := Namespace("", "", map[], map[], 0, false);
    for i := 0 to |items|
      invariant winner == "" <==> NoClaimant(items[..i])
      invariant winner != "" ==> IsEldest(items[..i], best) && best.name == winner && best.created == winnerAt
    {
      var ns := items[i];
      assert items[..i + 1] == items[..i] + [ns];
      if ns.terminating {
        continue;
      }
      if winner == "" || ns.created < winnerAt || (ns.created == winnerAt && Less(ns.name, winner)) {
        NewEldest(items, i, best);
        winner, winnerAt, best := ns.name, ns.created, ns;
      } else {
        ghost var j :| 0 <= j < |items[..i]| && items[..i][j] == best;
        OlderTotal(best, ns);
      }
    }
    assert items[..|items|] == items;
  }

  lemma NewEldest(items: seq<Namespace>, i: nat, best: Namespace)
    requires i < |items| && !items[i].terminating
    requires NoClaimant(items[..i]) || (IsEldest(items[..i], best) && Older(items[i], best))
    ensures IsEldest(items[..i + 1], items[i])
  {
    assert items[..i + 1] == items[..i] + [items[i]];
    forall m | m in items[..i + 1] && !m.terminating ensures m == items[i] || Older(items[i], m) {
      if m in items[..i] && m != best { OlderTransitive(items[i], best, m); }
    }
  }

  // --------------------------------------------------------------- properties

  lemma EldestUnique(items: seq<Namespace>, relisted: seq<Namespace>, a: Namespace, b: Namespace)
    requires forall m :: m in items <==> m in relisted
    requires IsEldest(items, a) && IsEldest(relisted, b)
    ensures a == b
  {
    if a != b {
      assert Older(a, b) && Older(b, a);
      OlderAsymmetric(a, b);
    }
  }

  lemma {:induction false} SomeEldest(items: seq<Namespace>)
    requires NamesUnique(items) && !NoClaimant(items)
    ensures exists w :: IsEldest(items, w)
  {
    var n := |items| - 1;
    var last := items[n];
    assert items == items[..n] + [last];
    if NoClaimant(items[..n]) {
      assert IsEldest(items, last);
    } else {
      SomeEldest(items[..n]);
      var w :| IsEldest(items[..n], w);
      var j :| 0 <= j < n && items[j] == w;
      OlderTotal(w, last);
      if last.terminating || Older(w, last) {
        assert IsEldest(items, w);
      } else {
        NewEldest(items, n, w);
        assert items[..n + 1] == items;
      }
    }
  }

  /** Exactly one claimant may create, whatever order claimants are listed in. */
  lemma ExactlyOneMayCreate(items: seq<Namespace>, relisted: seq<Namespace>)
    requires NamesUnique(items) && !NoClaimant(items)
    requires forall m :: m in items <==> m in relisted
    ensures exists n :: MayCreate(items, n)
    ensures forall a, b :: MayCreate(items, a) && MayCreate(relisted, b) ==> a == b
  {
    SomeEldest(items);
    var w :| IsEldest(items, w);
    assert MayCreate(items, w.name);
    var m :| m in items && !m.terminating;
    assert m in relisted;
    forall a, b | MayCreate(items, a) && MayCreate(relisted, b) ensures a == b {
      var x :| IsEldest(items, x) && x.name == a;
      var y :| IsEldest(relisted, y) && y.name == b;
      EldestUnique(items, relisted, x, y);
    }
  }

  /** Adding claimants younger than the winner, or removing losers, never
      changes who may create. */
  lemma YoungerNeverWins(items: seq<Namespace>, more: seq<Namespace>, w: Namespace, n: string)
    requires IsEldest(items, w) && w in more
    requires forall m :: m in more && m !in items && !m.terminating ==> Older(w, m)
    ensures MayCreate(more, n) <==> n == w.name
  {
    assert IsEldest(more, w);
    if MayCreate(more, n) {
      var x :| IsEldest(more, x) && x.name == n;
      EldestUnique(more, more, x, w);
    }
  }
}
