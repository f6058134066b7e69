/** The audit pass: how many registrations there are, by state and by the time
    their credentials have left. */
module Audit {
  import opened Text
  import opened Expiry
  import opened Objects

  datatype State = Active | Hidden

  datatype Series = Series(state: State, bucket: Bucket)

  /** Every series that is published. */
  const ALL_SERIES: seq<Series> := [
    Series(Active, Expired), Series(Active, Lt24h), Series(Active, Lt7d), Series(Active, Lt30d),
    Series(Active, Fresh), Series(Active, TokenBucket), Series(Active, ExecBucket),
    Series(Active, Unreadable), Series(Active, Absent),
    Series(Hidden, Expired), Series(Hidden, Lt24h), Series(Hidden, Lt7d), Series(Hidden, Lt30d),
    Series(Hidden, Fresh), Series(Hidden, TokenBucket), Series(Hidden, ExecBucket),
    Series(Hidden, Unreadable), Series(Hidden, Absent)]

  function SeriesOf(cfg: Settings, s: Secret, now: int): Series {
    Series(if Marked(cfg, s) then Hidden else Active, CredentialExpiry(cfg.lib, Get(s.data, "config"), now))
  }

  /** A registration counts as demoted by its marker alone, and by the credential it
      holds, whichever the state. */
  lemma CountedByMarker(cfg: Settings, s: Secret, now: int)
    ensures SeriesOf(cfg, s, now).state == Hidden <==> Get(s.labels, cfg.keys.orphaned) != ""
    ensures SeriesOf(cfg, s, now).bucket == CredentialExpiry(cfg.lib, Get(s.data, "config"), now)
  {
  }

  function Classifier(cfg: Settings, now: int): Secret -> Series {
    (s: Secret) => SeriesOf(cfg, s, now)
  }

  /** The registrations that belong to one series. */
  ghost function Members(f: Secret -> Series, items: set<Secret>, x: Series): set<Secret> {
    set s | s in items && f(s) == x
  }

  ghost function Unrouted(cfg: Settings, items: set<Secret>): set<Secret> {
    set s | s in items && Source(cfg, s) == ""
  }

  /** Unrouted are those without a source label, or with an empty one. */
  lemma UnroutedByLabel(cfg: Settings, items: set<Secret>, s: Secret)
    ensures s in Unrouted(cfg, items) <==>
            s in items && (cfg.keys.source in s.labels ==> s.labels[cfg.keys.source] == "")
  {
  }

  function Look(counts: map<Series, nat>, x: Series): nat {
    if x in counts then counts[x] else 0
  }

  /** Every series stands at the number of its members. */
  ghost predicate Counted(f: Secret -> Series, items: set<Secret>, counts: map<Series, nat>) {
    forall x :: Look(counts, x) == |Members(f, items, x)|
  }

  lemma OneMember(f: Secret -> Series, items: set<Secret>, s: Secret, y: Series)
    requires s !in items
    ensures |Members(f, items + {s}, y)| == |Members(f, items, y)| + (if y == f(s) then 1 else 0)
  {
    if y == f(s) {
      assert Members(f, items + {s}, y) == Members(f, items, y) + {s};
    } else {
      assert Members(f, items + {s}, y) == Members(f, items, y);
    }
  }

  lemma CountOne(f: Secret -> Series, items: set<Secret>, counts: map<Series, nat>, s: Secret)
    requires Counted(f, items, counts) && s !in items
    ensures Counted(f, items + {s}, counts[f(s) := Look(counts, f(s)) + 1])
  {
    var counts' := counts[f(s) := Look(counts, f(s)) + 1];
    forall y ensures Look(counts', y) == |Members(f, items + {s}, y)| {
      OneMember(f, items, s, y);
    }
  }

  lemma CountUnrouted(cfg: Settings, items: set<Secret>, s: Secret)
    requires s !in items
    ensures |Unrouted(cfg, items + {s})| == |Unrouted(cfg, items)| + (if Source(cfg, s) == "" then 1 else 0)
  {
    if Source(cfg, s) == "" {
      assert Unrouted(cfg, items + {s}) == Unrouted(cfg, items) + {s};
    } else {
      assert Unrouted(cfg, items + {s}) == Unrouted(cfg, items);
    }
  }

  ghost function ItemSet(items: seq<Secret>): set<Secret> {
    set s | s in items
  }

  lemma ItemSetGrows(items: seq<Secret>, i: nat)
    requires i < |items| && Distinct(items)
    ensures ItemSet(items[..i + 1]) == ItemSet(items[..i]) + {items[i]} && items[i] !in ItemSet(items[..i])
  {
  }

  /** The counting loop. */
  method Tally(cfg: Settings, items: seq<Secret>, now: int) returns (counts: map<Series, nat>, unrouted: nat)
    requires Distinct(items)
    ensures Counted(Classifier(cfg, now), ItemSet(items), counts)
    ensures unrouted == |Unrouted(cfg, ItemSet(items))|
  {
    counts, unrouted := map[], 0;
    var series := Classifier(cfg, now);
    for i := 0 to |items|
      invariant Counted(series, ItemSet(items[..i]), counts)
      invariant unrouted == |Unrouted(cfg, ItemSet(items[..i]))|
    {
      var s := items[i];
      ItemSetGrows(items, i);
      CountOne(series, ItemSet(items[..i]), counts, s);
      CountUnrouted(cfg, ItemSet(items[..i]), s);
      var x := series(s);
      counts := counts[x := Look(counts, x) + 1];
      if Source(cfg, s) != "" {
        continue;
      }
      unrouted := unrouted + 1;
    }
    assert items[..|items|] == items;
  }

  /** The gauges after a pass: every series is set, also back to zero. */
  method Publish(counts: map<Series, nat>) returns (gauges: map<Series, nat>)
    ensures gauges.Keys == set x | x in ALL_SERIES
    ensures forall x :: x in ALL_SERIES ==> gauges[x] == Look(counts, x)
  {
    gauges := map[];
    for i := 0 to |ALL_SERIES|
      invariant gauges.Keys == set x | x in ALL_SERIES[..i]
      invariant forall x :: x in ALL_SERIES[..i] ==> gauges[x] == Look(counts, x)
    {
      assert ALL_SERIES[..i + 1] == ALL_SERIES[..i] + [ALL_SERIES[i]];
      gauges := gauges[ALL_SERIES[i] := Look(counts, ALL_SERIES[i])];
    }
    assert ALL_SERIES[..|ALL_SERIES|] == ALL_SERIES;
  }

  // --------------------------------------------------------------- properties

  function Sum(order: seq<Series>, counts: map<Series, nat>): nat {
    if order == [] then 0 else Look(counts, order[0]) + Sum(order[1..], counts)
  }

  /** Where a series stands among those published. */
  function Place(x: Series): nat {
    (if x.state == Active then 0 else 9)
    + match x.bucket
      case Expired => 0 case Lt24h => 1 case Lt7d => 2 case Lt30d => 3 case Fresh => 4
      case TokenBucket => 5 case ExecBucket => 6 case Unreadable => 7 case Absent => 8
  }

  lemma EverySeriesPublished(x: Series)
    ensures x in ALL_SERIES
  {
    assert ALL_SERIES[Place(x)] == x;
  }

  /** The registrations whose series is one of `order`. */
  ghost function Within(f: Secret -> Series, items: set<Secret>, order: seq<Series>): set<Secret> {
    set s | s in items && f(s) in order
  }

  lemma {:induction false} SumIsCount(f: Secret -> Series, items: set<Secret>, counts: map<Series,
                                      nat>, order: seq<Series>)
    requires Counted(f, items, counts) && Distinct(order)
    ensures Sum(order, counts) == |Within(f, items, order)|
  {
    if order == [] {
      assert Within(f, items, order) == {};
    } else {
      SumIsCount(f, items, counts, order[1..]);
      var a, b := Members(f, items, order[0]), Within(f, items, order[1..]);
      assert order[0] !in order[1..];
      assert forall x :: x in order <==> x == order[0] || x in order[1..];
      assert Within(f, items, order) == a + b;
      assert a !! b;
    }
  }

  lemma SeriesDistinct()
    ensures Distinct(ALL_SERIES)
  {
    forall i | 0 <= i < |ALL_SERIES| ensures Place(ALL_SERIES[i]) == i {
    }
    forall i, j | 0 <= i < j < |ALL_SERIES| ensures ALL_SERIES[i] != ALL_SERIES[j] {
      assert Place(ALL_SERIES[i]) != Place(ALL_SERIES[j]);
    }
  }

  /** Conservation: the gauges over all states and buckets add up to the number
      of owned registrations, and each is determined by population and time. */
  lemma GaugesConserve(f: Secret -> Series, items: set<Secret>, counts: map<Series, nat>, gauges: map<Series, nat>)
    requires Counted(f, items, counts)
    requires forall x :: x in ALL_SERIES ==> x in gauges && gauges[x] == Look(counts, x)
    ensures Sum(ALL_SERIES, gauges) == |items|
    ensures forall x :: x in ALL_SERIES ==> gauges[x] == |Members(f, items, x)|
  {
    forall x ensures Look(gauges, x) == Look(counts, x) {
      EverySeriesPublished(x);
    }
    SeriesDistinct();
    SumSame(ALL_SERIES, gauges, counts);
    SumIsCount(f, items, counts, ALL_SERIES);
    forall s | s in items ensures s in Within(f, items, ALL_SERIES) {
      EverySeriesPublished(f(s));
    }
    assert Within(f, items, ALL_SERIES) == items;
  }

  lemma {:induction false} SumSame(order: seq<Series>, a: map<Series, nat>, b: map<Series, nat>)
    requires forall x :: Look(a, x) == Look(b, x)
    ensures Sum(order, a) == Sum(order, b)
  {
    if order != [] { SumSame(order[1..], a, b); }
  }

  /** The registrations at least this far along the ageing scale. */
  ghost function AtLeast(cfg: Settings, items: set<Secret>, now: int, age: nat): set<Secret> {
    set s | s in items && var a := Age(SeriesOf(cfg, s, now).bucket); a.Some? && a.value >= age
  }

  /** With the population fixed, time only moves registrations towards expiry. */
  lemma PopulationAges(cfg: Settings, items: set<Secret>, now: int, later: int, age: nat)
    requires now <= later
    ensures AtLeast(cfg, items, now, age) <= AtLeast(cfg, items, later, age)
    ensures |AtLeast(cfg, items, now, age)| <= |AtLeast(cfg, items, later, age)|
  {
    forall s | s in AtLeast(cfg, items, now, age) ensures s in AtLeast(cfg, items, later, age) {
      ExpiryOnlyAges(cfg.lib, Get(s.data, "config"), now, later);
    }
    SubsetSize(AtLeast(cfg, items, now, age), AtLeast(cfg, items, later, age));
  }

  lemma SubsetSize(a: set<Secret>, b: set<Secret>)
    requires a <= b
    ensures |a| <= |b|
  {
    assert b == a + (b - a);
  }
}
