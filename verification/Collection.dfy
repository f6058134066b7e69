/** What collection has achieved, Secret by Secret. */
module Collection {
  import opened Text
  import opened Objects
  import opened Merge
  import opened Api
  import opened Evidence
  import opened Claiming

  /** Recorded against this UID, against none, or opted out; or not there. */
  ghost predicate FreshAt(cfg: Settings, w: World, name: string, uid: string) {
    name in w.secrets ==> Pinned(cfg, w.secrets[name]) || RecordedUid(cfg, w.secrets[name]) in {"", uid}
  }

  ghost predicate AllFresh(cfg: Settings, w: World, names: set<string>, uid: string) {
    forall n :: n in names ==> FreshAt(cfg, w, n, uid)
  }

  ghost predicate NoneStale(cfg: Settings, w: World, ns: string, uid: string) {
    forall n :: RecordedAt(cfg, w, ns, n) ==> FreshAt(cfg, w, n, uid)
  }

  lemma StaleIgnoresClock(cfg: Settings, w: World, w': World, ns: string, uid: string)
    requires TimeOnly(w, w')
    ensures NoneStale(cfg, w, ns, uid) ==> NoneStale(cfg, w', ns, uid)
  {
    if NoneStale(cfg, w, ns, uid) {
      forall n | RecordedAt(cfg, w', ns, n) ensures FreshAt(cfg, w', n, uid) {
        assert RecordedAt(cfg, w, ns, n);
      }
    }
  }

  lemma StaleTurn(cfg: Settings, listed: World, before: World, w: World, done: set<string>, s: Secret, uid: string,
                  excused: bool)
    requires Stored(listed, s) && s.name !in done
    requires SameOutside(listed, before, done) && OnlyAt(before, w, s.name)
    requires !excused ==> AllFresh(cfg, before, done, uid)
    requires !excused ==> s.name !in w.secrets || (Stored(w, s) && (Pinned(cfg, s) || RecordedUid(cfg, s) in {"", uid}))
    ensures SameOutside(listed, w, done + {s.name})
    ensures !excused ==> AllFresh(cfg, w, done + {s.name}, uid)
  {
    TurnFrames(listed, before, w, done, s.name);
    if !excused {
      forall n | n in done + {s.name} ensures FreshAt(cfg, w, n, uid) {
        if n != s.name { assert Same(before, w, n) && FreshAt(cfg, before, n, uid); }
      }
    }
  }

  lemma StaleEnds(cfg: Settings, listed: World, w: World, ns: string, items: seq<Secret>, uid: string)
    requires cfg.Usable() && ns != "" && ValidWorld(listed) && Lists(listed, SourceSelector(cfg, ns), items)
    requires SameOutside(listed, w, Names(items)) && AllFresh(cfg, w, Names(items), uid)
    ensures NoneStale(cfg, w, ns, uid)
  {
    ListedNames(cfg, listed, ns, items);
    forall n | RecordedAt(cfg, w, ns, n) ensures FreshAt(cfg, w, n, uid) {
      assert n in Names(items) || Same(listed, w, n);
    }
  }

  ghost predicate InListing(seen: set<Observation>, s: Secret) {
    exists selector, items :: SawSecrets(selector, items) in seen && s in items
  }

  /** Gone, opted out, or, while the namespace exists, out of ArgoCD's sight. */
  ghost predicate Settled(cfg: Settings, w: World, name: string, exists_: bool) {
    name in w.secrets ==> Pinned(cfg, w.secrets[name]) || (exists_ && !Visible(cfg, w.secrets[name]))
  }

  /** Demoted, not opted out, and past its TTL at that time. */
  predicate Overdue(cfg: Settings, s: Secret, at: int) {
    Marked(cfg, s) && !Pinned(cfg, s) && OutlivedAt(cfg, s, at)
  }

  /** Settled; and what was overdue already, while the namespace exists, is gone. */
  ghost predicate Dealt(cfg: Settings, was: World, w: World, name: string, exists_: bool) {
    && Settled(cfg, w, name, exists_)
    && (exists_ && name in was.secrets && Overdue(cfg, was.secrets[name], was.clock) ==> name !in w.secrets)
  }

  /** Collection has grounds to act: the namespace is gone or has registered. */
  predicate Decisive(cfg: Settings, exists_: bool, applied: string) {
    !cfg.dryRun && (exists_ ==> applied != "")
  }

  ghost predicate RecordedAt(cfg: Settings, w: World, ns: string, name: string) {
    name in w.secrets && Owned(cfg, w.secrets[name]) && Source(cfg, w.secrets[name]) == ns
  }

  /** The owned Secrets that record this namespace. */
  ghost function Recorded(cfg: Settings, w: World, ns: string): set<string> {
    set n | n in w.secrets && RecordedAt(cfg, w, ns, n)
  }

  ghost predicate NoneLeft(cfg: Settings, w: World, ns: string) {
    forall n :: !RecordedAt(cfg, w, ns, n)
  }

  ghost predicate OthersSettled(cfg: Settings, w: World, ns: string, applied: string, exists_: bool) {
    forall n :: RecordedAt(cfg, w, ns, n) && n != applied ==> Settled(cfg, w, n, exists_)
  }

  ghost predicate OverdueGone(cfg: Settings, was: World, w: World, ns: string, applied: string) {
    forall n :: RecordedAt(cfg, was, ns, n) && n != applied && Overdue(cfg, was.secrets[n], was.clock) ==>
      n !in w.secrets
  }

  ghost function Names(items: seq<Secret>): set<string> {
    set s | s in items :: s.name
  }

  /** Nothing recording the namespace is left at these names, nor has any come. */
  ghost predicate Vacated(cfg: Settings, listed: World, w: World, ns: string, gone: set<string>) {
    NoMint(cfg, listed, w) && forall n :: n in gone ==> !RecordedAt(cfg, w, ns, n)
  }

  ghost predicate SameOutside(listed: World, w: World, names: set<string>) {
    forall n :: n !in names ==> Same(listed, w, n)
  }

  ghost predicate AllDealt(cfg: Settings, was: World, w: World, names: set<string>, exists_: bool) {
    forall n :: n in names ==> Dealt(cfg, was, w, n, exists_)
  }

  /** What collectOne's loop has achieved after the Secrets named `done`; `gone`
      are the names it counted as removed. */
  ghost predicate Progress(cfg: Settings, rule: Rule, listed: World, w: World, ns: string, exists_: bool,
                           applied: string,
                           done: set<string>, gone: set<string>, failed: bool) {
    && gone <= done
    && (!exists_ && rule != Hostile ==> Vacated(cfg, listed, w, ns, gone))
    && (rule == Quiet ==> SameOutside(listed, w, if exists_ then done - {applied} else if failed then done else gone))
    && (rule == Quiet && !failed && Decisive(cfg, exists_, applied) ==>
           AllDealt(cfg, listed, w, done - {applied}, exists_))
  }

  /** The names counted as removed after a turn that took off `dec`. */
  ghost function CountedOff(gone: set<string>, s: Secret, dec: nat): set<string> {
    if dec == 1 then gone + {s.name} else gone
  }

  lemma NamesAppend(done: seq<Secret>, s: Secret)
    ensures Names(done + [s]) == Names(done) + {s.name}
  {
  }

  lemma ListedAt(w: World, selector: Labels, items: seq<Secret>, i: nat)
    requires i < |items| && Lists(w, selector, items)
    ensures Stored(w, items[i]) && items[i] in items && Matches(selector, items[i].labels)
    ensures items[i].name !in Names(items[..i]) && Names(items[..i + 1]) == Names(items[..i]) + {items[i].name}
  {
  }

  lemma SkipKeeps(cfg: Settings, rule: Rule, listed: World, w: World, ns: string, exists_: bool, applied: string,
                  done: set<string>, gone: set<string>, failed: bool)
    requires Progress(cfg, rule, listed, w, ns, exists_, applied, done, gone, failed)
    ensures Progress(cfg, rule, listed, w, ns, exists_, applied, done + {applied}, gone, failed)
  {
  }

  lemma TurnKeeps(cfg: Settings, rule: Rule, listed: World, before: World, w: World, ns: string, exists_: bool,
                  applied: string,
                  done: set<string>, s: Secret, gone: set<string>, failed: bool, dec: nat, broke: bool)
    requires ns != "" && s.name != applied && s.name !in done && Stored(listed, s)
    requires Progress(cfg, rule, listed, before, ns, exists_, applied, done, gone, failed)
    requires dec <= 1
    requires !exists_ && dec == 1 ==> s.name !in w.secrets
    requires !exists_ && rule != Hostile ==> NoMint(cfg, before, w)
    requires rule == Quiet ==> OnlyAt(before, w, s.name)
    requires rule == Quiet && Stored(before, s) && !broke && !exists_ && dec == 0 ==> Stored(w, s)
    requires rule == Quiet && Stored(before, s) && !broke && Decisive(cfg, exists_, applied) ==>
      Dealt(cfg, before, w, s.name, exists_)
    requires rule == Quiet ==> listed.clock <= before.clock
    ensures Progress(cfg, rule, listed, w, ns, exists_, applied,
                     done + {s.name}, CountedOff(gone, s, dec), failed || broke)
    ensures |CountedOff(gone, s, dec)| == |gone| + dec
  {
    var gone' := CountedOff(gone, s, dec);
    if !exists_ && rule != Hostile {
      NoMintTransitive(cfg, listed, before, w);
      forall n | n in gone' ensures !RecordedAt(cfg, w, ns, n) {
      }
    }
    if rule == Quiet {
      assert Same(listed, before, s.name);
      var names := if exists_ then done - {applied} else if failed then done else gone;
      TurnFrames(listed, before, w, names, s.name);
      if exists_ { assert done + {s.name} - {applied} == names + {s.name}; }
      if !(failed || broke) && Decisive(cfg, exists_, applied) {
        forall n | n in done + {s.name} - {applied} ensures Dealt(cfg, listed, w, n, exists_) {
          if n != s.name { assert Same(before, w, n) && n in done - {applied}; }
        }
      }
    }
  }

  lemma TurnFrames(listed: World, before: World, w: World, names: set<string>, name: string)
    requires SameOutside(listed, before, names) && OnlyAt(before, w, name)
    ensures SameOutside(listed, w, names + {name})
    ensures Same(before, w, name) ==> SameOutside(listed, w, names)
  {
    forall n | n !in names && (n != name || Same(before, w, name)) ensures Same(listed, w, n) {
      assert Same(listed, before, n) && Same(before, w, n);
    }
  }

  lemma {:induction false} NamesCount(items: seq<Secret>)
    requires forall i, j :: 0 <= i < j < |items| ==> items[i].name != items[j].name
    ensures |Names(items)| == |items|
  {
    if items != [] {
      var n := |items| - 1;
      NamesCount(items[..n]);
      assert items == items[..n] + [items[n]];
      NamesAppend(items[..n], items[n]);
      forall x | x in items[..n] ensures x.name != items[n].name {
        var j :| 0 <= j < n && items[j] == x;
      }
    }
  }

  lemma SubsetOfSameSize(a: set<string>, b: set<string>)
    requires a <= b && |a| == |b|
    ensures a == b
  {
    assert |b - a| == |b| - |a|;
  }

  lemma ListedNames(cfg: Settings, w: World, ns: string, items: seq<Secret>)
    requires cfg.Usable() && ns != "" && ValidWorld(w) && Lists(w, SourceSelector(cfg, ns), items)
    ensures Names(items) == Recorded(cfg, w, ns)
  {
    forall n ensures n in Names(items) <==> RecordedAt(cfg, w, ns, n) {
      if n in w.secrets {
        SourceSelects(cfg, ns, w.secrets[n]);
        if RecordedAt(cfg, w, ns, n) { assert w.secrets[n] in items; }
      }
      if n in Names(items) {
        var s :| s in items && s.name == n;
      }
    }
  }

  lemma NoneLeftWhenAllGone(cfg: Settings, listed: World, w: World, ns: string, items: seq<Secret>, gone: set<string>)
    requires Names(items) == Recorded(cfg, listed, ns) && |Names(items)| == |items|
    requires gone <= Names(items) && |gone| == |items| && Vacated(cfg, listed, w, ns, gone) && ns != ""
    ensures NoneLeft(cfg, w, ns)
  {
    SubsetOfSameSize(gone, Names(items));
    forall n ensures !RecordedAt(cfg, w, ns, n) {
      assert RecordedAt(cfg, w, ns, n) ==> RecordedAt(cfg, listed, ns, n);
    }
  }

  lemma RemainderIsExact(cfg: Settings, listed: World, w: World, ns: string, names: set<string>, gone: set<string>)
    requires names == Recorded(cfg, listed, ns) && gone <= names
    requires SameOutside(listed, w, gone) && Vacated(cfg, listed, w, ns, gone)
    ensures |names| - |gone| == |Recorded(cfg, w, ns)|
  {
    forall n ensures n in Recorded(cfg, w, ns) <==> n in names - gone {
      if n !in gone { assert Same(listed, w, n); }
    }
    assert Recorded(cfg, w, ns) == names - gone;
  }

  lemma OthersSettledAfter(cfg: Settings, listed: World, w: World, ns: string, names: set<string>, applied: string,
                           exists_: bool)
    requires names == Recorded(cfg, listed, ns)
    requires SameOutside(listed, w, names) && AllDealt(cfg, listed, w, names - {applied}, exists_)
    ensures OthersSettled(cfg, w, ns, applied, exists_)
    ensures exists_ ==> OverdueGone(cfg, listed, w, ns, applied)
  {
    forall n | RecordedAt(cfg, w, ns, n) && n != applied ensures Settled(cfg, w, n, exists_) {
      assert n in names || Same(listed, w, n);
      assert Dealt(cfg, listed, w, n, exists_);
    }
    forall n | exists_ && RecordedAt(cfg, listed, ns, n) && n != applied
        && Overdue(cfg, listed.secrets[n], listed.clock)
      ensures n !in w.secrets
    {
      assert Dealt(cfg, listed, w, n, exists_);
    }
  }

  lemma OverdueLater(cfg: Settings, was: World, listed: World, w: World, ns: string, applied: string)
    requires TimeOnly(was, listed) && OverdueGone(cfg, listed, w, ns, applied)
    ensures OverdueGone(cfg, was, w, ns, applied)
  {
    forall n | RecordedAt(cfg, was, ns, n) && n != applied && Overdue(cfg, was.secrets[n], was.clock)
      ensures n !in w.secrets
    {
      assert RecordedAt(cfg, listed, ns, n);
    }
  }

  lemma CollectionEnds(cfg: Settings, rule: Rule, listed: World, w: World, ns: string, exists_: bool, applied: string,
                       items: seq<Secret>, gone: set<string>, failed: bool)
    requires cfg.Usable() && ns != "" && ValidWorld(listed) && Lists(listed, SourceSelector(cfg, ns), items)
    requires Progress(cfg, rule, listed, w, ns, exists_, applied, Names(items), gone, failed)
    ensures !exists_ && |gone| == |items| && rule != Hostile ==> NoneLeft(cfg, w, ns)
    ensures !exists_ && !failed && rule == Quiet ==> |items| - |gone| == |Recorded(cfg, w, ns)|
    ensures exists_ && rule == Quiet ==> Same(listed, w, applied)
    ensures !failed && rule == Quiet && Decisive(cfg, exists_, applied) ==>
      OthersSettled(cfg, w, ns, applied, exists_) && (exists_ ==> OverdueGone(cfg, listed, w, ns, applied))
  {
    ListedNames(cfg, listed, ns, items);
    NamesCount(items);
    if !exists_ && |gone| == |items| && rule != Hostile {
      NoneLeftWhenAllGone(cfg, listed, w, ns, items, gone);
    }
    if !exists_ && !failed && rule == Quiet {
      RemainderIsExact(cfg, listed, w, ns, Names(items), gone);
    }
    if !failed && rule == Quiet && Decisive(cfg, exists_, applied) {
      OthersSettledAfter(cfg, listed, w, ns, Names(items), applied, exists_);
    }
  }

  // ------------------------------------------------------- without interference

  /** The Secret as a demotion in favour of some registration leaves it. */
  ghost predicate DemotedFrom(cfg: Settings, s: Secret, d: Secret) {
    exists heir, stamp :: d == Demoted(cfg, s, heir, stamp).(rv := d.rv)
  }

  /** What an undisturbed collection may do to a registration: nothing; or, if it
      is not pinned, take it away or, while the namespace exists, demote it if it
      is not demoted yet and take it away only if it is and has outlived its TTL. */
  ghost predicate Tidy(cfg: Settings, w: World, w': World, n: string, exists_: bool) {
    n in w.secrets
    && (|| Same(w, w', n)
        || (!Pinned(cfg, w.secrets[n])
            && if n in w'.secrets then exists_ && !Marked(cfg, w.secrets[n])
                                       && DemotedFrom(cfg, w.secrets[n], w'.secrets[n])
               else exists_ ==> Overdue(cfg, w.secrets[n], w'.clock)))
  }

  lemma TidyHides(cfg: Settings, w: World, w': World, n: string, exists_: bool)
    requires cfg.Usable() && Tidy(cfg, w, w', n, exists_) && n in w'.secrets
    ensures Same(w, w', n) || !Visible(cfg, w'.secrets[n])
  {
    if !Same(w, w', n) {
      var heir, stamp :| w'.secrets[n] == Demoted(cfg, w.secrets[n], heir, stamp).(rv := w'.secrets[n].rv);
      DemotedReads(cfg, w.secrets[n], heir, stamp);
      SameLabelsRead(cfg, Demoted(cfg, w.secrets[n], heir, stamp), w'.secrets[n]);
    }
  }

  ghost predicate AllTidy(cfg: Settings, w: World, w': World, names: set<string>, exists_: bool) {
    forall n :: n in names ==> Tidy(cfg, w, w', n, exists_)
  }

  /** The Secrets of earlier turns are tidy, and this turn's is as it was listed. */
  ghost predicate TidyUpTo(cfg: Settings, listed: World, w: World, done: set<string>, s: Secret, exists_: bool) {
    Same(listed, w, s.name) && AllTidy(cfg, listed, w, done, exists_)
  }

  lemma TidyTurn(cfg: Settings, listed: World, before: World, w: World, done: set<string>, s: Secret, exists_: bool)
    requires Stored(listed, s) && Same(listed, before, s.name) && s.name !in done && OnlyAt(before, w, s.name)
    requires AllTidy(cfg, listed, before, done, exists_) && Tidy(cfg, before, w, s.name, exists_)
    requires before.clock <= w.clock
    ensures AllTidy(cfg, listed, w, done + {s.name}, exists_)
  {
    forall n | n in done + {s.name} ensures Tidy(cfg, listed, w, n, exists_) {
      if n != s.name { assert Same(before, w, n) && Tidy(cfg, listed, before, n, exists_); }
    }
  }

  lemma TidySkip(cfg: Settings, listed: World, w: World, done: set<string>, s: Secret, exists_: bool)
    requires Stored(listed, s) && Same(listed, w, s.name) && AllTidy(cfg, listed, w, done, exists_)
    ensures AllTidy(cfg, listed, w, done + {s.name}, exists_)
  {
  }

  /** What an undisturbed collection leaves: only registrations of the namespace
      other than the applied one may have changed, and those only tidily; and after a
      registration what was overdue is gone. */
  ghost predicate Collected(cfg: Settings, w: World, w': World, ns: string, applied: string, exists_: bool) {
    && w'.namespaces == w.namespaces && w'.sources == w.sources
    && (forall n :: if RecordedAt(cfg, w, ns, n) && n != applied then Tidy(cfg, w, w', n, exists_) else Same(w, w', n))
    && (exists_ && Decisive(cfg, exists_, applied) ==> OverdueGone(cfg, w, w', ns, applied))
  }

  lemma CollectionHides(cfg: Settings, w: World, w': World, ns: string, applied: string, exists_: bool)
    requires cfg.Usable() && Collected(cfg, w, w', ns, applied, exists_)
    ensures forall n :: n in w'.secrets ==> Same(w, w', n) || !Visible(cfg, w'.secrets[n])
  {
    forall n | n in w'.secrets ensures Same(w, w', n) || !Visible(cfg, w'.secrets[n]) {
      assert if RecordedAt(cfg, w, ns, n) && n != applied then Tidy(cfg, w, w', n, exists_) else Same(w, w', n);
      if !Same(w, w', n) { TidyHides(cfg, w, w', n, exists_); }
    }
  }

  lemma CollectedAll(cfg: Settings, listed: World, w: World, ns: string, applied: string, exists_: bool,
                     names: set<string>)
    requires names == Recorded(cfg, listed, ns) && SameOutside(listed, w, names)
    requires AllTidy(cfg, listed, w, names, exists_)
    requires w.namespaces == listed.namespaces && w.sources == listed.sources && Same(listed, w, applied)
    requires exists_ && Decisive(cfg, exists_, applied) ==> OverdueGone(cfg, listed, w, ns, applied)
    ensures Collected(cfg, listed, w, ns, applied, exists_)
  {
    forall n
      ensures if RecordedAt(cfg, listed, ns, n) && n != applied then Tidy(cfg, listed, w, n, exists_)
              else Same(listed, w, n)
    {
      assert n in names || Same(listed, w, n);
    }
  }

  lemma CollectedIgnoresClock(cfg: Settings, w: World, later: World, w': World, ns: string, applied: string,
                              exists_: bool)
    requires TimeOnly(w, later) && Collected(cfg, later, w', ns, applied, exists_)
    ensures Collected(cfg, w, w', ns, applied, exists_)
  {
    if exists_ && Decisive(cfg, exists_, applied) { OverdueLater(cfg, w, later, w', ns, applied); }
    forall n ensures RecordedAt(cfg, w, ns, n) <==> RecordedAt(cfg, later, ns, n) {
    }
    forall n ensures Tidy(cfg, w, w', n, exists_) <==> Tidy(cfg, later, w', n, exists_) {
    }
    forall n ensures Same(w, w', n) <==> Same(later, w', n) {
    }
  }

  /** A registration that even a namespace's end leaves in place. */
  ghost predicate StaysBehind(cfg: Settings, w: World, ns: string, n: string) {
    RecordedAt(cfg, w, ns, n) && (cfg.dryRun || Pinned(cfg, w.secrets[n]))
  }

  ghost predicate LeftBehind(cfg: Settings, w: World, ns: string) {
    exists n :: StaysBehind(cfg, w, ns, n)
  }

  /** Once the namespace is gone, nothing is left exactly when nothing had to stay. */
  lemma CountedOutExactly(cfg: Settings, w: World, w': World, ns: string, remaining: int)
    requires ValidWorld(w') && remaining == |Recorded(cfg, w', ns)|
    requires Collected(cfg, w, w', ns, "", false)
    requires if cfg.dryRun then forall n :: Same(w, w', n) else OthersSettled(cfg, w', ns, "", false)
    ensures remaining == 0 <==> !LeftBehind(cfg, w, ns)
  {
    if n :| StaysBehind(cfg, w, ns, n) {
      assert if RecordedAt(cfg, w, ns, n) && n != "" then Tidy(cfg, w, w', n, false) else Same(w, w', n);
      assert cfg.dryRun ==> Same(w, w', n);
      assert n in Recorded(cfg, w', ns);
    }
    if remaining != 0 {
      var n :| n in Recorded(cfg, w', ns);
      assert RecordedAt(cfg, w', ns, n) && n != "";
      assert if RecordedAt(cfg, w, ns, n) then Tidy(cfg, w, w', n, false) else Same(w, w', n);
      assert cfg.dryRun || Settled(cfg, w', n, false);
      assert StaysBehind(cfg, w, ns, n);
    }
  }

  lemma LeftIgnoresClock(cfg: Settings, w: World, later: World, ns: string)
    requires TimeOnly(w, later)
    ensures LeftBehind(cfg, w, ns) <==> LeftBehind(cfg, later, ns)
  {
    forall n ensures StaysBehind(cfg, w, ns, n) <==> StaysBehind(cfg, later, ns, n) {
    }
  }

  /** What the loop over one list has achieved when nothing interfered. */
  lemma CalmlyCollected(cfg: Settings, listed: World, w: World, ns: string, exists_: bool, applied: string,
                        items: seq<Secret>, gone: set<string>, remaining: int)
    requires cfg.Usable() && ns != "" && ValidWorld(listed) && ValidWorld(w)
    requires Lists(listed, SourceSelector(cfg, ns), items)
    requires Progress(cfg, Quiet, listed, w, ns, exists_, applied, Names(items), gone, false)
    requires AllTidy(cfg, listed, w, Names(items), exists_) && |gone| + remaining == |items|
    requires w.namespaces == listed.namespaces && w.sources == listed.sources
    requires !exists_ ==> applied == ""
    requires cfg.dryRun ==> TimeOnly(listed, w)
    ensures Collected(cfg, listed, w, ns, applied, exists_)
    ensures !exists_ ==> (remaining == 0 <==> !LeftBehind(cfg, listed, ns))
  {
    ListedNames(cfg, listed, ns, items);
    CollectionEnds(cfg, Quiet, listed, w, ns, exists_, applied, items, gone, false);
    CollectedAll(cfg, listed, w, ns, applied, exists_, Names(items));
    if !exists_ { CountedOutExactly(cfg, listed, w, ns, remaining); }
  }

  /** The registration of a predecessor: another UID is recorded, and it is not
      opted out. */
  ghost predicate StaleAt(cfg: Settings, w: World, ns: string, uid: string, n: string) {
    RecordedAt(cfg, w, ns, n) && uid != "" && !FreshAt(cfg, w, n, uid)
  }

  /** The store once the predecessor's registrations among `done` are cleared. */
  ghost function ClearedOf(cfg: Settings, w: World, ns: string, uid: string, done: set<string>): World {
    w.(secrets := map n | n in w.secrets && !(n in done && StaleAt(cfg, w, ns, uid, n)) :: w.secrets[n])
  }

  /** The store after an undisturbed collection of stale registrations. */
  ghost function Cleared(cfg: Settings, w: World, ns: string, uid: string): World {
    if cfg.dryRun then w else ClearedOf(cfg, w, ns, uid, w.secrets.Keys)
  }

  lemma ClearTurn(cfg: Settings, listed: World, before: World, w: World, ns: string, uid: string, done: set<string>,
                  s: Secret)
    requires Stored(listed, s) && s.name !in done
    requires TimeOnly(ClearedOf(cfg, listed, ns, uid, done), before)
    requires TimeOnly(if StaleAt(cfg, listed, ns, uid, s.name) then Perform(before, Deleted(s)) else before, w)
    ensures TimeOnly(ClearedOf(cfg, listed, ns, uid, done + {s.name}), w)
  {
    assert w.secrets == ClearedOf(cfg, listed, ns, uid, done + {s.name}).secrets;
  }

  lemma ClearEnds(cfg: Settings, listed: World, ns: string, uid: string, names: set<string>)
    requires names == Recorded(cfg, listed, ns)
    ensures ClearedOf(cfg, listed, ns, uid, names) == ClearedOf(cfg, listed, ns, uid, listed.secrets.Keys)
  {
    assert ClearedOf(cfg, listed, ns, uid, names).secrets ==
           ClearedOf(cfg, listed, ns, uid, listed.secrets.Keys).secrets;
  }

  lemma ClearNothing(cfg: Settings, w: World, ns: string)
    ensures Cleared(cfg, w, ns, "") == w
    ensures forall uid :: ClearedOf(cfg, w, ns, uid, {}) == w
  {
    assert Cleared(cfg, w, ns, "").secrets == w.secrets;
    forall uid ensures ClearedOf(cfg, w, ns, uid, {}) == w {
      assert ClearedOf(cfg, w, ns, uid, {}).secrets == w.secrets;
    }
  }

  lemma ClearedIgnoresClock(cfg: Settings, w: World, later: World, ns: string, uid: string)
    requires TimeOnly(w, later)
    ensures TimeOnly(Cleared(cfg, w, ns, uid), Cleared(cfg, later, ns, uid))
  {
    forall n ensures StaleAt(cfg, w, ns, uid, n) <==> StaleAt(cfg, later, ns, uid, n) {
    }
    if !cfg.dryRun { assert Cleared(cfg, w, ns, uid).secrets == Cleared(cfg, later, ns, uid).secrets; }
  }

  /** What the loop of the stale collection has achieved after `done`. */
  ghost predicate StaleProgress(cfg: Settings, policy: Policy, listed: World, w: World, ns: string, uid: string,
                                done: set<string>, failed: bool) {
    && (policy.rule == Quiet ==> SameOutside(listed, w, done))
    && (policy.rule == Quiet && !failed && !cfg.dryRun ==> AllFresh(cfg, w, done, uid))
    && (policy.Calm() ==> !failed && (!cfg.dryRun ==> TimeOnly(ClearedOf(cfg, listed, ns, uid, done), w)))
  }

  lemma StaleProgressTurn(cfg: Settings, policy: Policy, listed: World, before: World, w: World, ns: string,
                          uid: string,
                          done: set<string>, s: Secret, failed: bool, broke: bool)
    requires Stored(listed, s) && s.name !in done && Owned(cfg, s) && Source(cfg, s) == ns && uid != ""
    requires StaleProgress(cfg, policy, listed, before, ns, uid, done, failed)
    requires policy.rule == Quiet ==> OnlyAt(before, w, s.name)
    requires var stale := !Pinned(cfg, s) && RecordedUid(cfg, s) !in {"", uid};
             && (!stale ==> before == w && !broke)
             && (policy.rule == Quiet && stale && !broke && !cfg.dryRun ==> s.name !in w.secrets)
             && (policy.Calm() ==> !broke && (!cfg.dryRun && stale ==> TimeOnly(Perform(before, Deleted(s)), w)))
    ensures StaleProgress(cfg, policy, listed, w, ns, uid, done + {s.name}, failed || broke)
  {
    if policy.rule == Quiet {
      assert Same(listed, before, s.name);
      StaleTurn(cfg, listed, before, w, done, s, uid, failed || broke || cfg.dryRun);
      if policy.Calm() && !cfg.dryRun { ClearTurn(cfg, listed, before, w, ns, uid, done, s); }
    }
  }

  lemma StaleProgressEnds(cfg: Settings, policy: Policy, listed: World, w: World, ns: string, uid: string,
                          items: seq<Secret>, failed: bool)
    requires cfg.Usable() && ns != "" && ValidWorld(listed) && Lists(listed, SourceSelector(cfg, ns), items)
    requires StaleProgress(cfg, policy, listed, w, ns, uid, Names(items), failed)
    requires policy.rule == Quiet && cfg.dryRun ==> TimeOnly(listed, w)
    ensures policy.rule == Quiet && !failed && !cfg.dryRun ==> NoneStale(cfg, w, ns, uid)
    ensures policy.Calm() ==> !failed && TimeOnly(Cleared(cfg, listed, ns, uid), w)
  {
    ListedNames(cfg, listed, ns, items);
    if policy.rule == Quiet && !failed && !cfg.dryRun { StaleEnds(cfg, listed, w, ns, items, uid); }
    if policy.Calm() { ClearEnds(cfg, listed, ns, uid, Names(items)); }
  }

  // ------------------------------------------------------------- justification

  /** Deleting is justified whichever object of this identity is removed; with
      `exact`, only if it is the very version that was judged. */
  ghost predicate JustifiedRemoval(cfg: Settings, key: string, seen: set<Observation>, s: Secret, exact: bool) {
    forall removed: Secret :: removed.name == s.name && removed.uid == s.uid && (exact ==> removed == s) ==>
      JustifiedDelete(cfg, key, seen, removed)
  }

  lemma OrphanJustified(cfg: Settings, key: string, seen: set<Observation>, s: Secret)
    requires Judged(cfg, seen, key, s) && (Gone(seen, key) || Replaced(cfg, seen, key, s))
    ensures JustifiedRemoval(cfg, key, seen, s, false)
  {
  }

  lemma ExpiryJustified(cfg: Settings, key: string, seen: set<Observation>, s: Secret)
    requires Judged(cfg, seen, key, s) && Outlived(cfg, seen, key, s)
    ensures JustifiedRemoval(cfg, key, seen, s, true)
  {
  }

  lemma JudgedGrows(cfg: Settings, seen: set<Observation>, seen': set<Observation>, key: string, s: Secret)
    requires seen <= seen' && Judged(cfg, seen, key, s)
    ensures Judged(cfg, seen', key, s)
  {
  }

  lemma DemotionJustified(cfg: Settings, key: string, seen: set<Observation>, s: Secret, now: int, heir: string)
    requires SawTime(now) in seen && 0 <= now < ERA_END
    requires Judged(cfg, seen, key, s) && !Marked(cfg, s) && heir != s.name && Registered(cfg, seen, key, heir)
    ensures JustifiedVersions(cfg, key, seen, s, Demoted(cfg, s, heir, cfg.lib.stamp(now)))
  {
    forall rv: nat ensures JustifiedUpdate(cfg, key, seen, s, Demoted(cfg, s, heir, cfg.lib.stamp(now)).(rv := rv)) {
      var after := Demoted(cfg, s, heir, cfg.lib.stamp(now)).(rv := rv);
      assert DemotionFor(cfg, key, seen, s, after, now, heir);
      assert IsDemotion(cfg, key, seen, s, after, now);
    }
  }

  lemma OnlyAtTransitive(a: World, b: World, c: World, name: string)
    requires OnlyAt(a, b, name) && OnlyAt(b, c, name)
    ensures OnlyAt(a, c, name)
  {
    forall n | n != name ensures Same(a, c, n) {
      assert Same(a, b, n) && Same(b, c, n);
    }
  }

  lemma PermitsMintNothing(cfg: Settings, rule: Rule, w: World, w': World)
    requires Permits(cfg, rule, w, w') && rule != Hostile
    ensures NoMint(cfg, w, w')
  {
  }

  lemma RemovalLeaves(cfg: Settings, rule: Rule, w: World, mid: World, removed: Secret)
    requires Permits(cfg, rule, w, mid)
    ensures var w' := Perform(mid, Deleted(removed));
            && removed.name !in w'.secrets
            && (rule != Hostile ==> NoMint(cfg, w, w'))
            && (rule == Quiet ==> OnlyAt(w, w', removed.name))
  {
  }

  /** What a delete that takes effect comes to: it removes what was tracked. */
  lemma RemovalTakes(cfg: Settings, rule: Rule, baseline: set<Secret>, s: Snap, mid: World, judged: Secret, t: Snap,
                     exact: bool)
    requires Sound(cfg, rule, baseline, s) && !cfg.dryRun && Permits(cfg, rule, s.world, mid) && s.key != ""
    requires Tracked(cfg, rule, s.key, s.world, judged) && !Pinned(cfg, judged)
    requires JustifiedRemoval(cfg, s.key, s.seen, judged, exact)
    requires judged.name in mid.secrets && mid.secrets[judged.name].uid == judged.uid
    requires exact ==> mid.secrets[judged.name].rv == judged.rv
    requires Wrought(s, mid, Deleted(mid.secrets[judged.name]), t)
    ensures Advance(cfg, rule, baseline, s, t) && judged.name !in t.world.secrets
    ensures rule != Hostile ==> NoMint(cfg, s.world, t.world)
    ensures rule == Quiet ==> OnlyAt(s.world, t.world, judged.name)
    ensures rule == Quiet ==> TimeOnly(Perform(s.world, Deleted(judged)), t.world)
  {
    var removed := mid.secrets[judged.name];
    PermittedEvolves(cfg, rule, s.key, s.world, mid);
    TrackedStays(cfg, rule, s.key, s.world, mid, judged);
    assert JustifiedDelete(cfg, s.key, s.seen, removed);
    WriteAdvances(cfg, rule, baseline, s, mid, Deleted(removed), t);
    RemovalLeaves(cfg, rule, s.world, mid, removed);
  }
}
