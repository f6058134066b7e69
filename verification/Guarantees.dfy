/** What the invariants of a run say about everything it ever wrote. */
module Guarantees {
  import opened Results
  import opened Text
  import opened Objects
  import opened Merge
  import opened Api
  import opened Expiry
  import opened Evidence
  import opened Decision
  import opened Claiming
  import opened Collection
  import opened Passes
  import opened Election

  // ------------------------------------------------------------------ deletion

  /** The delete is of a Secret listed in its pass as an unpinned registration of
      the key, whose recorded UID is not that of the live namespace. */
  ghost predicate OfPredecessor(cfg: Settings, write: Write) {
    write.op.Deleted? && exists s :: IsJudged(cfg, write, s) && Replaced(cfg, write.seen, write.key, s)
  }

  /** The object removed is, by name and identity, this one, which its pass had
      listed as owned, recorded against the key and unpinned. */
  ghost predicate IsJudged(cfg: Settings, write: Write, s: Secret) {
    && write.op.Deleted? && s.name == write.op.secret.name && s.uid == write.op.secret.uid
    && Judged(cfg, write.seen, write.key, s)
  }

  /** Deletion safety: every deleted object is, by name and identity, one that
      the same pass had listed as owned, recorded against its key and unpinned,
      and one of the three proofs held: the namespace was NotFound; a live one of
      ours has another UID; or the very version removed was demoted, past a
      positive TTL by a readable stamp, and another Secret was registered. */
  lemma DeletionsAreProven(cfg: Settings, log: seq<Write>, j: nat) returns (judged: Secret)
    requires AllJustified(cfg, log) && j < |log| && log[j].op.Deleted?
    ensures var removed, seen, key := log[j].op.secret, log[j].seen, log[j].key;
            && judged.name == removed.name && judged.uid == removed.uid
            && (exists selector, items :: SawSecrets(selector, items) in seen && judged in items)
            && Owned(cfg, judged) && Source(cfg, judged) == key && !Pinned(cfg, judged)
            && (|| SawNamespace(key, None) in seen
                || (exists ns ::
                       Vouches(cfg, seen, key, ns) && ns.uid != "" && RecordedUid(cfg, judged) !in {"", ns.uid})
                || (&& removed == judged && Marked(cfg, judged)
                    && (exists now :: SawTime(now) in seen && OutlivedAt(cfg, judged, now))
                    && (exists heir :: heir != judged.name && Registered(cfg, seen, key, heir))))
  {
    var seen, key := log[j].seen, log[j].key;
    judged := JudgedOf(cfg, log[j]);
    if Replaced(cfg, seen, key, judged) {
      var ns :| Vouches(cfg, seen, key, ns) && ns.uid != "" && RecordedUid(cfg, judged) != ns.uid;
    }
  }

  lemma JudgedOf(cfg: Settings, write: Write) returns (s: Secret)
    requires Justified(cfg, write) && write.op.Deleted?
    ensures IsJudged(cfg, write, s)
    ensures || Gone(write.seen, write.key)
            || Replaced(cfg, write.seen, write.key, s)
            || (write.op.secret == s && Outlived(cfg, write.seen, write.key, s))
  {
    var removed := write.op.secret;
    s :| Judged(cfg, write.seen, write.key, s) && s.name == removed.name && s.uid == removed.uid
      && (|| Gone(write.seen, write.key) || Replaced(cfg, write.seen, write.key, s)
          || (removed == s && Outlived(cfg, write.seen, write.key, s)));
  }

  /** The UID precondition alone does not tie a delete to what was judged. For a
      Secret judged deletable in `w`, whatever others may do before the delete
      arrives, the object it hits is certain to be still an unpinned registration
      of the key, among the four policies exactly when others keep their hands off
      our Secrets. */
  lemma UidDeleteIsFairExactlyWhenStable(cfg: Settings, rule: Rule, w: World, s: Secret)
    requires cfg.Usable() && ValidWorld(w) && Stored(w, s)
    requires Owned(cfg, s) && Source(cfg, s) != "" && !Pinned(cfg, s)
    ensures Stable(rule) <==> forall w' :: Permits(cfg, rule, w, w') ==> HitsFairly(cfg, w', s)
  {
    if Stable(rule) {
      forall w' | Permits(cfg, rule, w, w') ensures HitsFairly(cfg, w', s) {
        PermittedEvolves(cfg, rule, Source(cfg, s), w, w');
        TrackedStays(cfg, rule, Source(cfg, s), w, w', s);
      }
    } else {
      var w' := Disowned(cfg, w, s);
      DisownedIsPermitted(cfg, w, s);
      assert Permits(cfg, rule, w, w') && !HitsFairly(cfg, w', s);
    }
  }

  /** A UID-preconditioned delete of `s` finds an unpinned registration of the
      namespace `s` records, or finds nothing. */
  ghost predicate HitsFairly(cfg: Settings, w: World, s: Secret) {
    s.name in w.secrets && w.secrets[s.name].uid == s.uid ==>
      FairDelete(cfg, Write(Source(cfg, s), {}, Deleted(w.secrets[s.name])))
  }

  /** Somebody strips the ownership label from `s`. */
  ghost function Disowned(cfg: Settings, w: World, s: Secret): World {
    w.(secrets := w.secrets[s.name := s.(labels := s.labels - {cfg.keys.managedBy}, rv := w.nextRv)],
       nextRv := w.nextRv + 1)
  }

  lemma DisownedIsPermitted(cfg: Settings, w: World, s: Secret)
    requires cfg.Usable() && ValidWorld(w) && Stored(w, s)
    ensures Permits(cfg, NoMinting, w, Disowned(cfg, w, s)) && Permits(cfg, Hostile, w, Disowned(cfg, w, s))
    ensures !Owned(cfg, Disowned(cfg, w, s).secrets[s.name])
  {
    var w' := Disowned(cfg, w, s);
    assert !Owned(cfg, w'.secrets[s.name]);
    assert Since(w, w');
  }

  /** A delete that also carries the version, as the TTL delete does, can only
      hit what was judged, whatever others do. */
  lemma VersionedDeleteIsFair(cfg: Settings, rule: Rule, w: World, w': World, s: Secret)
    requires ValidWorld(w) && Stored(w, s) && Permits(cfg, rule, w, w')
    requires s.name in w'.secrets && w'.secrets[s.name].rv == s.rv
    ensures w'.secrets[s.name] == s
  {
  }

  /** If a delete of `s`, with or without its version, goes through in this state,
      what it removes is fair. */
  ghost predicate FairIfTaken(cfg: Settings, w: World, s: Secret, versioned: bool) {
    s.name in w.secrets && (versioned ==> w.secrets[s.name].rv == s.rv) ==> HitsFairly(cfg, w, s)
  }

  /** What a caller can do about it: whatever others may do before it arrives, a
      delete is certain to remove an unpinned registration of the key, or nothing,
      exactly when it carries the version or others keep their hands off. */
  lemma DeleteIsFairExactlyWhenTied(cfg: Settings, rule: Rule, w: World, s: Secret, versioned: bool)
    requires cfg.Usable() && ValidWorld(w) && Stored(w, s)
    requires Owned(cfg, s) && Source(cfg, s) != "" && !Pinned(cfg, s)
    ensures versioned || Stable(rule) <==> forall w' :: Permits(cfg, rule, w, w') ==> FairIfTaken(cfg, w', s, versioned)
  {
    UidDeleteIsFairExactlyWhenStable(cfg, rule, w, s);
    if versioned {
      forall w' | Permits(cfg, rule, w, w') ensures FairIfTaken(cfg, w', s, true) {
        if s.name in w'.secrets && w'.secrets[s.name].rv == s.rv { VersionedDeleteIsFair(cfg, rule, w, w', s); }
      }
    } else if !Stable(rule) {
      var w' :| Permits(cfg, rule, w, w') && !HitsFairly(cfg, w', s);
      assert !FairIfTaken(cfg, w', s, false);
    }
  }

  // -------------------------------------------------------------- predecessors

  /** A registration of an earlier namespace of this name: it records a UID, and another
      than that of the namespace that is there now; and it is not opted out. */
  ghost predicate OfEarlier(cfg: Settings, w: World, k: string, n: string) {
    && k in w.namespaces && w.namespaces[k].uid != "" && n in w.secrets
    && Get(w.secrets[n].labels, cfg.keys.managedBy) == cfg.owner && Get(w.secrets[n].labels, cfg.keys.source) == k
    && Get(w.secrets[n].labels, cfg.keys.sourceUid) !in {"", w.namespaces[k].uid}
    && Get(w.secrets[n].labels, cfg.keys.prune) != "disabled"
  }

  /** Every undisturbed pass over a live namespace of ours removes them, whatever it
      then finds or registers. */
  lemma EarlierIsRemoved(cfg: Settings, w: World, w': World, k: string, ending: Ending, n: string)
    requires cfg.Usable() && !cfg.dryRun && ValidWorld(w) && Passed(cfg, w, w', k, ending) && OfEarlier(cfg, w, k, n)
    requires Get(w.namespaces[k].labels, cfg.keys.managedBy) == cfg.owner && !w.namespaces[k].terminating
    ensures n in w'.secrets ==> w'.secrets[n].uid != w.secrets[n].uid
  {
    EarlierIsCleared(cfg, w, k, n);
    SurveyAddsOnlyNew(cfg, w, w', k, ending, n);
  }

  lemma EarlierIsCleared(cfg: Settings, w: World, k: string, n: string)
    requires !cfg.dryRun && OfEarlier(cfg, w, k, n)
    ensures n !in Cleared(cfg, w, k, w.namespaces[k].uid).secrets
  {
  }

  lemma SurveyAddsOnlyNew(cfg: Settings, w: World, w': World, k: string, ending: Ending, n: string)
    requires !cfg.dryRun && ValidWorld(w) && k in w.namespaces && Surveyed(cfg, w, w', k, ending)
    requires n !in Cleared(cfg, w, k, w.namespaces[k].uid).secrets
    ensures n in w'.secrets ==> w'.secrets[n].uid >= w.nextUid
  {
    var mid := Cleared(cfg, w, k, w.namespaces[k].uid);
    if c :| Finds(cfg, w, k, c) && Claimed(cfg, mid, w', c, ending) {
      ClaimAddsOnlyNew(cfg, mid, w', c, ending, n);
    }
  }

  /** A name that is free before a claim is free after it, or holds a new object. */
  lemma ClaimAddsOnlyNew(cfg: Settings, w: World, w': World, c: Child, ending: Ending, n: string)
    requires !cfg.dryRun && Claimed(cfg, w, w', c, ending) && n !in w.secrets && NamedRight(w)
    ensures n in w'.secrets ==> w'.secrets[n].uid >= w.nextUid
  {
    if !Decide(cfg, w, c).Refuse? {
      var mid := AfterApply(cfg, w, c);
      ApplyFrame(cfg, w, c);
      if n != SecretName(c.cluster) { assert Same(w, mid, n); }
      if n !in mid.secrets {
        CollectedAddsNothing(cfg, mid, w', c.namespace, SecretName(c.cluster), true, n);
      } else {
        assert Same(mid, w', n);
      }
    }
  }

  // ------------------------------------------------------------ demotion clock

  /** With hands off, every delete of a run removes a Secret of a namespace that
      is gone, or of a predecessor, or one that was already there when the run
      began; or else it removes, as exactly the version that was written, what
      this run demoted more than the TTL less one second before the time the
      deleting pass read. */
  lemma DemotionClock(cfg: Settings, baseline: set<Secret>, log: seq<Write>, j: nat)
      returns (i: nat, demotedAt: int, now: int)
    requires cfg.Usable() && StampRoundTrips(cfg.lib)
    requires AllJustified(cfg, log) && Traced(cfg, baseline, log)
    requires j < |log| && log[j].op.Deleted?
    ensures || Gone(log[j].seen, log[j].key)
            || OfPredecessor(cfg, log[j])
            || log[j].op.secret in baseline
            || (&& i < j && DemotedBy(cfg, log[i], log[j].op.secret, demotedAt)
                && SawTime(demotedAt) in log[i].seen && SawTime(now) in log[j].seen
                && cfg.demotedTtl > 0 && now - demotedAt > cfg.demotedTtl - SECOND)
  {
    i, demotedAt, now := 0, 0, 0;
    var removed, seen := log[j].op.secret, log[j].seen;
    var judged := JudgedOf(cfg, log[j]);
    if !Gone(seen, log[j].key) && !OfPredecessor(cfg, log[j]) && removed !in baseline {
      now :| SawTime(now) in seen && OutlivedAt(cfg, judged, now);
      assert TracedAt(cfg, baseline, log, j);
      i, demotedAt :| 0 <= i < j && DemotedBy(cfg, log[i], removed, demotedAt);
      OutlivedMeansElapsed(cfg, log[i], removed, demotedAt, now);
    }
  }

  /** An unpinned, demoted registration of this namespace, other than this one. */
  ghost predicate DemotedOther(cfg: Settings, w: World, k: string, n: string, applied: string) {
    && n in w.secrets && n != applied
    && Get(w.secrets[n].labels, cfg.keys.managedBy) == cfg.owner && Get(w.secrets[n].labels, cfg.keys.source) == k
    && Get(w.secrets[n].labels, cfg.keys.orphaned) != "" && !Pinned(cfg, w.secrets[n])
  }

  /** And it does expire: what was demoted longer ago than the TTL is gone after the
      first undisturbed pass in which its namespace registers something else. */
  lemma OverdueIsRemoved(cfg: Settings, w: World, w': World, k: string, ending: Ending, n: string, demotedAt: int)
    requires cfg.Usable() && !cfg.dryRun && ValidWorld(w)
    requires Passed(cfg, w, w', k, ending) && ending.RegisteredAs? && DemotedOther(cfg, w, k, n, ending.name)
    requires StampedAt(cfg, w.secrets[n], demotedAt)
    requires cfg.demotedTtl > 0 && w.clock - demotedAt > cfg.demotedTtl
    ensures n !in w'.secrets
  {
    var c := RegisteringPass(cfg, w, w', k, ending);
    AgedExactly(cfg, w.secrets[n], demotedAt, w.clock);
    OverdueGoes(cfg, Cleared(cfg, w, k, w.namespaces[k].uid), w', c, n, w.secrets[n]);
  }

  lemma OverdueGoes(cfg: Settings, w: World, w': World, c: Child, n: string, s: Secret)
    requires !cfg.dryRun && NamedRight(w) && !Decide(cfg, w, c).Refuse? && n != SecretName(c.cluster)
    requires Collected(cfg, AfterApply(cfg, w, c), w', c.namespace, SecretName(c.cluster), true)
    requires n in w.secrets ==> w.secrets[n] == s && RecordedAt(cfg, w, c.namespace, n) && Overdue(cfg, s, w.clock)
    ensures n !in w'.secrets
  {
    var mid := AfterApply(cfg, w, c);
    ApplyFrame(cfg, w, c);
    assert Same(w, mid, n);
    if n !in w.secrets { CollectedAddsNothing(cfg, mid, w', c.namespace, SecretName(c.cluster), true, n); }
  }

  /** Until then it is kept, whatever the passes over its namespace register: a demoted
      registration of the namespace as it now is outlasts an undisturbed pass that
      ends before its TTL does, counted from the second of its demotion. */
  lemma YoungIsKept(cfg: Settings, w: World, w': World, k: string, ending: Ending, n: string, demotedAt: int)
    requires cfg.Usable() && !cfg.dryRun && ValidWorld(w) && k in w.namespaces && Passed(cfg, w, w', k, ending)
    requires DemotedOther(cfg, w, k, n, "") && RecordedUid(cfg, w.secrets[n]) in {"", w.namespaces[k].uid}
    requires StampedAt(cfg, w.secrets[n], demotedAt)
    requires cfg.demotedTtl == 0 || w'.clock - demotedAt / SECOND * SECOND <= cfg.demotedTtl
    ensures n in w'.secrets
  {
    if Standing(cfg, w, k) {
      var mid := Cleared(cfg, w, k, w.namespaces[k].uid);
      assert Same(w, mid, n);
      AgedExactly(cfg, w.secrets[n], demotedAt, w'.clock);
      if c :| Finds(cfg, w, k, c) && Claimed(cfg, mid, w', c, ending) {
        FoundChild(cfg, w, k, c);
        YoungStays(cfg, mid, w', c, ending, n);
      }
    }
  }

  lemma YoungStays(cfg: Settings, w: World, w': World, c: Child, ending: Ending, n: string)
    requires !cfg.dryRun && NamedRight(w) && Claimed(cfg, w, w', c, ending)
    requires n in w.secrets && !Overdue(cfg, w.secrets[n], w'.clock)
    ensures n in w'.secrets
  {
    if !Decide(cfg, w, c).Refuse? {
      var mid, name := AfterApply(cfg, w, c), SecretName(c.cluster);
      ApplyFrame(cfg, w, c);
      if n != name { assert Same(w, mid, n); }
      assert if RecordedAt(cfg, mid, c.namespace, n) && n != name then Tidy(cfg, mid, w', n, true)
             else Same(mid, w', n);
    }
  }

  /** So what a run demoted goes in time: the first undisturbed pass that registers
      something else for its namespace, once the TTL has passed, removes it. */
  lemma DemotedExpires(cfg: Settings, write: Write, w: World, w': World, k: string, ending: Ending, n: string,
                       demotedAt: int)
    requires cfg.Usable() && !cfg.dryRun && ValidWorld(w) && StampRoundTrips(cfg.lib)
    requires Passed(cfg, w, w', k, ending) && ending.RegisteredAs? && DemotedOther(cfg, w, k, n, ending.name)
    requires DemotedBy(cfg, write, w.secrets[n], demotedAt)
    requires cfg.demotedTtl > 0 && w.clock - demotedAt > cfg.demotedTtl
    ensures n !in w'.secrets
  {
    DemotionStamps(cfg, write, w.secrets[n], demotedAt);
    OverdueIsRemoved(cfg, w, w', k, ending, n, demotedAt);
  }

  /** A Secret whose stamp is missing or unreadable is never deleted for its age,
      by any run. */
  lemma UnstampedNeverAges(cfg: Settings, log: seq<Write>, j: nat)
    requires AllJustified(cfg, log) && j < |log| && log[j].op.Deleted?
    requires var stamp := Get(log[j].op.secret.labels, cfg.keys.staleSince); stamp == "" || cfg.lib.unstamp(stamp).None?
    ensures Gone(log[j].seen, log[j].key) || OfPredecessor(cfg, log[j])
  {
    var judged := JudgedOf(cfg, log[j]);
  }

  /** No pass moves the stamp of a Secret that is already marked: the only write
      it can receive restores it, which erases marker and stamp. */
  lemma MarkedIsOnlyRestored(cfg: Settings, write: Write)
    requires cfg.Usable() && Justified(cfg, write) && write.op.Updated? && Marked(cfg, write.op.before)
    ensures var after := write.op.after;
            Visible(cfg, after) && !Marked(cfg, after) && cfg.keys.staleSince !in after.labels
  {
    RefreshedReads(cfg, write.key, write.seen, write.op.before, write.op.after);
  }

  // ---------------------------------------------------------------- incumbency

  /** The writes the log holds for one object, as far as they say who owns it. */
  ghost predicate Moves(cfg: Settings, write: Write, from: string, to: string) {
    write.op.Updated? && Source(cfg, write.op.before) == from && Source(cfg, write.op.after) == to
  }

  /** Incumbency over a run: no update moves a Secret between two namespaces, none
      touches a Secret that is not ours, and none leaves it less ours. */
  lemma IncumbentsAreKept(cfg: Settings, log: seq<Write>, j: nat)
    requires cfg.Usable() && AllJustified(cfg, log) && j < |log| && log[j].op.Updated?
    ensures Owned(cfg, log[j].op.before) && Owned(cfg, log[j].op.after)
    ensures forall from, to :: Moves(cfg, log[j], from, to) ==> to == log[j].key && from in {"", to}
    ensures Source(cfg, log[j].op.before) == "" ==> ClusterOf(cfg, log[j].op.after) == ClusterOf(cfg, log[j].op.before)
  {
    assert Justified(cfg, log[j]);
    UpdatedReads(cfg, log[j].key, log[j].seen, log[j].op.before, log[j].op.after);
  }
}
