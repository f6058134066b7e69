/** How one claim of a name and an address ends, and what it leaves. */
module Claiming {
  import opened Results
  import opened Text
  import opened Objects
  import opened Merge
  import opened Api
  import opened Evidence
  import opened Decision

  /** How a claim ended: made (or rehearsed), refused for a reason, or broken
      off by a failed call. */
  datatype Outcome = Done | Refused(reason: Reason) | Broke

  ghost predicate AllYield(cfg: Settings, seen: set<Observation>, key: string, server: string, items: seq<Secret>) {
    forall s :: s in items ==> Yields(cfg, seen, key, server, s)
  }

  ghost predicate NoneBlocks(cfg: Settings, w: World, c: Child, items: seq<Secret>) {
    forall s :: s in items ==> !Blocks(cfg, w, c.namespace, c.server, s)
  }

  ghost predicate SomeBlocks(cfg: Settings, w: World, c: Child, items: seq<Secret>) {
    exists s :: s in items && Blocks(cfg, w, c.namespace, c.server, s)
  }

  lemma TakenAsListed(cfg: Settings, listed: World, w: World, items: seq<Secret>, c: Child, clear: bool)
    requires ValidWorld(listed) && Lists(listed, ArgoSelector(cfg), items) && TimeOnly(listed, w)
    requires if clear then NoneBlocks(cfg, listed, c, items) else SomeBlocks(cfg, listed, c, items)
    ensures AddressTaken(cfg, w, c) <==> !clear
  {
    if clear {
      NoneBlock(cfg, listed, items, c);
    } else {
      var s :| s in items && Blocks(cfg, listed, c.namespace, c.server, s);
      assert s.name in listed.secrets && listed.secrets[s.name] == s;
    }
    TakenIgnoresClock(cfg, listed, w, c);
  }

  lemma BlocksIgnoresClock(cfg: Settings, w: World, later: World, c: Child, s: Secret)
    requires TimeOnly(w, later)
    ensures Blocks(cfg, w, c.namespace, c.server, s) <==> Blocks(cfg, later, c.namespace, c.server, s)
  {
  }

  lemma YieldsGrow(cfg: Settings, seen: set<Observation>, seen': set<Observation>, key: string, server: string,
                   items: seq<Secret>)
    requires seen <= seen' && AllYield(cfg, seen, key, server, items)
    ensures AllYield(cfg, seen', key, server, items)
  {
  }

  lemma TakenIgnoresClock(cfg: Settings, w: World, w': World, c: Child)
    requires TimeOnly(w, w')
    ensures AddressTaken(cfg, w', c) == AddressTaken(cfg, w, c)
  {
  }

  lemma NoneBlock(cfg: Settings, w: World, items: seq<Secret>, c: Child)
    requires ValidWorld(w) && Lists(w, ArgoSelector(cfg), items)
    requires NoneBlocks(cfg, w, c, items)
    ensures !AddressTaken(cfg, w, c)
  {
  }

  lemma NameClearGrows(cfg: Settings, seen: set<Observation>, seen': set<Observation>, key: string, cluster: string)
    requires seen <= seen' && NameClear(cfg, seen, key, cluster)
    ensures NameClear(cfg, seen', key, cluster)
  {
  }

  lemma DraftReads(cfg: Settings, c: Child)
    requires cfg.Usable() && ChildOk(cfg, c)
    ensures var s := Draft(cfg, c);
            ReadsAs(cfg, s, c) && Server(s) == c.server
  {
    ComputedLabelsSurvive(cfg, c);
    DraftIsUnchanged(cfg, c);
    UnchangedMirrors(cfg, Draft(cfg, c), c);
  }

  lemma DraftIsUnchanged(cfg: Settings, c: Child)
    requires cfg.Usable() && ChildOk(cfg, c)
    ensures !IsChanged(cfg, Draft(cfg, c), c)
  {
  }

  lemma MadeReads(cfg: Settings, c: Child, uid: nat, rv: nat)
    requires cfg.Usable() && ChildOk(cfg, c)
    ensures ReadsAs(cfg, Draft(cfg, c).(uid := uid, rv := rv), c)
  {
    DraftReads(cfg, c);
    SameLabelsRead(cfg, Draft(cfg, c), Draft(cfg, c).(uid := uid, rv := rv));
    MirrorsAnyVersion(cfg, Draft(cfg, c), Draft(cfg, c).(uid := uid, rv := rv), c);
  }

  /** What creating a child's Secret comes to. */
  lemma CreatedIs(cfg: Settings, w: World, c: Child)
    requires cfg.Usable() && ChildOk(cfg, c) && Decide(cfg, w, c) == WouldCreate
    ensures var s := Draft(cfg, c).(uid := w.nextUid, rv := w.nextRv);
            var w' := AfterApply(cfg, w, c);
            && w'.secrets == w.secrets[SecretName(c.cluster) := s] && w'.namespaces == w.namespaces
            && ReadsAs(cfg, s, c) && Server(s) == c.server && s.name == SecretName(c.cluster)
  {
    DraftReads(cfg, c);
    MadeReads(cfg, c, w.nextUid, w.nextRv);
  }

  ghost function AfterCreate(cfg: Settings, w: World, c: Child): World {
    Perform(w, Created(Draft(cfg, c).(uid := w.nextUid, rv := w.nextRv)))
  }

  ghost function AfterUpdate(w: World, before: Secret, updated: Secret): World {
    Perform(w, Updated(before, updated.(rv := w.nextRv)))
  }

  /** Two states of a quiet store, an earlier and a later one: only time has passed. */
  ghost predicate TimeOnly(w: World, w': World) {
    w' == w.(clock := w'.clock) && w.clock <= w'.clock
  }

  lemma CreateOnLaterClock(cfg: Settings, w: World, mid: World, c: Child)
    requires TimeOnly(w, mid)
    ensures TimeOnly(AfterCreate(cfg, w, c), AfterCreate(cfg, mid, c))
  {
  }

  lemma PermitsOnlyAt(cfg: Settings, rule: Rule, w: World, w': World, name: string)
    requires Permits(cfg, rule, w, w')
    ensures rule == Quiet ==> OnlyAt(w, w', name) && TimeOnly(w, w')
  {
  }

  /** Where an update of a Secret read earlier leaves the store. */
  lemma UpdateLeaves(cfg: Settings, rule: Rule, w: World, mid: World, existing: Secret, updated: Secret)
    requires ValidWorld(w) && Permits(cfg, rule, w, mid) && updated.name == existing.name
    ensures var w' := Perform(mid, Updated(existing, updated.(rv := mid.nextRv)));
            && Stored(w', updated.(rv := mid.nextRv))
            && (rule == Quiet ==> OnlyAt(w, w', existing.name) && TimeOnly(AfterUpdate(w, existing, updated), w'))
  {
  }

  /** Justified whatever version the API server gives the result. */
  ghost predicate JustifiedVersions(cfg: Settings, key: string, seen: set<Observation>, before: Secret,
                                    updated: Secret) {
    forall rv: nat :: JustifiedUpdate(cfg, key, seen, before, updated.(rv := rv))
  }

  /** The snapshot after a call that took effect as `op` on `mid`. */
  ghost predicate Wrought(s: Snap, mid: World, op: Op, t: Snap) {
    && Issued(mid, op) && t.world == Perform(mid, op) && t.key == s.key
    && t.seen == s.seen + {Wrote(op)} && t.log == s.log + [Write(s.key, s.seen, op)]
  }

  /** What an update that takes effect comes to: it replaces what was read. */
  lemma UpdateTakes(cfg: Settings, rule: Rule, baseline: set<Secret>, s: Snap, mid: World, existing: Secret,
                    updated: Secret, t: Snap)
    requires Sound(cfg, rule, baseline, s) && !cfg.dryRun && Permits(cfg, rule, s.world, mid)
    requires Carried(s.world, existing) && updated.name == existing.name && updated.rv == existing.rv
    requires JustifiedVersions(cfg, s.key, s.seen, existing, updated)
    requires existing.name in mid.secrets && mid.secrets[existing.name].rv == existing.rv
    requires Wrought(s, mid, Updated(mid.secrets[existing.name], updated.(rv := mid.nextRv)), t)
    ensures Advance(cfg, rule, baseline, s, t) && mid.secrets[existing.name] == existing
    ensures Stored(t.world, updated.(rv := mid.nextRv))
    ensures rule == Quiet ==> OnlyAt(s.world, t.world, existing.name)
                              && TimeOnly(AfterUpdate(s.world, existing, updated), t.world)
  {
    var after := updated.(rv := mid.nextRv);
    CarriedStays(s.world, mid, existing);
    assert JustifiedUpdate(cfg, s.key, s.seen, existing, after);
    WriteAdvances(cfg, rule, baseline, s, mid, Updated(existing, after), t);
    UpdateLeaves(cfg, rule, s.world, mid, existing, updated);
  }

  /** The outcome, and the store afterwards, are what the verdict on `w` says. */
  ghost predicate Answers(cfg: Settings, w: World, w': World, c: Child, r: Outcome) {
    && (r.Refused? <==> Decide(cfg, w, c).Refuse?)
    && (r.Refused? ==> r.reason == Decide(cfg, w, c).reason)
    && !r.Broke?
    && TimeOnly(if cfg.dryRun then w else AfterApply(cfg, w, c), w')
  }

  /** A rehearsal and a real apply on the same undisturbed state end alike, a
      refusal with the same reason; and the rehearsal leaves the store as it was. */
  lemma RehearsalAgrees(cfg: Settings, w: World, dry: World, live: World, c: Child, rehearsed: Outcome, made: Outcome)
    requires !cfg.dryRun
    requires Answers(cfg.(dryRun := true), w, dry, c, rehearsed) && Answers(cfg, w, live, c, made)
    ensures rehearsed == made && TimeOnly(w, dry)
  {
    DecideIgnoresDryRun(cfg, w, c, true);
  }

  lemma AdoptionsIgnoreClock(cfg: Settings, w: World, read: World, c: Child)
    requires TimeOnly(w, read)
    ensures AdoptionsIn(cfg, w, c) == AdoptionsIn(cfg, read, c)
  {
  }

  lemma AnswersIgnoreClock(cfg: Settings, w: World, read: World, w': World, c: Child, r: Outcome)
    requires TimeOnly(w, read) && Answers(cfg, read, w', c, r)
    ensures Answers(cfg, w, w', c, r)
  {
    DecideIgnoresClock(cfg, w, read, c);
  }

  lemma AnswersUnwritten(cfg: Settings, w: World, w': World, c: Child, existing: Secret, r: Outcome)
    requires existing.name == SecretName(c.cluster) && Stored(w, existing) && TimeOnly(w, w')
    requires var refused := CheckOwnership(cfg, existing, c);
             r == if refused.Some? then Refused(refused.value)
                  else if !IsChanged(cfg, existing, c) then Done
                  else if TrimSlashes(Server(existing)) != c.server && AddressTaken(cfg, w, c)
                       then Refused(ServerCollision)
                  else Done
    requires r == Done ==> cfg.dryRun || !IsChanged(cfg, existing, c)
    ensures Answers(cfg, w, w', c, r)
  {
  }

  lemma AnswersUpdated(cfg: Settings, w: World, w1: World, w': World, c: Child, existing: Secret)
    requires existing.name == SecretName(c.cluster) && Stored(w, existing) && !cfg.dryRun
    requires CheckOwnership(cfg, existing, c) == None && IsChanged(cfg, existing, c)
    requires TrimSlashes(Server(existing)) != c.server ==> !AddressTaken(cfg, w, c)
    requires TimeOnly(w, w1) && TimeOnly(AfterUpdate(w1, existing, Merged(cfg, existing, c)), w')
    ensures Answers(cfg, w, w', c, Done)
  {
  }

  lemma RefreshJustified(cfg: Settings, key: string, seen: set<Observation>, existing: Secret, c: Child)
    requires Backed(cfg, seen, key, c) && existing.name == SecretName(c.cluster)
    requires CheckOwnership(cfg, existing, c) == None
    requires TrimSlashes(Server(existing)) != c.server ==> AddressClear(cfg, seen, key, c.server)
    ensures JustifiedVersions(cfg, key, seen, existing, Merged(cfg, existing, c))
  {
    forall rv: nat ensures JustifiedUpdate(cfg, key, seen, existing, Merged(cfg, existing, c).(rv := rv)) {
      assert RefreshBy(cfg, key, seen, existing, Merged(cfg, existing, c).(rv := rv), c);
    }
  }

  /** The computed state of the child's Secret is in the store. */
  ghost predicate HoldsIn(cfg: Settings, w: World, c: Child) {
    var name := SecretName(c.cluster);
    && name in w.secrets
    && ReadsAs(cfg, w.secrets[name], c)
  }

  /** It is the registration of the child's namespace, and says what the child says. */
  ghost predicate ReadsAs(cfg: Settings, s: Secret, c: Child) {
    && Owned(cfg, s) && Source(cfg, s) == c.namespace && RecordedUid(cfg, s) == c.namespaceUid
    && ClusterOf(cfg, s) == c.cluster && Visible(cfg, s) && !Marked(cfg, s) && Mirrors(cfg, s, c)
  }

  lemma HoldsBy(cfg: Settings, w: World, s: Secret, c: Child)
    requires Stored(w, s) && s.name == SecretName(c.cluster) && ReadsAs(cfg, s, c)
    ensures HoldsIn(cfg, w, c)
  {
  }

  lemma RegisteredBy(cfg: Settings, seen: set<Observation>, key: string, c: Child, s: Secret)
    requires Backed(cfg, seen, key, c) && Witnessed(seen, s) && s.name == SecretName(c.cluster)
    requires ReadsAs(cfg, s, c)
    ensures Registered(cfg, seen, key, SecretName(c.cluster))
  {
  }
}
