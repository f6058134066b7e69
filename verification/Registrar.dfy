/** The reconciler: one pass over everything keyed on one source namespace. */
module Registrar {
  import opened Results
  import opened Text
  import opened Audit
  import opened Objects
  import opened Merge
  import opened Contest
  import opened Selection
  import opened Api
  import opened Expiry
  import opened Evidence
  import opened Decision
  import opened Claiming
  import opened Collection
  import opened Passes

  class Registrar {
    const api: Cluster
    const cfg: Settings
    /** The Secrets as they were when the run began. */
    ghost const baseline: set<Secret>
    /** conflictsTotal, by reason. */
    var conflicts: multiset<Reason>
    /** adoptionsTotal. */
    var adoptions: nat
    /** The registrations gauge. */
    var gauges: map<Series, nat>
    var unrouted: nat

    /** The invariant of every run. */
    ghost predicate Inv()
      reads this, api
    {
      api.cfg == cfg && Sound(cfg, api.policy.rule, baseline, api.Snapshot())
    }

    /** Everything since `s` was an advance: reads, justified writes, and others. */
    ghost predicate AdvancedFrom(s: Snap)
      reads this, api
    {
      Advance(cfg, api.policy.rule, baseline, s, api.Snapshot())
    }

    /** Nobody interferes and no call fails. */
    ghost predicate Calm() {
      api.policy.Calm()
    }

    /** Labelled for us, and not being torn down. */
    predicate Ours(ns: Namespace) {
      Get(ns.labels, cfg.keys.managedBy) == cfg.owner && !ns.terminating
    }

    constructor (api: Cluster, cfg: Settings)
      requires api.cfg == cfg && cfg.Usable() && api.Valid() && api.log == []
      requires Stable(api.policy.rule) ==> NeverBoth(cfg, api.world)
      ensures this.api == api && this.cfg == cfg && Inv()
      ensures conflicts == multiset{} && adoptions == 0
    {
      this.api, this.cfg := api, cfg;
      conflicts, adoptions, gauges, unrouted := multiset{}, 0, map[], 0;
      baseline := set n | n in api.world.secrets :: api.world.secrets[n];
    }

    /** Chain a read that has just been made onto what came before. */
    ghost method Chain(s0: Snap, s: Snap)
      requires Sound(cfg, api.policy.rule, baseline, s0)
      requires s == s0 || Advance(cfg, api.policy.rule, baseline, s0, s)
      requires api.key == s.key && s.seen <= api.seen && api.log == s.log
      requires Permits(cfg, api.policy.rule, s.world, api.world)
      ensures AdvancedFrom(s0) && AdvancedFrom(s)
    {
      ReadAdvances(cfg, api.policy.rule, baseline, s, api.Snapshot());
      if s != s0 {
        AdvanceTransitive(cfg, api.policy.rule, baseline, s0, s, api.Snapshot());
      }
    }

    // ------------------------------------------------------------------ claims

    method NamespaceExists(name: string) returns (b: bool)
      requires Inv()
      modifies api`world, api`seen
      ensures AdvancedFrom(old(api.Snapshot())) && api.log == old(api.log)
      ensures Permits(cfg, api.policy.rule, old(api.world), api.world)
      ensures !b ==> SawNamespace(name, None) in api.seen
      ensures Calm() ==> (b <==> name in api.world.namespaces)
    {
      ghost var s0 := api.Snapshot();
      var r := api.GetNamespace(name);
      Chain(s0, s0);
      b := !(r.Err? && r.error == NotFound);
    }

    method ClaimContestedName(c: Child) returns (r: Outcome)
      requires Inv() && c.namespace == api.key
      modifies api`world, api`seen
      ensures AdvancedFrom(old(api.Snapshot())) && api.log == old(api.log)
      ensures Permits(cfg, api.policy.rule, old(api.world), api.world)
      ensures r.Done? ==> NameClear(cfg, api.seen, api.key, c.cluster)
      ensures Calm() ==> !r.Broke? && (r.Refused? <==> NameTaken(cfg, api.world, c))
      ensures Calm() && LiveClaimant(cfg, api.world, c.cluster, c.namespace) ==>
        (r.Refused? <==> EarlierClaimant(cfg, api.world, c.cluster, c.namespace))
      ensures r.Refused? ==> r.reason == ContestedName
    {
      ghost var s0 := api.Snapshot();
      var namespaces := api.ListNamespaces(ClaimSelector(cfg, c.cluster));
      Chain(s0, s0);
      if namespaces.Err? {
        return Broke;
      }
      var items := namespaces.value;
      var winner := Winner(items);
      ListedClaim(cfg, api.world, items, c);
      if LiveClaimant(cfg, api.world, c.cluster, c.namespace) { TakenExactlyByEarlier(cfg, api.world, c); }
      if winner == "" || winner == c.namespace {
        return Done;
      }
      ghost var w :| IsEldest(items, w) && w.name == winner;
      if MayCreate(items, c.namespace) {
        ghost var y :| IsEldest(items, y) && y.name == c.namespace;
        EldestUnique(items, items, w, y);
      }
      return Refused(ContestedName);
    }

    method ClaimServer(c: Child) returns (r: Outcome)
      requires Inv() && c.namespace == api.key
      modifies api`world, api`seen
      ensures AdvancedFrom(old(api.Snapshot())) && api.log == old(api.log)
      ensures Permits(cfg, api.policy.rule, old(api.world), api.world)
      ensures r.Done? ==> AddressClear(cfg, api.seen, api.key, c.server)
      ensures Calm() ==> !r.Broke? && (r.Refused? <==> AddressTaken(cfg, api.world, c))
      ensures r.Refused? ==> r.reason == ServerCollision
    {
      ghost var s0 := api.Snapshot();
      var secrets := api.ListSecrets(ArgoSelector(cfg));
      Chain(s0, s0);
      if secrets.Err? {
        return Broke;
      }
      ghost var s1 := api.Snapshot();
      var clear := ExamineAll(secrets.value, c);
      AdvanceTransitive(cfg, api.policy.rule, baseline, s0, s1, api.Snapshot());
      PermitsTransitive(cfg, api.policy.rule, s0.world, s1.world, api.world);
      if Calm() { TakenAsListed(cfg, s1.world, api.world, secrets.value, c, clear); }
      return if clear then Done else Refused(ServerCollision);
    }

    /** Do all listed Secrets give way to the claim? */
    method ExamineAll(items: seq<Secret>, c: Child) returns (clear: bool)
      requires Inv() && c.namespace == api.key && Lists(api.world, ArgoSelector(cfg), items)
      modifies api`world, api`seen
      ensures AdvancedFrom(old(api.Snapshot())) && api.log == old(api.log)
      ensures Permits(cfg, api.policy.rule, old(api.world), api.world)
      ensures clear ==> AllYield(cfg, api.seen, api.key, c.server, items)
      ensures Calm() ==>
        if clear then NoneBlocks(cfg, old(api.world), c, items) else SomeBlocks(cfg, old(api.world), c, items)
    {
      ghost var listed := api.Snapshot();
      Unmoved();
      for i := 0 to |items|
        invariant AdvancedFrom(listed) && api.log == listed.log
        invariant AllYield(cfg, api.seen, api.key, c.server, items[..i])
        invariant Calm() ==> NoneBlocks(cfg, listed.world, c, items[..i])
      {
        assert items[i] in items && items[..i + 1] == items[..i] + [items[i]];
        var gives := ExamineNext(items[i], c, listed, items[..i]);
        if !gives {
          return false;
        }
      }
      assert items[..|items|] == items;
      return true;
    }

    /** One turn of the loop over the listed Secrets. */
    method ExamineNext(s: Secret, c: Child, ghost listed: Snap, ghost earlier: seq<Secret>) returns (gives: bool)
      requires Inv() && c.namespace == api.key && Matches(ArgoSelector(cfg), s.labels)
      requires Sound(cfg, api.policy.rule, baseline, listed) && AdvancedFrom(listed) && api.log == listed.log
      requires AllYield(cfg, api.seen, api.key, c.server, earlier)
      requires Calm() ==> NoneBlocks(cfg, listed.world, c, earlier)
      modifies api`world, api`seen
      ensures AdvancedFrom(listed) && api.log == listed.log
      ensures gives ==> AllYield(cfg, api.seen, api.key, c.server, earlier + [s])
      ensures Calm() && gives ==> NoneBlocks(cfg, listed.world, c, earlier + [s])
      ensures Calm() && !gives ==> Blocks(cfg, listed.world, c.namespace, c.server, s)
    {
      ghost var before := api.Snapshot();
      gives := Examine(s, c);
      AdvanceTransitive(cfg, api.policy.rule, baseline, listed, before, api.Snapshot());
      YieldsGrow(cfg, before.seen, api.seen, api.key, c.server, earlier);
      if Calm() { BlocksIgnoresClock(cfg, listed.world, before.world, c, s); }
    }

    /** One listed Secret: does it give way to the claim? */
    method Examine(s: Secret, c: Child) returns (clear: bool)
      requires Inv() && c.namespace == api.key && Matches(ArgoSelector(cfg), s.labels)
      modifies api`world, api`seen
      ensures AdvancedFrom(old(api.Snapshot())) && api.log == old(api.log)
      ensures Permits(cfg, api.policy.rule, old(api.world), api.world)
      ensures clear ==> Yields(cfg, api.seen, api.key, c.server, s)
      ensures Calm() ==> (clear <==> !Blocks(cfg, old(api.world), c.namespace, c.server, s))
    {
      var src := Source(cfg, s);
      if src != "" && src == c.namespace {
        Unmoved();
        return true;
      }
      if Marked(cfg, s) {
        Unmoved();
        return true;
      }
      if TrimSlashes(Server(s)) != c.server {
        Unmoved();
        return true;
      }
      var pinned := Pinned(cfg, s);
      if pinned || src == "" {
        Unmoved();
        return false;
      }
      var live := NamespaceExists(src);
      return !live;
    }

    // ------------------------------------------------------------------- apply

    method Apply(c: Child) returns (r: Outcome)
      requires Inv() && Backed(cfg, api.seen, api.key, c)
      modifies api`world, api`seen, api`log, `adoptions
      ensures AdvancedFrom(old(api.Snapshot()))
      ensures old(adoptions) <= adoptions <= old(adoptions) + 1
      ensures Calm() ==> adoptions == old(adoptions) + AdoptionsIn(cfg, old(api.world), c)
      ensures r.Done? && !cfg.dryRun ==>
        HoldsIn(cfg, api.world, c) && Registered(cfg, api.seen, api.key, SecretName(c.cluster))
      ensures Calm() ==> Answers(cfg, old(api.world), api.world, c, r)
    {
      ghost var s0 := api.Snapshot();
      var want := Draft(cfg, c);
      var got := api.GetSecret(want.name);
      Chain(s0, s0);
      BackedGrows(cfg, s0.seen, api.seen, api.key, c);
      ghost var read := api.Snapshot();
      match got {
        case Err(e) =>
          if e != NotFound {
            return Broke;
          }
          r := Claim(c);
        case Ok(existing) =>
          r := Refresh(c, existing);
      }
      AdvanceTransitive(cfg, api.policy.rule, baseline, s0, read, api.Snapshot());
      if Calm() {
        AnswersIgnoreClock(cfg, s0.world, read.world, api.world, c, r);
        AdoptionsIgnoreClock(cfg, s0.world, read.world, c);
      }
    }

    /** Nobody holds the name: settle the contest, then the address, then create. */
    method Claim(c: Child) returns (r: Outcome)
      requires Inv() && Backed(cfg, api.seen, api.key, c)
      requires SecretName(c.cluster) !in api.world.secrets
      modifies api`world, api`seen, api`log
      ensures AdvancedFrom(old(api.Snapshot()))
      ensures r.Done? && !cfg.dryRun ==>
        HoldsIn(cfg, api.world, c) && Registered(cfg, api.seen, api.key, SecretName(c.cluster))
      ensures Calm() ==> Answers(cfg, old(api.world), api.world, c, r)
    {
      ghost var start := api.Snapshot();
      r := ClaimContestedName(c);
      BackedGrows(cfg, start.seen, api.seen, api.key, c);
      if Calm() { DecideIgnoresClock(cfg, start.world, api.world, c); }
      if !r.Done? {
        return;
      }
      r := ClaimFreeName(c, start);
    }

    /** The name is the child's to take: settle the address, then create. */
    method ClaimFreeName(c: Child, ghost start: Snap) returns (r: Outcome)
      requires Inv() && Backed(cfg, api.seen, api.key, c) && NameClear(cfg, api.seen, api.key, c.cluster)
      requires Sound(cfg, api.policy.rule, baseline, start) && AdvancedFrom(start)
      requires SecretName(c.cluster) !in start.world.secrets
      requires Calm() ==> TimeOnly(start.world, api.world) && !NameTaken(cfg, start.world, c)
      modifies api`world, api`seen, api`log
      ensures AdvancedFrom(start)
      ensures r.Done? && !cfg.dryRun ==>
        HoldsIn(cfg, api.world, c) && Registered(cfg, api.seen, api.key, SecretName(c.cluster))
      ensures Calm() ==> Answers(cfg, start.world, api.world, c, r)
    {
      ghost var named := api.Snapshot();
      r := ClaimServer(c);
      ghost var clear := api.Snapshot();
      AdvanceTransitive(cfg, api.policy.rule, baseline, start, named, clear);
      BackedGrows(cfg, named.seen, clear.seen, api.key, c);
      if Calm() { DecideIgnoresClock(cfg, start.world, clear.world, c); }
      if !r.Done? || cfg.dryRun {
        return;
      }
      NameClearGrows(cfg, named.seen, clear.seen, api.key, c.cluster);
      r := Make(c);
      AdvanceTransitive(cfg, api.policy.rule, baseline, start, clear, api.Snapshot());
    }

    method Make(c: Child) returns (r: Outcome)
      requires Inv() && Backed(cfg, api.seen, api.key, c) && !cfg.dryRun
      requires NameClear(cfg, api.seen, api.key, c.cluster) && AddressClear(cfg, api.seen, api.key, c.server)
      modifies api`world, api`seen, api`log
      ensures AdvancedFrom(old(api.Snapshot()))
      ensures r.Done? ==> HoldsIn(cfg, api.world, c) && Registered(cfg, api.seen, api.key, SecretName(c.cluster))
      ensures r.Refused? ==> r.reason == CreateRace
      ensures Calm() && SecretName(c.cluster) !in old(api.world).secrets ==>
        r.Done? && TimeOnly(AfterCreate(cfg, old(api.world), c), api.world)
    {
      ghost var s3 := api.Snapshot();
      var made, mid, took := api.Create(Draft(cfg, c));
      ghost var s := Draft(cfg, c).(uid := mid.nextUid, rv := mid.nextRv);
      if took {
        assert CreateBy(cfg, s3.key, s3.seen, s, c);
        WriteAdvances(cfg, api.policy.rule, baseline, s3, mid, Created(s), api.Snapshot());
      } else {
        ReadAdvances(cfg, api.policy.rule, baseline, s3, api.Snapshot());
      }
      if made.Err? {
        if made.error == AlreadyExists {
          return Refused(CreateRace);
        }
        return Broke;
      }
      MadeReads(cfg, c, mid.nextUid, mid.nextRv);
      HoldsBy(cfg, api.world, s, c);
      BackedGrows(cfg, s3.seen, api.seen, api.key, c);
      RegisteredBy(cfg, api.seen, api.key, c, s);
      if Calm() { CreateOnLaterClock(cfg, s3.world, mid, c); }
      return Done;
    }

    /** Somebody holds the name: check ownership, then write only what changed. */
    method Refresh(c: Child, existing: Secret) returns (r: Outcome)
      requires Inv() && Backed(cfg, api.seen, api.key, c)
      requires existing.name == SecretName(c.cluster) && Stored(api.world, existing) && SawSecret(existing) in api.seen
      modifies api`world, api`seen, api`log, `adoptions
      ensures AdvancedFrom(old(api.Snapshot()))
      ensures adoptions == old(adoptions) + AdoptionsOf(cfg, existing, c)
      ensures r.Done? && !cfg.dryRun ==>
        HoldsIn(cfg, api.world, c) && Registered(cfg, api.seen, api.key, SecretName(c.cluster))
      ensures Calm() ==> Answers(cfg, old(api.world), api.world, c, r)
    {
      ghost var s1 := api.Snapshot();
      Unmoved();
      var refused := CheckOwnership(cfg, existing, c);
      if refused.Some? {
        if Calm() { AnswersUnwritten(cfg, s1.world, api.world, c, existing, Refused(refused.value)); }
        return Refused(refused.value);
      }
      adoptions := adoptions + AdoptionsOf(cfg, existing, c);
      var differs := Changed(cfg, existing, c);
      if !differs {
        if Calm() { AnswersUnwritten(cfg, s1.world, api.world, c, existing, Done); }
        UnchangedReads(cfg, existing, c);
        HoldsBy(cfg, api.world, existing, c);
        RegisteredBy(cfg, api.seen, api.key, c, existing);
        return Done;
      }
      r := Move(c, existing);
      if !r.Done? || cfg.dryRun {
        if Calm() { AnswersUnwritten(cfg, s1.world, api.world, c, existing, r); }
        return;
      }
      ghost var s2 := api.Snapshot();
      r := WriteRefresh(c, existing, s1.world);
      AdvanceTransitive(cfg, api.policy.rule, baseline, s1, s2, api.Snapshot());
      if Calm() { AnswersUpdated(cfg, s1.world, s2.world, api.world, c, existing); }
    }

    /** The address is claimed only when it actually moves. */
    method Move(c: Child, existing: Secret) returns (r: Outcome)
      requires Inv() && Backed(cfg, api.seen, api.key, c)
      modifies api`world, api`seen
      ensures AdvancedFrom(old(api.Snapshot())) && Permits(cfg, api.policy.rule, old(api.world), api.world)
      ensures Backed(cfg, api.seen, api.key, c) && api.log == old(api.log) && old(api.seen) <= api.seen
      ensures r.Done? && TrimSlashes(Server(existing)) != c.server ==> AddressClear(cfg, api.seen, api.key, c.server)
      ensures r.Refused? ==> r.reason == ServerCollision
      ensures Calm() ==> !r.Broke? && TimeOnly(old(api.world), api.world)
      ensures Calm() ==>
        (r.Refused? <==> TrimSlashes(Server(existing)) != c.server && AddressTaken(cfg, old(api.world), c))
    {
      ghost var s1 := api.Snapshot();
      var was := Server(existing);
      if TrimSlashes(was) == c.server {
        ReadAdvances(cfg, api.policy.rule, baseline, s1, s1);
        return Done;
      }
      r := ClaimServer(c);
      ghost var s2 := api.Snapshot();
      BackedGrows(cfg, s1.seen, s2.seen, api.key, c);
      if Calm() { TakenIgnoresClock(cfg, s1.world, s2.world, c); }
    }

    /** The read-modify-write of apply. */
    method WriteRefresh(c: Child, existing: Secret, ghost read: World) returns (r: Outcome)
      requires Inv() && Backed(cfg, api.seen, api.key, c) && !cfg.dryRun
      requires existing.name == SecretName(c.cluster) && Carried(read, existing) && Since(read, api.world)
      requires CheckOwnership(cfg, existing, c) == None
      requires TrimSlashes(Server(existing)) != c.server ==> AddressClear(cfg, api.seen, api.key, c.server)
      modifies api`world, api`seen, api`log
      ensures AdvancedFrom(old(api.Snapshot()))
      ensures r.Done? ==> HoldsIn(cfg, api.world, c) && Registered(cfg, api.seen, api.key, SecretName(c.cluster))
      ensures !r.Refused?
      ensures Calm() && Stored(old(api.world), existing) ==>
        r.Done? && TimeOnly(AfterUpdate(old(api.world), existing, Merged(cfg, existing, c)), api.world)
    {
      ghost var s1 := api.Snapshot();
      var data := existing.data + WantData(c);
      var labels := CopyAndSweep(existing.labels, WantLabels(cfg, c), cfg.keys);
      var annotations := CopyAndSweep(existing.annotations, c.annotations, cfg.keys);
      var updated := existing.(data := data, labels := labels, annotations := annotations);
      assert updated == Merged(cfg, existing, c);
      CarriedStays(read, s1.world, existing);
      RefreshJustified(cfg, s1.key, s1.seen, existing, c);
      var ok, after := Put(existing, updated);
      if !ok {
        return Broke;
      }
      RefreshByReads(cfg, existing, after, c);
      HoldsBy(cfg, api.world, after, c);
      BackedGrows(cfg, s1.seen, api.seen, api.key, c);
      RegisteredBy(cfg, api.seen, api.key, c, after);
      return Done;
    }

    /** Update a Secret that was read earlier in the pass: what is replaced is
        what was read, because the call carries the version read. */
    method Put(existing: Secret, updated: Secret) returns (ok: bool, ghost after: Secret)
      requires Inv() && !cfg.dryRun && Carried(api.world, existing)
      requires updated.name == existing.name && updated.uid == existing.uid && updated.rv == existing.rv
      requires JustifiedVersions(cfg, api.key, api.seen, existing, updated)
      modifies api`world, api`seen, api`log
      ensures AdvancedFrom(old(api.Snapshot()))
      ensures after == updated.(rv := after.rv)
      ensures ok ==> Stored(api.world, after) && Wrote(Updated(existing, after)) in api.seen
      ensures api.policy.rule == Quiet ==> OnlyAt(old(api.world), api.world, existing.name)
      ensures Calm() && Stored(old(api.world), existing) ==>
        ok && TimeOnly(AfterUpdate(old(api.world), existing, updated), api.world)
    {
      ghost var s1 := api.Snapshot();
      var made, mid, took := api.Update(updated);
      after := updated.(rv := mid.nextRv);
      if took {
        UpdateTakes(cfg, api.policy.rule, baseline, s1, mid, existing, updated, api.Snapshot());
      } else {
        ReadAdvances(cfg, api.policy.rule, baseline, s1, api.Snapshot());
        PermitsOnlyAt(cfg, api.policy.rule, s1.world, mid, existing.name);
      }
      ok := made.Ok?;
    }

    // -------------------------------------------------------------- collection

    /** Delete a Secret judged earlier in the pass. */
    method Remove(s: Secret, rv: Option<nat>) returns (r: Result<(), ApiError>)
      requires Inv() && !cfg.dryRun && api.key != "" && !Pinned(cfg, s)
      requires Tracked(cfg, api.policy.rule, api.key, api.world, s)
      requires rv.Some? ==> rv.value == s.rv
      requires JustifiedRemoval(cfg, api.key, api.seen, s, rv.Some?)
      modifies api`world, api`seen, api`log
      ensures AdvancedFrom(old(api.Snapshot()))
      ensures r.Ok? || r.error == NotFound ==> s.name !in api.world.secrets
      ensures r.Ok? || r.error in {NotFound, Conflict, Other}
      ensures api.policy.rule != Hostile ==> NoMint(cfg, old(api.world), api.world)
      ensures api.policy.rule == Quiet ==> OnlyAt(old(api.world), api.world, s.name)
      ensures api.policy.rule == Quiet && Stored(old(api.world), s) ==> r.Ok? || r.error == Other
      ensures Calm() && Stored(old(api.world), s) ==> r.Ok? && TimeOnly(Perform(old(api.world), Deleted(s)), api.world)
    {
      ghost var s1 := api.Snapshot();
      var reply, mid, took := api.Delete(s.name, s.uid, rv);
      r := reply;
      if took {
        RemovalTakes(cfg, api.policy.rule, baseline, s1, mid, s, api.Snapshot(), rv.Some?);
      } else {
        ReadAdvances(cfg, api.policy.rule, baseline, s1, api.Snapshot());
        PermitsOnlyAt(cfg, api.policy.rule, s1.world, mid, s.name);
        if api.policy.rule != Hostile { PermitsMintNothing(cfg, api.policy.rule, s1.world, mid); }
      }
    }

    /** deleteOrphan: preconditioned on the Secret's own UID. */
    method DeleteOrphan(s: Secret) returns (removed: bool, failed: bool)
      requires Inv() && api.key != "" && !Pinned(cfg, s)
      requires Tracked(cfg, api.policy.rule, api.key, api.world, s)
      requires !cfg.dryRun ==> JustifiedRemoval(cfg, api.key, api.seen, s, false)
      modifies api`world, api`seen, api`log
      ensures AdvancedFrom(old(api.Snapshot()))
      ensures removed ==> s.name !in api.world.secrets && !failed
      ensures api.policy.rule != Hostile ==> NoMint(cfg, old(api.world), api.world)
      ensures api.policy.rule == Quiet ==> OnlyAt(old(api.world), api.world, s.name)
      ensures api.policy.rule == Quiet && Stored(old(api.world), s) && !failed ==>
        if cfg.dryRun then Stored(api.world, s) && !removed else removed
      ensures Calm() && Stored(old(api.world), s) ==>
        !failed && TimeOnly(if cfg.dryRun then old(api.world) else Perform(old(api.world), Deleted(s)), api.world)
    {
      if cfg.dryRun {
        Unmoved();
        return false, false;
      }
      var r := Remove(s, None);
      match r {
        case Ok(_) => return true, false;
        case Err(NotFound) => return true, false;
        case Err(Conflict) => return false, false;
        case Err(_) => return false, true;
      }
    }

    /** deleteExpired: preconditioned on UID and version, so a restored Secret
        is never the one removed. */
    method DeleteExpired(s: Secret) returns (failed: bool)
      requires Inv() && api.key != "" && !Pinned(cfg, s)
      requires Tracked(cfg, api.policy.rule, api.key, api.world, s)
      requires !cfg.dryRun ==> JustifiedRemoval(cfg, api.key, api.seen, s, true)
      modifies api`world, api`seen, api`log
      ensures AdvancedFrom(old(api.Snapshot()))
      ensures api.policy.rule == Quiet ==> OnlyAt(old(api.world), api.world, s.name)
      ensures api.policy.rule == Quiet && Stored(old(api.world), s) && !failed && !cfg.dryRun ==>
        s.name !in api.world.secrets
      ensures Calm() && Stored(old(api.world), s) ==>
        !failed && TimeOnly(if cfg.dryRun then old(api.world) else Perform(old(api.world), Deleted(s)), api.world)
    {
      if cfg.dryRun {
        Unmoved();
        return false;
      }
      var r := Remove(s, Some(s.rv));
      match r {
        case Ok(_) => return false;
        case Err(NotFound) => return false;
        case Err(Conflict) => return false;
        case Err(_) => return true;
      }
    }

    method DemotedTTLExpired(s: Secret) returns (b: bool)
      requires Inv()
      modifies api`world, api`seen
      ensures AdvancedFrom(old(api.Snapshot())) && api.log == old(api.log)
      ensures Permits(cfg, api.policy.rule, old(api.world), api.world)
      ensures b <==> OutlivedAt(cfg, s, api.world.clock)
      ensures forall at :: StampedAt(cfg, s, at) ==>
        (b <==> cfg.demotedTtl > 0 && api.world.clock - at / SECOND * SECOND > cfg.demotedTtl)
      ensures b ==> SawTime(api.world.clock) in api.seen
    {
      if cfg.demotedTtl <= 0 {
        Unmoved();
        return false;
      }
      var stamp := Get(s.labels, cfg.keys.staleSince);
      if stamp == "" {
        Unmoved();
        return false;
      }
      var since := cfg.lib.unstamp(stamp);
      if since.None? {
        Unmoved();
        return false;
      }
      ghost var s1 := api.Snapshot();
      var now := api.Now();
      ReadAdvances(cfg, api.policy.rule, baseline, s1, api.Snapshot());
      b := now - since.value > cfg.demotedTtl;
      forall at | StampedAt(cfg, s, at) ensures b <==> now - at / SECOND * SECOND > cfg.demotedTtl {
        AgedExactly(cfg, s, at, now);
      }
    }

    method Demote(s: Secret, heir: string) returns (failed: bool)
      requires Inv() && Carried(api.world, s)
      requires Judged(cfg, api.seen, api.key, s) && !Marked(cfg, s)
      requires heir != s.name && (!cfg.dryRun ==> Registered(cfg, api.seen, api.key, heir))
      modifies api`world, api`seen, api`log
      ensures AdvancedFrom(old(api.Snapshot()))
      ensures api.policy.rule == Quiet ==> OnlyAt(old(api.world), api.world, s.name)
      ensures api.policy.rule == Quiet && !failed && !cfg.dryRun ==>
        s.name in api.world.secrets && !Visible(cfg, api.world.secrets[s.name])
      ensures Calm() && Stored(old(api.world), s) ==>
        !failed && (if cfg.dryRun then Same(old(api.world), api.world, s.name)
                    else s.name in api.world.secrets && DemotedFrom(cfg, s, api.world.secrets[s.name]))
    {
      ghost var s1 := api.Snapshot();
      if cfg.dryRun {
        Unmoved();
        return false;
      }
      var now := api.Now();
      ghost var s2 := api.Snapshot();
      ReadAdvances(cfg, api.policy.rule, baseline, s1, s2);
      PermitsOnlyAt(cfg, api.policy.rule, s1.world, s2.world, s.name);
      CarriedStays(s1.world, s2.world, s);
      RegisteredGrows(cfg, s1.seen, s2.seen, s2.key, heir);
      JudgedGrows(cfg, s1.seen, s2.seen, s2.key, s);
      var updated := Park(cfg, s, heir, cfg.lib.stamp(now));
      DemotionJustified(cfg, s2.key, s2.seen, s, now, heir);
      DemotedReads(cfg, s, heir, cfg.lib.stamp(now));
      var ok, after := Put(s, updated);
      AdvanceTransitive(cfg, api.policy.rule, baseline, s1, s2, api.Snapshot());
      SameLabelsRead(cfg, updated, after);
      if api.policy.rule == Quiet { OnlyAtTransitive(s1.world, s2.world, api.world, s.name); }
      failed := !ok;
    }

    /** An already demoted registration is kept until it outlives its TTL. */
    method Expire(s: Secret, applied: string) returns (dec: nat, failed: bool)
      requires Inv() && api.key != "" && Tracked(cfg, api.policy.rule, api.key, api.world, s)
      requires Judged(cfg, api.seen, api.key, s) && Marked(cfg, s) && s.name != applied
      requires !cfg.dryRun ==> Registered(cfg, api.seen, api.key, applied)
      modifies api`world, api`seen, api`log
      ensures AdvancedFrom(old(api.Snapshot()))
      ensures dec <= 1
      ensures api.policy.rule == Quiet ==> OnlyAt(old(api.world), api.world, s.name)
      ensures api.policy.rule == Quiet && Stored(old(api.world), s) && !failed && !cfg.dryRun ==>
        Dealt(cfg, old(api.world), api.world, s.name, true)
      ensures Calm() && Stored(old(api.world), s) ==> !failed && Tidy(cfg, old(api.world), api.world, s.name, true)
    {
      ghost var start := api.Snapshot();
      var expired := DemotedTTLExpired(s);
      PermitsOnlyAt(cfg, api.policy.rule, start.world, api.world, s.name);
      if !expired {
        return 0, false;
      }
      failed := TakeExpired(s, applied, start);
      return if failed then 0 else 1, failed;
    }

    /** Its TTL is over. */
    method TakeExpired(s: Secret, applied: string, ghost start: Snap) returns (failed: bool)
      requires Inv() && api.key != "" && Tracked(cfg, api.policy.rule, api.key, start.world, s)
      requires Sound(cfg, api.policy.rule, baseline, start) && AdvancedFrom(start)
      requires Permits(cfg, api.policy.rule, start.world, api.world)
      requires Judged(cfg, start.seen, api.key, s) && Marked(cfg, s) && s.name != applied
      requires OutlivedAt(cfg, s, api.world.clock) && SawTime(api.world.clock) in api.seen
      requires !cfg.dryRun ==> Registered(cfg, start.seen, api.key, applied)
      modifies api`world, api`seen, api`log
      ensures AdvancedFrom(start)
      ensures api.policy.rule == Quiet ==> OnlyAt(start.world, api.world, s.name)
      ensures api.policy.rule == Quiet && Stored(start.world, s) && !failed && !cfg.dryRun ==>
        s.name !in api.world.secrets && Overdue(cfg, s, api.world.clock)
      ensures Calm() && Stored(start.world, s) ==> !failed && (cfg.dryRun ==> Same(start.world, api.world, s.name))
    {
      ghost var read := api.Snapshot();
      PermitsOnlyAt(cfg, api.policy.rule, start.world, read.world, s.name);
      TrackedStays(cfg, api.policy.rule, start.key, start.world, read.world, s);
      if !cfg.dryRun {
        RegisteredGrows(cfg, start.seen, read.seen, start.key, applied);
        JudgedGrows(cfg, start.seen, read.seen, start.key, s);
        ExpiryJustified(cfg, start.key, read.seen, s);
      }
      failed := DeleteExpired(s);
      AdvanceTransitive(cfg, api.policy.rule, baseline, start, read, api.Snapshot());
      if api.policy.rule == Quiet { OnlyAtTransitive(start.world, read.world, api.world, s.name); }
    }

    /** One turn of collectOne's loop, for a Secret other than the applied one.
        `dec` is what the turn takes off the remaining count. */
    method CollectItem(s: Secret, nsName: string, exists_: bool, applied: string) returns (dec: nat, failed: bool)
      requires Inv() && api.key == nsName && nsName != "" && Tracked(cfg, api.policy.rule, nsName, api.world, s)
      requires InListing(api.seen, s) && Owned(cfg, s) && Source(cfg, s) == nsName && s.name != applied
      requires !exists_ ==> Gone(api.seen, nsName)
      requires exists_ && applied != "" && !cfg.dryRun ==> Registered(cfg, api.seen, nsName, applied)
      modifies api`world, api`seen, api`log
      ensures AdvancedFrom(old(api.Snapshot()))
      ensures exists_ && applied == "" ==> api.log == old(api.log)
      ensures dec <= 1
      ensures !exists_ && dec == 1 ==> s.name !in api.world.secrets
      ensures !exists_ && api.policy.rule != Hostile ==> NoMint(cfg, old(api.world), api.world)
      ensures api.policy.rule == Quiet ==> OnlyAt(old(api.world), api.world, s.name)
      ensures api.policy.rule == Quiet && Stored(old(api.world), s) && !failed && !exists_ && dec == 0 ==>
        Stored(api.world, s)
      ensures api.policy.rule == Quiet && Stored(old(api.world), s) && !failed && Decisive(cfg, exists_, applied) ==>
        Dealt(cfg, old(api.world), api.world, s.name, exists_)
      ensures Calm() && Stored(old(api.world), s) ==> !failed && Tidy(cfg, old(api.world), api.world, s.name, exists_)
    {
      if Pinned(cfg, s) {
        Unmoved();
        return 0, false;
      }
      assert Judged(cfg, api.seen, nsName, s);
      if !exists_ {
        OrphanJustified(cfg, nsName, api.seen, s);
        var removed, broke := DeleteOrphan(s);
        return if removed then 1 else 0, broke;
      }
      if applied == "" {
        Unmoved();
        return 0, false;
      }
      if Marked(cfg, s) {
        dec, failed := Expire(s, applied);
        return;
      }
      failed := Demote(s, applied);
      return 0, failed;
    }

    /** Collection of the registrations recorded against one namespace. */
    method CollectOne(nsName: string, exists_: bool, applied: string) returns (remaining: int, failed: bool)
      requires Inv() && api.key == nsName && nsName != ""
      requires !exists_ ==> Gone(api.seen, nsName) && applied == ""
      requires exists_ && applied != "" && !cfg.dryRun ==> Registered(cfg, api.seen, nsName, applied)
      modifies api`world, api`seen, api`log
      ensures AdvancedFrom(old(api.Snapshot()))
      ensures exists_ && applied == "" ==> api.log == old(api.log)
      ensures !exists_ && !failed && remaining == 0 && api.policy.rule != Hostile ==> NoneLeft(cfg, api.world, nsName)
      ensures !exists_ && !failed && api.policy.rule == Quiet ==> remaining == |Recorded(cfg, api.world, nsName)|
      ensures exists_ && applied != "" && !failed && api.policy.rule == Quiet ==>
        Same(old(api.world), api.world, applied)
      ensures !failed && api.policy.rule == Quiet && Decisive(cfg, exists_, applied) ==>
        OthersSettled(cfg, api.world, nsName, applied, exists_)
        && (exists_ ==> OverdueGone(cfg, old(api.world), api.world, nsName, applied))
      ensures Calm() ==> !failed && Collected(cfg, old(api.world), api.world, nsName, applied, exists_)
      ensures Calm() && !exists_ ==> (remaining == 0 <==> !LeftBehind(cfg, old(api.world), nsName))
    {
      ghost var s0 := api.Snapshot();
      var secrets := api.ListSecrets(SourceSelector(cfg, nsName));
      Chain(s0, s0);
      if secrets.Err? {
        return 0, true;
      }
      if exists_ && applied != "" && !cfg.dryRun { RegisteredGrows(cfg, s0.seen, api.seen, nsName, applied); }
      ghost var listed := api.Snapshot();
      remaining, failed := CollectListed(nsName, exists_, applied, secrets.value);
      AdvanceTransitive(cfg, api.policy.rule, baseline, s0, listed, api.Snapshot());
      if Calm() {
        CollectedIgnoresClock(cfg, s0.world, listed.world, api.world, nsName, applied, exists_);
        LeftIgnoresClock(cfg, s0.world, listed.world, nsName);
      }
      if api.policy.rule == Quiet && !failed && exists_ && Decisive(cfg, exists_, applied) {
        OverdueLater(cfg, s0.world, listed.world, api.world, nsName, applied);
      }
    }

    method CollectListed(nsName: string, exists_: bool, applied: string, items: seq<Secret>)
        returns (remaining: int, failed: bool)
      requires Inv() && api.key == nsName && nsName != ""
      requires Lists(api.world, SourceSelector(cfg, nsName), items)
      requires SawSecrets(SourceSelector(cfg, nsName), items) in api.seen
      requires !exists_ ==> Gone(api.seen, nsName) && applied == ""
      requires exists_ && applied != "" && !cfg.dryRun ==> Registered(cfg, api.seen, nsName, applied)
      modifies api`world, api`seen, api`log
      ensures AdvancedFrom(old(api.Snapshot()))
      ensures exists_ && applied == "" ==> api.log == old(api.log)
      ensures !exists_ && !failed && remaining == 0 && api.policy.rule != Hostile ==> NoneLeft(cfg, api.world, nsName)
      ensures !exists_ && !failed && api.policy.rule == Quiet ==> remaining == |Recorded(cfg, api.world, nsName)|
      ensures exists_ && applied != "" && !failed && api.policy.rule == Quiet ==>
        Same(old(api.world), api.world, applied)
      ensures !failed && api.policy.rule == Quiet && Decisive(cfg, exists_, applied) ==>
        OthersSettled(cfg, api.world, nsName, applied, exists_)
        && (exists_ ==> OverdueGone(cfg, old(api.world), api.world, nsName, applied))
      ensures Calm() ==> !failed && Collected(cfg, old(api.world), api.world, nsName, applied, exists_)
      ensures Calm() && !exists_ ==> (remaining == 0 <==> !LeftBehind(cfg, old(api.world), nsName))
    {
      ghost var listed := api.world;
      ghost var gone;
      remaining, failed, gone := CollectEach(nsName, exists_, applied, items);
      CollectionEnds(cfg, api.policy.rule, listed, api.world, nsName, exists_, applied, items, gone, failed);
      if Calm() { CalmlyCollected(cfg, listed, api.world, nsName, exists_, applied, items, gone, remaining); }
    }

    /** The loop itself; `gone` are the names it counted as removed. */
    method CollectEach(nsName: string, exists_: bool, applied: string, items: seq<Secret>)
        returns (remaining: int, failed: bool, ghost gone: set<string>)
      requires Inv() && api.key == nsName && nsName != ""
      requires Lists(api.world, SourceSelector(cfg, nsName), items)
      requires SawSecrets(SourceSelector(cfg, nsName), items) in api.seen
      requires !exists_ ==> Gone(api.seen, nsName) && applied == ""
      requires exists_ && applied != "" && !cfg.dryRun ==> Registered(cfg, api.seen, nsName, applied)
      modifies api`world, api`seen, api`log
      ensures AdvancedFrom(old(api.Snapshot()))
      ensures exists_ && applied == "" ==> api.log == old(api.log)
      ensures Progress(cfg, api.policy.rule, old(api.world), api.world, nsName, exists_, applied,
                       Names(items), gone, failed)
      ensures |gone| + remaining == |items|
      ensures Calm() ==> !failed && AllTidy(cfg, old(api.world), api.world, Names(items), exists_)
    {
      ghost var listed := api.Snapshot();
      Unmoved();
      remaining, failed, gone := |items|, false, {};
      for i := 0 to |items|
        invariant api.key == nsName && AdvancedFrom(listed)
        invariant Progress(cfg, api.policy.rule, listed.world, api.world, nsName, exists_, applied,
                           Names(items[..i]), gone, failed)
        invariant |gone| + remaining == |items|
        invariant exists_ && applied == "" ==> api.log == listed.log
        invariant Calm() ==> !failed && AllTidy(cfg, listed.world, api.world, Names(items[..i]), exists_)
      {
        var s := items[i];
        ListedAt(listed.world, SourceSelector(cfg, nsName), items, i);
        if s.name == applied {
          SkipKeeps(cfg, api.policy.rule, listed.world, api.world, nsName, exists_, applied, Names(items[..i]), gone,
                    failed);
          if Calm() { TidySkip(cfg, listed.world, api.world, Names(items[..i]), s, exists_); }
          continue;
        }
        SourceSelects(cfg, nsName, s);
        assert InListing(api.seen, s);
        var dec, broke := CollectTurn(s, nsName, exists_, applied, listed, Names(items[..i]), gone, failed);
        failed := failed || broke;
        remaining := remaining - dec;
        gone := CountedOff(gone, s, dec);
      }
      assert items[..|items|] == items;
    }

    /** One turn, and what it adds to what the loop has achieved. */
    method CollectTurn(s: Secret, nsName: string, exists_: bool, applied: string,
                       ghost listed: Snap, ghost done: set<string>, ghost gone: set<string>, ghost failed: bool)
        returns (dec: nat, broke: bool)
      requires Inv() && api.key == nsName && nsName != "" && Sound(cfg, api.policy.rule, baseline, listed)
      requires AdvancedFrom(listed)
      requires Stored(listed.world, s) && s.name !in done && s.name != applied
      requires InListing(api.seen, s) && Owned(cfg, s) && Source(cfg, s) == nsName
      requires !exists_ ==> Gone(listed.seen, nsName)
      requires exists_ && applied != "" && !cfg.dryRun ==> Registered(cfg, listed.seen, nsName, applied)
      requires Progress(cfg, api.policy.rule, listed.world, api.world, nsName, exists_, applied, done, gone, failed)
      modifies api`world, api`seen, api`log
      ensures AdvancedFrom(listed)
      ensures exists_ && applied == "" ==> api.log == old(api.log)
      ensures Progress(cfg, api.policy.rule, listed.world, api.world, nsName, exists_, applied,
                       done + {s.name}, CountedOff(gone, s, dec), failed || broke)
      ensures |CountedOff(gone, s, dec)| == |gone| + dec
      ensures Calm() && TidyUpTo(cfg, listed.world, old(api.world), done, s, exists_) ==>
        !broke && AllTidy(cfg, listed.world, api.world, done + {s.name}, exists_)
    {
      ghost var before := api.Snapshot();
      ListedIsTracked(cfg, api.policy.rule, nsName, listed.world, before.world, s);
      if exists_ && applied != "" && !cfg.dryRun { RegisteredGrows(cfg, listed.seen, api.seen, nsName, applied); }
      dec, broke := CollectItem(s, nsName, exists_, applied);
      AdvanceTransitive(cfg, api.policy.rule, baseline, listed, before, api.Snapshot());
      TurnKeeps(cfg, api.policy.rule, listed.world, before.world, api.world, nsName, exists_, applied,
                done, s, gone, failed, dec, broke);
      if Calm() && TidyUpTo(cfg, listed.world, before.world, done, s, exists_) {
        TidyTurn(cfg, listed.world, before.world, api.world, done, s, exists_);
      }
    }

    /** Removal of registrations whose source namespace was replaced by another
        of the same name. */
    method CollectStaleUID(nsName: string, uid: string, ghost ns: Namespace) returns (failed: bool)
      requires Inv() && api.key == nsName && Vouches(cfg, api.seen, nsName, ns) && uid == ns.uid
      modifies api`world, api`seen, api`log
      ensures AdvancedFrom(old(api.Snapshot()))
      ensures api.policy.rule == Quiet && !failed && !cfg.dryRun && uid != "" ==> NoneStale(cfg, api.world, nsName, uid)
      ensures Calm() ==> !failed && TimeOnly(Cleared(cfg, old(api.world), nsName, uid), api.world)
    {
      ghost var s0 := api.Snapshot();
      if uid == "" {
        Unmoved();
        ClearNothing(cfg, s0.world, nsName);
        return false;
      }
      var secrets := api.ListSecrets(SourceSelector(cfg, nsName));
      Chain(s0, s0);
      if secrets.Err? {
        return true;
      }
      ghost var listed := api.Snapshot();
      failed := CollectStaleListed(nsName, uid, ns, secrets.value);
      AdvanceTransitive(cfg, api.policy.rule, baseline, s0, listed, api.Snapshot());
      if Calm() { ClearedIgnoresClock(cfg, s0.world, listed.world, nsName, uid); }
    }

    method CollectStaleListed(nsName: string, uid: string, ghost ns: Namespace, items: seq<Secret>)
        returns (failed: bool)
      requires Inv() && api.key == nsName && Vouches(cfg, api.seen, nsName, ns) && uid == ns.uid && uid != ""
      requires Lists(api.world, SourceSelector(cfg, nsName), items)
      requires SawSecrets(SourceSelector(cfg, nsName), items) in api.seen
      modifies api`world, api`seen, api`log
      ensures AdvancedFrom(old(api.Snapshot()))
      ensures api.policy.rule == Quiet && !failed && !cfg.dryRun ==> NoneStale(cfg, api.world, nsName, uid)
      ensures Calm() ==> !failed && TimeOnly(Cleared(cfg, old(api.world), nsName, uid), api.world)
    {
      ghost var listed := api.Snapshot();
      Unmoved();
      ClearNothing(cfg, listed.world, nsName);
      failed := false;
      for i := 0 to |items|
        invariant api.key == nsName && AdvancedFrom(listed)
        invariant StaleProgress(cfg, api.policy, listed.world, api.world, nsName, uid, Names(items[..i]), failed)
      {
        ListedAt(listed.world, SourceSelector(cfg, nsName), items, i);
        SourceSelects(cfg, nsName, items[i]);
        assert InListing(api.seen, items[i]);
        var broke := StaleTurnOn(nsName, uid, ns, items[i], listed, Names(items[..i]), failed);
        failed := failed || broke;
      }
      assert items[..|items|] == items;
      StaleProgressEnds(cfg, api.policy, listed.world, api.world, nsName, uid, items, failed);
    }

    /** One turn of the stale collection. */
    method StaleTurnOn(nsName: string, uid: string, ghost ns: Namespace, s: Secret,
                       ghost listed: Snap, ghost done: set<string>, ghost failed: bool) returns (broke: bool)
      requires Inv() && api.key == nsName && Vouches(cfg, api.seen, nsName, ns) && uid == ns.uid && uid != ""
      requires Sound(cfg, api.policy.rule, baseline, listed) && AdvancedFrom(listed)
      requires Stored(listed.world, s) && s.name !in done && InListing(api.seen, s)
      requires Owned(cfg, s) && Source(cfg, s) == nsName
      requires StaleProgress(cfg, api.policy, listed.world, api.world, nsName, uid, done, failed)
      modifies api`world, api`seen, api`log
      ensures AdvancedFrom(listed)
      ensures StaleProgress(cfg, api.policy, listed.world, api.world, nsName, uid, done + {s.name}, failed || broke)
    {
      ghost var before := api.Snapshot();
      var recorded := RecordedUid(cfg, s);
      if recorded == "" || recorded == uid || Pinned(cfg, s) {
        StaleProgressTurn(cfg, api.policy, listed.world, before.world, api.world, nsName, uid, done, s, failed, false);
        return false;
      }
      ListedIsTracked(cfg, api.policy.rule, nsName, listed.world, before.world, s);
      assert Judged(cfg, api.seen, nsName, s) && Replaced(cfg, api.seen, nsName, s);
      OrphanJustified(cfg, nsName, api.seen, s);
      var removed;
      removed, broke := DeleteOrphan(s);
      AdvanceTransitive(cfg, api.policy.rule, baseline, listed, before, api.Snapshot());
      if api.policy.rule == Quiet { assert Same(listed.world, before.world, s.name); }
      StaleProgressTurn(cfg, api.policy, listed.world, before.world, api.world, nsName, uid, done, s, failed, broke);
    }

    // --------------------------------------------------------------- one pass

    method DiscoverOne(ns: Namespace) returns (r: Option<Child>)
      requires Inv() && Vouches(cfg, api.seen, api.key, ns)
      modifies api`world
      ensures AdvancedFrom(old(api.Snapshot())) && Permits(cfg, api.policy.rule, old(api.world), api.world)
      ensures r.Some? ==> Backed(cfg, api.seen, api.key, r.value) && r.value.namespaceUid == ns.uid
      ensures Calm() || r.Some? ==> Discovers(cfg, ns, SourcesOf(api.world, ns.name), r)
    {
      ghost var s0 := api.Snapshot();
      var secrets := api.ListSources(ns.name);
      Chain(s0, s0);
      if secrets.Err? {
        return None;
      }
      r := DiscoverFrom(cfg, ns, secrets.value);
      if r.Some? { DiscoveredChild(cfg, ns, secrets.value, r.value); }
    }

    /** One pass over everything keyed on one namespace. `finished` reports that
        the key is done: only a definite NotFound with nothing left to collect. */
    method ReconcileOne(nsName: string) returns (finished: bool, failed: bool, ghost ending: Ending)
      requires Inv() && nsName != ""
      modifies api, `conflicts, `adoptions
      ensures Inv() && old(api.log) <= api.log && api.key == nsName
      ensures Evolves(cfg, api.policy.rule, nsName, old(api.world), api.world)
      // Dry-run is inert: nothing is written and the store changes by others' hands only.
      ensures cfg.dryRun ==> api.log == old(api.log) && Permits(cfg, api.policy.rule, old(api.world), api.world)
      ensures (failed <==> ending == Failed) && (finished <==> ending == Retired)
      // A namespace that is not ours, or is going away, is left alone.
      ensures ending in {NotOurs, Terminating} ==> api.log == old(api.log)
      ensures Calm() && nsName in old(api.world).namespaces && !Ours(old(api.world).namespaces[nsName]) ==>
        api.log == old(api.log)
      ensures finished ==> Gone(api.seen, nsName)
      ensures finished && api.policy.rule != Hostile ==> NoneLeft(cfg, api.world, nsName)
      ensures conflicts == old(conflicts) + if ending.RefusedAs? then multiset{ending.reason} else multiset{}
      ensures old(adoptions) <= adoptions <= old(adoptions) + 1
      ensures Calm() ==> Passed(cfg, old(api.world), api.world, nsName, ending)
      ensures api.policy.rule == Quiet && !cfg.dryRun ==> Delivered(cfg, api.world, nsName, ending)
    {
      api.BeginPass(nsName);
      finished, failed, ending := Confirm(nsName);
    }

    /** The proof comes first: is the namespace there? */
    method Confirm(nsName: string) returns (finished: bool, failed: bool, ghost ending: Ending)
      requires Inv() && nsName != "" && api.key == nsName
      modifies api`world, api`seen, api`log, `conflicts, `adoptions
      ensures AdvancedFrom(old(api.Snapshot()))
      ensures ending in {NotOurs, Terminating} ==> api.log == old(api.log)
      ensures Calm() && nsName in old(api.world).namespaces && !Ours(old(api.world).namespaces[nsName]) ==>
        api.log == old(api.log)
      ensures (failed <==> ending == Failed) && (finished <==> ending == Retired)
      ensures finished ==> Gone(api.seen, nsName)
      ensures finished && api.policy.rule != Hostile ==> NoneLeft(cfg, api.world, nsName)
      ensures conflicts == old(conflicts) + Counting(ending)
      ensures old(adoptions) <= adoptions <= old(adoptions) + 1
      ensures Calm() ==> Passed(cfg, old(api.world), api.world, nsName, ending)
      ensures api.policy.rule == Quiet && !cfg.dryRun ==> Delivered(cfg, api.world, nsName, ending)
    {
      ghost var s0 := api.Snapshot();
      var got := api.GetNamespace(nsName);
      Chain(s0, s0);
      ghost var s1 := api.Snapshot();
      finished, failed, ending := Proceed(nsName, got);
      AdvanceTransitive(cfg, api.policy.rule, baseline, s0, s1, api.Snapshot());
      if Calm() { PassedFromEarlier(cfg, s0.world, s1.world, api.world, nsName, ending); }
    }

    /** What the pass does about the answer it got about the namespace. */
    method Proceed(nsName: string, got: Result<Namespace, ApiError>)
        returns (finished: bool, failed: bool, ghost ending: Ending)
      requires Inv() && api.key == nsName && nsName != ""
      requires match got
               case Ok(ns) => SawNamespace(nsName, Some(ns)) in api.seen
                              && nsName in api.world.namespaces && api.world.namespaces[nsName] == ns
               case Err(NotFound) => Gone(api.seen, nsName) && nsName !in api.world.namespaces
               case Err(_) => api.policy.faults
      modifies api`world, api`seen, api`log, `conflicts, `adoptions
      ensures AdvancedFrom(old(api.Snapshot()))
      ensures ending in {NotOurs, Terminating} ==> api.log == old(api.log)
      ensures got.Ok? && !Ours(got.value) ==> api.log == old(api.log)
      ensures (failed <==> ending == Failed) && (finished <==> ending == Retired)
      ensures finished ==> Gone(api.seen, nsName)
      ensures finished && api.policy.rule != Hostile ==> NoneLeft(cfg, api.world, nsName)
      ensures conflicts == old(conflicts) + Counting(ending)
      ensures old(adoptions) <= adoptions <= old(adoptions) + 1
      ensures Calm() ==> Passed(cfg, old(api.world), api.world, nsName, ending)
      ensures api.policy.rule == Quiet && !cfg.dryRun ==> Delivered(cfg, api.world, nsName, ending)
    {
      match got {
        case Err(NotFound) =>
          finished, failed, ending := ReconcileGone(nsName);
        case Err(_) =>
          Unmoved();
          return false, true, Failed;
        case Ok(ns) =>
          failed, ending := ReconcilePresent(nsName, ns);
          finished := false;
      }
    }

    /** The namespace is provably gone: the only path that may delete outright. */
    method ReconcileGone(nsName: string) returns (finished: bool, failed: bool, ghost ending: Ending)
      requires Inv() && api.key == nsName && nsName != "" && Gone(api.seen, nsName)
      requires nsName !in api.world.namespaces
      modifies api`world, api`seen, api`log
      ensures AdvancedFrom(old(api.Snapshot())) && Gone(api.seen, nsName)
      ensures (failed <==> ending == Failed) && (finished <==> ending == Retired)
      ensures ending in {Failed, Retired, Kept}
      ensures finished && api.policy.rule != Hostile ==> NoneLeft(cfg, api.world, nsName)
      ensures Calm() ==> Passed(cfg, old(api.world), api.world, nsName, ending)
      ensures api.policy.rule == Quiet && !cfg.dryRun ==> Delivered(cfg, api.world, nsName, ending)
    {
      var remaining, cErr := CollectOne(nsName, false, "");
      return remaining == 0 && !cErr, cErr, if cErr then Failed else if remaining == 0 then Retired else Kept;
    }

    /** The namespace exists: is it still ours, and is it staying? */
    method ReconcilePresent(nsName: string, ns: Namespace) returns (failed: bool, ghost ending: Ending)
      requires Inv() && api.key == nsName && nsName != "" && SawNamespace(nsName, Some(ns)) in api.seen
      requires nsName in api.world.namespaces && api.world.namespaces[nsName] == ns
      modifies api`world, api`seen, api`log, `conflicts, `adoptions
      ensures AdvancedFrom(old(api.Snapshot()))
      ensures ending in {NotOurs, Terminating} ==> api.log == old(api.log)
      ensures !Ours(ns) ==> api.log == old(api.log)
      ensures (failed <==> ending == Failed) && !ending.Retired?
      ensures conflicts == old(conflicts) + Counting(ending)
      ensures old(adoptions) <= adoptions <= old(adoptions) + 1
      ensures Calm() ==> Passed(cfg, old(api.world), api.world, nsName, ending)
      ensures api.policy.rule == Quiet && !cfg.dryRun ==> Delivered(cfg, api.world, nsName, ending)
    {
      if Get(ns.labels, cfg.keys.managedBy) != cfg.owner {
        Unmoved();
        return false, NotOurs;
      }
      if ns.terminating {
        var _, cErr := CollectOne(nsName, true, "");
        return cErr, if cErr then Failed else Terminating;
      }
      failed, ending := ReconcileLive(nsName, ns);
    }

    /** The namespace is live and ours: register what it holds. */
    method ReconcileLive(nsName: string, ns: Namespace) returns (failed: bool, ghost ending: Ending)
      requires Inv() && api.key == nsName && Vouches(cfg, api.seen, nsName, ns)
      requires nsName in api.world.namespaces && api.world.namespaces[nsName] == ns
      modifies api`world, api`seen, api`log, `conflicts, `adoptions
      ensures AdvancedFrom(old(api.Snapshot()))
      ensures (failed <==> ending == Failed) && ending !in {Retired, NotOurs, Terminating}
      ensures conflicts == old(conflicts) + Counting(ending)
      ensures old(adoptions) <= adoptions <= old(adoptions) + 1
      ensures Calm() ==> Surveyed(cfg, old(api.world), api.world, nsName, ending)
      ensures api.policy.rule == Quiet && !cfg.dryRun ==> Delivered(cfg, api.world, nsName, ending)
    {
      ghost var start := api.Snapshot();
      var broke, child := Survey(nsName, ns);
      if broke {
        return true, Failed;
      }
      if child.None? {
        if Calm() { SurveyEnds(cfg, start.world, api.world, api.world, nsName, child, Undiscovered); }
        if api.policy.rule == Quiet { assert nsName in api.world.namespaces && api.world.namespaces[nsName] == ns; }
        return false, Undiscovered;
      }
      failed, ending := RegisterFound(nsName, child.value, start);
    }

    /** Registration of what was discovered, in the state that clearing away left. */
    method RegisterFound(nsName: string, c: Child, ghost start: Snap) returns (failed: bool, ghost ending: Ending)
      requires Inv() && api.key == nsName != "" && Backed(cfg, api.seen, nsName, c)
      requires Sound(cfg, api.policy.rule, baseline, start) && AdvancedFrom(start)
      requires nsName in start.world.namespaces && c.namespaceUid == start.world.namespaces[nsName].uid
      requires api.policy.rule == Quiet ==> SourcesKept(start.world, api.world)
      requires api.policy.rule == Quiet ==>
        Discovers(cfg, start.world.namespaces[nsName], SourcesOf(start.world, nsName), Some(c))
      requires Calm() ==> TimeOnly(Cleared(cfg, start.world, nsName, c.namespaceUid), api.world)
      modifies api`world, api`seen, api`log, `conflicts, `adoptions
      ensures AdvancedFrom(start)
      ensures (failed <==> ending == Failed) && (ending.Failed? || ending.RefusedAs? || ending.RegisteredAs?)
      ensures conflicts == old(conflicts) + Counting(ending)
      ensures old(adoptions) <= adoptions <= old(adoptions) + 1
      ensures Calm() ==> Surveyed(cfg, start.world, api.world, nsName, ending)
      ensures api.policy.rule == Quiet && !cfg.dryRun ==> Delivered(cfg, api.world, nsName, ending)
    {
      ghost var before := api.Snapshot();
      failed, ending := Register(c);
      AdvanceTransitive(cfg, api.policy.rule, baseline, start, before, api.Snapshot());
      if Calm() { SurveyEnds(cfg, start.world, before.world, api.world, nsName, Some(c), ending); }
      if api.policy.rule == Quiet && !cfg.dryRun && ending.RegisteredAs? {
        RegisterDelivers(cfg, start.world, api.world, nsName, c);
      }
    }

    /** Before discovery, the registrations of a predecessor are cleared away. */
    method Survey(nsName: string, ns: Namespace) returns (failed: bool, child: Option<Child>)
      requires Inv() && api.key == nsName && Vouches(cfg, api.seen, nsName, ns)
      requires nsName in api.world.namespaces && api.world.namespaces[nsName] == ns
      modifies api`world, api`seen, api`log
      ensures AdvancedFrom(old(api.Snapshot()))
      ensures child.Some? ==> Backed(cfg, api.seen, api.key, child.value) && child.value.namespaceUid == ns.uid
      ensures api.policy.rule == Quiet ==> SourcesKept(old(api.world), api.world)
      ensures api.policy.rule == Quiet && !failed && !cfg.dryRun && ns.uid != "" ==>
        NoneStale(cfg, api.world, nsName, ns.uid)
      ensures Calm() ==> !failed
      ensures Calm() || (api.policy.rule == Quiet && child.Some?) ==>
        Discovers(cfg, ns, SourcesOf(old(api.world), nsName), child)
      ensures Calm() ==> TimeOnly(Cleared(cfg, old(api.world), nsName, ns.uid), api.world)
    {
      ghost var start := api.Snapshot();
      failed := CollectStaleUID(nsName, ns.uid, ns);
      if failed {
        return true, None;
      }
      child := DiscoverCleared(nsName, ns, start);
      if api.policy.rule == Quiet { assert SourcesOf(api.world, nsName) == SourcesOf(start.world, nsName); }
    }

    /** Discovery, in the state that clearing away left. */
    method DiscoverCleared(nsName: string, ns: Namespace, ghost start: Snap) returns (child: Option<Child>)
      requires Inv() && api.key == nsName && Vouches(cfg, api.seen, nsName, ns)
      requires Sound(cfg, api.policy.rule, baseline, start) && AdvancedFrom(start)
      requires api.policy.rule == Quiet && !cfg.dryRun && ns.uid != "" ==> NoneStale(cfg, api.world, nsName, ns.uid)
      requires Calm() ==> TimeOnly(Cleared(cfg, start.world, nsName, ns.uid), api.world)
      modifies api`world
      ensures AdvancedFrom(start)
      ensures child.Some? ==> Backed(cfg, api.seen, api.key, child.value) && child.value.namespaceUid == ns.uid
      ensures api.policy.rule == Quiet && !cfg.dryRun && ns.uid != "" ==> NoneStale(cfg, api.world, nsName, ns.uid)
      ensures Calm() || child.Some? ==> Discovers(cfg, ns, SourcesOf(api.world, nsName), child)
      ensures Calm() ==> TimeOnly(Cleared(cfg, start.world, nsName, ns.uid), api.world)
    {
      ghost var before := api.Snapshot();
      child := DiscoverOne(ns);
      AdvanceTransitive(cfg, api.policy.rule, baseline, start, before, api.Snapshot());
      if api.policy.rule == Quiet { StaleIgnoresClock(cfg, before.world, api.world, nsName, ns.uid); }
    }

    /** Write the child out; only a success vouches for anything. */
    method Register(c: Child) returns (failed: bool, ghost ending: Ending)
      requires Inv() && Backed(cfg, api.seen, api.key, c) && api.key != ""
      modifies api`world, api`seen, api`log, `conflicts, `adoptions
      ensures AdvancedFrom(old(api.Snapshot()))
      ensures failed <==> ending == Failed
      ensures ending.Failed? || ending.RefusedAs? || ending == RegisteredAs(SecretName(c.cluster))
      ensures Calm() ==> Claimed(cfg, old(api.world), api.world, c, ending)
      ensures conflicts == old(conflicts) + Counting(ending)
      ensures old(adoptions) <= adoptions <= old(adoptions) + 1
      ensures api.policy.rule == Quiet ==> SourcesKept(old(api.world), api.world)
      ensures api.policy.rule == Quiet && !cfg.dryRun && ending.RegisteredAs? ==>
        HoldsIn(cfg, api.world, c) && OthersSettled(cfg, api.world, c.namespace, ending.name, true)
    {
      ghost var s3 := api.Snapshot();
      var r := Apply(c);
      ghost var s4 := api.Snapshot();
      match r {
        case Refused(reason) =>
          conflicts := conflicts + multiset{reason};
          if Calm() { ClaimEnds(cfg, s3.world, s4.world, api.world, c, r, RefusedAs(reason)); }
          return false, RefusedAs(reason);
        case Broke =>
          return true, Failed;
        case Done =>
          var _, cErr := CollectOne(c.namespace, true, SecretName(c.cluster));
          AdvanceTransitive(cfg, api.policy.rule, baseline, s3, s4, api.Snapshot());
          if Calm() { ClaimEnds(cfg, s3.world, s4.world, api.world, c, r, RegisteredAs(SecretName(c.cluster))); }
          if !cErr && api.policy.rule == Quiet && !cfg.dryRun { HoldsStays(cfg, s4.world, api.world, c); }
          return cErr, if cErr then Failed else RegisteredAs(SecretName(c.cluster));
      }
    }

    // --------------------------------------------------------- audit and sweep

    /** Counts what is registered, by state and by the time its credential has
        left, and what can never be collected. */
    method AuditUnrouted() returns (failed: bool, ghost listed: World, ghost at: int)
      requires Inv()
      modifies api`world, api`seen, `gauges, `unrouted
      ensures AdvancedFrom(old(api.Snapshot())) && api.log == old(api.log)
      ensures Permits(cfg, api.policy.rule, old(api.world), api.world)
      ensures failed ==> gauges == old(gauges) && unrouted == old(unrouted) && api.policy.faults
      ensures !failed ==>
        Permits(cfg, api.policy.rule, old(api.world), listed) && Audited(cfg, listed, at, gauges, unrouted)
    {
      ghost var s0 := api.Snapshot();
      var secrets := api.ListSecrets(OwnedSelector(cfg));
      Chain(s0, s0);
      ghost var s1 := api.Snapshot();
      listed, at := api.world, 0;
      if secrets.Err? {
        return true, listed, at;
      }
      var now := api.Now();
      at := now;
      Chain(s0, s1);
      PermitsTransitive(cfg, api.policy.rule, s0.world, s1.world, api.world);
      ListedOnce(listed, OwnedSelector(cfg), secrets.value);
      var counts, lost := Tally(cfg, secrets.value, now);
      gauges := Publish(counts);
      unrouted := lost;
      AuditIsExact(cfg, listed, secrets.value, now, counts, gauges);
      return false, listed, at;
    }

    /** Every key worth visiting: the namespaces labelled for us and those
        recorded on a registration of ours. */
    method ReconcileKeys() returns (keys: Option<seq<string>>, ghost managed: World, ghost listed: World)
      requires Inv()
      modifies api`world, api`seen
      ensures AdvancedFrom(old(api.Snapshot())) && api.log == old(api.log)
      ensures Permits(cfg, api.policy.rule, old(api.world), api.world) && api.world == listed
      ensures Permits(cfg, api.policy.rule, old(api.world), managed) && Permits(cfg, api.policy.rule, managed, listed)
      ensures keys.None? ==> api.policy.faults
      ensures keys.Some? ==> KeysOf(cfg, managed, listed, keys.value) && "" !in keys.value
    {
      ghost var s0 := api.Snapshot();
      var namespaces := api.ListNamespaces(OwnedSelector(cfg));
      Chain(s0, s0);
      ghost var s1 := api.Snapshot();
      managed, listed := api.world, api.world;
      if namespaces.Err? {
        Unmoved();
        return None, managed, listed;
      }
      var byName := NamespaceKeys(namespaces.value);
      var secrets := api.ListSecrets(OwnedSelector(cfg));
      Chain(s0, s1);
      PermitsTransitive(cfg, api.policy.rule, s0.world, s1.world, api.world);
      listed := api.world;
      if secrets.Err? {
        return None, managed, listed;
      }
      var found := SourceKeys(cfg, secrets.value, byName);
      var out := InSomeOrder(found);
      KeysAreExact(cfg, managed, listed, namespaces.value, secrets.value, byName, found, out);
      return Some(out), managed, listed;
    }

    /** One full sweep: a failure for one key never keeps the others from being
        visited, nor the audit from being made. */
    method Reconcile() returns (failed: bool, ghost sweep: Option<Sweep>)
      requires Inv()
      modifies api, `conflicts, `adoptions, `gauges, `unrouted
      ensures Inv() && old(api.log) <= api.log
      ensures cfg.dryRun ==> api.log == old(api.log) && Permits(cfg, api.policy.rule, old(api.world), api.world)
      ensures sweep.None? ==> failed && api.policy.faults
      ensures sweep.Some? ==> SweptFleet(cfg, api.policy, old(api.world), api.world, sweep.value, failed)
    {
      ghost var w := api.world;
      var keys, managed, listed := ReconcileKeys();
      if keys.None? {
        return true, None;
      }
      ghost var passes;
      failed, passes := VisitAll(keys.value);
      ghost var last := api.world;
      var broke, _, _ := AuditUnrouted();
      if cfg.dryRun {
        PermitsTransitive(cfg, api.policy.rule, w, listed, last);
        PermitsTransitive(cfg, api.policy.rule, w, last, api.world);
      }
      return failed || broke, Some(Sweep(managed, listed, keys.value, passes, last));
    }

    /** A pass for every key, one after the other. */
    method VisitAll(keys: seq<string>) returns (failed: bool, ghost passes: seq<Pass>)
      requires Inv() && "" !in keys
      modifies api, `conflicts, `adoptions
      ensures Inv() && old(api.log) <= api.log && (Calm() ==> !failed) && |passes| == |keys|
      ensures cfg.dryRun ==> api.log == old(api.log) && Permits(cfg, api.policy.rule, old(api.world), api.world)
      ensures PassesMade(cfg, api.policy, keys, passes, failed) && Chained(old(api.world), passes, api.world)
    {
      ghost var w := api.world;
      failed, passes := false, [];
      Unmoved();
      for i := 0 to |keys|
        invariant Inv() && old(api.log) <= api.log && |passes| == i
        invariant cfg.dryRun ==> api.log == old(api.log) && Permits(cfg, api.policy.rule, w, api.world)
        invariant PassesMade(cfg, api.policy, keys, passes, failed) && Chained(w, passes, api.world)
        invariant Calm() ==> !failed
      {
        ghost var p;
        var broke;
        broke, p := MakePass(keys[i]);
        if cfg.dryRun { PermitsTransitive(cfg, api.policy.rule, w, p.before, api.world); }
        MadeAppend(cfg, api.policy, keys, passes, p, failed);
        ChainAppend(w, passes, p);
        passes := passes + [p];
        failed := failed || broke;
      }
    }

    /** One pass of a sweep, for the record. */
    method MakePass(key: string) returns (failed: bool, ghost p: Pass)
      requires Inv() && key != ""
      modifies api, `conflicts, `adoptions
      ensures Inv() && old(api.log) <= api.log
      ensures cfg.dryRun ==> api.log == old(api.log) && Permits(cfg, api.policy.rule, old(api.world), api.world)
      ensures p.key == key && p.before == old(api.world) && p.after == api.world && PassHeld(cfg, api.policy, p)
      ensures (failed <==> p.ending == Failed) && (Calm() ==> !failed)
    {
      ghost var before := api.world;
      var _, broke, ending := ReconcileOne(key);
      if Calm() { UndisturbedNeverFails(cfg, before, api.world, key, ending); }
      return broke, Pass(key, before, api.world, ending);
    }

    /** Doing nothing is an advance. */
    ghost method Unmoved()
      requires Inv()
      ensures AdvancedFrom(api.Snapshot()) && Permits(cfg, api.policy.rule, api.world, api.world)
    {
      ReadAdvances(cfg, api.policy.rule, baseline, api.Snapshot(), api.Snapshot());
    }
  }
}
