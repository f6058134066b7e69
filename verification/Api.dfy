/** The shared object store as the tool sees it through the API server: other
    actors edit it between calls, calls may fail, and every object carries a
    version. Ghost state records what a pass has observed and every write. */
module Api {
  import opened Results
  import opened Text
  import opened Objects
  import opened Contest
  import opened Selection

  /** `clock` is in nanoseconds; the stamp format covers years up to 9999. */
  const ERA_END := 253402300800 * 1_000_000_000

  datatype World = World(
    namespaces: map<string, Namespace>,
    secrets: map<string, Secret>,
    sources: map<string, seq<SourceSecret>>,
    nextUid: nat, nextRv: nat, clock: int)

  predicate NamesDistinct(s: seq<SourceSecret>) {
    forall i, j :: 0 <= i < j < |s| ==> s[i].name != s[j].name
  }

  predicate ValidWorld(w: World) {
    && (forall n :: n in w.namespaces ==> n != "" && w.namespaces[n].name == n)
    && (forall n :: n in w.secrets ==>
          n != "" && w.secrets[n].name == n && w.secrets[n].uid < w.nextUid && w.secrets[n].rv < w.nextRv)
    && (forall n :: n in w.sources ==> NamesDistinct(w.sources[n]))
    && 0 <= w.clock < ERA_END
  }

  // ------------------------------------------------------------- other actors

  /** Versions are never reused: a Secret is the one stored before, or carries a
      version issued since; a new object carries an identity issued since. */
  predicate Since(w: World, w': World) {
    && w.nextUid <= w'.nextUid && w.nextRv <= w'.nextRv
    && forall n :: n in w'.secrets ==>
         || (n in w.secrets && w.secrets[n] == w'.secrets[n])
         || (w'.secrets[n].rv >= w.nextRv
             && ((n in w.secrets && w.secrets[n].uid == w'.secrets[n].uid) || w'.secrets[n].uid >= w.nextUid))
  }

  /** What other actors may do between two calls. Hostile: anything. NoMinting:
      they do not give an owned Secret a source namespace it did not record.
      HandsOff: they do not create or edit owned Secrets and the clock does not
      run back. Quiet: only the clock moves. */
  datatype Rule = Hostile | NoMinting | HandsOff | Quiet

  datatype Policy = Policy(rule: Rule, faults: bool)
  {
    /** Nobody interferes and no call fails. */
    predicate Calm() {
      rule == Quiet && !faults
    }
  }

  predicate NoMint(cfg: Settings, w: World, w': World) {
    forall n :: n in w'.secrets && Owned(cfg, w'.secrets[n]) && Source(cfg, w'.secrets[n]) != "" ==>
      n in w.secrets && Owned(cfg, w.secrets[n]) && Source(cfg, w.secrets[n]) == Source(cfg, w'.secrets[n])
  }

  predicate Untouched(cfg: Settings, w: World, w': World) {
    && w.clock <= w'.clock
    && (forall n :: n in w'.secrets && Owned(cfg, w'.secrets[n]) ==> n in w.secrets && w.secrets[n] == w'.secrets[n])
    && (forall n :: n in w.secrets && n in w'.secrets && w.secrets[n].uid == w'.secrets[n].uid ==>
          (Owned(cfg, w.secrets[n]) ==> w.secrets[n] == w'.secrets[n]))
  }

  predicate Permits(cfg: Settings, rule: Rule, w: World, w': World) {
    && ValidWorld(w') && Since(w, w')
    && match rule
       case Hostile => true
       case NoMinting => NoMint(cfg, w, w')
       case HandsOff => Untouched(cfg, w, w')
       case Quiet => w.clock <= w'.clock && w' == w.(clock := w'.clock)
  }

  lemma SinceTransitive(a: World, b: World, c: World)
    requires Since(a, b) && Since(b, c)
    ensures Since(a, c)
  {
  }

  lemma UntouchedTransitive(cfg: Settings, a: World, b: World, c: World)
    requires ValidWorld(a) && Since(a, b) && Since(b, c)
    requires Untouched(cfg, a, b) && Untouched(cfg, b, c)
    ensures Untouched(cfg, a, c)
  {
  }

  /** One interference step stands for any number of them. */
  lemma PermitsTransitive(cfg: Settings, rule: Rule, a: World, b: World, c: World)
    requires ValidWorld(a) && Permits(cfg, rule, a, b) && Permits(cfg, rule, b, c)
    ensures Permits(cfg, rule, a, c)
  {
    SinceTransitive(a, b, c);
    if rule == HandsOff { UntouchedTransitive(cfg, a, b, c); }
  }

  // ------------------------------------------------- observations and writes

  datatype Op = Created(secret: Secret) | Updated(before: Secret, after: Secret) | Deleted(secret: Secret)

  /** A definite answer the API gave, or a write it acknowledged. */
  datatype Observation =
    | SawNamespace(name: string, found: Option<Namespace>)
    | SawNamespaces(selector: Labels, namespaces: seq<Namespace>)
    | SawSecret(secret: Secret)
    | SawSecrets(selector: Labels, secrets: seq<Secret>)
    | SawTime(now: int)
    | Wrote(op: Op)

  /** One effective write: the key of the pass that made it and what that pass
      had observed by then. */
  datatype Write = Write(key: string, seen: set<Observation>, op: Op)

  function Perform(w: World, op: Op): World {
    match op
    case Created(s) => w.(secrets := w.secrets[s.name := s], nextUid := w.nextUid + 1, nextRv := w.nextRv + 1)
    case Updated(_, after) => w.(secrets := w.secrets[after.name := after], nextRv := w.nextRv + 1)
    case Deleted(s) => w.(secrets := w.secrets - {s.name})
  }

  /** The versions and identities the API server hands out. */
  ghost predicate Issued(w: World, op: Op) {
    match op
    case Created(s) => s.name != "" && s.name !in w.secrets && s.uid == w.nextUid && s.rv == w.nextRv
    case Updated(before, after) =>
      before.name in w.secrets && w.secrets[before.name] == before
      && after.name == before.name && after.uid == before.uid && after.rv == w.nextRv
    case Deleted(s) => s.name in w.secrets && w.secrets[s.name] == s
  }

  lemma PerformIsStep(w: World, op: Op)
    requires ValidWorld(w) && Issued(w, op)
    ensures ValidWorld(Perform(w, op)) && Since(w, Perform(w, op))
  {
  }

  predicate Matches(selector: Labels, labels: Labels) {
    forall k :: k in selector ==> k in labels && labels[k] == selector[k]
  }

  /** A list call's answer: every matching Secret once, in some order. */
  ghost predicate Lists(w: World, selector: Labels, items: seq<Secret>) {
    && (forall s :: s in items <==> s.name in w.secrets && w.secrets[s.name] == s && Matches(selector, s.labels))
    && (forall i, j :: 0 <= i < j < |items| ==> items[i].name != items[j].name)
  }

  ghost predicate ListsNamespaces(w: World, selector: Labels, items: seq<Namespace>) {
    && (forall n :: n in items <==> n.name in w.namespaces && w.namespaces[n.name] == n && Matches(selector, n.labels))
    && NamesUnique(items)
  }

  /** The matching Secrets, each once. */
  method Select(w: World, selector: Labels) returns (items: seq<Secret>)
    requires ValidWorld(w)
    ensures Lists(w, selector, items)
  {
    items := [];
    var left := set n | n in w.secrets && Matches(selector, w.secrets[n].labels);
    ghost var all := left;
    while left != {}
      invariant left <= all
      invariant forall s :: s in items <==> s.name in all - left && w.secrets[s.name] == s
      invariant forall i, j :: 0 <= i < j < |items| ==> items[i].name != items[j].name
      decreases left
    {
      var n :| n in left;
      left := left - {n};
      assert forall s :: s in items + [w.secrets[n]] <==> s in items || s == w.secrets[n];
      items := items + [w.secrets[n]];
    }
  }

  /** Everything about the store and the pass that a contract relates. */
  datatype Snap = Snap(world: World, key: string, seen: set<Observation>, log: seq<Write>)

  datatype ApiError = NotFound | AlreadyExists | Conflict | Other

  class Cluster {
    const cfg: Settings
    const policy: Policy
    var world: World
    ghost var key: string
    ghost var seen: set<Observation>
    ghost var log: seq<Write>

    ghost predicate Valid()
      reads this
    {
      ValidWorld(world)
    }

    ghost function Snapshot(): Snap
      reads this
    {
      Snap(world, key, seen, log)
    }

    constructor (cfg: Settings, policy: Policy, world: World)
      requires ValidWorld(world)
      ensures this.cfg == cfg && this.policy == policy && this.world == world
      ensures Valid() && log == [] && seen == {} && key == ""
    {
      this.cfg, this.policy, this.world := cfg, policy, world;
      log, seen, key := [], {}, "";
    }

    /** Any number of steps by other actors. */
    method Interfere()
      requires Valid()
      modifies `world
      ensures Permits(cfg, policy.rule, old(world), world)
    {
      var next: World := *;
      if Permits(cfg, policy.rule, world, next) {
        world := next;
      }
    }

    method Fault() returns (b: bool)
      ensures b ==> policy.faults
    {
      b := *;
      b := b && policy.faults;
    }

    ghost method BeginPass(k: string)
      modifies `key, `seen
      ensures key == k && seen == {}
    {
      key, seen := k, {};
    }

    method Now() returns (now: int)
      requires Valid()
      modifies `world, `seen
      ensures Permits(cfg, policy.rule, old(world), world)
      ensures now == world.clock && seen == old(seen) + {SawTime(now)}
    {
      Interfere();
      now := world.clock;
      seen := seen + {SawTime(now)};
    }

    method GetNamespace(name: string) returns (r: Result<Namespace, ApiError>)
      requires Valid()
      modifies `world, `seen
      ensures Permits(cfg, policy.rule, old(world), world)
      ensures match r
              case Ok(ns) =>
                name in world.namespaces && ns == world.namespaces[name]
                && seen == old(seen) + {SawNamespace(name, Some(ns))}
              case Err(NotFound) => name !in world.namespaces && seen == old(seen) + {SawNamespace(name, None)}
              case Err(Other) => policy.faults && seen == old(seen)
              case _ => false
    {
      Interfere();
      var broken := Fault();
      if broken {
        return Err(Other);
      }
      if name in world.namespaces {
        seen := seen + {SawNamespace(name, Some(world.namespaces[name]))};
        return Ok(world.namespaces[name]);
      }
      seen := seen + {SawNamespace(name, None)};
      return Err(NotFound);
    }

    method ListNamespaces(selector: Labels) returns (r: Result<seq<Namespace>, ApiError>)
      requires Valid()
      modifies `world, `seen
      ensures Permits(cfg, policy.rule, old(world), world)
      ensures match r
              case Ok(items) =>
                ListsNamespaces(world, selector, items) && seen == old(seen) + {SawNamespaces(selector, items)}
              case Err(e) => e == Other && policy.faults && seen == old(seen)
    {
      Interfere();
      var broken := Fault();
      if broken {
        return Err(Other);
      }
      var items: seq<Namespace> := [];
      var left := set n | n in world.namespaces && Matches(selector, world.namespaces[n].labels);
      ghost var all := left;
      while left != {}
        invariant left <= all
        invariant forall n :: n in items <==> n.name in all - left && world.namespaces[n.name] == n
        invariant NamesUnique(items)
        decreases left
      {
        var n :| n in left;
        left := left - {n};
        items := items + [world.namespaces[n]];
      }
      seen := seen + {SawNamespaces(selector, items)};
      return Ok(items);
    }

    method ListSources(ns: string) returns (r: Result<seq<SourceSecret>, ApiError>)
      requires Valid()
      modifies `world
      ensures Permits(cfg, policy.rule, old(world), world)
      ensures match r
              case Ok(items) => Unique(items) && items == (if ns in world.sources then world.sources[ns] else [])
              case Err(e) => e == Other && policy.faults
    {
      Interfere();
      var broken := Fault();
      if broken {
        return Err(Other);
      }
      return Ok(if ns in world.sources then world.sources[ns] else []);
    }

    method GetSecret(name: string) returns (r: Result<Secret, ApiError>)
      requires Valid()
      modifies `world, `seen
      ensures Permits(cfg, policy.rule, old(world), world)
      ensures match r
              case Ok(s) => name in world.secrets && s == world.secrets[name] && seen == old(seen) + {SawSecret(s)}
              case Err(NotFound) => name !in world.secrets && seen == old(seen)
              case Err(Other) => policy.faults && seen == old(seen)
              case _ => false
    {
      Interfere();
      var broken := Fault();
      if broken {
        return Err(Other);
      }
      if name in world.secrets {
        seen := seen + {SawSecret(world.secrets[name])};
        return Ok(world.secrets[name]);
      }
      return Err(NotFound);
    }

    method ListSecrets(selector: Labels) returns (r: Result<seq<Secret>, ApiError>)
      requires Valid()
      modifies `world, `seen
      ensures Permits(cfg, policy.rule, old(world), world)
      ensures match r
              case Ok(items) => Lists(world, selector, items) && seen == old(seen) + {SawSecrets(selector, items)}
              case Err(e) => e == Other && policy.faults && seen == old(seen)
    {
      Interfere();
      var broken := Fault();
      if broken {
        return Err(Other);
      }
      var items := Select(world, selector);
      seen := seen + {SawSecrets(selector, items)};
      return Ok(items);
    }

    /** The call changed nothing of its own. */
    twostate predicate Idle(mid: World)
      reads this
    {
      world == mid && log == old(log) && seen == old(seen)
    }

    /** The call performed `op` on `mid`. */
    twostate predicate Effected(mid: World, op: Op)
      reads this
    {
      && Issued(mid, op)
      && world == Perform(mid, op)
      && log == old(log) + [Write(key, old(seen), op)]
      && seen == old(seen) + {Wrote(op)}
    }

    /** `mid` is the world the call found and `took` says whether it took
        effect. A reply may be lost after the effect: the caller sees Other. */
    method Create(draft: Secret) returns (r: Result<Secret, ApiError>, ghost mid: World, ghost took: bool)
      requires Valid() && draft.name != ""
      modifies `world, `seen, `log
      ensures Permits(cfg, policy.rule, old(world), mid) && ValidWorld(world)
      ensures took ==>
        draft.name !in mid.secrets && Effected(mid, Created(draft.(uid := mid.nextUid, rv := mid.nextRv)))
      ensures !took ==> Idle(mid)
      ensures match r
              case Ok(made) => took && made == draft.(uid := mid.nextUid, rv := mid.nextRv)
              case Err(AlreadyExists) => !took && draft.name in mid.secrets
              case Err(Other) => policy.faults
              case _ => false
    {
      Interfere();
      mid, took := world, false;
      var broken := Fault();
      if broken {
        return Err(Other), mid, took;
      }
      if draft.name in world.secrets {
        return Err(AlreadyExists), mid, took;
      }
      var s := draft.(uid := world.nextUid, rv := world.nextRv);
      PerformIsStep(world, Created(s));
      took := true;
      log := log + [Write(key, seen, Created(s))];
      seen := seen + {Wrote(Created(s))};
      world := world.(secrets := world.secrets[s.name := s], nextUid := world.nextUid + 1, nextRv := world.nextRv + 1);
      var lost := Fault();
      return if lost then Err(Other) else Ok(s), mid, took;
    }

    /** Takes effect only on the version that was read. */
    method Update(s: Secret) returns (r: Result<Secret, ApiError>, ghost mid: World, ghost took: bool)
      requires Valid()
      modifies `world, `seen, `log
      ensures Permits(cfg, policy.rule, old(world), mid) && ValidWorld(world)
      ensures var hit := s.name in mid.secrets && mid.secrets[s.name].uid == s.uid && mid.secrets[s.name].rv == s.rv;
              && (took ==> hit && Effected(mid, Updated(mid.secrets[s.name], s.(rv := mid.nextRv))))
              && (!took ==> Idle(mid))
              && match r
                 case Ok(made) => took && made == s.(rv := mid.nextRv)
                 case Err(NotFound) => !took && s.name !in mid.secrets
                 case Err(Conflict) => !took && s.name in mid.secrets && !hit
                 case Err(Other) => policy.faults
                 case _ => false
    {
      Interfere();
      mid, took := world, false;
      var broken := Fault();
      if broken {
        return Err(Other), mid, took;
      }
      if s.name !in world.secrets {
        return Err(NotFound), mid, took;
      }
      var before := world.secrets[s.name];
      if before.uid != s.uid || before.rv != s.rv {
        return Err(Conflict), mid, took;
      }
      var after := s.(rv := world.nextRv);
      PerformIsStep(world, Updated(before, after));
      took := true;
      log := log + [Write(key, seen, Updated(before, after))];
      seen := seen + {Wrote(Updated(before, after))};
      world := world.(secrets := world.secrets[after.name := after], nextRv := world.nextRv + 1);
      var lost := Fault();
      return if lost then Err(Other) else Ok(after), mid, took;
    }

    /** Honours its UID precondition, and its version precondition if given. */
    method Delete(name: string, uid: nat, rv: Option<nat>)
        returns (r: Result<(), ApiError>, ghost mid: World, ghost took: bool)
      requires Valid()
      modifies `world, `seen, `log
      ensures Permits(cfg, policy.rule, old(world), mid) && ValidWorld(world)
      ensures var hit :=
              name in mid.secrets && mid.secrets[name].uid == uid && (rv.Some? ==> mid.secrets[name].rv == rv.value);
              && (took ==> hit && Effected(mid, Deleted(mid.secrets[name])))
              && (!took ==> Idle(mid))
              && match r
                 case Ok(_) => took
                 case Err(NotFound) => !took && name !in mid.secrets
                 case Err(Conflict) => !took && name in mid.secrets && !hit
                 case Err(Other) => policy.faults
                 case _ => false
    {
      Interfere();
      mid, took := world, false;
      var broken := Fault();
      if broken {
        return Err(Other), mid, took;
      }
      if name !in world.secrets {
        return Err(NotFound), mid, took;
      }
      var s := world.secrets[name];
      if s.uid != uid || (rv.Some? && s.rv != rv.value) {
        return Err(Conflict), mid, took;
      }
      PerformIsStep(world, Deleted(s));
      took := true;
      log := log + [Write(key, seen, Deleted(s))];
      seen := seen + {Wrote(Deleted(s))};
      world := world.(secrets := world.secrets - {name});
      var lost := Fault();
      return if lost then Err(Other) else Ok(()), mid, took;
    }
  }
}
