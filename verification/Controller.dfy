/** The work queue: seeding it, working it off, and when a key may be dropped. */
module Controller {
  import opened Text
  import opened Objects
  import opened Api
  import opened Evidence
  import opened Collection
  import opened Passes
  import R = Registrar

  /** The key that stands for the audit; no namespace is called that. */
  const AUDIT_KEY := ""

  /** What the queue is told after a turn: try again soon, come back after the
      interval, or forget the key. */
  datatype Reply = RetrySoon | RevisitAfter(interval: int) | Forget

  function Answer(finished: bool, failed: bool, interval: int): Reply {
    if failed then RetrySoon
    else if finished then Forget
    else RevisitAfter(interval)
  }

  /** How far seeding has come; `unsent` are the keys not yet handed over. */
  datatype Phase = Unseeded | Seeding(unsent: seq<string>)

  /** A key that was forgotten, what that pass had seen, and the store then. */
  datatype Retirement = Retirement(key: string, seen: set<Observation>, world: World)

  /** One step of a run, in whatever order the scheduler and the world choose. */
  datatype Event = SeedAttempt | SeedPush | Watched(key: string) | Turn(key: string) | OthersAct

  /** The store and the queue between two events. */
  datatype Stage = Stage(world: World, pending: set<string>, phase: Phase)

  class Controller {
    const registrar: R.Registrar
    const interval: int
    /** Keys queued, waiting for their interval or for a retry. */
    var pending: set<string>
    var phase: Phase
    /** Every key that was ever queued, and those forgotten since. */
    ghost var known: set<string>
    ghost var retired: seq<Retirement>

    ghost function Queued(): set<string>
      reads this
    {
      pending + if phase.Seeding? then KeySet(phase.unsent) else {}
    }

    ghost function Now(): Stage
      reads this, registrar, registrar.api
    {
      Stage(registrar.api.world, pending, phase)
    }

    ghost predicate Valid()
      reads this, registrar, registrar.api
    {
      && registrar.Inv()
      && interval > 0
      && Remembers(registrar.cfg, registrar.api.policy.rule, registrar.api.world, phase.Seeding?, Queued())
      && (phase.Seeding? ==> AUDIT_KEY in Queued())
      && known <= Queued() + RetiredKeys(retired)
      && ProvenRetirements(registrar.cfg, registrar.api.policy.rule, retired)
    }

    constructor (registrar: R.Registrar, interval: int)
      requires registrar.Inv() && interval > 0
      ensures Valid() && this.registrar == registrar && this.interval == interval
      ensures pending == {} && phase == Unseeded && retired == []
    {
      this.registrar, this.interval := registrar, interval;
      pending, phase := {}, Unseeded;
      known, retired := {}, [];
    }

    /** One try at listing the keys; on an error nothing changes and it is
        tried again. */
    method SeedOnce()
      requires Valid()
      modifies this, registrar.api
      ensures Valid() && pending == old(pending) && retired == old(retired)
      ensures registrar.api.log == old(registrar.api.log)
      ensures old(phase).Seeding? ==> phase == old(phase)
    {
      if phase.Seeding? {
        return;
      }
      var keys, managed, listed := registrar.ReconcileKeys();
      if keys.Some? {
        KeysCover(registrar.cfg, managed, listed, keys.value);
        phase := Seeding(keys.value + [AUDIT_KEY]);
        SeededRemembers(registrar.cfg, registrar.api.policy.rule, listed, keys.value, Queued());
        assert (keys.value + [AUDIT_KEY])[|keys.value|] == AUDIT_KEY;
        known := known + Queued();
      }
    }

    /** Hands one seeded key to the queue. */
    method Push()
      requires Valid()
      modifies this
      ensures Valid() && Queued() == old(Queued()) && retired == old(retired)
      ensures if old(phase).Seeding? && old(phase).unsent != []
              then pending == old(pending) + {old(phase).unsent[0]} && phase == Seeding(old(phase).unsent[1..])
              else pending == old(pending) && phase == old(phase)
    {
      if phase.Seeding? && |phase.unsent| > 0 {
        var k := phase.unsent[0];
        ghost var before := Queued();
        assert forall j :: j in phase.unsent <==> j == k || j in phase.unsent[1..];
        pending := pending + {k};
        phase := Seeding(phase.unsent[1..]);
        assert Queued() == before;
      }
    }

    /** The watch reports some namespace. */
    method Enqueue(k: string)
      requires Valid()
      modifies this
      ensures Valid() && Queued() == old(Queued()) + {k} && retired == old(retired)
      ensures pending == old(pending) + {k} && phase == old(phase)
    {
      pending := pending + {k};
      known := known + {k};
    }

    /** One turn of the worker on one queued key. */
    method Work(k: string) returns (reply: Reply, ghost failed: bool)
      requires Valid() && k in pending
      modifies this, registrar, registrar.api
      ensures Valid() && old(registrar.api.log) <= registrar.api.log
      ensures (reply == RetrySoon <==> failed) && (reply.RevisitAfter? ==> reply.interval == interval)
      ensures registrar.Calm() ==>
        reply == if GoneForGood(registrar.cfg, old(registrar.api.world), k) then Forget else RevisitAfter(interval)
      ensures phase == old(phase) && (reply != Forget ==> pending == old(pending) && retired == old(retired))
      ensures reply == Forget ==>
        && pending == old(pending) - {k} && k != AUDIT_KEY
        && retired == old(retired) + [Retirement(k, registrar.api.seen, registrar.api.world)]
    {
      if k == AUDIT_KEY {
        reply, failed := AuditTurn();
      } else {
        ghost var ending;
        reply, ending := KeyTurn(k);
        failed := reply == RetrySoon;
      }
    }

    method AuditTurn() returns (reply: Reply, ghost failed: bool)
      requires Valid()
      modifies registrar, registrar.api
      ensures Valid() && old(registrar.api.log) <= registrar.api.log
      ensures (reply == RetrySoon <==> failed) && (reply.RevisitAfter? ==> reply.interval == interval)
      ensures reply != Forget && (registrar.Calm() ==> !failed)
    {
      ghost var w := registrar.api.world;
      var broke, _, _ := registrar.AuditUnrouted();
      PermittedEvolves(registrar.cfg, registrar.api.policy.rule, "", w, registrar.api.world);
      StillRemembers(registrar.cfg, registrar.api.policy.rule, "", w, registrar.api.world, phase.Seeding?, Queued());
      return Answer(false, broke, interval), broke;
    }

    method KeyTurn(k: string) returns (reply: Reply, ghost ending: Ending)
      requires Valid() && k in pending && k != AUDIT_KEY
      modifies this, registrar, registrar.api
      ensures Valid() && old(registrar.api.log) <= registrar.api.log
      ensures reply == match ending
                       case Failed => RetrySoon
                       case Retired => Forget
                       case _ => RevisitAfter(interval)
      ensures registrar.Calm() ==>
        reply == if GoneForGood(registrar.cfg, old(registrar.api.world), k) then Forget else RevisitAfter(interval)
      ensures phase == old(phase) && (reply != Forget ==> pending == old(pending) && retired == old(retired))
      ensures reply == Forget ==>
        && pending == old(pending) - {k}
        && retired == old(retired) + [Retirement(k, registrar.api.seen, registrar.api.world)]
    {
      ghost var w := registrar.api.world;
      var finished, broke;
      finished, broke, ending := registrar.ReconcileOne(k);
      StillRemembers(registrar.cfg, registrar.api.policy.rule, k, w, registrar.api.world, phase.Seeding?, Queued());
      reply := Answer(finished, broke, interval);
      if registrar.Calm() {
        UndisturbedNeverFails(registrar.cfg, w, registrar.api.world, k, ending);
        NothingStaysExactly(registrar.cfg, w, k);
      }
      if reply == Forget {
        Drop(k);
      }
    }

    /** Forgets a key whose namespace nothing records any more. */
    method Drop(k: string)
      requires Valid() && k in pending && k != AUDIT_KEY
      requires ProvenRetirement(registrar.cfg, registrar.api.policy.rule,
                                Retirement(k, registrar.api.seen, registrar.api.world))
      modifies this
      ensures Valid() && pending == old(pending) - {k} && phase == old(phase)
      ensures retired == old(retired) + [Retirement(k, registrar.api.seen, registrar.api.world)]
    {
      ghost var q, was := Queued(), retired;
      pending := pending - {k};
      retired := retired + [Retirement(k, registrar.api.seen, registrar.api.world)];
      MayForget(registrar.cfg, registrar.api.policy.rule, registrar.api.world, phase.Seeding?, q, k, Queued());
      RetiredGrows(was, retired[|was|]);
    }

    /** Any interleaving of seeding, watch events, turns and outside edits. */
    method Run(schedule: seq<Event>) returns (ghost stages: seq<Stage>)
      requires Valid()
      modifies this, registrar, registrar.api
      ensures Valid() && old(registrar.api.log) <= registrar.api.log
      ensures Ran(registrar.cfg, registrar.Calm(), schedule, stages)
      ensures stages[0] == old(Now()) && stages[|schedule|] == Now()
    {
      stages := [Now()];
      for i := 0 to |schedule|
        invariant Valid() && old(registrar.api.log) <= registrar.api.log
        invariant Ran(registrar.cfg, registrar.Calm(), schedule[..i], stages)
        invariant stages[0] == old(Now()) && stages[i] == Now()
      {
        Step(schedule[i]);
        RanOn(registrar.cfg, registrar.Calm(), schedule, i, stages, Now());
        stages := stages + [Now()];
      }
      assert schedule[..|schedule|] == schedule;
    }

    /** One event of a run. */
    method Step(event: Event)
      requires Valid()
      modifies this, registrar, registrar.api
      ensures Valid() && old(registrar.api.log) <= registrar.api.log
      ensures Stepped(registrar.cfg, registrar.Calm(), event, old(Now()), Now())
    {
      match event {
        case SeedAttempt => SeedOnce();
        case SeedPush => Push();
        case Watched(k) => Enqueue(k);
        case Turn(k) =>
          if k in pending {
            var _, _ := Work(k);
          }
        case OthersAct =>
          OutsideStep();
      }
    }

    method OutsideStep()
      requires Valid()
      modifies registrar.api
      ensures Valid() && registrar.api.log == old(registrar.api.log)
    {
      ghost var s := registrar.api.Snapshot();
      registrar.api.Interfere();
      registrar.Chain(s, s);
      PermittedEvolves(registrar.cfg, registrar.api.policy.rule, "", s.world, registrar.api.world);
      StillRemembers(registrar.cfg, registrar.api.policy.rule, "", s.world, registrar.api.world, phase.Seeding?,
                     Queued());
    }
  }

  // --------------------------------------------------------------- properties

  /** The key is a namespace that is not there, and no registration records it that
      has to stay. */
  ghost predicate GoneForGood(cfg: Settings, w: World, k: string) {
    && k != AUDIT_KEY && k !in w.namespaces
    && forall n :: n in w.secrets && Get(w.secrets[n].labels, cfg.keys.managedBy) == cfg.owner
                   && Get(w.secrets[n].labels, cfg.keys.source) == k ==>
         !cfg.dryRun && !Pinned(cfg, w.secrets[n])
  }

  lemma NothingStaysExactly(cfg: Settings, w: World, k: string)
    requires k != AUDIT_KEY
    ensures GoneForGood(cfg, w, k) <==> k !in w.namespaces && !LeftBehind(cfg, w, k)
  {
    if k !in w.namespaces && !GoneForGood(cfg, w, k) {
      var n :| n in w.secrets && Get(w.secrets[n].labels, cfg.keys.managedBy) == cfg.owner
               && Get(w.secrets[n].labels, cfg.keys.source) == k && (cfg.dryRun || Pinned(cfg, w.secrets[n]));
      assert StaysBehind(cfg, w, k, n);
    }
  }

  /** What one event does to the queue, whoever else acts. A turn drops its key or
      nothing; undisturbed, it drops the key exactly when that is gone for good. */
  ghost predicate Stepped(cfg: Settings, calm: bool, event: Event, a: Stage, b: Stage) {
    match event
    case SeedAttempt => b.pending == a.pending && (a.phase.Seeding? ==> b.phase == a.phase)
    case SeedPush =>
      if a.phase.Seeding? && a.phase.unsent != []
      then b.pending == a.pending + {a.phase.unsent[0]} && b.phase == Seeding(a.phase.unsent[1..])
      else b.pending == a.pending && b.phase == a.phase
    case Watched(k) => b.pending == a.pending + {k} && b.phase == a.phase
    case Turn(k) =>
      && b.phase == a.phase && b.pending in {a.pending, a.pending - {k}}
      && (calm ==> b.pending == if GoneForGood(cfg, a.world, k) then a.pending - {k} else a.pending)
    case OthersAct => b.pending == a.pending && b.phase == a.phase
  }

  ghost predicate Ran(cfg: Settings, calm: bool, schedule: seq<Event>, stages: seq<Stage>) {
    |stages| == |schedule| + 1
    && forall i :: 0 <= i < |schedule| ==> Stepped(cfg, calm, schedule[i], stages[i], stages[i + 1])
  }

  lemma RanOn(cfg: Settings, calm: bool, schedule: seq<Event>, i: nat, stages: seq<Stage>, next: Stage)
    requires i < |schedule| && Ran(cfg, calm, schedule[..i], stages)
    requires Stepped(cfg, calm, schedule[i], stages[i], next)
    ensures Ran(cfg, calm, schedule[..i + 1], stages + [next])
  {
  }

  /** Neither queued nor about to be seeded. */
  predicate Out(s: Stage, k: string) {
    k !in s.pending && s.phase.Seeding? && k !in s.phase.unsent
  }

  lemma {:induction false} OutStays(cfg: Settings, calm: bool, schedule: seq<Event>, stages: seq<Stage>, i: nat,
                                       j: nat, k: string)
    requires Ran(cfg, calm, schedule, stages) && i <= j <= |schedule| && Out(stages[i], k)
    requires Watched(k) !in schedule[i..j]
    ensures Out(stages[j], k)
    decreases j - i
  {
    if i < j {
      assert schedule[i] == schedule[i..j][0] && schedule[i + 1..j] == schedule[i..j][1..];
      assert Stepped(cfg, calm, schedule[i], stages[i], stages[i + 1]);
      OutStays(cfg, calm, schedule, stages, i + 1, j, k);
    }
  }

  /** Over an undisturbed run, a turn that finds its key gone for good empties it from
      the queue, and unless a watch event brings it back it stays out. */
  lemma FinishedKeyIsDropped(cfg: Settings, schedule: seq<Event>, stages: seq<Stage>, i: nat, k: string)
    requires Ran(cfg, true, schedule, stages) && i < |schedule| && schedule[i] == Turn(k)
    requires GoneForGood(cfg, stages[i].world, k)
    requires stages[i].phase.Seeding? && k !in stages[i].phase.unsent && Watched(k) !in schedule[i + 1..]
    ensures k !in stages[i + 1].pending && k !in stages[|schedule|].pending
  {
    assert Stepped(cfg, true, schedule[i], stages[i], stages[i + 1]);
    assert schedule[i + 1..|schedule|] == schedule[i + 1..];
    OutStays(cfg, true, schedule, stages, i + 1, |schedule|, k);
  }

  /** And a queued key that is at no turn gone for good stays queued. */
  lemma {:induction false} LiveKeyStays(cfg: Settings, schedule: seq<Event>, stages: seq<Stage>, i: nat, k: string)
    requires Ran(cfg, true, schedule, stages) && i <= |schedule| && k in stages[i].pending
    requires forall j :: i <= j < |schedule| ==> !GoneForGood(cfg, stages[j].world, k)
    ensures k in stages[|schedule|].pending
    decreases |schedule| - i
  {
    if i < |schedule| {
      assert Stepped(cfg, true, schedule[i], stages[i], stages[i + 1]);
      LiveKeyStays(cfg, schedule, stages, i + 1, k);
    }
  }

  /** No registration is forgotten: once the keys have been listed, the source of
      every registration is queued, provided others mint none. */
  ghost predicate Remembers(cfg: Settings, rule: Rule, w: World, seeded: bool, queued: set<string>) {
    seeded && rule != Hostile ==> Covered(cfg, w, queued)
  }

  function RetiredKeys(retired: seq<Retirement>): set<string> {
    set i | 0 <= i < |retired| :: retired[i].key
  }

  /** The namespace was proven gone, and, unless others mint registrations, nothing
      recorded it any more. */
  ghost predicate ProvenRetirement(cfg: Settings, rule: Rule, r: Retirement) {
    Gone(r.seen, r.key) && (rule != Hostile ==> NoneLeft(cfg, r.world, r.key))
  }

  ghost predicate ProvenRetirements(cfg: Settings, rule: Rule, retired: seq<Retirement>) {
    forall r :: r in retired ==> ProvenRetirement(cfg, rule, r)
  }

  lemma SeededRemembers(cfg: Settings, rule: Rule, w: World, keys: seq<string>, queued: set<string>)
    requires Covered(cfg, w, KeySet(keys)) && KeySet(keys + [AUDIT_KEY]) <= queued
    ensures Remembers(cfg, rule, w, true, queued)
  {
  }

  lemma StillRemembers(cfg: Settings, rule: Rule, k: string, w: World, w': World, seeded: bool, queued: set<string>)
    requires Remembers(cfg, rule, w, seeded, queued) && Evolves(cfg, rule, k, w, w') && (k == "" || k in queued)
    ensures Remembers(cfg, rule, w', seeded, queued)
  {
    if seeded && rule != Hostile { CoveredStays(cfg, rule, k, w, w', queued); }
  }

  lemma MayForget(cfg: Settings, rule: Rule, w: World, seeded: bool, queued: set<string>, k: string, rest: set<string>)
    requires Remembers(cfg, rule, w, seeded, queued) && queued <= rest + {k}
    requires rule != Hostile ==> NoneLeft(cfg, w, k)
    ensures Remembers(cfg, rule, w, seeded, rest)
  {
  }

  lemma RetiredGrows(retired: seq<Retirement>, r: Retirement)
    ensures RetiredKeys(retired + [r]) == RetiredKeys(retired) + {r.key}
  {
    forall k ensures k in RetiredKeys(retired + [r]) <==> k in RetiredKeys(retired) + {r.key} {
      if k == r.key { assert (retired + [r])[|retired|].key == k; }
      if k in RetiredKeys(retired) {
        var i :| 0 <= i < |retired| && retired[i].key == k;
        assert (retired + [r])[i].key == k;
      }
    }
  }
}
