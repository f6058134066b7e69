# Cluster registrar: a verified model

The registrar turns labelled namespaces and the kubeconfig Secrets inside them
into ArgoCD cluster Secrets, and later demotes or deletes those. This project
models that tool in Dafny and proves its safety argument: who may hold a
cluster's name and address, what counts as proof that a source is gone, what a
rename keeps, when a work key may be forgotten, and what is copied out of a
namespace nobody trusts. Check it with `dafny verify dfyconfig.toml`.

## How it is built

- `Api` is the object store behind the API server. Between any two calls other
  actors may act, within a `Policy`: `Hostile` lets them do anything at all,
  `NoMinting` forbids giving an owned Secret a source namespace it did not
  record, `HandsOff` forbids creating or editing owned Secrets, `Quiet` lets only
  time pass. With `faults`, any call may fail, also after it has taken effect.
  Objects carry an identity and a version; an update succeeds only on the version
  that was read, a delete honours its preconditions.
- `Registrar` is the reconciler as a class over that store, method by method.
  A ghost set records what a pass has observed, a ghost log every write with what
  had been observed by then.
- `Evidence` says when a write is justified by those observations. `Sound` is the
  invariant of every run: all writes in the log were justified when made.
  `Guarantees` reads the safety properties off that invariant.
- `Decision` is the verdict of one claim on one undisturbed state, which `Apply`
  is proved to give. `Passes` says how a pass or a sweep ends and what it leaves:
  undisturbed, the state a pass starts in determines it. `Election` follows a
  contested name through whole sweeps, `Addresses` the uniqueness of addresses, and
  `Once` is the one-shot mode.
- `Controller` is the work queue: seeding, retrying, revisiting and forgetting
  keys.
- `KeySpace`, `Propagation`, `Merge`, `Contest`, `Selection`, `Exec`,
  `Spelling`, `Kubeconfig`, `Expiry` and `Audit` are the kernels the reconciler decides with.

Every `Settings` value the model runs on is `Usable`, which
`Objects.AcceptedIsUsable` derives from what `Validate` accepts. Library calls
(YAML, JSON, x509, URL and glob parsing, name validation, time formatting) are
arbitrary functions in `Library`.

## Where the code and its own words differ

- A UID precondition does not tie a delete to what was judged. `deleteOrphan`
  sends only the Secret's UID, so between the list and the delete somebody may
  strip the ownership label and the Secret is removed all the same, although the
  documentation (`README.md:348-352` of the repository) says a registration that
  is not ours is left alone. `DeleteIsFairExactlyWhenTied` proves what it takes: a
  delete is certain to hit an unpinned registration of the key, whatever others may
  do, exactly when it carries the version, as the TTL delete does, or others keep
  their hands off our Secrets.
- A namespace without a usable kubeconfig does block a healthy one on the same
  free name, against the comment at `internal/registrar/registrar.go:876-879`: the
  claimant list counts every live labelled namespace.
  `TakenExactlyWhenEldestDiscoverable` gives the exact condition.
- Uniqueness of addresses holds whenever an address is claimed (`AddressExclusive`,
  `ClaimsWereClear`), but not of the store. `ClaimKeepsApart`, `PassKeepsApart` and
  `SweepKeepsApart` prove that a claim, a whole pass and a whole sweep keep it
  exactly when no Secret is rewritten in place on an address that another Secret has
  come to keep, which by `OnlyRestoringReclaims` only the restoring of a demoted or
  unlabelled registration can be. `ReclaimExists` gives such states for every
  configuration, and `RestoreSharesAddress` is a run of three passes that does it:
  rename and move, another namespace's claim, revert.
- The two exec argument scans disagree where a separately written value begins
  with a dash. `SpellingIndependent` proves one pair's two spellings equivalent if
  its value does not look like a flag and its flag does not stand where another's
  value would; `SearchAgreesExactly` says of every single search when the spellings
  agree, and `DashedValueBreaksSpelling` is a family of inputs where they do not.

## Model

| member | source | states |
|---|---|---|
| `Registrar.Registrar.ReconcileOne` | internal/registrar/registrar.go:590-654 | One pass keeps the run invariant whatever others do and whichever calls fail; it reports a key done only after a definite NotFound with, unless others mint registrations, no owned Secret left recording it; a namespace that is not ours or is going away gets no write at all; a dry run writes nothing; undisturbed, it never fails, the state it starts in determines its ending, with the reason of a refusal, and it leaves the state after stale collection, then the claim, then a collection that touches only the namespace's other unpinned registrations, demoting those not yet demoted and removing only those past their TTL; one live registration remains, every other one pinned or out of sight |
| `Registrar.Registrar.Confirm` | internal/registrar/registrar.go:591-600 | The namespace is read before anything else; undisturbed, for one that is not labelled for us or is being torn down nothing is written |
| `Passes.EndingIsDetermined` | internal/registrar/registrar.go:590-654 | Two undisturbed passes out of one state end alike |
| `Registrar.Registrar.Proceed` | internal/registrar/registrar.go:591-654 | The branches on the answer about the namespace: gone, unknown, present; an unknown answer collects nothing |
| `Registrar.Registrar.ReconcileGone` | internal/registrar/registrar.go:593-596 | The NotFound branch: the key is done only if nothing records the namespace any more, unless others mint registrations; undisturbed, it is kept iff a registration has to stay, pinned or rehearsed upon |
| `Registrar.Registrar.ReconcilePresent` | internal/registrar/registrar.go:602-621 | A namespace that stopped being ours is left alone, and for one being torn down nothing is written, demoted or deleted |
| `Registrar.Registrar.ReconcileLive` | internal/registrar/registrar.go:623-653 | A live namespace of ours: stale predecessors first, then discovery, then registration; refusals count as conflicts, not as failures |
| `Registrar.Registrar.RegisterFound` | internal/registrar/registrar.go:636-653 | What was discovered is registered in the state that the clearing away left, and one live registration remains |
| `Registrar.Registrar.Survey` | internal/registrar/registrar.go:623-634 | Undisturbed, exactly the unpinned registrations of a predecessor are gone, whether or not anything is discovered afterwards |
| `Registrar.Registrar.DiscoverCleared` | internal/registrar/registrar.go:631-634 | Discovery runs after the clearing away and reads what it left |
| `Registrar.Registrar.Register` | internal/registrar/registrar.go:636-653 | Only a successful apply lets collection demote the other registrations; undisturbed, the ending and its reason are those of Decide in the state the claim is made in, and after it only other registrations of the namespace change |
| `Registrar.Registrar.DiscoverOne` | internal/registrar/registrar.go:858-998 | The child comes from this namespace, vouched for in this pass; undisturbed, it is the one the selection rule picks |
| `Registrar.Registrar.Apply` | internal/registrar/registrar.go:1383-1534 | Success means the store holds the child's Secret with its name, address and credential under those keys, ArgoCD's label, the owner, source, UID, cluster and provider, every propagated label and annotation, and nothing else under the prefix but the opt-out; undisturbed, the outcome is the verdict of Decide with its reason, and a dry run gives the same answer while changing nothing |
| `Registrar.Registrar.Claim` | internal/registrar/registrar.go:1410-1440 | A free name is created only after the name contest and the address claim, in that order, both before the dry-run return |
| `Registrar.Registrar.ClaimFreeName` | internal/registrar/registrar.go:1418-1440 | With the name settled, the address is claimed before the dry-run return and the create |
| `Registrar.Registrar.Make` | internal/registrar/registrar.go:1429-1439 | A create that finds the name taken is the create race; a lost reply is a failure; success registers this namespace |
| `Registrar.Registrar.Refresh` | internal/registrar/registrar.go:1448-1534 | An existing Secret is refused, left alone or rewritten, as ownership and difference say; an adoption is counted exactly when a Secret without a source is given one |
| `Registrar.Registrar.Move` | internal/registrar/registrar.go:1465-1469 | The address is claimed exactly when the trimmed address moves |
| `Registrar.Registrar.WriteRefresh` | internal/registrar/registrar.go:1486-1534 | What is replaced is the very version that was checked, by its merge with what is wanted |
| `Registrar.Registrar.Put` | internal/registrar/registrar.go:1486-1534 | An update succeeds only on the version read earlier, so the write replaces exactly what the evidence was about |
| `Claiming.UpdateTakes` | internal/registrar/registrar.go:1486-1534 | An update that takes effect replaced the version that was read, and nothing else |
| `Registrar.Registrar.ClaimContestedName` | internal/registrar/registrar.go:1279-1310 | Success means the list of claimants left the name to this namespace; undisturbed, a live claimant is refused iff another live claimant of the name was created earlier, or at the same time with a lesser name |
| `Registrar.Registrar.ClaimServer` | internal/registrar/registrar.go:1325-1374 | Success means every listed holder of the address gives way; undisturbed, it is refused iff somebody keeps the address |
| `Registrar.Registrar.ExamineAll` | internal/registrar/registrar.go:1332-1374 | The loop stops at the first listed Secret that keeps the address; undisturbed, it finds one iff there is one |
| `Registrar.Registrar.ExamineNext` | internal/registrar/registrar.go:1332-1374 | One turn of the loop carries over what the earlier ones found |
| `Registrar.Registrar.Examine` | internal/registrar/registrar.go:1332-1373 | One listed Secret gives way only if it is this namespace's own, demoted, elsewhere, or unpinned with a source that is definitely NotFound; undisturbed, exactly then |
| `Registrar.Registrar.NamespaceExists` | internal/registrar/registrar.go:1378-1381 | Any uncertainty answers yes: no means a definite NotFound was read |
| `Registrar.Registrar.Demote` | internal/registrar/registrar.go:1549-1578 | The version judged in this pass loses its ArgoCD label, in favour of a registration made this pass; dry runs write nothing |
| `Registrar.Registrar.CollectOne` | internal/registrar/registrar.go:1647-1733 | With the namespace gone, a zero count means nothing owned records it any more, and undisturbed the count is exact; with it live, every other registration of it ends pinned or out of sight, those already past their TTL end deleted, and the applied one is untouched; undisturbed, it does not fail, pinned registrations and all foreign Secrets stay as they were |
| `Collection.CountedOutExactly` | internal/registrar/registrar.go:1658-1687 | Once the namespace is gone the count reaches zero exactly when no registration was pinned, or in a dry run none existed |
| `Registrar.Registrar.CollectListed` | internal/registrar/registrar.go:1658-1733 | The loop of the collection, from one list of the namespace's registrations to the same conclusions |
| `Registrar.Registrar.CollectEach` | internal/registrar/registrar.go:1658-1727 | The turns of the loop, one for each registration listed, and what they add up to |
| `Registrar.Registrar.CollectItem` | internal/registrar/registrar.go:1662-1727 | One turn: pinned Secrets are skipped on every path, nothing happens without proof or without a registration made this pass, and the count drops only when it may |
| `Registrar.Registrar.Expire` | internal/registrar/registrar.go:1697-1718 | A demoted registration is kept until it outlives its TTL, and only then removed |
| `Registrar.Registrar.TakeExpired` | internal/registrar/registrar.go:1711-1717 | Once the TTL is outlived, the version judged is what is removed |
| `Registrar.Registrar.CollectTurn` | internal/registrar/registrar.go:1659-1727 | One turn of the loop carries what has been achieved over to one Secret more |
| `Registrar.Registrar.DemotedTTLExpired` | internal/registrar/registrar.go:1738-1759 | Yes exactly with a positive TTL, a readable stamp and an age past it at the time read; for what was demoted at a known time, exactly when more than the TTL has passed since the second of its demotion |
| `Registrar.Registrar.DeleteExpired` | internal/registrar/registrar.go:1765-1794 | Removes at most the version judged; conflict and absence are not failures |
| `Registrar.Registrar.DeleteOrphan` | internal/registrar/registrar.go:1849-1879 | Reports gone only if the name is gone; a conflict is neither gone nor a failure |
| `Registrar.Registrar.Remove` | internal/registrar/registrar.go:1858-1878 | The object removed has the identity of the one judged, and its version too if that was sent; under hands-off it is still an unpinned registration of the key |
| `Collection.RemovalTakes` | internal/registrar/registrar.go:1858-1878 | A delete that takes effect keeps the run invariant and removes at most the name judged |
| `Registrar.Registrar.CollectStaleUID` | internal/registrar/registrar.go:1806-1843 | Undisturbed, exactly the unpinned registrations of the namespace that record another non-empty UID are gone and nothing else has changed |
| `Registrar.Registrar.CollectStaleListed` | internal/registrar/registrar.go:1818-1843 | The loop of the stale collection |
| `Registrar.Registrar.StaleTurnOn` | internal/registrar/registrar.go:1820-1838 | One turn: a missing or matching UID and a pinned Secret are passed over, any other registration is deleted |
| `Registrar.Registrar.AuditUnrouted` | internal/registrar/registrar.go:660-725 | The gauges are exactly the numbers of owned Secrets by state and bucket in the state listed, and add up to all of them |
| `Registrar.Registrar.ReconcileKeys` | internal/registrar/registrar.go:730-761 | The keys are exactly the namespaces labelled for us and the non-empty sources on our registrations, each once |
| `Registrar.Registrar.Reconcile` | internal/registrar/registrar.go:767-789 | Every key gets its pass, one after the other, whatever fails before it; undisturbed the sweep does not fail; a dry run writes nothing |
| `Registrar.Registrar.VisitAll` | internal/registrar/registrar.go:774-781 | A pass for every key in turn, each starting where the one before it ended |
| `Registrar.Registrar.MakePass` | internal/registrar/registrar.go:774-780 | One pass of a sweep, recorded with the states around it |
| `Passes.SweepDelivers` | internal/registrar/registrar.go:767-789 | What each pass delivered still stands at the end of the sweep |
| `Passes.RegistrationCarries` | internal/registrar/registrar.go:964-974 | A registration that stands holds the address and the encoded credential parsed from the kubeconfig the selection rule picks, under the name the namespace claims |
| `Passes.SweepCarries` | internal/registrar/registrar.go:767-789 | So does every registration a sweep made, at the end of it |
| `Passes.AuditReadsBack` | internal/registrar/registrar.go:674-690 | The audit counts a registration that stands as active, under the time the credential parsed from the chosen kubeconfig has left |
| `Passes.SweepCovers` | internal/registrar/registrar.go:730-761 | Every registration there is after a sweep had its pass, unless others mint registrations |
| `Passes.PassesDoNotInterfere` | internal/registrar/registrar.go:767-789 | A pass for one key undoes nothing another key's pass delivered |
| `Passes.CleanSweep` | internal/registrar/registrar.go:767-789 | After an undisturbed sweep, an unpinned registration's namespace exists, and if it registered, its visible unpinned registration is the one it made |
| `Passes.NamespaceKeys` | internal/registrar/registrar.go:738-740 | Collects exactly the names listed |
| `Passes.SourceKeys` | internal/registrar/registrar.go:747-751 | Adds exactly the non-empty sources recorded |
| `Passes.CoveredStays` | internal/registrar/registrar.go:1659-1687 | No pass gives rise to a recorded source outside the keys |
| `Evidence.UpdatedReads` | internal/registrar/registrar.go:1223-1268 | Incumbency: an update keeps the owner, moves no Secret between two namespaces, fills an empty source only on a matching cluster label, keeps the prune opt-out and never leaves a Secret both visible and marked |
| `Evidence.RefreshedReads` | internal/registrar/registrar.go:1500-1513 | Restoring a Secret erases its marker and its stamp |
| `Evidence.WriteEvolves` | internal/registrar/registrar.go:1223-1268 | No justified write brings another namespace's registration into being; undisturbed, none touches a Secret that is not ours or records another namespace |
| `Evidence.WriteCoherent` | internal/registrar/registrar.go:1556-1574 | While others keep their hands off our Secrets, no step breaks the invariant that none of them is visible and marked, nor that every marked one is the version its demotion wrote |
| `Evidence.WriteAdvances` | internal/registrar/registrar.go:590-654 | Every acknowledged or lost write keeps the run invariant |
| `Evidence.OutlivedMeansElapsed` | internal/registrar/registrar.go:1753-1758 | Past the TTL by a stamp floored to the second means more than the TTL less one second |
| `Evidence.AgedExactly` | internal/registrar/registrar.go:1753-1758 | The TTL is over exactly when more than it has passed since the second of the demotion |
| `Guarantees.DeletionsAreProven` | internal/registrar/registrar.go:1630-1642 | Every deletion of a run: same identity as a Secret listed in that pass as ours, of this key and unpinned, and one of the three proofs: NotFound; another UID than that of the vouched live namespace; or the very version judged was demoted, past a positive TTL by a readable stamp, with another Secret registered this pass |
| `Guarantees.UidDeleteIsFairExactlyWhenStable` | internal/registrar/registrar.go:1855-1861 | Among the four policies, what a UID-only delete hits is certain to be still an unpinned registration of the key iff others keep their hands off our Secrets |
| `Guarantees.DeleteIsFairExactlyWhenTied` | internal/registrar/registrar.go:1855-1861 | Whatever others may do before it arrives, a delete is certain to remove an unpinned registration of the key, or nothing, iff it carries the version or others keep their hands off our Secrets |
| `Guarantees.DisownedIsPermitted` | internal/registrar/registrar.go:1855-1861 | The failing case: a Secret that lost its ownership label after the list keeps its UID |
| `Guarantees.VersionedDeleteIsFair` | internal/registrar/registrar.go:1761-1774 | A delete that carries the version hits only what was judged, whatever others do |
| `Guarantees.DemotionClock` | internal/registrar/registrar.go:1697-1718 | Every Secret a run deletes is of a namespace that is gone, or of a predecessor, or older than the run, or was demoted earlier in the run, as the version removed, more than the TTL less one second before |
| `Guarantees.OverdueIsRemoved` | internal/registrar/registrar.go:1697-1718 | What was demoted longer ago than the TTL, and is not pinned, is gone after the first undisturbed pass in which its namespace registers something else |
| `Guarantees.DemotedExpires` | internal/registrar/registrar.go:1697-1758 | The same of what this very run demoted |
| `Guarantees.YoungIsKept` | internal/registrar/registrar.go:1697-1710 | A demoted registration of the namespace as it now is outlasts every undisturbed pass that ends within the TTL |
| `Guarantees.EarlierIsRemoved` | internal/registrar/registrar.go:1806-1843 | Every undisturbed pass over a live namespace of ours removes each unpinned registration that records another non-empty UID |
| `Guarantees.MarkedIsOnlyRestored` | internal/registrar/registrar.go:1697-1710 | No write moves the stamp of a marked Secret; the only one it can get restores it |
| `Guarantees.UnstampedNeverAges` | internal/registrar/registrar.go:1742-1757 | No run deletes a Secret with a missing or unreadable stamp for its age |
| `Guarantees.IncumbentsAreKept` | internal/registrar/registrar.go:1223-1268 | Over a run, no update takes a Secret from one namespace to another or touches one that is not ours |
| `Addresses.AddressExclusive` | internal/registrar/registrar.go:1325-1374 | After a create or an address move, every other ArgoCD Secret on the address is of the same namespace, demoted, or unpinned with its namespace gone |
| `Addresses.ClaimsWereClear` | internal/registrar/registrar.go:1418-1469 | Over a run, every create and every update that moves the trimmed address was made over listed holders of the address that all gave way |
| `Addresses.ClaimKeepsApart` | internal/registrar/registrar.go:1459-1469 | From unique addresses, a claim keeps them unique iff it is not a rewrite in place on an address that another Secret keeps |
| `Addresses.OnlyRestoringReclaims` | internal/registrar/registrar.go:1465-1467 | From unique addresses, only the restoring of a demoted or unlabelled registration can be such a rewrite |
| `Addresses.ReclaimExists` | internal/registrar/registrar.go:1465-1467 | For every usable configuration and any two children on one address there is a state with unique addresses out of which such a rewrite makes them not unique |
| `Addresses.PassKeepsApart` | internal/registrar/registrar.go:590-654 | An undisturbed pass keeps addresses unique iff it makes no such rewrite, whatever it clears away, registers, demotes or deletes |
| `Addresses.SweepKeepsApart` | internal/registrar/registrar.go:767-789 | An undisturbed sweep keeps addresses unique, between its passes and at its end, iff none of its passes makes such a rewrite |
| `Addresses.RestoreSharesAddress` | internal/registrar/registrar.go:1465-1467 | The failing run: a pass after a rename and move demotes a registration, another namespace's pass claims its old address, and the pass after the revert restores it over that claim, so that two namespaces hold one address |
| `Claiming.RehearsalAgrees` | internal/registrar/registrar.go:1411-1428 | A rehearsal and a real apply on the same undisturbed state end alike, a refusal with the same reason, and the rehearsal leaves the store as it was |
| `Decision.ListedClaim` | internal/registrar/registrar.go:1281-1309 | The list of claimants leaves the name to a namespace iff no older live namespace claims it |
| `Decision.TakenExactlyByEarlier` | internal/registrar/registrar.go:1287-1309 | A live claimant loses the contest iff another one was created earlier, or at the same time with a lesser name |
| `Decision.RecreatingNeverHelps` | internal/registrar/registrar.go:1270-1278 | Making a namespace again never turns its refusal into a success and never costs another claimant the win |
| `Decision.EldestOutlastsRecreation` | internal/registrar/registrar.go:1270-1278 | The eldest claimant stays the eldest when another namespace is made again |
| `Decision.OwnershipByLabels` | internal/registrar/registrar.go:1223-1268 | By the holder's labels: each of the three refusals iff its case, adoption iff ours, of no namespace and of this very cluster |
| `Decision.AddressTakenByLabels` | internal/registrar/registrar.go:1332-1373 | By labels: which Secrets keep an address from a claim |
| `Decision.CollisionExactly` | internal/registrar/registrar.go:1418-1469 | A claim is refused for its address iff it is of a free name the contest leaves it, or moves the trimmed address of a registration it may write, and somebody keeps the address |
| `Election.ApplyIsIdempotent` | internal/registrar/registrar.go:1454-1457 | A second apply of the same child finds nothing to write |
| `Election.IncumbentStays` | internal/registrar/registrar.go:1223-1268 | Whoever holds a name keeps it through any sequence of applies |
| `Election.HolderOutlastsSweep` | internal/registrar/registrar.go:767-789 | Whoever holds a name keeps it through an undisturbed sweep, with all that it deletes, demotes and registers, unless its own registration is a predecessor's or was demoted before, and is not pinned |
| `Election.OnlyEldestPasses` | internal/registrar/registrar.go:1279-1310 | Exactly the eldest claimant passes the contest |
| `Election.ReadyPassed` | internal/registrar/registrar.go:590-654 | A whole pass for another key, with its deletions, demotions and registration, leaves the eldest what it needs |
| `Election.EldestRegisters` | internal/registrar/registrar.go:623-653 | The eldest's own pass then registers it |
| `Election.EldestHolds` | internal/registrar/registrar.go:767-789 | An undisturbed sweep, in any order and whatever else it deletes, demotes or registers, leaves a free name with its eldest claimant, if that one is discoverable on its own address |
| `Election.SameHolderInAnyOrder` | internal/registrar/registrar.go:757-759 | Two undisturbed sweeps out of one state visit the same keys, each in its own order, and leave the same holder |
| `Election.UndiscoverableEldestBlocks` | internal/registrar/registrar.go:1287-1300 | While the eldest claimant has nothing to register, an undisturbed sweep leaves the name free |
| `Election.HealthyIsRefused` | internal/registrar/registrar.go:1302-1309 | Meanwhile every other claimant that has something to register is refused for the contested name |
| `Election.TakenExactlyWhenEldestDiscoverable` | internal/registrar/registrar.go:1287-1300 | An undisturbed sweep takes a free name iff its eldest claimant is discoverable, given that it is on an address of its own that nobody keeps |
| `Once.SweepOnce` | cmd/root.go:261-262 | The one-shot mode on a store nobody else touches succeeds and leaves a free name with its eldest claimant |
| `Once.SweepBlocked` | cmd/root.go:261-262 | While that claimant has nothing to register, it leaves the name free |
| `Decision.SomeoneIsEldest` | internal/registrar/registrar.go:1287-1300 | Where anyone claims a name there is exactly one eldest claimant |
| `Contest.Winner` | internal/registrar/registrar.go:1287-1300 | The fold finds the eldest live claimant, ties broken on name, or nobody |
| `Contest.ExactlyOneMayCreate` | internal/registrar/registrar.go:1302-1309 | Exactly one of the claimants may create, whatever the order of the list |
| `Contest.YoungerNeverWins` | internal/registrar/registrar.go:1273-1278 | Adding younger claimants never changes the winner |
| `Contest.EldestUnique` | internal/registrar/registrar.go:1287-1300 | The winner does not depend on the order of the list |
| `Text.LessAtDifference` | internal/registrar/registrar.go:1297-1297 | Names are compared at the first character in which they differ, a proper prefix being the lesser |
| `Controller.Controller.SeedOnce` | internal/registrar/controller.go:245-258 | Seeding retries without losing anything; once it has listed, the source of every registration is queued |
| `Controller.Controller.Push` | internal/registrar/controller.go:260-268 | Handing over a seeded key loses none |
| `Controller.Controller.Enqueue` | internal/registrar/controller.go:225-229 | A watch event only adds its key |
| `Controller.Controller.Work` | internal/registrar/controller.go:79-102 | A turn drops its key only if it was proven gone with nothing left; undisturbed it drops it iff the namespace is not there and no registration has to stay, and comes back after the interval otherwise; the audit key is never dropped |
| `Controller.Controller.KeyTurn` | internal/registrar/controller.go:79-102 | The answer follows the ending: retried iff the pass failed, forgotten iff it retired the key, revisited after the interval otherwise; undisturbed, the state the turn starts in says which |
| `Controller.Controller.Drop` | internal/registrar/controller.go:86-92 | Forgetting a proven key loses no other one |
| `Controller.Controller.AuditTurn` | internal/registrar/controller.go:80-82 | An audit is retried or revisited, never forgotten |
| `Controller.Controller.Run` | internal/registrar/controller.go:171-284 | Under any interleaving of seeding, watch events, turns and outside edits: no registration's key is lost once seeded, every key ever queued is queued still or was forgotten on proof, every write was justified, and each event changes the queue as stated for it |
| `Controller.Controller.Step` | internal/registrar/controller.go:171-284 | One event of a run: what it does to the queue, and that an undisturbed turn drops its key iff that is gone for good |
| `Controller.FinishedKeyIsDropped` | internal/registrar/controller.go:86-102 | Over an undisturbed run, a turn that finds a key gone with nothing left empties it from the queue, and it stays out unless a watch event brings it back |
| `Controller.OutStays` | internal/registrar/controller.go:225-268 | A key neither queued nor about to be seeded stays out unless a watch event brings it in |
| `Controller.LiveKeyStays` | internal/registrar/controller.go:86-102 | Over an undisturbed run, a queued key that is at no turn gone with nothing left stays queued |
| `Controller.MayForget` | internal/registrar/controller.go:86-92 | Dropping a key whose namespace nothing records leaves every registration remembered |
| `Controller.StillRemembers` | internal/registrar/controller.go:239-270 | Outside edits and passes keep every registration remembered |
| `KeySpace.OverlapExactly` | internal/registrar/registrar.go:499-511 | A prefix of the accepted shape shares a key with a domain iff it is a prefix of that domain |
| `KeySpace.AcceptedPrefixIsSound` | internal/registrar/registrar.go:499-536 | Every accepted prefix gives pairwise distinct keys that never meet ArgoCD's domain |
| `Objects.Validate` | internal/registrar/registrar.go:438-538 | Accepts exactly the configurations described by Accepted |
| `Objects.CheckProvider` | internal/registrar/registrar.go:452-498 | Accepts exactly the well-formed providers with a new name |
| `Objects.CheckKeys` | internal/registrar/registrar.go:477-491 | Accepts exactly the lists of distinct non-empty keys |
| `Objects.AcceptedIsUsable` | internal/registrar/registrar.go:438-538 | What the reconciler relies on follows from what is accepted |
| `Propagation.Propagate` | internal/registrar/registrar.go:1181-1210 | The loop computes greedy admission in key order, whatever the map order |
| `Propagation.Gather` | internal/registrar/registrar.go:1186-1193 | Gathers exactly the eligible keys, each once |
| `Propagation.AdmitAll` | internal/registrar/registrar.go:1195-1209 | The loop computes greedy admission of the keys in their order |
| `Propagation.OrderIsCanonical` | internal/registrar/registrar.go:1186-1193 | However the eligible keys are gathered, sorting gives one list |
| `Propagation.GrantIsBounded` | internal/registrar/registrar.go:1195-1209 | Admitted and dropped keys partition the offered ones, admitted ones keep their value, and all three limits hold |
| `Propagation.DropIsForced` | internal/registrar/registrar.go:1195-1209 | A key is dropped iff it breaks a limit given the keys admitted before it |
| `Propagation.PropagatedKeys` | internal/registrar/registrar.go:1181-1210 | Only prefixed, unreserved keys are copied, with their own values; zero limits drop nothing |
| `Propagation.PropagateIdempotent` | internal/registrar/registrar.go:1168-1180 | Propagating the output again returns it unchanged and drops nothing |
| `Propagation.NeverArgoDomain` | internal/registrar/registrar.go:1186-1191 | No key under ArgoCD's domain and no reserved key is ever copied |
| `Merge.ComputedLabelsSurvive` | internal/registrar/registrar.go:1384-1395 | The six computed labels survive the later copy of propagated ones |
| `Merge.Changed` | internal/registrar/registrar.go:1588-1630 | Says whether some wanted key reads otherwise or some stale prefixed key is present |
| `Merge.CopyAndSweep` | internal/registrar/registrar.go:1496-1513 | Copy then sweep gives the merged map |
| `Merge.Park` | internal/registrar/registrar.go:1556-1574 | The relabelling of a demotion, step by step: the ArgoCD label is parked only if it was there |
| `Merge.MergeConverges` | internal/registrar/registrar.go:1454-1457 | After the merge nothing differs |
| `Merge.MergedMirrors` | internal/registrar/registrar.go:1486-1534 | After the merge the Secret says all that the child says, and nothing else under the prefix but the opt-out |
| `Merge.UnchangedMirrors` | internal/registrar/registrar.go:1588-1630 | And so does every Secret that counts as unchanged |
| `Merge.SkippedExactlyWhenInert` | internal/registrar/registrar.go:1588-1630 | A write is skipped iff no lookup could tell and no stale prefixed key is there |
| `Merge.MergeFrame` | internal/registrar/registrar.go:1490-1531 | The exact frame of a merge: wanted keys set, stale prefixed keys gone except the opt-out, all else untouched |
| `Merge.ArgoKeysUntouched` | internal/registrar/registrar.go:1515-1531 | ArgoCD's own keys survive, bar the label that makes a cluster |
| `Merge.RevertIsLossless` | internal/registrar/registrar.go:1536-1548 | Restoring a demoted registration gives exactly what refreshing the original would have given |
| `Merge.RestoreIsNeverSkipped` | internal/registrar/registrar.go:1608-1614 | A demoted registration always counts as changed |
| `Merge.DemotedReads` | internal/registrar/registrar.go:1556-1574 | What a demotion changes and what it keeps: the ArgoCD label parked, the stamp, the successor's name if it is a label value; every other label, data and annotations stay |
| `Selection.FindKubeconfigCandidates` | internal/registrar/registrar.go:1004-1100 | The candidates returned are exactly the (Secret, key) pairs the rule offers, each Secret by the first provider that takes it, in the stated order, without duplicates |
| `Selection.OfferProvider` | internal/registrar/registrar.go:1052-1089 | One provider's share of the list |
| `Selection.CatalogueIgnoresListOrder` | internal/registrar/registrar.go:1010-1018 | The candidate list does not depend on the order of the API's list |
| `Selection.DiscoverFrom` | internal/registrar/registrar.go:858-998 | Registers from the least usable pair by provider, provenance, name and key order, and from nothing iff no pair is usable |
| `Selection.FirstUsable` | internal/registrar/registrar.go:907-951 | The first candidate that parses; every earlier one does not |
| `Selection.ChosenIsUnique` | internal/registrar/registrar.go:907-936 | There is one such pair, whatever the order of the list |
| `Selection.DiscoveryIgnoresListOrder` | internal/registrar/registrar.go:858-998 | Discovery is a function of the set of Secrets |
| `Selection.DiscoveredChild` | internal/registrar/registrar.go:972-998 | What a child carries: this namespace's identity, a trimmed address that is not the management cluster's, only eligible labels, exec only with both gates on |
| `Selection.DiscoveredLabels` | internal/registrar/registrar.go:1140-1168 | Every eligible label is copied with its own value and no other; at most 32 annotations, of 4096 bytes each and 32768 together |
| `Selection.ChildIsParsed` | internal/registrar/registrar.go:964-974 | The address and credential are those parsed from the chosen kubeconfig |
| `Selection.DiscoverableExactly` | internal/registrar/registrar.go:858-936 | A child is found iff the namespace names a cluster whose Secret may have that name and some offered kubeconfig can be used |
| `Selection.ProvenanceMeans` | internal/registrar/registrar.go:199-211 | A matching declared type counts for more than a controlling owner |
| `Exec.FindFlag` | internal/registrar/exec.go:111-123 | The value of the first argument that answers to one of the names, and none exactly when none does |
| `Exec.SearchMeans` | internal/registrar/exec.go:111-123 | What a search finds, said by positions of arguments |
| `Exec.RefuseUnsupportedArgs` | internal/registrar/exec.go:135-170 | The first flag outside the allowlist, told apart by whether it names an identity |
| `Exec.PositionalArgs` | internal/registrar/exec.go:262-271 | The arguments that are neither flags nor a flag's value |
| `Exec.HasSubcommand` | internal/registrar/exec.go:261-278 | Whether the wanted words occur consecutively among the positional arguments |
| `Exec.FromIAMAuthenticator` | internal/registrar/exec.go:174-188 | A credential of the fixed shape for the cluster first named, in the region first named; no cluster named; or a flag that is there and not on the allowlist, told apart by whether it names an identity |
| `Exec.FromAWSCLI` | internal/registrar/exec.go:192-211 | Refused exactly when `eks get-token` does not occur; otherwise as for aws-iam-authenticator, with its own flags |
| `Exec.FromKubelogin` | internal/registrar/exec.go:240-258 | Always the azure shape; each environment variable is set exactly if its flag is there, to its first value |
| `Exec.Translate` | internal/registrar/exec.go:90-108 | Which API versions and which commands are refused, exactly; success has one of the two shapes, and each command its own outcome |
| `Exec.TranslationHasOutcome` | internal/registrar/exec.go:90-108 | Every translation comes to what its command and its arguments by position call for |
| `Exec.BaseMeans` | internal/registrar/exec.go:97-97 | The command's name is what follows its last slash |
| `Exec.TrimSpaceMeans` | internal/registrar/exec.go:97-97 | White space is taken off both ends, all of it and nothing else |
| `Exec.SuccessIsWellShaped` | internal/registrar/exec.go:217-258 | Success emits exactly one of the two shapes, with the fixed command, API version and environment keys |
| `Spelling.SpellingIndependent` | internal/registrar/exec.go:111-170 | A flag value pair whose value does not look like a flag, and whose flag is not where another's value would be, may be written flag=value without changing the outcome |
| `Spelling.UndashedStandAlone` | internal/registrar/exec.go:111-170 | Where no value looks like a flag every pair is such a pair, and stays one |
| `Spelling.JoinOne` | internal/registrar/exec.go:111-170 | Rewriting one pair leaves the list with all pairs rewritten as it was |
| `Spelling.AnyTwoSpellings` | internal/registrar/exec.go:111-170 | Any two spellings of the same pairs translate alike |
| `Spelling.DashedValueBreaksSpelling` | internal/registrar/exec.go:111-152 | Where a value looks like a flag the two spellings do differ |
| `Spelling.SearchAgreesExactly` | internal/registrar/exec.go:111-123 | One search gives the two spellings of one pair the same answer iff no earlier argument takes the pair's flag for its value, and the value, read as an argument, answers nothing that what follows would not |
| `Spelling.WalksAgree` | internal/registrar/exec.go:135-152 | On accepted arguments the allowlist walk and the subcommand walk see the same positionals |
| `Spelling.AcceptedFlagsAllowed` | internal/registrar/exec.go:135-170 | Acceptance means every flag present is on the allowlist, and conversely, if no value looks like a flag |
| `Kubeconfig.ResolvePair` | internal/registrar/kubeconfig.go:70-123 | The loops compute the pair Resolve describes |
| `Kubeconfig.Search` | internal/registrar/kubeconfig.go:97-118 | The first entry of the name |
| `Kubeconfig.FindIsFirst` | internal/registrar/kubeconfig.go:97-118 | The first entry of the name, and only it |
| `Kubeconfig.ResolvesRightPair` | internal/registrar/kubeconfig.go:70-123 | A pair is picked iff it is the only one there is or the one the current context names |
| `Kubeconfig.ResolveRefuses` | internal/registrar/kubeconfig.go:74-123 | Which of the six errors is given, exactly: nothing to pick from, no context to pick by, or a context that names what is not there |
| `Kubeconfig.ParseKubeconfig` | internal/registrar/kubeconfig.go:193-298 | The steps compute what Parse describes, with its error for each refused shape |
| `Kubeconfig.PairRefusedExactly` | internal/registrar/kubeconfig.go:204-280 | A pair is refused exactly for the first of its faults in a fixed order, so it is accepted iff it has none |
| `Kubeconfig.RefusedExactly` | internal/registrar/kubeconfig.go:193-298 | Every refusal is exactly one of: not YAML, no pair to pick, or the first fault of the right pair |
| `Kubeconfig.ParseIsFaithful` | internal/registrar/kubeconfig.go:193-298 | A successful parse uses the right pair, a trimmed foreign address, the proxy written in its normal form or none, one credential kind, certificates before tokens, with the user's own values, and exec only when allowed, carrying what its command and arguments call for |
| `Kubeconfig.InClusterInAnyCase` | internal/registrar/kubeconfig.go:174-180 | The management cluster's own host is recognised in any capitalisation |
| `Expiry.ParseThenClassify` | internal/registrar/expiry.go:22-62 | Classification reads back exactly the kind of credential that was written, and never absent |
| `Expiry.ClassifiesKind` | internal/registrar/expiry.go:22-48 | Each credential kind has its own buckets |
| `Expiry.ExpiryOnlyAges` | internal/registrar/expiry.go:49-61 | As time passes a dated bucket only moves towards expired and an undated one not at all |
| `Expiry.BucketsByHours` | internal/registrar/expiry.go:22-61 | Each bucket iff its case: blank, unreadable, a command's, a token's, or a certificate's by the hours left: none, 24, 168, 720 |
| `Expiry.ExpiredFromNotAfter` | internal/registrar/expiry.go:49-52 | Every dated credential is expired from one moment on and not before |
| `Audit.Tally` | internal/registrar/registrar.go:674-713 | The loop counts every owned Secret in exactly one series, and the unrouted ones apart |
| `Audit.CountedByMarker` | internal/registrar/registrar.go:681-686 | A registration counts as demoted by its marker alone |
| `Audit.UnroutedByLabel` | internal/registrar/registrar.go:705-713 | Unrouted are those without a source label or with an empty one |
| `Audit.Publish` | internal/registrar/registrar.go:715-722 | Every series is set, also back to zero |
| `Audit.GaugesConserve` | internal/registrar/registrar.go:715-722 | The gauges add up to the number of owned Secrets |
| `Audit.PopulationAges` | internal/registrar/expiry.go:49-61 | With a fixed population the number at least so far aged never falls |

## Left out

- The manager, cache, watch, leader election and HTTP wiring of `Start` and `managerOptions`: library plumbing; the queue protocol is kept.
- Client construction, timeouts, log and error texts, Prometheus registration: I/O; the conflict and adoption counters and the gauges are kept as plain values.
- The warnings of discovery (shadowed exec-capable Secrets, keyless near-misses, missing provenance) and the texts of refusals: they decide nothing.
- YAML, JSON, x509, PEM and base64, `path.Match`, `url.Parse` (host syntax, section 3.2.2 of RFC 3986), the DNS-1123 check (section 2.1 of RFC 1123), the label-value check and the syntax of the parts of a qualified name: arbitrary functions.
- Calendar arithmetic of the stamp format: `StampRoundTrips` assumes formatting and parsing back floors a time to the second.
- Byte and Unicode detail of strings: strings are sequences of characters compared by code, lengths count characters, `TrimSpace` and lower-casing cover ASCII only.
- Finalizers and other reasons a delete is acknowledged without the object going away: a successful delete removes the object at once.
- Concurrent workers in one instance and two live instances: the controller runs one worker; interference comes from the other actors.
- The order in which keys and listed objects are visited is left open; the code sorts keys for its logs only.
- `LeaderElectionID`, provider presets and their parsing, command-line flags: fixed by constants or easy.
- Helm templates and the admission policy: not logic of this tool.
- Registrar.Registrar.CollectOne: the count is stated exactly only for a namespace that is gone; for a live one the code itself may count a Secret off that a conflict kept.
- Registrar.Registrar.constructor: under the two hands-off policies a run starts from a store in which none of our Secrets carries both ArgoCD's label and the demotion marker; what a pass makes of one that somebody edited so before the run is stated only for the other two.
- Registrar.Registrar.ReconcileOne: what a pass leaves behind is stated for an undisturbed pass, since others may change any of it again at once.
- Controller.Controller.Run: seeding and watch events fall between turns, not inside one; an event inside a turn is the same event right after it.
- Expiry.ParseThenClassify: needs the library's JSON decoding to invert its encoding, which is not proved here.
- Evidence.WriteEvolves: that foreign Secrets are spared is stated for an undisturbed store, because otherwise a delete by UID can hit a Secret that has just been disowned.
- Evidence.WriteCoherent: stated while others keep their hands off our Secrets, because anybody else may write both labels at any time.
- Guarantees.UidDeleteIsFairExactlyWhenStable: what others may do is one of the four policies of the model.
- Addresses.PassKeepsApart: stated for an undisturbed pass, because anybody else may give two Secrets one address at any time.
- Election.TakenExactlyWhenEldestDiscoverable: assumes the eldest's child is on an address of its own that nobody keeps; when the address is refused the name stays free as well.
