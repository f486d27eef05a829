# A model of pacto's stateful core

Pacto describes services by contracts, locks what those contracts refer to, shows a fleet on a dashboard and, in its
browser demo, delivers new versions under recorded decisions. This project models the parts of it where state,
concurrency or recursion make the behaviour hard to see from one function, and proves what they promise over every
input, every run or every reachable state.

| files | what they model |
|---|---|
| `Contracts`, `LockFile`, `ReferenceGraph`, `ReferenceMeaning`, `ReferenceWalk`, `ReferenceResolver`, `ReferenceClosure`, `ReferenceTwins` | building the transitive closure of a contract's references, with its memo, its ambiguity guard and its termination |
| `LockUpdate`, `LockPromises` | `pacto lock`: comparing a stored lock with a built one, and merging pins |
| `Versions`, `Delivery`, `DeliveryLife`, `DeliveryLedger`, `DeliveryRuns`, `DeliveryPromises`, `DeliveryUndo`, `DeliveryDecisions`, `DeliveryRequests`, `DeliveryPlans`, `DeliveryStale`, `DeliveryHistory`, `DeliveryDemo` | the demo's promoter: operations, queued steps, decisions, cancellation, automatic rollback, signed record streams |
| `ReadCache`, `ReadCacheRuns` | the dashboard's short-lived cache of a person's own reads |
| `SharedObjects`, `SharedList`, `TypedList` | lists answered from a shared store through indexes, and the typed list kept beside it |
| `Sessions`, `SessionRuns`, `SessionTokens`, `SessionAlone`, `SessionEnds` | signed-in sessions, their renewal with refresh tokens and their end, under every interleaving of requests |
| `Viewer`, `ViewerRuns` | what one person may see of a fleet snapshot, with the caches people share, under every interleaving of queries |
| `Tour`, `TourRuns` | the demo's guided tour |
| `Bytes`, `Signing`, `KeyFiles`, `KeyRuns` | what a signature covers, what an envelope id hashes, key files and the trust store they make |
| `Basics`, `Text`, `Order` | options and results, splitting at a separator, sorting by a key |

Where the source changes state step by step, a class has the source's fields and each method is proved equal to a
function on values; the promises are then lemmas about those functions. Where the source is concurrent, the functions
are the steps of a state machine and the promises are invariants of every run. The clock, the network, the registry,
the apiserver, the identity provider and random ids come in as parameters or as the choice of the next event.

## Where the code does less than is said of it

Each of these is stated exactly: where it fails, and the condition under which the promise holds.

- A reference closure that builds successfully can leave pins out: two contracts reached at different places but with the
  same content, whose relative references resolve to different bundles with one content each, are walked once
  (`ReferenceTwins.TwinsSlipThrough`). It is exact if and only if content fixes resolution (`ReferenceWalk.ExactIff`).
- The read cache forgets a person's reads before their write is sent, so a read that overtakes the write is kept and
  shown afterwards (`ReadCacheRuns.OwnWriteMissed`, `ReadCacheRuns.ReadDuringOwnWriteMissesIt`). So is a read begun before
  the write at the same clock reading, because only strictly older reads are dropped (`ReadCacheRuns.TiedWriteMissed`).
  A kept read shows its person's own writes in every continuation if and only if none was under way when it began and none
  met it since at its own clock reading (`ReadCacheRuns.ReadsOwnWritesIff`).
- The cache key's credentials part depends on the order a header map is ranged over; it is one string if and only if
  at most one identity header is set (`ReadCache.WhoIsStableIff`), and only then does a write always drop that person's
  own reads (`ReadCache.WriteForgetsIff`).
- Cancelling an operation that is already running does not stop its queued step from moving the pointer
  (`DeliveryPromises.CancelledStillApplies`); cancelling keeps its promise if and only if it was not running
  (`DeliveryPromises.CancelStops`).
- A promote cancelled while it runs that then fails its checks is never undone: the rollback looks it up in the list it
  was cancelled from (`DeliveryUndo.FailedVersionStays`, `DeliveryUndo.CancelledFailureStays`). A failed promote is rolled
  back if and only if it is still listed, its Stage is still on it, the version before it is there and did not fail, and the
  plan back starts (`DeliveryUndo.FailureIsUndoneIff`).
- If the checks of such a promote cannot tell, it waits off the list for a decision nobody can give, in every run
  (`DeliveryUndo.CancelledUnknownStays`).
- Going over the held changes after a conclusion passes by one that can no longer be planned, or only to be rejected: it
  keeps its old plan and question (`DeliveryStale.StaleQuestionStays`). Any change held for an order is brought up to date if
  and only if it can still be planned and not only to be rejected (`DeliveryPlans.PassReplans`).
- Two operations of one Stage can be checked at once; concluded in the other order they read back as a move with no record
  although both were recorded (`DeliveryHistory.OverlapLooksHidden`). A stream reports no such move if and only if each
  operation began where the last one recorded before it left the Stage (`DeliveryHistory.StreamHidesNothingIff`).
- A session ended while its renewal is at the identity provider gets a new refresh token nobody revokes
  (`SessionEnds.LateTokenStays`). An ended session's last token was given back if and only if no renewal was answered and
  not yet written back when it ended, and none was answered since (`SessionEnds.GivenBackIff`).
- A skip past its deadline leaves the reader where they are on a gated last step (`TourRuns.SkipStrands`); it keeps its
  promise if and only if there is a next step, or the step holds and its gate has settled (`TourRuns.SkipDeadline`).
- A promote that finds its Stage frozen waits, and is never taken up again by the demo (`DeliveryPromises.PendingStays`).
- `evidence keygen --force` can give a key id to a second producer, and the directory then no longer loads; no key id is
  trusted for two producers if and only if no run did so, and without `--force` none does (`KeyRuns.OnePerKeyIff`,
  `KeyRuns.UnforcedIsOnePerKey`).
- `pacto lock` keeps a pin when the constraint's text is unchanged, not when the pinned version still satisfies it, so
  `lock --check` right after `lock` can fail (`LockUpdate.LockThenCheckFails`); it passes if and only if no kept pin has
  drifted (`LockUpdate.CheckAfterLock`).

## Model

| member | source | states |
|---|---|---|
| `Contracts.ReferenceRefs` | pkg/contract/contract.go:344-357 | the result lists the policies that have a ref and then the configurations that have one, each once, with its own kind, name and ref, in the order the contract declares them, and nothing else |
| `Contracts.ReferencesAreDeclared` | pkg/contract/contract.go:344-357 | a reference is listed if and only if the contract declares it, as a policy or as a configuration, with a ref |
| `Contracts.DuplicateDeclarations` | pkg/contract/contract.go:384-401 | exactly the policies and the configurations whose name an earlier one of their kind has are reported, each with the position of the last such one before it; nothing is if and only if no kind repeats a name |
| `Contracts.RepeatedIffNotDistinct` | pkg/contract/contract.go:384-401 | nothing is reported of one kind if and only if its names are distinct |
| `Contracts.RepeatedAreRepeats` | pkg/contract/contract.go:384-401 | every repeat is reported, in the order declared, and nothing else is |
| `Contracts.DuplicatesIffNotDistinct` | pkg/contract/contract.go:384-401 | a contract is refused if and only if one kind declares one name twice |
| `Contracts.ReferringComesFrom` | pkg/contract/contract.go:344-357 | every reference listed is a declaration of that kind with that ref |
| `Contracts.OneDeclaration` | pkg/contract/contract.go:344-357 | without duplicates a kind and a name are one reference |
| `ReferenceGraph.FiniteContentsClosed` | internal/app/lock_build.go:98-155 | finitely many content identities give a finite set of occurrences closed under resolution, whatever the cycles or paths |
| `ReferenceGraph.ExactIsUnique` | internal/app/lock_build.go:98-155 | the graph determines an exact closure's entries |
| `ReferenceGraph.ExactNeedsFixedResolution` | internal/app/lock_build.go:98-155 | no exact closure exists unless content fixes resolution and every reachable ref resolves |
| `ReferenceMeaning.ExactMeans` | internal/app/lock_build.go:98-155 | an exact closure is one that pins every policy and configuration with a ref of every contract met on some trail from the root, to what that ref resolves to there, once, and pins nothing else |
| `ReferenceMeaning.SameContentIff` | pkg/lock/lock.go:237-250 | two entries name one content if and only if they have one source and pin one non-empty hash or digest |
| `ReferenceWalk.WalkFrom` | internal/app/lock_build.go:114-149 | the walk terminates on every such graph: each descent first adds an unseen occurrence; `seen` only grows |
| `ReferenceWalk.WalkContractFinishes` | internal/app/lock_build.go:104-150 | a successful walk finishes the node it was asked for and leaves no other half walked, cycles included |
| `ReferenceWalk.WalkIsExact` | internal/app/lock_build.go:98-155 | if content fixes resolution, the output has exactly one entry per occurrence any reachable contract declares, each pinned to what its ref resolves to from the declaring directory |
| `ReferenceWalk.RefusalExplained` | internal/app/lock_build.go:98-155 | a refusal names a reachable declaration that does not resolve, or two reachable ones of one occurrence that resolve differently |
| `ReferenceWalk.ExactIff` | internal/app/lock_build.go:98-155 | the walk builds an exact closure if and only if every reachable ref resolves and content fixes resolution |
| `ReferenceTwins.TwinsSlipThrough` | internal/app/lock_build.go:129-135 | a concrete tree whose walk succeeds and is not exact |
| `ReferenceResolver.IdentityFixesTarget` | internal/app/lock_build.go:189-224 | equal identities stand for one bundle, whatever refs and directories they came from |
| `ReferenceResolver.RegistryRefPins` | internal/app/lock_build.go:189-224 | a registry ref resolves if and only if the registry gives it a digest, and pins that digest and the contract it names |
| `ReferenceResolver.LocalRefPins` | internal/app/lock_build.go:189-224 | any other ref resolves if and only if it is not declared inside a registry bundle and the bundle at its path loads and hashes, and pins that hash and that contract |
| `ReferenceResolver.ResolverCoherent` | internal/app/lock_build.go:189-224 | the resolver is coherent: an identity, its entry and its child agree wherever they are met |
| `ReferenceResolver.RegistryFixesResolution` | internal/app/lock_build.go:189-224 | a closure of registry refs only always meets the condition of exactness |
| `ReferenceClosure.ClosureBuilder.Lookup` | internal/app/lock_build.go:115-122 | the memo gives what resolving afresh would give, for every directory and ref |
| `ReferenceClosure.ClosureBuilder.WalkNode` | internal/app/lock_build.go:104-150 | the memoised, mutating walk is the plain walk: same output, same order, same refusal |
| `ReferenceClosure.BuildReferenceClosure` | internal/app/lock_build.go:98-155 | only what contracts met from the root declare is pinned, each occurrence once; everything they declare is if and only if contracts of one content mean the same by their refs; a refusal is explained |
| `ReferenceClosure.BuildRegistryClosure` | internal/app/lock_build.go:98-155 | with registry refs only it succeeds if and only if no contract met from the root repeats a name or has a ref that does not resolve, and then pins everything declared |
| `LockUpdate.FindDependency` | pkg/lock/lock.go:190-197 | the first entry of that name, and none if and only if no entry has it |
| `LockUpdate.CompareLocks` | internal/app/lock.go:122-167 | the loops find the first divergence of the specification, in its order |
| `LockUpdate.Pigeonhole` | internal/app/lock.go:122-167 | as many keys as the distinct ones they cover: no repeat and no extra |
| `LockUpdate.AcceptsIffMirrors` | internal/app/lock.go:122-182 | a lock is accepted if and only if it mirrors the built closure: same names and occurrences, no duplicate, no extra, equal pins and sources |
| `LockUpdate.MergePreservingPins` | internal/app/lock.go:187-205 | a dependency named for update is as built, and so is one whose first existing entry is missing or has another constraint; every other one has that entry's version, digest and hash and is otherwise as built; references are as built |
| `LockUpdate.MergeTouchesOnlyPins` | internal/app/lock.go:187-205 | the merge keeps built names, order, sources, constraints, edges and references, and changes only kept pins |
| `LockUpdate.LockCommand` | internal/app/lock.go:48-99 | every branch of the command: check, update, first run, unchanged and merged |
| `LockUpdate.MergeFixed` | internal/app/lock.go:187-205 | merging what was written with the same closure changes nothing |
| `LockUpdate.LockConverges` | internal/app/lock.go:78-98 | a second run with the same closure and options leaves the same file, on either branch |
| `LockUpdate.WrittenAccepted` | internal/app/lock.go:122-182 | a written lock is accepted if and only if each pin is the one resolved now |
| `LockUpdate.CheckAfterLock` | internal/app/lock.go:48-99 | `lock --check` passes right after `lock` if and only if it updated, was new, already matched, or kept no drifted pin |
| `LockUpdate.LockThenCheckFails` | internal/app/lock.go:48-99 | one kept pin whose version moved on: `lock` keeps it and `lock --check` then fails |
| `LockPromises.CommandPromises` | internal/app/lock.go:48-99 | checking writes nothing and passes if and only if the file mirrors what was built; updating and the first run write what was built; otherwise a mirror is left alone and anything else is written with the pins it keeps |
| `LockPromises.DivergenceIsSo` | internal/app/lock.go:122-182 | whatever divergence a lock is refused for is one it has |
| `LockPromises.StoredInOrder` | pkg/lock/lock.go:126-151 | the file has the current schema and the same members and edges, dependencies by name, references by declarer, kind, name, ref and path, edges in order |
| `LockPromises.StoredIgnoresOrder` | pkg/lock/lock.go:126-151 | locks with the same members in any order are stored as one file |
| `Versions.VersionOf` | examples/demo/source_delivery.go:185-192 | the loop finds the version a digest is of, or finds that it is none of the service's |
| `Versions.OneService` | examples/story/story.go:368-373 | a digest names one version of one service, for every catalogue of services without an '@', the demo's among them |
| `Delivery.AnsweredTeams` | pkg/delivery/lifecycle.go:77-85 | the teams answered are those answered before and the owners this approver is in |
| `Delivery.TeamsWaiting` | pkg/delivery/lifecycle.go:90-92 | the teams waiting are the owners not answered; none waits if and only if all are |
| `Delivery.Admit` | examples/demo/source_delivery.go:602-626 | a new operation has the next uid and the kind asked for; a rollback is admitted only of an applied operation its actor may undo |
| `DeliveryUndo.OnlyPromotesAreUndone` | examples/demo/source_delivery.go:748-763 | the promoter's own rollback of anything but a promote changes nothing, so its nested moves end |
| `DeliveryLife.ProposeGood` | examples/demo/source_delivery.go:602-639 | a request, with everything it sets off, keeps the invariant and touches no operation there was |
| `DeliveryLife.StartGood` | examples/demo/source_delivery.go:643-660 | so does starting, whether steps are queued or run at once |
| `DeliveryLife.VerifyGood` | examples/demo/source_delivery.go:719-744 | so does verifying, with the conclusion, rollback and step-down it sets off |
| `DeliveryLife.ConcludeGood` | examples/demo/source_delivery.go:787-825 | so does concluding: number, window, memory, record and replanned changes |
| `DeliveryLife.RollBackGood` | examples/demo/source_delivery.go:748-782 | so does an automatic rollback and step-down |
| `DeliveryRuns.DecideGood` | examples/demo/source_delivery.go:1035-1066 | so does a decision, in all five outcomes |
| `DeliveryPromises.OnceEach` | examples/demo/source_delivery.go:602-674 | in every reachable world each operation ever made started, moved a pointer and concluded at most once, and its Stage's conclusions tell it once exactly when it has concluded |
| `DeliveryPromises.ForwardOnly` | examples/demo/source_delivery.go:602-744 | no step of any run takes an operation back from concluded, applied or running, cancelled or not |
| `DeliveryPromises.PointerHasMover` | examples/demo/source_delivery.go:650-658 | a Stage's pointer changes only in a step in which an operation of that Stage makes the one move it ever makes |
| `DeliveryPromises.QueueIsPhase` | examples/demo/source_delivery.go:643-674 | one apply is queued exactly while an operation runs, one verify exactly while it verifies, nothing else ever |
| `DeliveryPromises.CancelStops` | examples/demo/source_delivery.go:1068-1081 | after a cancellation no step of any run changes the Stage's pointer on that operation's account or names it the Stage's last operation, if and only if it was not running |
| `DeliveryPromises.CancelledStillApplies` | examples/demo/source_delivery.go:650-658 | a running operation's queued step moves the pointer, listed or not |
| `DeliveryPromises.StartsWhenAnswered` | examples/demo/source_delivery.go:1035-1066 | a held operation starts only by a decision after which every team its plan asks was answered for by a member who did not reject it |
| `DeliveryPromises.AppliesOnce` | examples/demo/source_delivery.go:650-658 | an apply moves the Stage to the version asked for, as its last operation, and notes where it came from |
| `DeliveryPromises.RollbackRestores` | examples/demo/source_delivery.go:748-763 | in every reachable world each rollback ever made cites an applied operation of its own Stage; once applied, in a step of its own or at once, it left the Stage on the version from before that operation, and while queued its step will |
| `DeliveryPromises.RollbackMoves` | examples/demo/source_delivery.go:650-658 | in every world a rollback is applied in, queued or at once, its move puts the Stage on the version from before an applied operation of that same Stage |
| `DeliveryUndo.RollbackAdmittedIff` | pkg/delivery/lifecycle.go:173-193 | a rollback is admitted if and only if the operation cited is listed in the namespace and applied, the Stage is where that one went, and the actor may go back, with a plan, to a version of the Stage's service that did not fail there |
| `DeliveryUndo.FailureIsUndoneIff` | examples/demo/source_delivery.go:719-763 | in every reachable world the queued check that fails a promote starts the rollback to the version before it if and only if it is still listed, its Stage is still on it, that version exists and did not fail, and its plan starts |
| `DeliveryUndo.ReplayedFailureIff` | examples/demo/source_delivery.go:643-674 | the same if and only if where steps run at once, as in the replay |
| `DeliveryUndo.CancelledFailureStays` | examples/demo/source_delivery.go:748-763 | in every reachable world the failed check of an operation no longer listed makes no rollback |
| `DeliveryUndo.FailedVersionStays` | examples/demo/source_delivery.go:719-763 | the run that shows it, for any two versions: asked for, cancelled while running, applied, failed, with the failed version in place and nothing queued |
| `DeliveryUndo.CancelledUnknownStays` | examples/demo/source_delivery.go:1022-1031 | in every run after an inconclusive check of an operation no longer listed it stays held, neither accepted nor rejected |
| `DeliveryDecisions.DecisionTells` | examples/demo/source_delivery.go:1035-1066 | in every reachable world a decision is counted, and then: with teams still waiting nothing else changes; a rejection of a released version tells the Stage of a failure and of any other change of a rejection; an acceptance of a released version tells it of a success accepted unknown; any other acceptance starts the change |
| `DeliveryDecisions.RejectionIsUndoneIff` | examples/demo/source_delivery.go:1035-1066 | in every reachable world rejecting a released promote starts the rollback to the version before it if and only if its Stage is still on it, that version exists and did not fail, and its plan starts |
| `DeliveryDecisions.CheckTells` | examples/demo/source_delivery.go:719-744 | in every reachable world a Stage is told of a pass as a verified success and of a failure as an unverified one, and of a check that cannot tell nothing |
| `DeliveryDecisions.ConcludeTells` | examples/demo/source_delivery.go:787-825 | a conclusion is appended to its Stage's under the next number, with that outcome and verification, and the Stage remembers what the policy says of it; no other Stage changes |
| `DeliveryRequests.RequestTakenIff` | examples/demo/source_delivery.go:508-626 | a request other than a rollback is taken if and only if it names a version of the service or a level, can be planned, and its plan is the one it was shown; the one new operation is for exactly that, by that actor, with that plan |
| `DeliveryRequests.RequestDoes` | examples/demo/source_delivery.go:602-639 | in every reachable world a request changes nothing but the views, or makes one operation and rejects, holds, parks or starts it as its plan predicts |
| `DeliveryRequests.LevelMoves` | examples/demo/source_delivery.go:787-825 | a level change that succeeds clears the pointer when it goes to observe, takes up what runs when it leaves it, and otherwise, or when it does not succeed, leaves the pointer; its record says so |
| `DeliveryRequests.StepDownIff` | examples/demo/source_delivery.go:769-782 | the promoter asks for one level lower if and only if checks failed a promote no person asked for or answered for, on a level that needs no answer, and such a change can be planned |
| `DeliveryRequests.FailureLowersIff` | examples/demo/source_delivery.go:719-782 | in every reachable world the step that fails an operation's checks ends so if and only if that holds where its rollback leaves the world |
| `DeliveryRequests.CancelTakesIff` | examples/demo/source_delivery.go:1068-1081 | in every reachable world a cancellation takes an operation off the list if and only if it is there, of that namespace, neither applied nor concluded; otherwise nothing changes |
| `DeliveryRequests.OnlyHeldIsDecided` | examples/demo/source_delivery.go:1022-1031 | in every reachable world a decision on what is not listed, not held or of another namespace changes nothing but the views |
| `DeliveryRequests.StrangersOnlyCount` | examples/demo/source_delivery.go:381-391 | in every reachable world a stranger's record is counted and changes nothing else, and the story's gap is one record without an operation, with a stranger's beside it |
| `DeliveryPromises.PendingStays` | examples/demo/source_delivery.go:633-634 | a promote that found its Stage frozen stays pending in every run: nothing takes it up again |
| `DeliveryPromises.HistoryHolds` | examples/demo/source_delivery.go:787-825 | in every reachable world, foreign records stored at any time included, a stream's records are numbered 1 to n, each naming the one before; head, recorded number and count agree; every conclusion has its own record; the window is the last twenty conclusions, or all while there are fewer, in increasing order |
| `DeliveryRuns.StepLedger` | examples/demo/source_delivery.go:602-825 | every step of the machine keeps each Stage's account: who moved its pointer last, on versions of its own service, and which conclusions it tells |
| `DeliveryPromises.ReadsAreCurrent` | examples/demo/source_delivery.go:87-103 | every read shows the world as it is, cached views or not |
| `DeliveryPlans.ReplanIsCurrent` | examples/demo/source_delivery.go:830-848 | if plans read Stages, the list and applied operations, as the proposed level does, each change gone over ends as planning it again once in the world they end in leaves it, in any order |
| `DeliveryPlans.ConcludeReplans` | examples/demo/source_delivery.go:787-848 | after any conclusion a listed change that was held for an order has its current plan, or its old one with no order to wait for, if and only if it can still be planned and not only to be rejected; it and every other change are otherwise as they were |
| `DeliveryPlans.PassReplans` | examples/demo/source_delivery.go:719-744 | so it is in every run, for the step in which an operation passes its checks and the world that step ends in |
| `DeliveryStale.StaleQuestionStays` | examples/demo/source_delivery.go:838-840 | a run of four events after which a held change keeps a plan that is not the one it would get |
| `DeliveryHistory.FoldFindsBreaks` | pkg/delivery/history.go:32-64 | the fold reports no fork, hole, broken link or lost beginning if and only if the records are a chain from 1 |
| `DeliveryHistory.BySeqKeeps` | pkg/delivery/history.go:34-36 | sorting keeps the records and puts their numbers in order |
| `DeliveryHistory.FoldStream` | pkg/delivery/history.go:32-84 | the same records by number and id; each fork, hole, broken link, lost beginning, gap and unrecorded move is reported if and only if those records have it; a chain comes back unchanged, whole, with its last record as head |
| `DeliveryHistory.StreamReadsWhole` | examples/demo/source_delivery.go:482-495 | at any moment of any run a Stage's stream reads back whole, with the Stage's head |
| `DeliveryHistory.StreamHidesNothingIff` | pkg/delivery/history.go:66-84 | at any moment of any run the fold reports no unrecorded move if and only if each recorded operation began where the last one recorded before it left the Stage |
| `DeliveryHistory.OverlapLooksHidden` | pkg/delivery/history.go:66-84 | from every reachable world with two operations of a Stage under check, concluding first one that does not end where the other began makes the fold report an unrecorded move |
| `DeliveryDemo.TeamsAnswered` | pkg/delivery/lifecycle.go:77-85 | the loop computes the teams answered |
| `DeliveryDemo.Demo.constructor` | examples/demo/source_delivery.go:109-117 | the world before the replay: its Stages and streams, no operation and nothing queued |
| `DeliveryDemo.Demo.Keep` | examples/demo/source_delivery.go:482-495 | the method is the specification's `Store`: own records join the stream, others only count as unreadable |
| `DeliveryDemo.Demo.MakeGap` | examples/demo/source_delivery.go:381-391 | the method is `GapAndStranger` |
| `DeliveryDemo.Demo.ReplanHeld` | examples/demo/source_delivery.go:830-848 | the loop is `Replan` over the list as it stands |
| `DeliveryDemo.Demo.ConcludeOp` | examples/demo/source_delivery.go:787-825 | the method is `Conclude` |
| `DeliveryDemo.Demo.ProposeOp` | examples/demo/source_delivery.go:602-639 | the method is `Propose`, refusals included |
| `DeliveryDemo.Demo.StartOp` | examples/demo/source_delivery.go:643-660 | the method is `Start` |
| `DeliveryDemo.Demo.ApplyOp` | examples/demo/source_delivery.go:650-658 | the method is `FireApply` |
| `DeliveryDemo.Demo.VerifyOp` | examples/demo/source_delivery.go:719-744 | the method is `FireVerify` |
| `DeliveryDemo.Demo.AutoRollback` | examples/demo/source_delivery.go:748-763 | the method is `RollBack` |
| `DeliveryDemo.Demo.LowerLevel` | examples/demo/source_delivery.go:769-782 | the method is `StepDown` |
| `DeliveryDemo.Demo.DecideOp` | examples/demo/source_delivery.go:1035-1066 | the method is `Decide`, whose five outcomes `DeliveryDecisions.DecisionTells` and `DeliveryDecisions.RejectionIsUndoneIff` tell from the world before |
| `DeliveryDemo.Demo.AskFor` | examples/demo/source_delivery.go:1008-1018 | the method is the machine's step for a request: propose, then drop the views |
| `DeliveryDemo.Demo.Approve` | examples/demo/source_delivery.go:1022-1031 | the method is the machine's step for a decision; one on an operation not held changes nothing but the views |
| `DeliveryDemo.Demo.Withdraw` | examples/demo/source_delivery.go:1068-1081 | the method is the machine's step for a cancellation, refused once applied or concluded |
| `DeliveryDemo.Demo.RunStep` | examples/demo/source_delivery.go:663-674 | the method is the machine's step for a queued task |
| `DeliveryDemo.Demo.Snapshot` | examples/demo/source_delivery.go:91-103 | the method is the machine's step for a read: it makes the views once and hands them out |
| `ReadCache.CacheKeyInjective` | internal/cli/dashboard_readcache.go:82-119 | a cache key names one pair of credentials and URL |
| `ReadCache.WhoIsStableIff` | internal/cli/dashboard_readcache.go:63-72 | the credentials' name is the same for every order of the header map if and only if it has at most one header |
| `ReadCache.WriteForgetsIff` | internal/cli/dashboard_readcache.go:63-72 | a write drops these credentials' reads from every cache, whatever order its headers come in, if and only if there is at most one |
| `ReadCache.Reads.Fresh` | internal/cli/dashboard_readcache.go:121-126 | the answer kept for the key, while younger than the limit |
| `ReadCache.Reads.Put` | internal/cli/dashboard_readcache.go:128-139 | the new entries, size and emptying of the cache when full |
| `ReadCache.Reads.Forget` | internal/cli/dashboard_readcache.go:142-158 | a write drops that writer's reads, prunes old writers and notes the time |
| `ReadCache.Reads.Wrote` | internal/cli/dashboard_readcache.go:162-167 | whether the writer wrote within the limit |
| `ReadCache.ReadsKept` | internal/cli/dashboard_readcache.go:121-139 | a read not older than the last write is served until it is too old, and the others stay unless it would not fit; an older one changes nothing |
| `ReadCache.WritesKept` | internal/cli/dashboard_readcache.go:142-167 | a write takes that writer's reads and no others, and it and every other writer's recent write are remembered as long as they are recent |
| `ReadCacheRuns.ServesOwnRecentReads` | internal/cli/dashboard_readcache.go:82-158 | in every run what the cache serves is the answer to the same URL and credentials, of a request begun within the limit and not before that person's last write |
| `ReadCacheRuns.AnswerKeptIff` | internal/cli/dashboard_readcache.go:82-139 | in every run an answer is kept if and only if it is a success or a refusal, not too long, and was asked for no earlier than the last write of anyone |
| `ReadCacheRuns.SizeIsBounded` | internal/cli/dashboard_readcache.go:128-158 | in every run the size kept is the sum of the bodies and within the limit |
| `ReadCacheRuns.PruningIsInvisible` | internal/cli/dashboard_readcache.go:142-167 | forgetting old writers never changes an answer the full history would give |
| `ReadCacheRuns.ReadsOwnWritesIff` | internal/cli/dashboard_readcache.go:82-158 | in every run, a read under way that would be kept shows its person's own writes in every continuation if and only if none was under way when it began and none has met it at its own clock reading |
| `ReadCacheRuns.ClearReadsShowOwnWrites` | internal/cli/dashboard_readcache.go:82-158 | in every run a kept answer of such a read shows every own write that landed |
| `ReadCacheRuns.ReadDuringOwnWriteMissesIt` | internal/cli/dashboard_readcache.go:82-119 | from every reachable state in which an own write is under way, a read begun then can be kept and served without it once it landed |
| `ReadCacheRuns.OwnWriteMissed` | internal/cli/dashboard_readcache.go:82-119 | the run of four events that shows it |
| `ReadCacheRuns.TiedWriteMissed` | internal/cli/dashboard_readcache.go:128-139 | four events after which a read begun with no own write under way is served without a write made at the same clock reading |
| `SharedList.SelectorOf` | internal/cli/dashboard_shared.go:383-397 | a request is answered here if and only if it has no labels, limit, continuation, version or watch and its field selector parses and names only the name, the namespace and, for operations, the stage and the outcome |
| `SharedList.StageIndexAgreesWithScan` | internal/cli/dashboard_shared.go:126-132 | the stage bucket, filtered, is the namespace's matching objects, given namespaces without a slash |
| `SharedList.NamespaceIndexAgreesWithScan` | internal/cli/dashboard_shared.go:347-378 | so is the namespace bucket |
| `SharedList.Candidates` | internal/cli/dashboard_shared.go:347-378 | whichever index is chosen, filtering it gives what filtering the store gives |
| `SharedList.List` | internal/cli/dashboard_shared.go:347-406 | the answer is the sorted scan of the whole store, a refusal, or a delegation, for every selector and every store |
| `SharedList.ScanHolds` | internal/cli/dashboard_shared.go:347-420 | the answer is the store's objects of the namespace that meet every requirement on name, namespace, stage or outcome, each as often as the store has it, by namespace and name |
| `TypedList.NarrowedView` | internal/cli/dashboard_shared.go:185-220 | narrowing the whole sorted, converted list to a namespace is listing that namespace |
| `TypedList.ViewHolds` | internal/cli/dashboard_shared.go:185-220 | a view is the store's objects that are kept and of the namespace, each as often as the store has it, by namespace and name, converted |
| `TypedList.SearchNamespace` | internal/cli/dashboard_shared.go:185-199 | the binary search finds the first item at or past the namespace |
| `TypedList.NamespaceSlice` | internal/cli/dashboard_shared.go:185-199 | the two searches delimit exactly the namespace's items |
| `TypedList.List.Rebuild` | internal/cli/dashboard_shared.go:201-220 | the list is rebuilt into a new array; arrays handed out before are never written |
| `TypedList.List.In` | internal/cli/dashboard_shared.go:185-199 | the slice returned is the namespace's view of a store at least as recent as every change counted before the call |
| `TypedList.NoChangeIsLost` | internal/cli/dashboard_shared.go:160-220 | in every run of changes and calls, with the refresh `List.In` makes, every answer is of a store version that holds every change counted before it was asked for |
| `TypedList.AnswersStand` | internal/cli/dashboard_shared.go:160-220 | what an answer holds is one store version's view of its namespace, and no later change or call alters it |
| `Sessions.Refreshed` | internal/authn/oidc.go:487-515 | the ID token and its expiry are the answer's; the refresh token is the answer's if it has one and the old one otherwise; the person is the answer's if it names one or another subject and the old one otherwise; the sign-in stays |
| `Sessions.Session.WriteBack` | internal/authn/oidc.go:480-482 | renewal writes back the ID token, refresh token, expiry and person, nothing else |
| `Sessions.Session.Touch` | internal/authn/oidc.go:450-452 | a request updates when the session was last seen, nothing else |
| `Sessions.Table.Add` | internal/authn/oidc.go:341-346 | a sign-in adds one new session under its own id |
| `Sessions.Table.End` | internal/authn/oidc.go:378-392 | ending removes that id and nothing else, and asks for the session's refresh token, if it has one, to be revoked |
| `Sessions.Table.Sweep` | internal/authn/oidc.go:408-421 | a sweep ends the sessions past twelve hours, or past an hour unseen, or the limits set instead, and no other, and asks for exactly their tokens to be revoked |
| `Sessions.Table.Get` | internal/authn/oidc.go:426-484 | nothing is returned if and only if the id is unknown, its limits have passed, or its token has and cannot be renewed; otherwise what is returned and kept has the answer's tokens if it was renewed and the old ones if not; what is ended and revoked in every branch |
| `Sessions.Served` | internal/authn/oidc.go:426-484 | only a session within its limits is served, with the same sign-in, and with an unexpired ID token or one just renewed |
| `SessionRuns.RenewsOnce` | internal/authn/oidc.go:457-484 | in every interleaving a session has one renewal under way, and the next begins only when what the last brought is about to expire |
| `SessionRuns.TokenShownOnce` | internal/authn/oidc.go:457-515 | with a provider that rotates refresh tokens (section 6 of RFC 6749), no token is shown twice unless showing it failed before |
| `SessionRuns.ServedIsSignedIn` | internal/authn/oidc.go:426-455 | every session handed out was signed in, was within its idle and absolute limits when read, and has an ID token not past its expiry |
| `SessionRuns.SignInIsFinal` | internal/authn/oidc.go:423-515 | nothing later changes a session's id, creation, authentication time (section 12.2 of OpenID Connect Core 1.0) or CSRF token, and an ended session never returns |
| `SessionTokens.TokensAreTheAnswers` | internal/authn/oidc.go:457-515 | in every run a session's ID token and expiry are those of the last answer to it, its refresh token the last one an answer brought, its person the last one an answer named, or those of its sign-in |
| `SessionTokens.HandedTheAnswers` | internal/authn/oidc.go:426-515 | in every run so is what a request is handed, of its sign-in and of the answers up to some moment |
| `SessionAlone.AloneIsServed` | internal/authn/oidc.go:426-484 | in every state of every run, every run of only that request's own steps that ends with it gone gives and leaves exactly what `Sessions.Table.Get` promises for the provider's answer in it |
| `SessionAlone.AloneFinishes` | internal/authn/oidc.go:426-484 | and from every such state some run of only its own steps ends with it gone and so served, for each answer the provider may give |
| `SessionEnds.GivenBackIff` | internal/authn/oidc.go:378-392 | with a provider that rotates refresh tokens, in every run after a session ended by whatever step, its last token was given back if and only if no renewal was answered and unwritten when it ended and none was answered since |
| `SessionEnds.QuietEndGivesBack` | internal/authn/oidc.go:457-484 | so a session that ends with no renewal at the provider or unwritten never has another token |
| `SessionEnds.LateTokenStays` | internal/authn/oidc.go:470-482 | the run of six events that leaves one: ended while its renewal is at the provider |
| `SessionRuns.StepTable` | internal/authn/oidc.go:294-351 | the table gains an entry only by a sign-in |
| `Viewer.WhoKeyNamesThePerson` | internal/authn/viewer.go:201-246 | one cache name is one user and the same groups, but for no groups and only the empty one, which share a name |
| `Viewer.AnswerKeyInjective` | internal/authn/viewer.go:226-246 | an answer's key names one person and one namespace |
| `Viewer.SameKeySameView` | internal/authn/viewer.go:170-196 | namespace lists whose keys collide, no namespaces and only the empty one, see the same |
| `Viewer.Restrict` | pkg/fleet/restrict.go:71-83 | a namespace of the snapshot is hidden if and only if it is not among the visible ones or has no name |
| `Viewer.View.Ask` | internal/authn/viewer.go:226-246 | a review comes from the cache while it lasts, else it is asked and kept, and a failed one is not |
| `Viewer.View.Visible` | internal/authn/viewer.go:201-223 | the namespaces allowed, in order; one failed review fails the whole |
| `Viewer.View.Show` | internal/authn/viewer.go:170-223 | a cluster-wide reader gets the whole snapshot; anyone else gets it with a namespace hidden if and only if its review did not allow it or it has no name; cached views stay those of the snapshot asked |
| `Viewer.AnswersKept` | internal/authn/viewer.go:226-246 | a review kept is given for as long as it lasts, and keeping it drops others only when there are too many |
| `Viewer.ViewsKept` | internal/authn/viewer.go:170-196 | a view kept is given for its snapshot and no other, and keeping it drops those of other snapshots, and of its own only when there are too many |
| `ViewerRuns.SharedViewIsOwnView` | internal/authn/viewer.go:170-196 | for every interleaving of people and snapshots a cached view is the restriction the person would get |
| `ViewerRuns.QueryIsOwnView` | internal/authn/viewer.go:170-246 | in every interleaving of queries' own steps, what a query returns is its snapshot, whole, or with a namespace hidden if and only if its reply did not allow it or it has no name; each reply is a review of that person within the limit |
| `ViewerRuns.AnswerIsRecentReview` | internal/authn/viewer.go:226-246 | in every run a cached answer is a review, within the limit, of that namespace for that user and those groups |
| `Tour.Runner.constructor` | examples/demo/tour.js:75-76 | the variables a loaded page starts with |
| `Tour.Runner.GoTo` | examples/demo/tour.js:459-522 | the method is the specification's `GoStep`: out-of-range or stopped changes nothing |
| `Tour.Runner.MoveOn` | examples/demo/tour.js:234-238 | the method is `Advance`: a visit that handed off does nothing |
| `Tour.Runner.Skip` | examples/demo/tour.js:240-247 | the method is `SkipStep`: a second press does nothing |
| `Tour.Runner.Tick` | examples/demo/tour.js:255-315 | the method is `Frame`, gate, hold, confirmation and deadline |
| `Tour.Runner.Begin` | examples/demo/tour.js:527-543 | the method is `Start` |
| `Tour.Runner.Leave` | examples/demo/tour.js:547-568 | the method is `Exit` |
| `Tour.Runner.PressNext` | examples/demo/tour.js:414-416 | the method is `ClickNext`: the last step exits |
| `Tour.BeginsAtFirst` | examples/demo/tour.js:527-543 | a tour begins at its first step, on a new visit, unless one is running |
| `Tour.NextGoesOn` | examples/demo/tour.js:234-238 | Next goes on by one, once a visit, and on the last step ends the tour |
| `Tour.BackGoesBack` | examples/demo/tour.js:459-522 | Back goes one back, from the first step nowhere, and arrives not forward |
| `Tour.LeaveEnds` | examples/demo/tour.js:547-568 | leaving ends the tour where it is, with nothing pending |
| `Tour.OpenGateMoves` | examples/demo/tour.js:255-315 | a gate that is news and is seen open when it settles and when it is confirmed moves the tour by one step, or on a holding step shows Next |
| `Tour.ShutGateArms` | examples/demo/tour.js:255-289 | a gate seen shut is news from then on, and nothing counts as settled |
| `TourRuns.OneMoveAVisit` | examples/demo/tour.js:234-238 | in every run a visit hands off at most once, and only a hand-off moves to the next step, by one |
| `TourRuns.MovesForAReason` | examples/demo/tour.js:255-315 | a frame moves the tour only if the gate was news, seen open on every frame for the settling and confirming time with no input in the settling time, or a skip of this visit ran out |
| `TourRuns.SettledMoves` | examples/demo/tour.js:308-314 | once confirmed long enough, an open gate moves the tour by one step if and only if the step does not hold and is not the last, skip pending or not |
| `TourRuns.HoldsStill` | examples/demo/tour.js:290-307 | once a holding step's gate settled, no frame of that visit moves the tour, whatever happens in between |
| `TourRuns.SkipDeadline` | examples/demo/tour.js:308-314 | the first frame after a skip's deadline leaves the step or shows Continue if and only if there is a next step, or it holds and has settled |
| `TourRuns.SkipStrands` | examples/demo/tour.js:234-238 | a tour of one gated step, skipped: past the deadline it is still there with no button |
| `Bytes.PutUint64` | internal/app/evidence.go:330-335 | the loop writes the eight big-endian bytes |
| `Signing.PaeReads` | examples/demo/source_delivery.go:395-398 | the encoding a signature covers (PAE of the DSSE v1 protocol) determines its type and payload, spaces and digits included |
| `Signing.PaeInjective` | examples/story/evals.go:43 | so no two pairs share their bytes |
| `Signing.PaeExample` | examples/demo/source_delivery.go:395-398 | the lengths of the DSSE v1 protocol's own example give its bytes |
| `Signing.WriteLenPrefixed` | internal/app/evidence.go:330-335 | a field is hashed after its length |
| `Signing.DefaultEnvelopePreimage` | internal/app/evidence.go:319-328 | the bytes written into the hash, in order |
| `Signing.PreimageReads` | internal/app/evidence.go:319-335 | those bytes determine API version, producer, 64-bit sequence and evidence, for fields shorter than 2^64 bytes |
| `Signing.PreimageInjective` | internal/app/evidence.go:319-335 | so no field boundary can be confused with another |
| `Signing.PreimageExample` | internal/app/evidence.go:319-335 | for fields and a sequence shorter than 2^16, the bytes are the API version, the producer, the sequence and the evidence in that order, each text after its length in eight bytes |
| `KeyFiles.ValidateKeyIdent` | internal/app/evidence.go:110-128 | an identifier is accepted if and only if it is one to 64 letters, digits, dots and hyphens that begin with neither and have no two dots in a row; empty, too long and two dots are told as such, and otherwise the first bad character is named |
| `KeyFiles.KeyFileReads` | internal/app/evidence.go:59-86 | the public file a key is written to is named by its producer, two underscores and its key id, or by one of them when they are the same, and reads back as both, for every accepted pair |
| `KeyFiles.KeyFilesDistinct` | internal/app/evidence.go:59-86 | distinct pairs give distinct files |
| `KeyFiles.AddTrustKey` | internal/app/evidence.go:417-435 | a store that binds exactly some distinct key ids comes to bind exactly one more if and only if that id is not a repeat; an unreadable key fails |
| `KeyFiles.LoadTrustStore` | internal/app/evidence.go:384-412 | a directory loads if and only if it has a `.pub` file that is no directory, every one of them holds a key and no two name one key id, and a single file, whatever its name, if and only if it holds a key; the store then binds each such file's key id to its producer and key, and nothing else |
| `KeyRuns.KeyDir.GenerateKey` | internal/app/evidence.go:51-101 | the method is `After`: valid names only, nothing overwritten without force, the private and the public file otherwise |
| `KeyRuns.GeneratesIff` | internal/app/evidence.go:51-101 | in every sequence of runs one makes its key if and only if its producer and key id, the ones asked for or else the key id and the fingerprint, are accepted, and it is forced or no run before made a key of that id |
| `KeyRuns.PrivateKeyIff` | internal/app/evidence.go:85-101 | after any runs a private key's file is there if and only if one of them made a key of that id |
| `KeyRuns.PrivateKeyIsLast` | internal/app/evidence.go:85-101 | and it holds the seed the last such run drew |
| `KeyRuns.TrustedIff` | internal/app/evidence.go:59-101 | after any runs a key id is trusted for a producer if and only if one of them made it so |
| `KeyRuns.PublicKeyIsLast` | internal/app/evidence.go:59-101 | and its file holds the public key the last such run drew |
| `KeyRuns.OnePerKeyIff` | internal/app/evidence.go:51-101 | after any runs of key generation no key id is trusted for two producers if and only if no run took an id another producer had |
| `KeyRuns.UnforcedIsOnePerKey` | internal/app/evidence.go:85-91 | without force no run does: the private key's file is in the way |
| `KeyRuns.TrustGeneratedKeys` | internal/app/evidence.go:384-435 | a directory filled by any such runs, in whatever order it is listed, loads if and only if it has a key and no id is trusted for two producers; the store then holds each id made with its producer and the public key the last run for it drew, and nothing else |

## Left out

- Contract parsing, validation, diffing, policy evaluation and the documentation generator: pure checks over one value each.
- The OCI client, the dependency resolver and its version solving: a resolution is what `World.ask` or `Sources` answers.
- `memo.child == nil` in the reference resolver: no path stores such an entry, so the branch is not in the model.
- Plans, gates and checks of a delivery (`PlanFor`, `ApplyEffects`, `RunChecks`): their answers come in as `Rules`, so what is proved holds for every answer they could give.
- Freeze, unfreeze and acknowledge operations of the demo: the demo's promoter has no step of its own for them.
- Times, reasons, questions and messages of an operation; unrecordable records.
- `ApprovalRefusal`: who may decide is checked before the demo's `Approve` and is not part of it.
- DeliveryDemo.Demo.constructor: gives the world before the replay; the replay is the run of requests, decisions and steps that follows it.
- DeliveryDemo.Demo.Keep: signing is the choice between the tab's own key and another; Ed25519 itself is not modelled.
- DeliveryDemo.Demo.ReplanHeld: operations are values in a map by uid, so aliasing of an operation by a queued step is that uid.
- Answers shared in flight between identical reads of the cache (`singleflight`).
- Sessions.Table.End: the revocation is the request sent; a provider without a revocation endpoint and a request that fails are not modelled.
- KeyFiles.LoadTrustStore: does not model the structured YAML form, with its own scopes.
- KeyRuns.KeyDir.GenerateKey: the key pair drawn comes in as a parameter; a file that cannot be written is not modelled.
- The login cookie, state, nonce and PKCE checks of a sign-in.
- Viewer.Restrict: models which namespaces are hidden, not the relationships, callers, limitations and counts that go with them.
- Viewer.View.Show: one query with nobody else's steps in between; the interleavings are in `ViewerRuns`.
- The tour's drawing, focus, scrolling and live region; the gate is the answer that comes with each frame.
- TourRuns: an empty tour is not begun in these runs, because the page's own frame would read past its end; `Tour.Runner.Begin` itself takes any tour.
- SHA-256: `Versions.Hash` is any function that gives each text a name of its own; an envelope id's hash and a record's id are functions of the bytes modelled here.
