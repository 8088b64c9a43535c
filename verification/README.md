# Block runs and owned launches: a Dafny model

This project models two parts of the repository and proves what they promise.

**The attended block run.** A block is a frozen plan: members in order and a dependency
relation projected out of the repository's whole task graph. A run records its progress in a
ledger, one JSON document per run. The ledger has a contract on each document, a contract
between a document and its successor, and a proof gate that re-reads the task records before
any write that claims progress. A runner drives the block: it chooses a member, proves the
commit it is built on, starts and drives it, and records what the member's own record proves.

**The owned launch.** A native helper creates a process inside a kernel job, watches the
process it serves, forwards standard input and reports through a status file published by
rename. A TypeScript side encodes the request, reads the status, decides how the run ended and
applies byte budgets, an abort and a deadline. Around it stand the command-line quoting, the
base64 line format, the registry of launch accountants and the builder of probe environments.

## How the model is laid out

| files | what they hold |
|---|---|
| `Identifiers`, `PlanEncoding`, `BlockDefinition`, `BlockDependencies`, `ChainShape`, `ChainFitness` | the plan: ids, canonical encoding, definition, projection, shape, chain base |
| `TaskRecords`, `BlockLedger`, `LedgerContract`, `BlockEvidence`, `BlockStore`, `BlockReconciliation`, `BlockHistory` | the ledger: contracts and their check issue by issue, evidence, the store as a class over files, the reconciler, whole histories |
| `BlockProgress`, `BlockConclusion`, `ForcedProgress` | the moves, the decisions, the progress that is forced |
| `RunScript`, `RunAccount`, `RunProspects`, `BlockRunner`, `RunExamples` | the world of a run and what is asked of it, what a run leaves behind, what it can count on, the run as a class over the store, three concrete runs |
| `LaunchBoundary`, `LaunchProtocol`, `LaunchSafety`, `LaunchEndings`, `LaunchRuns`, `LaunchCompletions`, `LaunchContinuations`, `LaunchFiles` | the reader's classifier, the helper as a state machine, its invariants, whole runs, runs to completion, what can always still happen, and runs composed with the text they leave |
| `ExitCodes`, `Base64`, `WireLines`, `BoundaryRequest`, `RequestAcceptance`, `BoundaryReport`, `CommandLine` | the codecs |
| `BoundedSink`, `OwnedCommand`, `OwnedRuns`, `LaunchAccounting`, `ProbeEnv` | the policy loop, the end-to-end result, the registry, the environment |

Code that the source writes as expressions is a function here; objects whose methods update
fields are classes (`Store`, `BlockRun`, `Sink`, `OwnedRun`, `Registry`, `Disposer`); loops are
loops with invariants, proved against a function that the lemmas are about. The concurrent
helper is a transition function over one state, and its theorems quantify over every sequence
of steps. The environment is input everywhere: task records, Git's answers, the driver's
answers, the disk's answer to a write and the lease may change between any two questions.

What a run is promised when nothing goes wrong is proved too. A world is *promising* when its
records move only as the run asks, the start path leaves a record, a driver that settles a
member leaves it ready on top of the commit it was pinned at, Git answers the truth, the
planner follows the frozen relation, and the relation has a chain shape. There `Run` ends
COMPLETE with every member settled, unless a driver finds the lease lost.

## Where the code and its description part

* `BlockTaskReport.disposition` is described as the disposition "as persisted when the run
  ended" (src/block/block-runner.ts:223-226). The report is rendered from the last ledger the
  run was shown, and the disk can be ahead of it: after a creation whose reload is refused,
  when it lists nothing; after an activation, when the reload is refused, the lease is lost or
  a later write fails; and after a forced settlement, when the next read, write or search
  ends the run. `BlockRunner.BlockRun.Run` keeps the exact account: the report is as persisted
  if and only if the run was shown a ledger and no task is `unshown`, which every move that
  lands adds its task to and only showing the ledger clears. A run that ends as
  BLOCK_RUN_ENDED always is; the other four endings carry no such promise. A caller can check
  beforehand: where records move only as the run asks, the profile stays and writes land, the
  report is as persisted whenever no lease check and no driver finds the lease lost, and, in
  a promising world in which nothing gets ready that its driver does not settle, exactly when
  every driver settles its member. Afterwards, a report that names a driver's answer for a
  task it calls planned is never as persisted, and in that still environment no other report
  fails. `LostLeaseLeavesAStaleReport` and `EditedProfileLeavesAnEmptyReport` drive two such
  runs, ending as LEASE_AUTHORITY_UNCERTAIN and RUN_GATE_REFUSED.
* `env` is described as "present replaces it entirely" (src/boundary/launch-boundary.ts:157).
  A present environment in which no entry has a value is written exactly like an absent one
  and the helper inherits its own. `EmptyEnvironmentIsWrittenAsAbsent` gives the condition,
  which a caller can check, as the command loop does (src/boundary/owned-command.ts:1135-1150);
  `AnEmptyEnvironmentIsInherited` shows a request.
* The encoder accepts any positive owner pid; the helper refuses those from 2^31 on.
  `RequestsCrossTheWire` has both halves, `ALargeOwnerPidIsRefused` a request.
* Quoting protects every argument, but not a program path that itself holds a quote.
  `ArgumentsSurviveIff` has both halves, `AQuotedPathLeaks` a path.
* `endReasonFor` answers COMPLETE only when every entry is settled
  (src/block/block-conclusion.ts:201-206), while the contract also accepts resolved entries
  (src/block/block-ledger.ts:520-525). Both are modelled as written.
* No process outlives the helper, with one exception: an outside kill between creating and
  assigning a suspended target that has not ended. `NothingOutlivesTheHelper` has both
  halves, `AnOrphanIsPossible` reaches it.

## Model

| member | source | states |
|---|---|---|
| `Identifiers.IdsAreFileNames` | src/plan/task-id.ts:41-70 | an id is accepted exactly when it begins with a letter or digit, holds letters, digits, dots, underlines and hyphens, ends in no dot, has at most 128 characters and is no device name in any case |
| `Identifiers.SortedSpellingIsUnique` | src/plan/task-id.ts:114-118 | two strictly sorted lists with the same members are the same list, so code-unit order leaves a plan one canonical spelling |
| `Identifiers.CanonicalIsFixedOnSorted` | src/plan/task-id.ts:114-118 | canonicalising is the identity exactly on strictly sorted lists |
| `PlanEncoding.ValidIdsAreEncodable` | src/plan/task-id.ts:63-70 | every id the grammar admits is non-empty and free of the encoding's three separators |
| `PlanEncoding.FingerprintIsInjective` | src/block/block-definition.ts:249-261 | equal encodings imply equal block id, ordered task ids and dependency rows, for all separator-free ids |
| `PlanEncoding.EdgesInEitherDirectionEncodeApart` | src/block/block-definition.ts:214-216 | reversing one edge of a plan changes its encoding |
| `BlockDefinition.CheckMembers` | src/block/block-definition.ts:145-165 | the member list is accepted exactly when it is non-empty, within the limit, valid and free of repeats; a refusal names a true reason |
| `BlockDefinition.CheckRow` | src/block/block-definition.ts:166-184 | one dependency row is accepted exactly when it names a member, only other members and none twice |
| `BlockDefinition.CollectRows` | src/block/block-definition.ts:166-184 | the rows are collected if and only if every one is acceptable and no member has two; a refusal names a true reason |
| `BlockDefinition.DefineBlock` | src/block/block-definition.ts:141-198 | succeeds if and only if members and relation are acceptable; the frozen definition is then the canonical spelling of the same relation, and every refusal code explains the input |
| `BlockDependencies.Walk` | src/block/block-dependencies.ts:82-115 | the queue-and-visited-set walk ends and finds exactly the tasks reachable by one or more edges |
| `BlockDependencies.ProjectBlockDependencies` | src/block/block-dependencies.ts:82-115 | each member's row is exactly the members reachable from it through any task of the whole graph |
| `BlockDependencies.ProjectionIsAStrictOrder` | src/block/block-dependencies.ts:82-115 | on every acyclic graph the projected relation is transitive and irreflexive |
| `BlockDependencies.ProjectionIsAcceptedByDefinition` | src/block/block-definition.ts:166-184 | no projection of an acyclic graph is refused by the block definition for a dependency reason |
| `BlockDependencies.DirectEdgesMissDependencies` | src/block/block-dependencies.ts:13-31 | projecting direct edges only would lose a dependency that runs through a non-member: a concrete graph |
| `ChainShape.ProjectionIsAStrictRelation` | src/block/block-dependencies.ts:82-115 | what the projection yields is the strict relation the shape results below ask for |
| `ChainShape.UniqueMaximumMeans` | src/block/chain-shape.ts:53-71 | a found maximum is in the required set and requires every other member of it; no answer means no such member |
| `ChainShape.ShapedIffTotallyOrdered` | src/block/chain-shape.ts:78-86 | a relation has a chain shape if and only if every member's required set is totally ordered |
| `ChainShape.RequiredSetIsMaximumAndBelow` | src/block/chain-shape.ts:53-86 | in an accepted relation a non-empty required set is its unique maximum together with that maximum's own row |
| `ChainFitness.ProvenBaseIsFit` | src/block/chain-fitness.ts:141-227 | over any commit graph Git answers truthfully about: a proven base descends from the block base, contains every frozen predecessor's result, and every predecessor is settled with a result other than its own base |
| `ChainFitness.BaseIsProvenIffFit` | src/block/chain-fitness.ts:141-227 | when Git answers every question, the base is proven if and only if it is fit |
| `ChainFitness.RefusalsHaveCauses` | src/block/chain-fitness.ts:141-227 | whatever Git could answer, each refusal of the gate has its cause, asked for in the source's order, and the maximum itself is never asked about again |
| `BlockLedger.AssessLedgerSuccession` | src/block/block-ledger.ts:926-1019 | collects exactly the set of violated clauses; the set is empty exactly for legal successors |
| `BlockLedger.LegalSuccessorMeans` | src/block/block-ledger.ts:819-1019 | between valid documents, collecting no violation is the same as: same identity and plan, every entry unchanged or moved forward, nothing after a stop, an unresolved stop carrying nothing else |
| `BlockLedger.SuccessorsProgress` | src/block/block-ledger.ts:819-829 | a legal successor that differs has strictly higher progress; progress is at most three per task plus one |
| `BlockLedger.ActiveTaskIsDetermined` | src/block/block-ledger.ts:436-455 | two valid documents with the same entries name the same active task |
| `LedgerContract.CheckDocument` | src/block/block-ledger.ts:344-534 | the refinement collects exactly the issues there are, each with its own cause; a document is valid if and only if it is well shaped and has none |
| `LedgerContract.CheckActive` | src/block/block-ledger.ts:436-455 | two active tasks, an active one unnamed, a named one that is not in the run or not active: each reported exactly when it is so |
| `LedgerContract.CheckEntries` | src/block/block-ledger.ts:457-483 | evidence missing or unearned, a result or a base unearned: each reported at exactly the entries it is true of |
| `LedgerContract.FieldsAreShaped` | src/block/block-ledger.ts:272-331 | the shape of a document: the bounds of every list and the grammar of every id |
| `BlockEvidence.ProvenMeansSupported` | src/block/block-evidence.ts:246-289 | an entry is proven exactly when its record is readable, is in a state named for its outcome (READY_FOR_PR, ABORTED, OPERATOR_RESOLVED or one of the six blocking ones) and agrees with every re-proved field |
| `BlockEvidence.ProofCodesMean` | src/block/block-evidence.ts:246-289 | each refusal code has one cause, asked for in the order record, readability, state, evidence, commits |
| `BlockEvidence.PlannedProofCodesMean` | src/block/block-evidence.ts:246-289 | a planned entry is refused for what it claims and for nothing else |
| `BlockEvidence.OutcomesExcludeEachOther` | src/block/block-evidence.ts:160-235 | no record supports two different outcomes of one task |
| `BlockStore.Store.FirstUnprovenClaim` | src/block/block-store.ts:527-549 | answers the first unsupported entry in order, and none exactly when no proof is owed or all entries are supported |
| `BlockStore.Store.Create` | src/block/block-store.ts:372-404 | lands or refuses as the create rules say and touches no other run's file; every refusal names something true of the document, the checkout, the file or the disk |
| `BlockStore.Store.Update` | src/block/block-store.ts:432-505 | the file map afterwards is the old one, changed at this run alone and only when the write landed; every refusal names something true of the document, the checkout, the file, the predecessor, the first unproven entry or the disk |
| `BlockStore.Store.LoadLedger` | src/block/block-store.ts:621-685 | loads a ledger exactly when the root is absolute, the run id valid and the file at its place holds that valid ledger naming this run, root and declared repository; every refusal names something true of the place, the file or the document |
| `BlockStore.UpdateLandsIff` | src/block/block-store.ts:432-505 | an update lands if and only if the document is valid, names this checkout, succeeds the document on disk at the quoted revision, its claims are supported and the disk accepts it |
| `BlockStore.RefusedForTheFirstUnproven` | src/block/block-store.ts:527-549 | an update that only lacks a proof is refused with the proof code of the first entry that lacks it |
| `BlockStore.LandedUpdateIsSound` | src/block/block-store.ts:432-549 | what landed is valid, a legal successor of what was there, and supported wherever a proof was owed |
| `BlockReconciliation.ReconcileBlockRun` | src/block/reconcile-block.ts:190-275 | findings, verdict and progress flag are those of the whole document and every entry, in order |
| `BlockReconciliation.ConsistentIffSupported` | src/block/reconcile-block.ts:190-315 | with no definition supplied the verdict is consistent if and only if the records support every entry |
| `BlockReconciliation.EndingForcedMeans` | src/block/block-runner.ts:671-677 | a run is stopped for its records exactly when its ledger does not name the checkout or some entry is unsupported, and as STATE_UNUSABLE, rather than LEDGER_DIVERGED, exactly when some claimed task has a record that cannot be used |
| `BlockReconciliation.FindingsMean` | src/block/reconcile-block.ts:240-315 | what is found about an entry that claims something, cause by cause, in terms of its record and fields alone |
| `BlockReconciliation.PlannedFindingsMean` | src/block/reconcile-block.ts:240-265 | a planned entry that claims nothing is found ahead exactly when its record reads READY_FOR_PR |
| `BlockReconciliation.GateAndReconcilerAgree` | src/block/block-store.ts:432-549 | whatever was proposed, an update that landed and moved a disposition or newly claimed progress leaves a document the reconciler calls consistent under the same records |
| `BlockReconciliation.DriftMeansAnotherPlan` | src/block/reconcile-block.ts:211-240 | drift is reported if and only if block id, task ids or relation differ from the definition |
| `BlockHistory.HistoryMovesForward` | src/block/block-ledger.ts:926-1019 | over any sequence of writes to a checkout, every later document of a run succeeds every earlier one |
| `BlockHistory.HistoryIsBounded` | src/block/block-ledger.ts:819-829 | any history of writes changes a run of n tasks at most 3n+1 times, less the progress it started with |
| `BlockHistory.HistoryNeverReturns` | src/block/block-ledger.ts:926-1019 | a document once left never comes back, identity and plan never move, and a stopped document is final |
| `BlockHistory.CreatedLedgerHasNoProgress` | src/block/block-store.ts:372-404 | a created run exists on disk with its whole allowance of writes still ahead |
| `BlockProgress.RecordMove` | src/block/block-progress.ts:220-508 | one activate, settle, park, abandon or resolve: its guards, the successor it proposes, and the file map it leaves |
| `BlockProgress.StopBlockRun` | src/block/block-progress.ts:556-571 | a stop's guards, the one field it changes, and the file map it leaves |
| `BlockProgress.StartBlockRun` | src/block/block-progress.ts:174-206 | the first document of a run and what creating it does to the files |
| `BlockProgress.FrozenPlansAreRecordable` | src/block/block-progress.ts:174-206 | every plan the definition can freeze is a valid first document that claims nothing and can be created |
| `BlockProgress.StopLandsIff` | src/block/block-progress.ts:556-571 | from any valid unstopped document a stop that claims no progress lands whatever the records say; one that claims progress lands exactly when nothing is active, the entries agree and all are supported |
| `BlockProgress.MoveLandsIff` | src/block/block-progress.ts:220-508 | a move that passes its own guards lands if and only if the records support every other entry |
| `BlockProgress.MoveAnswers` | src/block/block-progress.ts:220-508 | every answer of the five moves and its cause: recorded exactly when the run is open, the entry is there with a disposition this primitive moves, nothing else is active for an activation, the record is in a state for it and every other entry is supported; each refusal for the first of these that fails, an unsupported other entry by its own record |
| `BlockProgress.RecordedMoveWrites` | src/block/block-progress.ts:220-508 | a recorded move writes this entry and the active task out of the task's own record, and nothing else |
| `BlockProgress.RecordedMoveIsSupported` | src/block/block-progress.ts:108-139 | after a move that landed, the moved entry is one the records support |
| `BlockConclusion.EndReasonAgreesWithContract` | src/block/block-conclusion.ts:201-206 | the reason chosen is always one the contract accepts, and is not COMPLETE when an operator resolved a task although the contract would accept it |
| `BlockConclusion.EndReasonMeans` | src/block/block-conclusion.ts:201-206 | COMPLETE exactly when all settled, TASK_BLOCKED exactly when some entry is blocked, TASK_ABANDONED exactly when some is abandoned and none blocked |
| `BlockConclusion.GradesMean` | src/block/block-conclusion.ts:150-179 | of the outcomes of a recording attempt one landed, one was not written, one met an unusable record |
| `BlockConclusion.StartConclusionsMean` | src/block/block-conclusion.ts:261-298 | which answers of a start are driven on, which say the lease is lost, and which one that the state is unusable |
| `BlockConclusion.RunnabilityMeans` | src/block/block-conclusion.ts:354-379 | a member may run exactly when its first frozen report calls it eligible, or blocked by dependencies that are all settled entries; each refusal has its cause |
| `BlockConclusion.FirstObstacle` | src/block/block-conclusion.ts:354-379 | the first unsettled predecessor in order, and none exactly when all are settled |
| `BlockConclusion.RunnabilityIsMonotone` | src/block/block-conclusion.ts:354-379 | a member that is runnable stays runnable as other tasks move forward |
| `ForcedProgress.FirstForcedMeans` | src/block/reconcile-block.ts:259-265 | the search answers a planned entry whose record forces a settlement while there is one, and nothing exactly when the forced document is already the current one |
| `ForcedProgress.SettlingOneForcedEntry` | src/block/block-progress.ts:264-301 | settling one forced entry passes its guards, keeps the document supported and leaves the same forced document ahead |
| `ForcedProgress.ForcedProgressIsIdempotent` | src/block/block-runner.ts:711-759 | doing it again changes nothing; entries that are not planned, an active one included, are never touched |
| `ForcedProgress.MoveLowersPlannedCount` | src/block/block-progress.ts:147-160 | a move takes exactly its own entry out of the planned ones |
| `RunScript.ChoiceMeans` | src/block/block-runner.ts:794-815 | the choice is the first selectable member in frozen order with its unique maximum, and nothing exactly when none is selectable |
| `RunScript.ChosenMayRun` | src/block/block-runner.ts:794-815 | the choice is the first planned member whose own frozen report lets it run and that has a shape, and nothing exactly when there is none |
| `BlockRunner.BlockRun.ApplyForcedProgress` | src/block/block-runner.ts:711-759 | ends; with records fixed and writes landing it settles exactly the forced entries of a consistent document and leaves the rest alone |
| `BlockRunner.BlockRun.CheckRecords` | src/block/block-runner.ts:671-677 | no ending exactly when the ledger names the checkout and the records support every entry; STATE_UNUSABLE exactly when a claimed task has an unusable record, which beats LEDGER_DIVERGED |
| `BlockRunner.BlockRun.BaseFor` | src/block/block-runner.ts:830-863 | hands over the block base for a root and only a proven base for a chained member |
| `RunScript.HandoversAreFit` | src/block/block-runner.ts:830-863 | a member fit to be handed over is planned in this run's own ledger and frozen plan; a root gets the block base, a chained member a base whose history contains the block base and the result of every settled predecessor the plan names; and where some member requires another, none has failed before |
| `BlockRunner.BlockRun.AskStart` | src/block/block-runner.ts:870-884 | the only way to ask for a start demands a fit hand-over of a member of the ledger on disk, and logs it: the log grows by exactly this one and stays sound |
| `BlockRunner.BlockRun.StartTask` | src/block/block-runner.ts:830-913 | no start is asked for where the base gate refuses, and where one is, its answer decides: driven on, reported as a lost lease or a refused gate, or stopped as unusable; what moved on disk is at most this member, to ACTIVE |
| `BlockRunner.BlockRun.RecordStep` | src/block/block-runner.ts:900-912 | one move graded into a step: it lands and is reloaded with exactly this entry moved, or is reported as not written, or stops the run with every entry as it was; where the environment holds still it is never merely reported |
| `BlockRunner.BlockRun.DriveTask` | src/block/block-runner.ts:915-966 | calls the driver exactly as often as its answers ask to be continued, with the lease held before every further call, and comes to their verdict; a continuation that landed nothing is unresolved |
| `BlockRunner.BlockRun.Conclude` | src/block/block-runner.ts:968-998 | an entry is recorded as exactly the disposition the verdict entitles to, an unresolved or unusable one stops the run under its own reason, and a lost lease is reported and nothing else is |
| `BlockRunner.BlockRun.DriveOneTask` | src/block/block-runner.ts:830-998 | whatever the scripts answer, the step leaves the run open with this one entry moved to what the driver's answer entitles to, or stops it in the ledger with the entry untouched or active, or ends it in the report with an unstopped ledger on disk that is ahead of the report by at most this entry |
| `BlockRunner.BlockRun.RecordDrive` | src/block/block-runner.ts:428-446 | a concluded task lets the run go on unless the driver's answer parked or abandoned it in a plan with dependencies, and then the run stops for its end reason; the answer and its steps are in the report either way |
| `BlockRunner.BlockRun.StopStep` | src/block/block-runner.ts:1008-1019 | a stop that landed is the same document with the reason and nothing else; one that did not leaves every file alone |
| `BlockRunner.BlockRun.OpenRun` | src/block/block-runner.ts:622-660 | the ledger is created exactly when the store creates it; the run opens exactly when the profile still names the checkout at the reload; a run id that has a ledger is refused with every file as it was |
| `BlockRunner.BlockRun.Run` | src/block/block-runner.ts:354-447 | over every script: ends within n+1 passes with at most one start in each; its step count is that of all driver calls; nothing is written unless the ledger was created, and then this run's file alone, with the request's identity and plan; BLOCK_RUN_ENDED exactly with the stop reason on disk; every hand-over fit, none twice, none after a failure in a plan with dependencies, and the driver called for none but the last; every reported outcome is one the driver's answer entitles to; the report names the plan's members and is as persisted if and only if the run was shown its ledger after the last move that landed; where the environment holds still it is as persisted whenever no check and no driver finds the lease lost; and in a promising world it ends COMPLETE with every member settled and every record ready, or at the one member whose driver lost the lease |
| `BlockRunner.BlockRun.Prepare` | src/block/block-runner.ts:395-421 | a lost lease or an ending the records force ends the pass as such; otherwise the ledger goes on with only planned entries settled, exactly the forced ones where the environment holds still |
| `RunAccount.AsPersistedIff` | src/block/block-runner.ts:223-226 | a report rendered from the last ledger shown carries the dispositions on disk if and only if nothing moved since |
| `RunAccount.ConclusionsFollowTheState` | src/block/block-conclusion.ts:88-141 | an answer of the driver is recorded as an outcome exactly when it names a record state, and as the one outcome that state speaks for |
| `RunExamples.LostLeaseLeavesAStaleReport` | src/block/block-runner.ts:970-972 | a concrete script whose run ends with a member active on disk and planned in the report |
| `RunExamples.EditedProfileLeavesAnEmptyReport` | src/block/block-runner.ts:657-659 | a concrete script whose run leaves its ledger on disk and reports no task at all |
| `RunProspects.ResultContainsWhatIsRequired` | src/block/chain-fitness.ts:141-227 | each member is built on its maximum's result alone, yet the block base and the result of every member it requires are in the history of its own |
| `RunProspects.IndependentMeans` | src/block/block-conclusion.ts:231-235 | failures are local exactly where no member requires another |
| `RunProspects.SomethingCanRun` | src/block/block-runner.ts:794-815 | in an accepted shape, with the planner following the relation, a run in which everything is planned or settled has a member to choose as long as one is planned |
| `RunProspects.ChosenBaseIsProven` | src/block/block-runner.ts:846-863 | where Git answers truthfully and results descend from the commits they were pinned at, the gate cannot refuse the base of a chosen member |
| `BlockRunner.BlockRun.Advance` | src/block/block-runner.ts:423-446 | one pass: with nothing to choose the run stops for its end reason; otherwise one member fewer is planned; in a world that does what it is for it settles that member and keeps the run on course |
| `RunProspects.NothingToChooseMeansDone` | src/block/block-runner.ts:423-427 | on course, a pass that finds nothing to choose finds every member settled |
| `RunExamples.SmallBlockCompletes` | src/block/block-runner.ts:354-447 | the conditions of a completing run can be met: a concrete block with a chained member runs to COMPLETE |
| `LaunchBoundary.OtherLaunchesProveNothing` | src/boundary/launch-boundary.ts:473-500 | a status without this launch's nonce proves neither a completion nor that nothing ran |
| `LaunchBoundary.EndingsMean` | src/boundary/launch-boundary.ts:393-500 | each ending has its cause: an owned launch is never a refusal and ended by the caller, by its owner's loss, with its exit code or unobserved, in this order |
| `LaunchBoundary.RefusalsMean` | src/boundary/launch-boundary.ts:393-461 | a refusal carries the helper's own code where that is known, and says that nothing ran exactly where a status of this launch says so |
| `LaunchSafety.LocksAfterPlace` | native/ao-launch/AoLaunch.cs:404-478 | creation, assignment, verification and resume keep the gate with exactly the thread that is inside it |
| `LaunchSafety.KernelAfterPlace` | native/ao-launch/AoLaunch.cs:404-478 | nothing the target could have started is ever outside the job, in either mode |
| `LaunchSafety.SnapshotIsHonest` | native/ao-launch/AoLaunch.cs:999-1026 | whichever thread writes, a snapshot taken once the target may execute says that it started |
| `LaunchSafety.StartAfterWriter` | native/ao-launch/AoLaunch.cs:999-1026 | publishing and giving up both keep every visible snapshot honest about the start |
| `LaunchEndings.ExitAfterPut` | native/ao-launch/AoLaunch.cs:503-518 | the last value of the owner-loss key stays true once the watcher has ended the target, whatever the main thread puts afterwards |
| `LaunchEndings.ExitAfterSide` | native/ao-launch/AoLaunch.cs:728-765 | the watcher announces the loss before it ends the job, so no exit code can be listed without it |
| `LaunchEndings.ReportAfterWriter` | native/ao-launch/AoLaunch.cs:999-1026 | a delivered final report is never replaced by one that says less |
| `LaunchRuns.StepKeeps` | native/ao-launch/AoLaunch.cs:350-538 | every step of every thread, the target, the owner and an outside kill keeps all invariants of the protocol |
| `LaunchRuns.NoKilledRunLooksFinished` | native/ao-launch/AoLaunch.cs:350-538 | over every interleaving the reader answers a completion only for a target that ended on its own, with its own exit code |
| `LaunchRuns.FinishedRunsAreReported` | native/ao-launch/AoLaunch.cs:483-538 | a run whose main thread returned 0 and delivered its last status is answered as that target's exit, or as lost when the exit could not be observed |
| `LaunchCompletions.FinishesAreCompletions` | native/ao-launch/AoLaunch.cs:483-538 | over every run in which no wait fails, a helper that returned 0 and delivered its last status is read as the exit of its target with the target's own code |
| `LaunchCompletions.ReturnsAreCompletions` | native/ao-launch/AoLaunch.cs:483-538 | over every run in which in addition every status write lands, exit code 0 alone means that the target's own end was delivered and is read as such |
| `LaunchCompletions.UnseenExitsAreLost` | native/ao-launch/AoLaunch.cs:492-514 | over every run in which a wait failed, a helper that returned 0 and delivered its last status is read as lost, never as a completion |
| `LaunchCompletions.EveryExitCanBeReported` | native/ao-launch/AoLaunch.cs:350-538 | from any start, in either mode and for any exit code, some run comes to that report |
| `LaunchCompletions.OwnerLossEndsTheTree` | native/ao-launch/AoLaunch.cs:728-765 | over every run, from the moment the watcher has ended the job no process of the launch lives, before it reports and before the helper leaves |
| `LaunchContinuations.OwnerLossCanAlwaysEndIt` | native/ao-launch/AoLaunch.cs:728-765 | in every run, wherever its threads stand, a helper that is up with its watcher armed can still end the launch for its owner's loss: no lock keeps the watcher from ending every process, from publishing the loss and from leaving with 93 |
| `LaunchContinuations.InputEndsOnRecord` | native/ao-launch/AoLaunch.cs:784-877 | however the input ended, the word for it can be published as soon as the status lock is free |
| `LaunchCompletions.RefusalsAreReported` | native/ao-launch/AoLaunch.cs:292-348 | a refusal whose report nothing disturbs is read under its own code, with the exit code that goes with it |
| `LaunchContinuations.EveryRefusalCanBeReported` | native/ao-launch/AoLaunch.cs:292-538 | from any start every refusal the mode admits can come to pass, and the launch is then read as refused under that code, with its exit code |
| `LaunchContinuations.RefusedRequestsAreAttributed` | native/ao-launch/AoLaunch.cs:292-348 | an unusable request is read as that by the caller of this very launch, and that nothing ran is certain exactly where the nonce could still be made out |
| `LaunchRuns.OwnerLossIsNeverACompletion` | native/ao-launch/AoLaunch.cs:529-537 | after the owner's loss the helper leaves with 93 whichever thread gets there, and that alone rules a completion out, published status or not |
| `LaunchRuns.OwnerAlreadyGoneMeansNothingCreated` | src/boundary/launch-boundary.ts:74-79 | a helper that returned 92 never created a process |
| `LaunchRuns.NothingRanMeansNothingRan` | src/boundary/launch-boundary.ts:437-461 | a refusal that says nothing ran is only ever given when the target never executed |
| `LaunchRuns.NothingOutlivesTheHelper` | native/ao-launch/AoLaunch.cs:404-478 | once the helper is gone, some process of the launch lives if and only if it was killed from outside between creating and assigning a suspended target that has not ended, and then only that never-executed target does |
| `LaunchRuns.AnOrphanIsPossible` | native/ao-launch/AoLaunch.cs:641-668 | a run that reaches that one exception |
| `LaunchRuns.SnapshotsTellOfStarts` | native/ao-launch/AoLaunch.cs:413-427 | every snapshot taken once the target can execute contains targetStarted |
| `LaunchRuns.PublishedSnapshotsOnlyGrow` | native/ao-launch/AoLaunch.cs:999-1026 | along any continuation of a run the published status is only ever added to |
| `Base64.StrictDecodeUndoesEncode` | native/ao-launch/AoLaunch.cs:1058-1068 | the helper's decoder recovers every encoded value (section 4 of RFC 4648) |
| `Base64.StrictDecodeAccepts` | native/ao-launch/AoLaunch.cs:1058-1068 | the helper's decoder reads exactly the texts of whole groups of four over the alphabet whose last group may end in one or two padding signs |
| `Base64.CheckedDecodeIsExact` | src/boundary/launch-boundary.ts:313-326 | decode, re-encode and compare accepts a value exactly when it is an encoding up to its padding, and of one text only |
| `WireLines.JoinedLinesReadBack` | src/boundary/launch-boundary.ts:221-261 | the helper reads back exactly the lines the encoder joined |
| `WireLines.WrittenLinesReadBack` | native/ao-launch/AoLaunch.cs:999-1026 | the reader splits the helper's file into exactly the lines written, and one empty line |
| `WireLines.PairLinesReadBack` | src/boundary/launch-boundary.ts:195-197 | key and value come back from their line under both decoders |
| `WireLines.ReadIntUndoesDecimal` | src/boundary/launch-boundary.ts:298-303 | every safe integer printed in decimal is read back |
| `WireLines.ReadIntMeans` | src/boundary/launch-boundary.ts:298-303 | the reader takes the run of digits in front of the text, blanks and a sign aside, exactly where the number is safe |
| `WireLines.TryParseOfDigits` | native/ao-launch/AoLaunch.cs:1115-1118 | the helper reads a printed number exactly when it is below 2^31 |
| `WireLines.TryParseMeans` | native/ao-launch/AoLaunch.cs:1115-1118 | the helper reads exactly the non-empty runs of digits below 2^31, leading zeros included |
| `WireLines.ExitCodesCrossTheWire` | src/boundary/owned-command.ts:437-441 | signed wrap, decimal print, parse and unsigned reading compose to the identity on all 2^32 exit codes |
| `ExitCodes.UnsignedUndoesSigned` | src/boundary/owned-command.ts:437-441 | exactly the code and its signed form read as the code, and nothing outside 32 bits reads as one |
| `BoundaryRequest.EncodeBoundaryRequest` | src/boundary/launch-boundary.ts:221-261 | encodes exactly the acceptable requests, field by field in order, and throws for the rest |
| `RequestAcceptance.EncodableMeans` | src/boundary/launch-boundary.ts:199-261 | the encoder refuses exactly the requests that would put a NUL on the wire, that lack an owner, a nonce, a program or a status path, or that set a variable whose name is empty or holds an equals sign |
| `BoundaryRequest.RequestsCrossTheWire` | native/ao-launch/AoLaunch.cs:1036-1146 | the helper recovers every request the encoder accepts if and only if the owner pid is below 2^31, and refuses the others |
| `RequestAcceptance.RequestsAreReadIff` | native/ao-launch/AoLaunch.cs:1036-1146 | the helper accepts a file exactly when every line is a known field with a value its key can have, nothing but arguments and entries is repeated, and mode, program, status path, nonce and a positive owner are there; it then holds those values in order and nothing else |
| `BoundaryRequest.ALargeOwnerPidIsRefused` | native/ao-launch/AoLaunch.cs:1115-1118 | a concrete request with owner pid 2^31 that the encoder accepts and the helper refuses |
| `BoundaryRequest.EmptyEnvironmentIsWrittenAsAbsent` | src/boundary/launch-boundary.ts:157-158 | a present environment is written like an absent one if and only if none of its entries has a value |
| `BoundaryRequest.AnEmptyEnvironmentIsInherited` | native/ao-launch/AoLaunch.cs:1036-1146 | a concrete request for an empty environment that the encoder accepts and the helper reads exactly as one that names none |
| `BoundaryRequest.UnknownKeysAreRefused` | native/ao-launch/AoLaunch.cs:1130-1137 | one unknown key or undecodable value refuses the whole request |
| `BoundaryRequest.RepeatedScalarsAreRefused` | native/ao-launch/AoLaunch.cs:1083-1092 | a scalar key given twice refuses the whole request, whatever the values |
| `BoundaryReport.DecodeBoundaryStatus` | src/boundary/launch-boundary.ts:313-352 | no status exactly when some line is not the helper's; otherwise every key has the value on the last line that names it, and no other key has one |
| `BoundaryReport.LastLinesWin` | src/boundary/launch-boundary.ts:313-326 | reading line by line keeps, of every key, exactly the value on the line with the greatest index that names it |
| `BoundaryReport.OneBadLineRefusesAll` | src/boundary/launch-boundary.ts:313-326 | a single line that is not the helper's, wherever it stands, makes the text no status file |
| `BoundaryReport.StatusesCrossTheWire` | src/boundary/launch-boundary.ts:313-352 | the file the helper writes decodes to its status list applied line by line, keys the reader does not interpret included |
| `LaunchFiles.StepPrints` | native/ao-launch/AoLaunch.cs:999-1026 | whatever step is taken, every line listed, snapshotted or published is one that can be printed and read back |
| `LaunchFiles.PublishedFilesReadBack` | native/ao-launch/AoLaunch.cs:999-1026 | over every run, the text at the status path reads as the list the helper published |
| `LaunchFiles.NoKilledRunReadsAsFinished` | src/boundary/launch-boundary.ts:393-500 | from the helper's threads to the text at the status path: over every interleaving, whatever is found there is answered as a completion only for a target that ended on its own, with its own exit code |
| `CommandLine.Quote` | native/ao-launch/AoLaunch.cs:1254-1281 | the loop with its backslash counter writes the escaped form the parsing results below are about |
| `CommandLine.Build` | native/ao-launch/AoLaunch.cs:1232-1252 | the program and its arguments separated by single blanks, quoted or verbatim |
| `CommandLine.QuotedReads` | native/ao-launch/AoLaunch.cs:1254-1281 | one quoted argument, at the end or before a blank, is parsed back to itself |
| `CommandLine.ArgumentsSurviveQuoting` | native/ao-launch/AoLaunch.cs:1232-1281 | every argument list is parsed back unchanged under both readings of a doubled quote |
| `CommandLine.ArgumentsSurviveIff` | native/ao-launch/AoLaunch.cs:1232-1281 | all argument lists survive if and only if the program's path holds no quote |
| `CommandLine.AQuotedPathLeaks` | native/ao-launch/AoLaunch.cs:1232-1281 | a concrete program path with a quote: started without arguments, the program is handed one |
| `BoundedSink.Sink.Append` | src/boundary/owned-command.ts:794-816 | keeps exactly the first bytes up to the limit, counts all bytes, and signals the overflow exactly once |
| `BoundedSink.Sink.Report` | src/boundary/owned-command.ts:818-831 | the text handed out is the kept prefix, truncated exactly when the stream was longer than the limit |
| `OwnedCommand.CompletedIff` | src/boundary/owned-command.ts:463-659 | a completion has exactly one shape behind it, is the only answer without a failure code, and carries an exit code |
| `OwnedCommand.NoSideEffectsIff` | src/boundary/owned-command.ts:555-600 | side effects are ruled out exactly on the boundary's own report that nothing ran |
| `OwnedCommand.RefusalsAreOnlyRenamed` | src/boundary/owned-command.ts:559-606 | a cancellation or an expired budget renames a refusal, each for one cause, and leaves the boundary's code and its account of what ran untouched |
| `OwnedCommand.DeliveredNeedsBothHalves` | src/boundary/owned-command.ts:735-776 | a delivery needs this side's completed write and the boundary's forwarded end of file; a failed local write alone changes no verdict |
| `OwnedCommand.OwnedRun.OnStdout` | src/boundary/owned-command.ts:1361-1404 | a chunk after, before or at the limit moves sink and policy as one step |
| `OwnedCommand.OwnedRun.OnStderr` | src/boundary/owned-command.ts:1361-1404 | the same for the other stream |
| `OwnedCommand.OwnedRun.OnAbort` | src/boundary/owned-command.ts:1361-1367 | an abort is remembered before establishment and acted on after it |
| `OwnedCommand.OwnedRun.OnEstablished` | src/boundary/owned-command.ts:1648-1717 | what was raised before establishment is acted on in the source's order |
| `OwnedCommand.OwnedRun.OnDeadline` | src/boundary/owned-command.ts:1697-1717 | the timer ends a run only where it was armed and nothing ended it before |
| `OwnedCommand.OwnedRun.OnInput` | src/boundary/owned-command.ts:1666-1681 | one more report from the input stream takes the handover to the state of all reports so far; a failure is never revised |
| `OwnedCommand.OwnedRun.HandOver` | src/boundary/owned-command.ts:1657-1692 | without a stream nothing is handed over; a hand-over that throws is a failed one |
| `OwnedCommand.DeliveriesMean` | src/boundary/owned-command.ts:735-776 | over every way to an answer: a payload is delivered exactly when a stream was there, its reports came and none failed, and the ending says the end of file was forwarded; it has failed exactly where no run or no stream took it or the boundary reports a broken pipe or a failed read |
| `OwnedCommand.AnswersMean` | src/boundary/owned-command.ts:1135-1910 | over every way to an answer, aborted, refused and stream-less calls included: success is only the boundary's own exit of a run nothing ended, and "no side effects" is claimed exactly where the boundary was never reached or itself says that nothing ran |
| `OwnedCommand.OwnedRun.AnswerUnestablished` | src/boundary/owned-command.ts:1455-1495 | a launch that ended without ownership is answered from what this run remembers: as ended by the caller exactly when a refusal met an abort |
| `OwnedCommand.OwnedRun.AnswerSettled` | src/boundary/owned-command.ts:1719-1910 | the wait of an owned run ends under the first trigger of whatever events led here: that policy with the code reported, or a completion exactly for an exit that none asked for, or the boundary lost |
| `OwnedCommand.AnswersTellTheEvents` | src/boundary/owned-command.ts:463-659 | over every event order, the outcome and failure code of an owned run are those of the trigger that came first |
| `OwnedCommand.StateFromEvents` | src/boundary/owned-command.ts:1361-1404 | after any order of events an established run has a reason if and only if some policy triggered, and the boundary was asked to end at most once |
| `OwnedCommand.FirstReasonStays` | src/boundary/owned-command.ts:1580-1592 | the first accepted reason is never replaced and the boundary is never asked twice |
| `OwnedCommand.FirstTriggerIsTheReason` | src/boundary/owned-command.ts:1580-1717 | the reason a run is ended for is the first trigger in the order of its events that found it owned, waiting ones in the order limit, abort, clock |
| `OwnedCommand.EarlyTriggersAreKept` | src/boundary/owned-command.ts:1648-1717 | nothing raised before establishment is lost: the first limit, then the abort, then the clock |
| `OwnedCommand.CompletedMeansUntouched` | src/boundary/owned-command.ts:463-659 | a completed run is one no limit, abort or deadline ever triggered on |
| `OwnedCommand.ReportedReasonsHappened` | src/boundary/owned-command.ts:1580-1592 | a run reported as timed out, cut off or cancelled is one on which that very policy triggered; the other way is in AnswersTellTheEvents |
| `OwnedCommand.OnlyEndingsNameAnOutcome` | src/boundary/owned-command.ts:1761-1805 | a grace that ran out is a lost boundary, never the policy that asked for the termination |
| `OwnedRuns.CompletedCommandsFinishedOnTheirOwn` | src/boundary/owned-command.ts:463-659 | from the helper's threads to the caller's result: a completed command's target ended on its own with the reported code and nothing had asked for its end |
| `OwnedRuns.CompletedAnswersAreTrue` | src/boundary/owned-command.ts:463-659 | the whole chain, from the helper's threads through the text at the status path to the answer of the run: a completed command's target ended on its own with the reported code, and no policy had asked for its end |
| `OwnedRuns.FinishedCommandsAreCompleted` | src/boundary/owned-command.ts:463-659 | the other way: a command whose helper returned from an answered wait and whose end nothing asked for is completed with its target's own code |
| `LaunchAccounting.Registry.Install` | src/boundary/owned-launch-accounting.ts:273-284 | appends one subscription and hands out the only function that removes it |
| `LaunchAccounting.Registry.Remove` | src/boundary/owned-launch-accounting.ts:286-289 | takes out the first entry of that accountant, or nothing |
| `LaunchAccounting.Disposer.Dispose` | src/boundary/owned-launch-accounting.ts:279-284 | removes once; a second call changes nothing |
| `LaunchAccounting.Registry.OpenOwnedLaunch` | src/boundary/owned-launch-accounting.ts:333-366 | asks exactly the ambient domain's accountants in order up to the first that stops the launch, closes once what was opened when it refuses, and removes only those that answered that their epoch ended |
| `LaunchAccounting.RegistryIsWhatRemains` | src/boundary/owned-launch-accounting.ts:273-289 | over every history of distinct installations the registry is the installed ones, in order, less the disposed and the ended |
| `LaunchAccounting.AnnouncedTo` | src/boundary/owned-launch-accounting.ts:333-366 | a launch is announced to exactly those installed for its domain who are neither disposed of nor over |
| `LaunchAccounting.SecondInstallationEvictsTheFirst` | src/boundary/owned-launch-accounting.ts:286-289 | why distinctness is needed: installed twice, an accountant loses the wrong place |
| `ProbeEnv.SnapshotAllowlistProperties` | src/auth/env-guard.ts:684-727 | finds, per allow-listed name, exactly the enumerable properties that are that variable on this platform |
| `ProbeEnv.CreateProbeEnv` | src/auth/env-guard.ts:788-830 | builds the environment of the one snapshot or refuses, in the order ambiguity, accessor, values, constants |
| `ProbeEnv.OrderNeverMatters` | src/auth/env-guard.ts:788-830 | any permutation of a plain source gives the same environment or the same refusal |
| `ProbeEnv.CollisionIff` | src/auth/env-guard.ts:807-813 | the build is refused as ambiguous if and only if two enumerable keys are one allow-listed name |
| `ProbeEnv.OnlyAllowedGetsThrough` | src/auth/env-guard.ts:815-829 | the result holds the policy's constants and, otherwise, exactly the allow-listed names with one non-empty text |

## Left out

- SHA-256 is taken to be injective: a fingerprint is the encoded text, a file's revision is the document itself.
- JSON text, schema shapes and size limits: a file either is a ledger document, declares another schema version, or is unreadable.
- Path identity is equality of strings; `realpath` and directory checks are not modelled.
- One writer per ledger at a time. The store's compare-and-swap is advisory by its own account, and two concurrent writers are not modelled.
- The driver, the start path, the planner and the lease are scripts. A driver's answers for one task do not depend on when it is asked and are finitely many, which stands for the assumption that every continuation makes durable progress.
- Detail strings and message texts that no decision reads.
- BlockRunner.BlockRun.Run: which of the four unrecorded endings a concrete timing of edits leads to is stated only where the environment holds still; elsewhere the account of what was not shown is exact but the code is not tied to one cause, and no script is exhibited for DURABLE_WRITE_FAILED or RECONCILIATION_UNRESOLVED over a stale report.
- BlockRunner.BlockRun.RunPasses: promises nothing about a ledger another process rewrites during the run, because one writer per ledger is the store's own prerequisite.
- BlockRunner.BlockRun.ApplyForcedProgress: the exact result is stated for records, declared identity and writes that hold still; when they do not, only what is on disk and the unchanged active task are promised, because the search itself re-reads the records at every step.
- LaunchRuns.NoKilledRunLooksFinished: shared variables are sequentially consistent, and an unexpected exception is allowed at every step of the main thread except inside a status write, which swallows its own, and between a creation or resume and the step that records or contains it, where nothing that can throw is called.
- LaunchRuns.NothingOutlivesTheHelper: the kernel ends all members of a strict job in one step, and a member cannot leave; both are the operating system's promises.
- The status keys `jobCreated`, `ownerWatch`, `detail` and `jobMemberPidsAtEnd` are not in the helper's state machine, because the reader does not interpret them; `BoundaryReport.StatusesCrossTheWire` covers lines of that kind.
- Real pipes, handles, process creation, polling for the status file and temporary directories.
- UTF-8 itself: a text on the wire is the string of its UTF-8 bytes, so a lone surrogate, which UTF-8 replaces, is not modelled.
- Base64.StrictDecodeUndoesEncode: the helper's decoder also skips blanks inside a value; the model's does not, because no encoder here writes any.
- WireLines.ReadIntUndoesDecimal: leading blanks are the ASCII ones.
- CommandLine.ArgumentsSurviveQuoting: NUL characters are ordinary here; the encoder refuses them before they can reach a command line.
- OwnedCommand.OwnedRun.OnEstablished: budgets are whole numbers or absent, and how a caller's number becomes one (`usable`, `usableDelay`, `usableGrace`) is not modelled.
- Attestation minting, the handover of streams before establishment, and what happens to the working directory.
- OwnedCommand.AnswersMean: a request the encoder throws on is not an answer and propagates; it is `BoundaryRequest.EncodeBoundaryRequest` that says which.
- LaunchFiles.NoKilledRunReadsAsFinished: process ids, counts and error numbers are safe integers and the nonce and forward words are texts of the wire, which the helper's 32-bit integers and fixed words are.
- LaunchAccounting.Registry.OpenOwnedLaunch: an accountant does not install or dispose anything while it is being asked.
- ProbeEnv.CreateProbeEnv: the policy's names and constants are parameters, and so is the platform's folding of a name; symbol keys and descriptor reads that throw are left out with the proxies that could cause them.
- Environment assessment, write guards, agent adapters, diagnostics, the command-line interface, rendering, configuration and schema generation: decision tables and plumbing that would add only easy members.
