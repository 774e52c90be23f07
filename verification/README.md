# The office's control plane, verified

Several programs change one task's files independently: the sync of role outputs, the gate and branch
writers, plan revisions, human decisions, forced routes, the unblocker and failure recovery. Each takes the
task's lock for one read-modify-write. This project models those critical sections as atomic steps and proves
what holds over every interleaving of them.

- **Gates, branches and the ledger.** `Text` has the YAML shapes (a key missing, null, of a wrong type, or a
  value). `AuthorizationLedger`, `LedgerIndex` and `RecordAuthorization` are the append-only ledger, its index
  and its writer; `CompletionGuard` is the verdict on done; `GateOrdering` the `after` graph; `GateWriter` the
  gate commands; `GatePlan` the project manager's plan; `GateView` the read-only view; `BranchProjection` the
  projection of branches onto the task. `GateRules`, `GateProgress`, `GatePlanRules`, `GateContents` (what each
  command leaves) and `GrantWorth` (what an append is worth) hold what is proved about them.
- **The status writers.** `StatusWriters` says what each writer decides as a function of the stored status;
  `TaskFile` carries the writers out step by step in a class and is proved to do that. `TaskRules` proves what
  each writer keeps, `TaskRuns` what every run keeps and where safety ends. `Finishing` and `DecisionRuns` are
  how a task gets finished, `Routing` who works in which phase, `PlanRetry` and `RetryRuns` a revision that is
  sent again, `PhaseCauses` what brings a task into each phase,
  `BranchRules` and `LoopBudget` further laws of these writers. `PlanRevisions` checks the stored revisions.
  `StoredState` is the validator of stored state, and the proof that it accepts every state the writers reach.
- **Ownership.** `Ownership` is the lease register and the fence, `OwnershipRuns` the protocol over many
  processes with a trace of grants and landed writes, `OwnershipLiveness` that free tasks can be had and owners
  can write, `FencedTask` the status writers behind the fence.
- **The event gateway.** `Gateway` is the store, `GatewayRuns` any number of processes at their places in the
  pipeline and at most one dispatch, `GatewayLiveness` that no event is stuck,
  `GatewayCauses` why each event goes where it goes, `GatewayPipeline` the pipeline as
  one process runs it, `GatewayIdentity` minted ids and the recovery from a lost ledger.
- **Configuration.** `ConfigMerge` is the merge, `ConfigProtection` and `ConfigLists` what it keeps,
  `ConfigOverlay` which layer decides each value.
- **Import cycles.** `CycleSignature` and `ImportCycles` are the signature and the three-colour search.

Clocks, what a process managed to read, the answers of the pre-check and of the driver, and role outputs are
parameters, so every theorem holds for all of them.

## What turned out not to hold

Each of these is stated with the exact condition under which the law does hold, and with an input that breaks it.

- A sync can leave a done task with a pending gate: a project manager's output on a done task that names an
  agent outside its enum, with a plan that declares a new gate (`TaskRuns.SyncIsDoneSafeExactly`,
  `TaskRuns.PmCanReopenDone`). Outputs that pass the role schema cannot.
- The unblocker does not ask the completion guard; a reviewer queue phase configured as `done` finishes a task
  with open gates (`TaskRuns.UnblockIsDoneSafeExactly`, `TaskRuns.UnblockCanForgeDone`).
- The operator's cleanup report has its own table of who works in which phase, and the writers can leave another
  pair. Each writer's exact condition is in `Routing`, with `Routing.StepRouteExactly` for all of them; inputs that
  break it: devops handing its task to done (`Routing.DevopsDoneMismatches`), a debugger's task unblocked into
  pending (`Routing.UnblockMismatches`), a reviewer's task resumed by a branch update, a revision or a recovery
  (`Routing.ResumeMismatches`, `Routing.ReviseMismatches`, `Routing.RecoveryMismatches`). A forced route is
  whatever the operator types.
- On a task with branches a wait lasts exactly when its text does not begin like a branch's
  (`BranchProjection.ProjectedWaits`): a permission wait that does is lost (`Routing.RecoveryMismatches`).
- A held approval does not always apply once the gates resolve, and one made for an earlier phase can still
  complete a task that moved on and came back. Only the first reading with nothing open counts: it finishes the
  task exactly when the task is then in the phase the approval was made for (`DecisionRuns.ApprovalFate`,
  `DecisionRuns.ApprovalCanBeLost`, `DecisionRuns.ApprovalCanOutliveItsPhase`).
- The view can offer a gate as passable that no command can pass: it does not check the gate's name
  (`GateView.PassableExactly`, `GateView.BadNameLooksPassable`).
- A renewal after the lease lapsed can leave one worktree held exclusively by two tasks
  (`OwnershipRuns.ExclusiveExactly`, `OwnershipRuns.LateRenewalSharesWorktree`).
- A driver call slower than the reservation window lets a retry dispatch the same event again
  (`GatewayRuns.OnePathExactly`, `GatewayRuns.SlowDispatchRunsTwice`).
- An overlay that is not a map above a protected path replaces the protected value
  (`ConfigProtection.ProtectedValue`, `ConfigProtection.NullAboveWipesProtected`).

Where code and documentation differ the code is followed: docs/config-profile-merge-contract.md lists
`agents[].id` among the protected fields and scripts/resolve-office-config.rb has no such path; what the merge
does keep of a list's ids is `ConfigLists.MergedListKeepsIds`.

## Model

| member | source | states |
|---|---|---|
| `Text.StripSplits` | scripts/sync-status-from-output.rb:97-117 | stripping takes only white space away, and leaves none at the ends |
| `AuthorizationLedger.FormatRoundTrip` | scripts/authorization-ledger.rb:123-132 | an id formatted from a number reads back as that number, for every number |
| `AuthorizationLedger.FormatIsShortest` | scripts/authorization-ledger.rb:123-132 | and it is the shortest id of its number |
| `AuthorizationLedger.AcceptedStep` | scripts/authorization-ledger.rb:183-258 | the integrity rules, stated without an order of checking, can be decided entry by entry |
| `AuthorizationLedger.ValidateEntries` | scripts/authorization-ledger.rb:183-258 | reports nothing exactly on the ledgers with increasing ids, well-formed fields, and revokes that each name an earlier grant no earlier revoke named |
| `AuthorizationLedger.CheckEntry` | scripts/authorization-ledger.rb:190-256 | one turn of the validator: silent exactly when the entry is well formed against the tables, which then grow by exactly that entry |
| `LedgerIndex.BuildIndex` | scripts/authorization-ledger.rb:44-57 | one pass fills the two tables of the specification |
| `LedgerIndex.TablesAgree` | scripts/authorization-ledger.rb:44-57 | on an accepted ledger the hash tables hold exactly the numbered entries and exactly the revokes of each number |
| `LedgerIndex.IndexAgreesWithScan` | scripts/authorization-ledger.rb:74-95 | the indexed answer to "valid grant at this time and snapshot" is the answer of a linear scan of the list |
| `LedgerIndex.SnapshotStable` | scripts/authorization-ledger.rb:74-95 | no accepted extension of a ledger changes what any snapshot at or below its old high-water id says |
| `LedgerIndex.EntryStays` | scripts/authorization-ledger.rb:60-62 | an id the ledger holds is held by every accepted extension, at or below the old high-water id |
| `LedgerIndex.HighWaterIsLast` | scripts/authorization-ledger.rb:66-70 | the high-water id is the number of the last entry |
| `LedgerIndex.UntilIsExact` | scripts/authorization-ledger.rb:97-118 | a reported end t' means some grant covers every moment up to t' and no grant valid now covers t'; with none reported, nothing is granted or something is for ever |
| `RecordAuthorization.AppendAccepted` | scripts/record-authorization.rb:129-160 | an append under max + 1 keeps the ledger accepted exactly when the entry is well formed and a revoke names a grant still unrevoked |
| `RecordAuthorization.NewEntryFields` | scripts/record-authorization.rb:137-154 | the entry built from a request carries the given number, the time and what was asked, and is well formed exactly when a grant's end is after now |
| `GrantWorth.RecordableExactly` | scripts/authorization-ledger.rb:190-256 | the validator finds the fields of an entry in order exactly when the recorder could have written it for some request |
| `RecordAuthorization.AuthorizationFile.Record` | scripts/record-authorization.rb:101-167 | appends exactly the acceptable requests, under the next number, and leaves the ledger accepted; refuses without a change otherwise |
| `GrantWorth.GrantIsWorth` | scripts/record-authorization.rb:138-154 | after a grant of an action each grant permits what it did, and the new one exactly that action from now until its end |
| `GrantWorth.RevokeIsWorth` | scripts/record-authorization.rb:150-154 | after a revoke exactly the named grant permits nothing any more, judged by the whole ledger |
| `GrantWorth.GrantGrants` | scripts/record-authorization.rb:138-154 | so an action is granted exactly when it was before or is the one asked for, within its time |
| `GrantWorth.RevokeRevokes` | scripts/record-authorization.rb:150-154 | and after a revoke exactly when some other grant permits it |
| `GrantWorth.RevokeLandsExactly` | scripts/record-authorization.rb:112-158 | a revoke is accepted exactly while the grant it names is worth something, in whatever phase the task is |
| `GrantWorth.GrantLandsExactly` | scripts/record-authorization.rb:112-158 | a grant is accepted exactly on an open task with an end, if any, after now, and is worth what was asked at once |
| `GrantWorth.EarlierSnapshotsKeepTheirWorth` | scripts/authorization-ledger.rb:74-95 | no append changes what an earlier snapshot permits |
| `CompletionGuard.VerdictMeaning` | scripts/completion-guard.rb:79-106 | done is allowed exactly when every gate and every branch is resolved, malformed maps counting as unresolved |
| `CompletionGuard.UnreadableLedgerIsStrictest` | scripts/completion-guard.rb:107-122 | what an unreadable ledger allows, every ledger allows, and it allows nothing that has a bound gate |
| `CompletionGuard.RecordedJudgementStable` | scripts/completion-guard.rb:139-174 | no later grant or revoke changes the judgement on a gate whose snapshot is recorded |
| `GateOrdering.GateReaches` | scripts/completion-guard.rb:257-269 | the worklist search ends on every graph and answers exactly whether a path exists |
| `GateOrdering.AcyclicMeansNoClosedWalk` | scripts/completion-guard.rb:273-298 | the search's notion of acyclic is "no closed walk of one or more edges" |
| `GateOrdering.OrderingErrors` | scripts/completion-guard.rb:273-298 | reports nothing exactly when every ordering is well shaped and the graph is acyclic |
| `GateOrdering.AddedEdgesKeepAcyclic` | scripts/update-completion-gate.rb:209-214 | edges out of one gate, to gates that do not lead back to it, never close a cycle |
| `GateOrdering.DeclareKeepsOrdering` | scripts/update-completion-gate.rb:207-208 | declaring a gate that waits on declared gates keeps the orderings well formed |
| `GateOrdering.DependKeepsOrdering` | scripts/update-completion-gate.rb:209-214 | an accepted depend keeps the orderings well formed |
| `GateOrdering.RewriteKeepsOrdering` | scripts/update-completion-gate.rb:297-307 | a transition that carries the ordering forward leaves the graph as it was |
| `GateOrdering.SomeGateIsFirst` | scripts/completion-guard.rb:303-307 | among any non-empty set of gates of a well-formed map, one waits on none of the others |
| `GateWriter.GateSection.Update` | scripts/update-completion-gate.rb:90-316 | refuses with the specified code or rewrites exactly one gate, history growing by one row |
| `GateContents.DeclareHolds` | scripts/update-completion-gate.rb:236-307 | an accepted declare leaves a pending gate with exactly the binding, the waits and the record requirement asked for, and nothing cited |
| `GateContents.OtherCommandsKeep` | scripts/update-completion-gate.rb:236-307 | every other command keeps the binding; a depend leaves the old waits followed by the added ones; only asking for a record asks for one |
| `GateContents.PassHolds` | scripts/update-completion-gate.rb:247-307 | a pass holds who, why and when, exactly the cited evidence and run record, and where the gate is bound the cited references and the newest ledger id |
| `GateContents.NaHolds` | scripts/update-completion-gate.rb:298-307 | a gate marked na holds who, why and when, and cites nothing |
| `GateContents.DeclareExactly` | scripts/update-completion-gate.rb:171-208 | on gates the writers left, a declare is accepted exactly under a new name, on gates that are there, for a known action |
| `GateContents.DependExactly` | scripts/update-completion-gate.rb:195-214 | waits can be added to exactly the pending gates, new ones, as long as the graph they leave has no cycle |
| `GateContents.RecordExactly` | scripts/update-completion-gate.rb:198-203 | a record can be asked of exactly the pending gates that need none yet |
| `GateContents.NaExactly` | scripts/update-completion-gate.rb:171-194 | any stored gate of an open task can be marked na, by somebody and for a reason |
| `GateContents.AnyPassExactly` | scripts/update-completion-gate.rb:204-283 | a given pass is accepted exactly when the gate can be passed, a needed record is there, exactly bound gates cite references, each a valid grant now, and all evidence is known |
| `GateContents.StateRefusalExactly` | scripts/update-completion-gate.rb:270-283 | on such gates and a readable ledger, the refusal for missing state is given exactly to the pass that unknown evidence alone stops |
| `GateContents.LedgerRefusalExactly` | scripts/update-completion-gate.rb:218-255 | an unreadable ledger is missing state too: it stops exactly the passes that must look at it, those of bound gates and of gates that wait on one |
| `GateContents.BrokenStateIsRefused` | scripts/update-completion-gate.rb:177-186 | stored gates the writer cannot build on stop every well-formed command on an open task with one code |
| `GateContents.FinishedIsRefused` | scripts/update-completion-gate.rb:171-175 | a finished task takes no gate command |
| `GateContents.BoundGateNeedsGrant` | scripts/completion-guard.rb:139-174 | over every run a gate bound to an action stays bound to it, and is a pass only on a grant of that action valid at its recorded time and snapshot |
| `GateContents.DeclaredActionNeedsGrant` | scripts/update-completion-gate.rb:236-238 | what --requires-authorization promises: a gate declared for an action is never a pass, in any later state, without a grant of that very action |
| `GateRules.PassIsResolved` | scripts/update-completion-gate.rb:245-268 | what the writer accepts as a pass the done guard accepts, judged at the same time and snapshot |
| `GateRules.WriterKeepsRules` | scripts/update-completion-gate.rb:171-312 | every accepted command keeps the gates well ordered, each pass behind resolved waits, reopens no resolved gate, and touches one gate |
| `GateRules.WriterKeepsOrdering` | validate-yaml.rb:429-455 | the stored-state check of orderings never has anything to report after an accepted command |
| `GateRules.OrderRefusalExactly` | scripts/update-completion-gate.rb:216-234 | a pass meets no ordering refusal exactly when each gate it waits on is resolved as the done guard judges it |
| `GateRules.PassExactly` | scripts/update-completion-gate.rb:171-283 | some pass of a gate is accepted exactly when its name, its waits and its grant allow it; a plain pass is one |
| `GateProgress.LedgerGrowthKeepsRules` | scripts/completion-guard.rb:147-174 | later grants and revokes break no rule of the gates and change no gate's judgement |
| `GateProgress.EveryGateCanBeResolved` | scripts/update-completion-gate.rb:216-307 | no dead end: with grants in place, one pass for each open gate, in some order, is accepted step by step and resolves everything |
| `GatePlan.PlanGateErrors` | scripts/completion-guard.rb:389-433 | reports nothing exactly on plans whose items are well formed, distinct and acyclic among themselves |
| `GateContents.ListedIsDeclarable` | scripts/completion-guard.rb:389-433 | a plan lists a gate well exactly when a command could declare it so, for a reason |
| `GatePlan.MergedAt` | scripts/completion-guard.rb:440-486 | the merge gives each listed gate its own item's merge and touches no other gate |
| `GatePlan.ReconcileGatePlan` | scripts/completion-guard.rb:440-486 | conflicts exactly when an item contradicts a stored gate or the result has a cycle, then returns the stored gates; otherwise the merge and one change per addition |
| `GatePlanRules.PlanOnlyAdds` | scripts/completion-guard.rb:435-486 | an applied plan drops, changes or loosens nothing stored, adds to pending gates only, and declares only pending gates |
| `GateContents.PlanHolds` | scripts/completion-guard.rb:440-486 | after an applied plan each listed gate has exactly the binding, waits and record requirement listed, a new one pending for the reason given |
| `GateContents.ConflictExactly` | scripts/completion-guard.rb:440-486 | a stored gate is in the way of an item exactly when no add-only change makes it as listed |
| `GatePlanRules.PlanIsIdempotent` | scripts/completion-guard.rb:440-486 | the same plan applied again, at any time, conflicts with nothing and changes nothing |
| `GatePlanRules.PlanKeepsRules` | scripts/sync-status-from-output.rb:201-229 | an applied plan keeps every rule of the gates and reopens none |
| `GateView.GateViewOf` | scripts/completion-guard.rb:492-568 | readable exactly when the stored gates are presentable; its counts are the counts of its lines |
| `GateView.SummaryAgreesWithGuard` | scripts/completion-guard.rb:539-550 | resolved equals total exactly when the done guard leaves no gate unresolved |
| `GateView.PassableExactly` | scripts/completion-guard.rb:570-609 | a pending, well-named gate is shown as passable exactly when some pass command is accepted at that clock and ledger |
| `GateView.WaitsTell` | scripts/completion-guard.rb:539-560 | the lines agree: a gate waits on exactly those of its gates whose own lines are not resolved, as the guard judges |
| `GateView.GrantTells` | scripts/completion-guard.rb:570-609 | a pending bound gate's grant is unknown exactly without a ledger, missing exactly when none is valid, and an end it tells is the moment the present grants run out |
| `GateView.BadNameLooksPassable` | scripts/completion-guard.rb:570-609 | the limit of that agreement: a stored gate with a bad name is shown as passable and no command can pass it |
| `BranchProjection.ProjectionIsValid` | scripts/branch-projection.rb:46-63 | whatever a writer left, the projection makes the branch section meet the validator's wait and phase rules |
| `BranchProjection.ProjectionIsIdempotent` | scripts/branch-projection.rb:46-63 | projecting twice is projecting once |
| `BranchProjection.ProjectionFrame` | scripts/branch-projection.rb:46-63 | the projection touches only the waits, the phase (to blocked or assigned), the agent and ready, and never an override phase |
| `BranchProjection.SplitWaits` | scripts/branch-projection.rb:23-33 | task waits and branch waits are told apart by their prefix, losing and reordering none |
| `BranchProjection.ProjectedWaits` | validate-yaml.rb:577-579 | after the projection the branch waits of the list are exactly the current ones and the task's own waits are untouched |
| `BranchProjection.WaitTellsItsBranch` | scripts/branch-projection.rb:23-33 | two projected waits are the same text exactly when branch and waiting text are the same |
| `BranchProjection.ResolvedExactly` | scripts/completion-guard.rb:79-106 | the guard resolves exactly the valid records that are done or na |
| `TaskRules.SyncKeepsTask` | scripts/sync-status-from-output.rb:119-249 | a sync of a schema-valid output keeps the task sound: gates, branch section, and no done the guard refuses |
| `TaskRules.ForceKeepsTask` | scripts/force-status-route.rb:57-80 | forced routing keeps the task sound and the gates as they are |
| `TaskRules.DecisionKeepsTask` | scripts/reconcile-decision.rb:99-165 | a human decision keeps the task sound and the gates as they are |
| `TaskRules.UnblockKeepsTask` | scripts/reconcile-blocked-status.rb:66-156 | the unblocker keeps the task sound when the reviewer's queue phase is not done |
| `TaskRules.ValidationFailedKeepsTask` | scripts/enforce-output-contract.rb:68-96 | marking a validation failure keeps the task sound |
| `TaskRules.BranchKeepsTask` | scripts/update-task-branch.rb:71-101 | a branch update leaves a branch section that validates, and the gates as they are |
| `TaskRules.ClassifyKeepsTask` | scripts/classify-task-failure.rb:98-152 | recovery routing keeps the task sound and never routes to done |
| `TaskRules.ReviseKeepsTask` | scripts/revise-task-plan.rb:124-196 | a plan revision keeps the task sound and reopens no gate |
| `TaskRules.DeclaredGatesKeepRules` | scripts/revise-task-plan.rb:173-178 | the gates a revision declares keep the rules and leave every stored gate as it was |
| `TaskRules.LedgerGrowthKeepsTask` | scripts/record-authorization.rb:129-160 | an append to the ledger leaves a sound task sound and every judgement as it was |
| `TaskRuns.RunsStaySound` | scripts/completion-guard.rb:79-174 | over every interleaving of the writers a sound task stays sound and no resolved gate is ever unresolved again |
| `TaskRuns.ReachableTaskIsSafe` | scripts/completion-guard.rb:79-174 | from a fresh task: done means every gate and branch resolved against the current ledger, later revokes included; every pass has its waits resolved; orderings stay acyclic; the branch section validates |
| `TaskRuns.SyncIsDoneSafeExactly` | scripts/sync-status-from-output.rb:184-229 | a sync keeps done-safety exactly when it is not a project manager's output on a done task that names an agent outside its enum and plans a new gate |
| `TaskRuns.PmCanReopenDone` | scripts/sync-status-from-output.rb:119-130 | such an output exists: it leaves a done task with a pending gate |
| `TaskRuns.UnblockIsDoneSafeExactly` | scripts/reconcile-blocked-status.rb:121-146 | the unblocker, which does not ask the guard, leaves a false done exactly when it routes to a reviewer whose queue phase is done while the guard would refuse |
| `TaskRuns.UnblockCanForgeDone` | scripts/reconcile-blocked-status.rb:128-138 | such a configuration exists |
| `StoredState.ValidateGate` | validate-yaml.rb:376-396 | reports nothing about a stored gate exactly when its name, status, metadata, evidence ids, binding, references and run record have a valid shape |
| `StoredState.ValidateGateOrdering` | validate-yaml.rb:429-455 | reports nothing exactly when the orderings are well formed and every gate a passed gate waits on is resolved against the ledger |
| `StoredState.ValidateAuthorizations` | validate-yaml.rb:632-672 | reports nothing exactly when every reference of a passed bound gate is a valid grant at its own time and snapshot |
| `StoredState.ValidateBranches` | validate-yaml.rb:545-587 | reports nothing exactly when the branch records, the projected waits and the phase agree |
| `StoredState.ValidateStatus` | validate-yaml.rb:373-423 | reports nothing exactly when all of these hold and a done task is one the guard allows |
| `StoredState.ReachableStateIsValid` | validate-yaml.rb:373-455 | the validator has nothing to report about any state the writers reach from a fresh task |
| `StoredState.ValidExactlySound` | validate-yaml.rb:373-455 | against an accepted ledger, the validator accepts exactly the states that meet the invariant the writers keep |
| `StoredState.ValidStaysValid` | validate-yaml.rb:373-455 | so a task the validator accepts stays accepted over every run of the writers |
| `TaskFile.RebuiltWaits` | scripts/branch-projection.rb:23-33 | the two loops compute the task waits followed by one wait for each blocked branch |
| `TaskFile.DependencyStates` | scripts/reconcile-blocked-status.rb:68-85 | the loop finds a failed dependency exactly when there is one, and a pending one exactly when there is one |
| `TaskFile.StatusFile.ApplyProjection` | scripts/branch-projection.rb:46-63 | the in-place steps leave the projected status |
| `TaskFile.StatusFile.Sync` | scripts/sync-status-from-output.rb:84-277 | the in-place steps meet the sync's specification: same refusal codes, same skips, same new status |
| `TaskFile.StatusFile.ApplyPlan` | scripts/sync-status-from-output.rb:200-229 | the gates and their history rows change together, or the plan is refused and nothing changes |
| `TaskFile.StatusFile.ForceRoute` | scripts/force-status-route.rb:57-92 | the in-place steps meet the forced route's specification |
| `TaskFile.StatusFile.ReconcileDecision` | scripts/reconcile-decision.rb:85-165 | the in-place steps meet the decision's specification |
| `TaskFile.StatusFile.ReconcileBlocked` | scripts/reconcile-blocked-status.rb:66-156 | the in-place steps meet the unblocker's specification |
| `TaskFile.StatusFile.MarkValidationFailed` | scripts/enforce-output-contract.rb:68-96 | the in-place steps meet the specification; a repeat adds a retry and no history row |
| `TaskFile.StatusFile.UpdateBranch` | scripts/update-task-branch.rb:71-101 | the in-place steps meet the branch update's specification |
| `TaskFile.StatusFile.ClassifyFailure` | scripts/classify-task-failure.rb:98-152 | the in-place steps meet the recovery routing's specification |
| `TaskFile.StatusFile.RevisePlan` | scripts/revise-task-plan.rb:124-196 | everything is checked before anything changes, and the whole revision lands or nothing does |
| `Finishing.SyncFinishesExactly` | scripts/sync-status-from-output.rb:119-197 | a sync finishes an open task exactly when the reviewer (or an unknown actor) hands an unsynced output to done and the guard has nothing open |
| `Finishing.LatestIsLast` | scripts/reconcile-decision.rb:85-93 | the decision taken is the last one of a known kind that carries a decided_at |
| `Finishing.ApprovalFinishesExactly` | scripts/reconcile-decision.rb:99-141 | a decision finishes an open task exactly when it is a new approval, made for this phase if the task has gates, and the guard has nothing open |
| `DecisionRuns.StepCommutes` | scripts/reconcile-decision.rb:95-97 | no writer but the reconciler reads or writes the mark of the decision applied last: every other step goes the same way whatever the mark is |
| `DecisionRuns.SupersededApprovalHasNoEffect` | scripts/reconcile-decision.rb:119-140 | a new approval for another phase that is read while the guard has nothing open has no effect from there on: every run that reads the same file is the run without it, but for the mark and one history row, even back in the phase it was made for |
| `DecisionRuns.DecisionsLandOnce` | scripts/reconcile-decision.rb:85-97 | over any run whose decision file only grows, each decision with a time of its own, no decision lands twice, whatever the other writers do in between |
| `DecisionRuns.FirstReadyIsFirst` | scripts/reconcile-decision.rb:102-117 | the reading that decides about an approval is the first one with nothing open for the guard |
| `DecisionRuns.ApprovalFate` | scripts/reconcile-decision.rb:95-140 | what any run does with a new approval, exactly: with no ready reading it stays unmarked and the run is that of the other writers; else the first ready reading finishes an open task if and only if the task is then in the phase the approval was made for (or has no gates section), and otherwise the approval is lost |
| `DecisionRuns.ApprovalCanBeLost` | scripts/reconcile-decision.rb:99-101 | a case: held in its phase, read ready while the task is elsewhere, and of no effect once the task is back |
| `DecisionRuns.ApprovalCanOutliveItsPhase` | scripts/reconcile-decision.rb:119-121 | a case: read in another phase while something is open, and finishing the task later in its own |
| `DecisionRuns.HeldApprovalCanLand` | scripts/reconcile-decision.rb:99-117 | in the phase it was made for, an approval held by open gates can be brought to land: with grants in place and branches settled, one pass for each open gate and one more reading finish the task |
| `PhaseCauses.HandOverIs` | scripts/sync-status-from-output.rb:97-115 | whom an output hands over to: the agent it names or, from a reviewer who names none, the one the verdict stands for |
| `PhaseCauses.TableIs` | scripts/sync-status-from-output.rb:119-182 | the transition table, phase by phase: which actor handing over to whom, with which flag, leads to each phase, and which hand-overs keep the old one |
| `PhaseCauses.ExpectedExactly` | run-agent.sh:537-562 | the cleanup report expects in each phase exactly those whom some hand-over brings into it, and in two more the reviewer, whom none does |
| `PhaseCauses.SyncLeaves` | scripts/sync-status-from-output.rb:119-249 | exactly what an applied output leaves: that phase and agent unless branches override it, the readiness, the waits, and each counter one up exactly for its agents |
| `PhaseCauses.SyncAppliesExactly` | scripts/sync-status-from-output.rb:84-229 | an output is applied exactly when it is new, hands over to somebody, the guard agrees where it asks for or keeps done, and its plan fits the stored gates |
| `PhaseCauses.DecisionLeaves` | scripts/reconcile-decision.rb:99-165 | what each kind of decision leads to, and exactly when it is held or superseded instead |
| `PhaseCauses.ClassifyLeaves` | scripts/classify-task-failure.rb:60-147 | what each classification leads to, and exactly when a failure is routed |
| `PhaseCauses.UnknownIsRefused` | scripts/classify-task-failure.rb:65-66 | no other classification or route is accepted |
| `PhaseCauses.ForceLeaves` | scripts/force-status-route.rb:57-80 | force does what it is told, except past the guard |
| `PhaseCauses.UnblockLeaves` | scripts/reconcile-blocked-status.rb:66-156 | a blocked task escalates once a task it waits for has been aborted or has failed validation, is released to its assignment once all have reached the phase waited for, and else stays |
| `PhaseCauses.RetriesCountFailures` | scripts/enforce-output-contract.rb:68-96 | over every run the retry counter is the number of failed validations |
| `PhaseCauses.BranchLeaves` | scripts/update-task-branch.rb:71-101 | which moves a branch can make, and exactly what an update leaves of it, of the other branches and of the task |
| `PhaseCauses.EveryPhaseHasACause` | scripts/sync-status-from-output.rb:119-182 | over every run, a task that ends in another phase than it began in was brought there by a step whose writer names that phase or whose branches lead there, and stayed |
| `Routing.ProjectedRouteExactly` | scripts/branch-projection.rb:46-63 | what the branch projection leaves is a route the cleanup report expects exactly when: blocking keeps a worker, resuming picks a developer or nobody, and anything else had an expected route already |
| `Routing.UpdatableIsOpen` | scripts/branch-projection.rb:8-20 | branches can be updated in exactly the phases the report knows but the two that end a task |
| `Routing.SyncRouteExactly` | run-agent.sh:537-586 | exactly when a sync leaves an expected route, with or without branches: a table row for the hand-over or a kept phase that fits, a worker where branches block, a developer where the kept block resumes |
| `Routing.DevopsDoneMismatches` | run-agent.sh:537-586 | a schema-valid output that breaks the route: devops handing its task to done |
| `Routing.ForceRouteExactly` | scripts/force-status-route.rb:57-80 | a forced route is expected exactly when the pair fits, or branches block it and the agent is a worker, or it resumes to a developer |
| `Routing.DecisionRoutes` | scripts/reconcile-decision.rb:143-147 | a decision never breaks an expected route, with or without branches |
| `Routing.RecoveryRouteExactly` | scripts/failure-recovery.rb:7-28 | a recovery route is expected unless it blocks a task that its branches resume at once, to a primary who is no developer |
| `Routing.RecoveryMismatches` | scripts/classify-task-failure.rb:125-137 | a case: a permission wait whose text looks like a branch's is taken for one and lost, and the task resumes at once, to the reviewer |
| `Routing.UnblockRouteExactly` | scripts/reconcile-blocked-status.rb:121-146 | the unblocker leaves an expected route exactly when a dependency failed, or its choice fits the phase it picks, is a worker where branches block, or is a developer where they resume |
| `Routing.UnblockMismatches` | scripts/reconcile-blocked-status.rb:121-146 | a primary the schema allows that breaks it: a task assigned to the debugger is unblocked into pending |
| `Routing.BranchRouteExactly` | scripts/branch-projection.rb:56-61 | a branch update breaks an expected route exactly by resuming the task to somebody who is no developer |
| `Routing.ResumeMismatches` | scripts/branch-projection.rb:56-61 | a case that does: the last blocked branch of a task assigned to the reviewer becomes ready |
| `Routing.ReviseRouteExactly` | scripts/revise-task-plan.rb:179-188 | a plan revision breaks an expected route exactly when the task, blocked before or by its first new branch, is resumed by a ready one to a primary who is no developer |
| `Routing.ReviseMismatches` | scripts/revise-task-plan.rb:179-188 | a case that does: a ready branch added to a blocked task assigned to the reviewer |
| `Routing.StepRouteExactly` | run-agent.sh:537-586 | one step of any writer breaks an expected route exactly when one of those conditions fails; gate commands, the ledger, decisions and validation failures never do |
| `Routing.RoutesStayExpected` | run-agent.sh:563-586 | over every run, branches included, the report has nothing to say about the route unless one of those steps was taken |
| `BranchRules.SettledBranchesStay` | scripts/update-task-branch.rb:78-88 | over every run a branch that is done or na keeps its record |
| `PlanRevisions.StoredErrors` | scripts/plan-revisions.rb:56-101 | comparing neighbours only, reports nothing exactly when all ids rise and each revision names stored gates and branches |
| `PlanRevisions.NextId` | scripts/plan-revisions.rb:32-35 | the loop finds one more than the largest id |
| `PlanRetry.NextRevisionIsLarger` | scripts/plan-revisions.rb:32-35 | the next revision id is larger than every stored one |
| `PlanRetry.NextRevisionIsFirstFree` | scripts/plan-revisions.rb:32-35 | and it is one, or one more than some stored id |
| `PlanRetry.RevisionsAfterRevision` | scripts/plan-revisions.rb:56-123 | a revision that landed leaves a revision list the stored-state check accepts |
| `PlanRetry.RetryIsRecognised` | scripts/revise-task-plan.rb:142-157 | a revision sent again right after it landed, with any later clock, is recognised and stores nothing |
| `PlanRetry.OnlyTheSameIsKept` | scripts/revise-task-plan.rb:142-157 | only the very change recorded last is taken for a retry |
| `GateContents.RevisionHolds` | scripts/revise-task-plan.rb:173-178 | the gates of a landed revision are pending and bound exactly as the change asks |
| `RetryRuns.DeclarationsLast` | scripts/revise-task-plan.rb:150-157 | over every run of the writers declared gates keep their binding, declared branches stay, and what is stored stays fit to build on |
| `RetryRuns.RetryLaterExactly` | scripts/revise-task-plan.rb:135-169 | after any run in which no further revision was stored, a revision sent again is recognised exactly while the task is open and its branches are as it declared them, and is refused otherwise: it is never stored twice |
| `LoopBudget.BudgetRises` | scripts/sync-status-from-output.rb:231-242 | n applied syncs raise iteration + free_roam_entries by at least (n - 2) / 3, and neither counter ever falls |
| `LoopBudget.ThreeSyncsCost` | scripts/sync-status-from-output.rb:231-242 | any three applied syncs in a row raise the sum |
| `LoopBudget.TwoSyncsCanBeFree` | validate-yaml.rb:1181-1337 | three is exact: reviewer to pm to free-roam costs nothing |
| `LoopBudget.BudgetBoundsRun` | scripts/sync-status-from-output.rb:231-242 | a bound on the counters bounds the number of syncs |
| `LoopBudget.RepeatedSyncIsKept` | scripts/sync-status-from-output.rb:84-93 | syncing the artifact synced last changes nothing |
| `Ownership.Store.WorktreeConflict` | scripts/task-ownership.rb:200-220 | finds a conflict exactly when a sibling keeps the worktree on a live exclusive lease or cannot be read |
| `Ownership.Store.Acquire` | scripts/task-ownership.rb:233-291 | grants exactly when no other live holder, unreadable record or worktree conflict stands in the way; the record left has the next epoch and archives a displaced run |
| `Ownership.Store.Renew` | scripts/task-ownership.rb:293-315 | extends exactly the lease of the run that is the recorded holder |
| `Ownership.Store.Release` | scripts/task-ownership.rb:317-341 | clears the holder for its own run or by force, archiving it, and refuses others |
| `Ownership.Store.Fence` | scripts/task-ownership.rb:374-429 | the two credential lanes, the refusals and the self-renewal; no other task's record changes |
| `OwnershipRuns.EpochsNeverFall` | scripts/task-ownership.rb:273 | no operation loses a record or lowers its epoch |
| `OwnershipRuns.EpochFencing` | scripts/task-ownership.rb:352-429 | over every interleaving and any clocks, grants strictly raise the epoch and once an epoch is granted no write with a smaller one lands, even after a release |
| `OwnershipRuns.LandedWritesAreTheLatestOwners` | scripts/task-ownership.rb:394-417 | where writers present only epochs they were granted, each landed owner write is by the run of the task's latest grant |
| `OwnershipRuns.EpochCountsGrants` | scripts/task-ownership.rb:273 | a task's epoch rises by exactly its number of grants |
| `OwnershipRuns.LeaseEndsExactly` | scripts/task-ownership.rb:246-341 | a live lease ends exactly by time, its own run's release or shortening, or force; until then nothing of another run is granted or lands |
| `OwnershipRuns.LeaseExclusion` | scripts/task-ownership.rb:246-429 | the same over whole runs, whatever the other processes do |
| `OwnershipRuns.ExclusiveExactly` | scripts/task-ownership.rb:200-264 | one action keeps worktrees exclusive exactly when it does not renew a lapsed lease on a worktree taken meanwhile |
| `OwnershipRuns.WorktreesStayExclusive` | scripts/task-ownership.rb:193-220 | over runs whose renewals touch unlapsed leases only, no two tasks hold one worktree exclusively |
| `OwnershipRuns.LateRenewalSharesWorktree` | scripts/task-ownership.rb:293-315 | renew does not ask whether the lease had lapsed: a run of four steps ends with one worktree held twice |
| `OwnershipRuns.HistoryIsTheAccount` | scripts/task-ownership.rb:179-191 | over every run the record is the exact account of the trace: its holder owns the task, its history has one row for each ended ownership, in order, with run, epoch and how it ended |
| `OwnershipRuns.HistoryOnlyGrows` | scripts/task-ownership.rb:179-191 | over every run history is only appended to, and its rows stay in grant order |
| `OwnershipRuns.NoRunIsForgotten` | scripts/task-ownership.rb:266-341 | for every grant, its run has owned the task without a break since, or that very ownership has its row: of this run, granted then or later, before any other run was |
| `OwnershipLiveness.AcquireExactly` | scripts/task-ownership.rb:233-291 | whoever asks for a task that can be read, that no other run holds with time left, and whose worktree is not in the way gets it: next epoch, the lease asked, a row for the displaced run; nobody else changes anything |
| `OwnershipLiveness.KindTells` | scripts/task-ownership.rb:266-291 | the answer says reclaimed exactly when a run was displaced, and renewed exactly when the asking run's own lease was running |
| `OwnershipLiveness.LapsedLeaseIsNoObstacle` | scripts/task-ownership.rb:246-269 | a dead owner is replaced: from every world with a readable record, once the lease has run out the next run that asks and meets no clash owns the task, the old one archived as reclaimed |
| `OwnershipLiveness.AnyTaskCanBeTaken` | scripts/task-ownership.rb:200-269 | nothing is held for ever: where records can be read, after some time any run gets any task on any worktree |
| `OwnershipLiveness.RenewExactly` | scripts/task-ownership.rb:293-315 | a run renews exactly the lease it is on record for |
| `OwnershipLiveness.ReleaseExactly` | scripts/task-ownership.rb:317-341 | a run gives up exactly what it holds, and force whatever is held, archived with how it ended |
| `OwnershipLiveness.LatestOwnerCanWrite` | scripts/task-ownership.rb:394-417 | over every run the run of the latest grant can write under its epoch, lapsed or released or not |
| `OwnershipLiveness.WriteExactly` | scripts/task-ownership.rb:374-429 | exactly which writes land and which of them renew the lease, told by the record's fields |
| `FencedTask.RunsSplit` | scripts/task-ownership.rb:343-351 | a run of fenced writers is an ownership run beside a task run of exactly the steps that passed |
| `FencedTask.FencedTaskStaysSound` | scripts/task-ownership.rb:436-479 | behind the fence a fresh task stays sound whatever dispatches and operators do |
| `FencedTask.StaleOwnerChangesNothing` | scripts/task-ownership.rb:394-401 | once a larger epoch was granted, a writer presenting a smaller one leaves the task as it is |
| `Gateway.GatewayStore.FindRow` | scripts/event-gateway.rb:302 | finds the first row of a delivery |
| `Gateway.GatewayStore.Reserve` | scripts/event-gateway.rb:299-334 | reserves exactly an unknown delivery or a stale reservation, reclaimed in place with an audit stage |
| `Gateway.GatewayStore.Finalize` | scripts/event-gateway.rb:339-351 | rewrites the delivery's own row and appends a stage |
| `Gateway.GatewayStore.MintAndMap` | scripts/event-gateway.rb:492-502 | maps a reference once, to the number after the highest in use |
| `Gateway.GatewayStore.MirrorToTask` | scripts/event-gateway.rb:358-374 | replaces the delivery's entry in the mirror of a task that has a directory |
| `Gateway.HighestOf` | scripts/event-gateway.rb:446-456 | the loop finds the highest minted number over directories and mapping |
| `Gateway.ReservedRows` | scripts/event-gateway.rb:299-334 | a reservation changes no other delivery's row |
| `Gateway.FinalizedRows` | scripts/event-gateway.rb:339-351 | a finalization changes no other delivery's row |
| `Gateway.NextIdIsFresh` | scripts/event-gateway.rb:446-456 | the next id is no mapped task and no directory |
| `GatewayRuns.DispatchesAreReserved` | scripts/event-gateway.rb:553-662 | for any processes in any interleaving, crashes included, an event is dispatched at most once more than its row was reclaimed |
| `GatewayRuns.AtMostOnce` | scripts/event-gateway.rb:265-334 | where no reservation outlives the window, at most once |
| `GatewayRuns.OnePathExactly` | scripts/event-gateway.rb:291-334 | one action opens a second way to the driver exactly when it reclaims a reservation whose holder had not died before dispatching |
| `GatewayRuns.AtMostOnceWithCrashes` | scripts/event-gateway.rb:265-334 | at most once over every run that reclaims no live holder, crashes and reclaims after them included |
| `GatewayRuns.SlowDispatchRunsTwice` | scripts/event-gateway.rb:278-289 | the window matters: a driver call of 901 seconds lets a retry dispatch again |
| `GatewayLiveness.RunTidy` | scripts/event-gateway.rb:291-409 | over every run that reclaims no live holder, at most one process works on a delivery, its row says in progress as long as one does, and mirrors show it only when the row is settled |
| `GatewayLiveness.AbandonedUntilReserved` | scripts/event-gateway.rb:291-334 | a delivery whose holder died before dispatching stays as it is, whatever others do, until somebody reserves it again |
| `GatewayLiveness.DispatchesAlone` | scripts/event-gateway.rb:553-662 | a process on its own dispatches its event exactly when it may reserve it, no mirror showing it, and command, identity, pre-check and mode let it through |
| `GatewayLiveness.DeadHolderIsReplaced` | scripts/event-gateway.rb:278-334 | no event is stuck: after any run without live reclaims in which the holder dies before dispatching, a new delivery dispatches the event, once, exactly when the window has passed and the answers let it through |
| `GatewayCauses.IdentityExactly` | scripts/event-gateway.rb:469-487 | exactly how an event finds its task, and when one may be minted |
| `GatewayCauses.OnlyPmMints` | scripts/event-gateway.rb:484-486 | over every run only a process whose command was a project manager's comes to mint a task |
| `GatewayCauses.EventsGoToTheirTasks` | scripts/event-gateway.rb:469-502 | over every run each process works for the task its event names, which has a directory, or the one its reference is mapped to; one taken without minting has a directory |
| `GatewayCauses.OutcomeTells` | scripts/event-gateway.rb:553-662 | a delivery that gets its reservation ends with exactly the outcome its answers lead to |
| `GatewayPipeline.Pipeline.Run` | scripts/event-gateway.rb:553-662 | the pipeline of one process on its own leaves ledger, mapping, mirrors and dispatches exactly where the protocol's steps leave them |
| `GatewayIdentity.MintIsFresh` | scripts/event-gateway.rb:431-456 | a minted id is new among mapped tasks and directories, and keeps the mapping injective |
| `GatewayIdentity.MintIsNext` | scripts/event-gateway.rb:446-456 | it is the smallest number beyond all in use |
| `GatewayIdentity.MintedIdsAreStable` | scripts/event-gateway.rb:492-502 | over every run a reference keeps its task and no two references share one |
| `GatewayIdentity.MirrorSurvivesLedgerLoss` | scripts/event-gateway.rb:376-409 | a delivery whose run is on its task's mirror is never dispatched again, even after the central ledger is deleted, provided that when the run starts no process is past the mirror check with it, and that its later deliveries lead to that task |
| `ConfigMerge.DeepMerge` | scripts/resolve-office-config.rb:155-175 | the recursive loop computes the merge, in whatever order the keys come |
| `ConfigOverlay.NamedIsTheOverlays` | scripts/resolve-office-config.rb:155-175 | where an overlay names an open path, the result is the overlay's value, a scalar, a null or a list without ids as well, unless both sides hold maps or lists with ids |
| `ConfigOverlay.UnnamedIsTheBases` | scripts/resolve-office-config.rb:155-175 | where it does not, the base's value stays |
| `ConfigOverlay.MapsAreMerged` | scripts/resolve-office-config.rb:165-167 | two maps at an open path are merged in turn |
| `ConfigOverlay.LastLayerWins` | scripts/resolve-office-config.rb:109-127 | the last layer that names an open path decides it: the local file, else the profile's local file, else the profile, else the tracked file |
| `ConfigOverlay.EnvironmentDecides` | scripts/resolve-office-config.rb:199-226 | what the environment sets is set whatever the files say, and paths apart from those are left alone |
| `ConfigMerge.MergeIdKeyedArrays` | scripts/resolve-office-config.rb:177-197 | lists merge by id through an insertion-ordered table, or the overlay replaces the base |
| `ConfigProtection.ProtectedValue` | scripts/resolve-office-config.rb:142-175 | a merge leaves at a protected path the base's value when maps lead to it on both sides, and otherwise exactly the overlay's |
| `ConfigProtection.OverlaysKeepProtected` | scripts/resolve-office-config.rb:109-131 | any list of overlays with maps or nothing above a protected path leaves its value |
| `ConfigProtection.EnvironmentKeepsProtected` | scripts/resolve-office-config.rb:199-226 | no environment override changes a protected value |
| `ConfigProtection.ProtectedConfigIsTheBases` | scripts/resolve-office-config.rb:109-131 | profile, local profile, local file and environment together leave every protected value as the tracked file has it |
| `ConfigProtection.NullAboveWipesProtected` | scripts/resolve-office-config.rb:160-174 | a null above a protected path drops the protected value |
| `ConfigLists.MergedListKeepsIds` | scripts/resolve-office-config.rb:177-197 | a merged list has the base's ids in order, then the new ones, each once, and the entries the overlay does not name |
| `ConfigOverlay.MergedListEntry` | scripts/resolve-office-config.rb:181-196 | an entry the overlay names once is the merge of the two, or the overlay's own where the base has none of its id |
| `CycleSignature.CanonicalCycleSignature` | scripts/socraticode-graph-helper.js:175-190 | the loop finds the least joined rotation |
| `CycleSignature.SameSignatureExactly` | scripts/socraticode-graph-helper.js:175-190 | two cycles have one signature exactly when one is a rotation of the other |
| `CycleSignature.JoinInjective` | scripts/socraticode-graph-helper.js:184 | the names can be read back from the joined text when none holds the arrow's head |
| `ImportCycles.Search.Dfs` | scripts/socraticode-graph-helper.js:477-508 | gray is the current path, black is finished, imports finish before importers unless a chain was reported |
| `ImportCycles.Search.Record` | scripts/socraticode-graph-helper.js:487-503 | a chain is reported unless a rotation of it already is (names being told apart once joined) |
| `ImportCycles.WalksGoDown` | scripts/socraticode-graph-helper.js:505-508 | along imports of finished packages that are on no reported chain, the finishing place only goes down |
| `ImportCycles.Circular` | scripts/socraticode-graph-helper.js:459-514 | reports a chain exactly when the imports have a cycle; every chain is a closed walk; no two are rotations of each other; and, names being told apart once joined, every cycle shares an import with a reported chain |

## Left out

- GateOrdering.OrderingErrors: gates are visited in any order, and one entry stands for all unknown (or all malformed) names of a gate; the texts and order of the reports are not modelled.
- CompletionGuard.VerdictMeaning: the unresolved names form a set; the sorted list shown to the operator is not modelled.
- GateView.GateViewOf: the lines are keyed by gate name; their display order, history and revision summary are not modelled.
- StoredState.ValidateGate: that each evidence id is in the evidence file is not modelled here; the gate writer's check of it is, against a set of ids.
- TaskFile.StatusFile.Sync: the status is one record that the steps rewrite field by field; fields no modelled rule reads (handoff, updated_at, history texts) are left out, history being a row count.
- TaskFile.StatusFile.ClassifyFailure: the second file (meta.yaml) and the two-file commit are not modelled; whether the same classification is already recorded there is an input.
- TaskFile.StatusFile.RevisePlan: revision ids are their numbers; the stored `at` of a revision is not modelled.
- DecisionRuns.DecisionsLandOnce: two decisions with one time count as the same decision, as the reconciler's mark cannot tell them apart; a file edited to drop its last decision is outside the statement.
- Ownership.Store.Acquire: the agent label of a holder and the reason texts of a history row are not modelled.
- OwnershipRuns.LeaseExclusion: a writer that presents the current epoch without naming its run counts as the owner's, because the fence cannot tell it apart.
- GatewayRuns.DispatchesAreReserved: assumes the central ledger is not deleted during the run; MirrorSurvivesLedgerLoss covers deletion.
- GatewayLiveness.DeadHolderIsReplaced: once submitted, the new process takes its steps one after the other; that the operating system schedules it is assumed.
- GatewayRuns.AtMostOnce: envelope normalization, command lookup and the pre-check decide nothing here; their answers are inputs, as is whether an explicit task id has the shape of one.
- ImportCycles.Circular: reports are one chain for each import that closes a path, as in the search; not every elementary cycle is listed, and none is claimed to be.
- CycleSignature.SameSignatureExactly: assumes package ids without the character '>', since ids that hold the separator can join to one text; texts are compared code point by code point.
- ConfigMerge.DeepMerge: keys and scalars are text; an id that is itself a list or a map counts as no id; a list's order of keys inside a map is not modelled.
- A gate or branch key whose value is null is treated like one of a wrong type; items of name lists are texts.
- waits_on, the structured twin of waiting_for, and its clearing.
- Evidence ids are a set given to the gate writer; evidence.yaml itself is not modelled.
- The AI_DEV_OFFICE_OWNERSHIP=off switch, and files edited by hand while a task runs.
- File reading and writing, lock files, temporary files, exit texts, the wording of events and history rows.
- Digests are opaque values; timestamps are whole seconds.
- The dashboard, Git, cloud and command-line wrappers, run records, risk classification, task-input integrity, execution budget and knowledge scripts: mostly shape checks and counters.
