# Verified model of the orchestrator core

A Dafny model of the ledgers, protocols and state machines at the centre of the orchestrator, with proofs about
every run of them. Each source transaction is one atomic step: a new store on success, the old store on any
exception. Steps interleave freely. Objects that the source changes in place are classes whose methods are proved
against pure functions; the theorems are about those functions.

| area | files |
|---|---|
| workflow engine and definitions | `Workflows`, `WorkflowSafety`, `WorkflowProgress`, `WorkflowDefinitions`, `WorkflowStarvation`, `WorkflowTraps`, `WorkflowPreview`, `WorkflowCalls`, `WorkflowApprovals`, `WorkflowExamples`, `WorkflowEngine` |
| run and request lifecycle, cancellation | `Lifecycle`, `Cancellation` |
| budget ledger | `Money`, `Budget`, `BudgetSafety`, `BudgetRuns`, `BudgetPostings`, `BudgetService`, `TaskKeys` |
| notification leases and attempts | `Notifications`, `NotificationSafety`, `NotificationRuns`, `NotificationCalls`, `NotificationService`, `NotificationFanout` |
| bundles | `Bundles`, `BundleConvergence`, `BundleStability`, `BundleOutcome`, `BundleCli` |
| request dispatch | `Addons`, `RequestDispatch`, `DispatchSafety`, `DispatchSelection`, `DispatchService` |
| event stream | `EventStream`, `EventStreamLimits`, `EventTail` |
| routing, readiness | `Router`, `Readiness` |
| shared | `Wrappers`, `Text`, `DecimalText`, `Ordering`, `Sums` |

`dafny verify dfyconfig.toml` checks the project.

## What the code does not promise

These properties are false of the code as it is. Each has a failing input or family, and the exact condition under which
it holds.

- An execution never runs out of work before it ends: not in `WorkflowTraps.ValidDefinitionCanGetStuck`, and exactly when
  the definition has no starving set (`WorkflowTraps.StuckExactlyWhenStarving`).
- Starting a valid definition does not fail it: not in `WorkflowExamples.ValidDefinitionFailsAtStart`, and exactly when
  the preview of its entry does not end in failure (`WorkflowPreview.StartFailsExactly`).
- A conflict-free bundle always applies: not when a workflow maps the inputs of a pack outside the bundle wrongly
  (`BundleConvergence.UnmappedBundleIsRefused`), and exactly then (`BundleConvergence.ApplyCompletesExactly`).
- A plan after an apply is unchanged: exactly when the server answers payloads as they were sent
  (`BundleStability.FinalPlanUnchangedExactly`). A model whose lists are not strictly sorted, or whose prices are not in
  normal form, such as `5.00`, conflicts with itself (`BundleStability.AlteredModelConflictsWithItself`).
- A client may repeat its request when it reconnects: not after `EventTail.RepeatedRequestIsRefused`, exactly without an
  `after` cursor or before the first event (`EventTail.SameRequestReconnects`).
- A cost cap bounds the reservation: not in `Router.CapExceeded`. A cap bounds the reservations of all stored profiles
  exactly when rounding does not raise it once it is cut down to twelve decimals (`Router.CapBoundsExactly`).
- The status of an execution tells whether an approval is open: not in `WorkflowExamples.PanelForgets`, where one of two
  is resolved; `WorkflowApprovals.StatusAgreesExactly` says when it does after a call, from the state before it.
- Cancelling a run cancels its request: not through an execution without request context
  (`Cancellation.CancelWithoutContext`), and exactly then not (`Cancellation.CancelReachesRequestExactly`). That case
  comes from stored snapshots only (src/jb_orchestrator/workflows/serialization.py:194): creating an execution always
  sets the context (src/jb_orchestrator/application/workflow_services.py:124-137).

Two conditions are met by everything the code itself produces: synchronising raises only on a failure reason of blanks
(`Lifecycle.OpenRunSynchronizes`), which the engine never writes, and only single-line messages survive the wire
(`EventStreamLimits.RoundTripExactly`), which is what the encoder is given.

## Model

| member | source | states |
|---|---|---|
| `WorkflowSafety.ApplySettles` | src/jb_orchestrator/workflows/engine.py:22-202 | Every accepted engine call leaves the execution settled: pending and untouched; finished with `completed_at`, a non-blank reason exactly when failed and no node holding work; or flowing with work to do or a join waiting for a missing branch; and no visit count goes back. |
| `WorkflowSafety.CreateSettled` | src/jb_orchestrator/workflows/models.py:498-509 | A new execution is settled. |
| `WorkflowSafety.StartSettles` | src/jb_orchestrator/workflows/engine.py:22-29 | Starting is accepted exactly for a pending execution, and leaves it settled and no longer pending. |
| `WorkflowSafety.TerminalIsFinal` | src/jb_orchestrator/workflows/engine.py:22-202 | No history of engine calls changes an execution that has ended. |
| `WorkflowSafety.MovesExactlyWhenActive` | src/jb_orchestrator/workflows/engine.py:31-183 | In a settled, started execution some begin, complete, fail or resolve call is accepted exactly when a node is ready, running or awaiting approval. |
| `WorkflowStarvation.OnlyStarvingGetsStuck` | src/jb_orchestrator/workflows/engine.py:22-317 | Only a definition with a starving set can be left with nothing to run, whatever is called in whatever order: a set of nodes with the entry and no terminal, a choice for each and an order, such that, entering the targets of each choice one by one within its call, the choices lead on inside the set or to joins that wait, within the visit limits. |
| `WorkflowTraps.StarvingGetsStuck` | src/jb_orchestrator/workflows/engine.py:22-317 | Conversely, making the choices of any starving set in its order ends with nothing to run, whatever forks and joins are entered within one call. |
| `WorkflowTraps.StuckExactlyWhenStarving` | src/jb_orchestrator/workflows/engine.py:22-317 | A valid definition can get stuck exactly when it has a starving set. |
| `WorkflowStarvation.StuckBehindJoin` | src/jb_orchestrator/workflows/engine.py:263-317 | In every stuck execution a join that was never entered has one predecessor that succeeded and one that was never entered. |
| `WorkflowStarvation.ForcedSourcesNeverStarve` | src/jb_orchestrator/workflows/engine.py:263-317 | When nothing that a join waits for can be bypassed, the definition has no starving set. |
| `WorkflowStarvation.WithoutJoinsNeverStuck` | src/jb_orchestrator/workflows/engine.py:22-317 | Without joins no history of calls ever leaves a started execution with nothing to run. |
| `WorkflowTraps.ForkedAtEntryNeverStuck` | src/jb_orchestrator/workflows/engine.py:22-317 | Nor when every join waits only for branches of the fork the workflow starts with. |
| `WorkflowTraps.DiamondNeverStuck` | src/jb_orchestrator/workflows/engine.py:22-317 | Two branches that are forked and joined again are such a workflow. |
| `WorkflowCalls.AcceptedExactly` | src/jb_orchestrator/workflows/engine.py:22-202 | When each of the nine calls is accepted, as an equivalence on the state before it: complete, fail and renew on a running task exactly with its own unexpired token or, but for renew, with none where there is no lease. |
| `WorkflowCalls.LeaseLasts` | src/jb_orchestrator/workflows/engine.py:48-143 | After a claim or a renewal, and until its lease has run out, exactly its token completes, fails or renews the task; from then on, and only then, the lease can be expired. |
| `WorkflowCalls.CallLeases` | src/jb_orchestrator/workflows/engine.py:48-143 | Only a claim hands out a lease and only a renewal moves its end, on its own node; every other call leaves each lease as it was or takes it away, and finishing an attempt takes it away. |
| `WorkflowCalls.LeasesAreLost` | src/jb_orchestrator/workflows/engine.py:48-143 | A completed, failed or expired attempt, or a later claim with another token, ends a lease. |
| `WorkflowCalls.LostLeaseIsDead` | src/jb_orchestrator/workflows/engine.py:340-365 | After any calls in the order of time that do not hand the token out again, completing, failing or renewing with a lost or expired token is refused and changes nothing. |
| `WorkflowCalls.AttemptBegins` | src/jb_orchestrator/workflows/engine.py:31-69 | Beginning or claiming uses up one attempt of that task and touches no other node. |
| `WorkflowCalls.AttemptFails` | src/jb_orchestrator/workflows/engine.py:114-162 | After a failed or expired attempt the task can be begun again and nothing else has changed while attempts are left; otherwise the execution fails with the stripped reason, or a standard one for a blank reason. |
| `WorkflowCalls.CompletionIsRecorded` | src/jb_orchestrator/workflows/engine.py:88-112 | A completed task keeps its outcome and output unless it is entered again within the call. |
| `WorkflowCalls.DecisionIsRecorded` | src/jb_orchestrator/workflows/engine.py:164-183 | So does a resolved approval its decision. |
| `WorkflowCalls.CallStamps` | src/jb_orchestrator/workflows/engine.py:22-202 | Every accepted call raises the version, leaves its time, also as that of the start or the end, and keeps the definition. |
| `WorkflowPreview.CallForetold` | src/jb_orchestrator/workflows/engine.py:22-317 | What an accepted call does is foretold from the visits and completed nodes before it: the visits and completed nodes afterwards, whether and how the execution ends, and whether it shows an open approval. |
| `WorkflowPreview.StartFailsExactly` | src/jb_orchestrator/workflows/engine.py:22-29 | Starting fails an execution exactly when that preview, taken of the definition from its entry, ends in failure. |
| `WorkflowExamples.ValidDefinitionFailsAtStart` | src/jb_orchestrator/workflows/models.py:192-305 | The failing family: validation accepts definitions that reach a join twice within the starting call, which then exceeds its visit limit; no terminal node was entered. |
| `WorkflowExamples.TwiceNeverStuck` | src/jb_orchestrator/workflows/engine.py:22-317 | These definitions never get stuck, and have no starving set: the order of branches within one call counts. |
| `WorkflowApprovals.StatusAgreesExactly` | src/jb_orchestrator/workflows/engine.py:164-183 | After any accepted call in any settled state, the status tells whether an approval is open exactly when the call ends the execution, or enters an approval, or resolves none while one was announced, or leaves no other approval open: all read off the state before the call. |
| `WorkflowExamples.PanelForgets` | src/jb_orchestrator/workflows/engine.py:164-183 | The failing history of a valid definition: of two open approvals one is rejected, which leads to a task; the execution shows running while the other approval is open. |
| `WorkflowExamples.JoinIgnoresRoutes` | src/jb_orchestrator/workflows/engine.py:312-316 | A history of that definition in which the join is entered, and the workflow succeeds, although one of the two sources of the join was routed elsewhere. |
| `WorkflowSafety.RouteSettles` | src/jb_orchestrator/workflows/engine.py:203-226 | Routing from a finished node, with all the activations it sets off, ends in a settled execution. |
| `WorkflowSafety.ActivateSettles` | src/jb_orchestrator/workflows/engine.py:263-302 | Activating a node does: visit limits fail the execution, terminal nodes conclude it, forks and joins go on routing. |
| `WorkflowProgress.ApplyLowers` | src/jb_orchestrator/workflows/engine.py:22-202 | Every accepted call except a lease renewal strictly lowers a measure of the visits and attempts that are left. |
| `WorkflowProgress.CreateHasAllowance` | src/jb_orchestrator/workflows/models.py:498-509 | A new execution starts at the allowance of its definition: for every node its visits times two steps an attempt and two more, plus one. |
| `WorkflowProgress.AcceptedWithinMeasure` | src/jb_orchestrator/workflows/engine.py:22-202 | In any history the accepted calls other than renewals are at most the measure of the state it starts from. |
| `WorkflowProgress.HistoriesAreBounded` | src/jb_orchestrator/workflows/engine.py:22-202 | Over the whole life of an execution the accepted calls other than renewals are at most the allowance of its definition, loops and retries included. |
| `WorkflowDefinitions.ReachableFrom` | src/jb_orchestrator/workflows/models.py:290-299 | The work-list search returns exactly the nodes in every edge-closed set that contains the entry. |
| `WorkflowDefinitions.CanReach` | src/jb_orchestrator/workflows/models.py:519-536 | The search that skips its start answers whether the target is reachable from the neighbours of the source. |
| `WorkflowDefinitions.RoutingIsOrderBlind` | src/jb_orchestrator/workflows/engine.py:228-244 | For the edges a definition may give one outcome, the chosen targets do not depend on the order in which the edges are listed. |
| `WorkflowTraps.ValidDefinitionCanGetStuck` | src/jb_orchestrator/workflows/models.py:192-305 | Validation does not rule out starving: a whole family of four-node definitions passes it and gets stuck. |
| `WorkflowDefinitions.SelectedExactly` | src/jb_orchestrator/workflows/engine.py:228-244 | The chosen targets are those of the edges that are taken: one whose condition holds, or one without condition when no other condition holds; several, in order, only where there are no conditions. |
| `WorkflowDefinitions.RoutingExactly` | src/jb_orchestrator/workflows/engine.py:203-244 | In a valid definition a node leads along exactly the edges of its outcome that are taken. |
| `WorkflowEngine.WorkflowExecution.ActivateNode` | src/jb_orchestrator/workflows/engine.py:263-302 | In place, mutually recursive with routing: the object ends in exactly the specified state; terminates by the progress measure. |
| `WorkflowEngine.WorkflowExecution.RouteFrom` | src/jb_orchestrator/workflows/engine.py:203-226 | The loop over the selected targets, which stops when the execution ends, computes exactly the specified routing. |
| `WorkflowEngine.WorkflowExecution.CancelActive` | src/jb_orchestrator/workflows/engine.py:318-330 | The loop over all nodes cancels exactly the ready, running and awaiting ones. |
| `WorkflowEngine.WorkflowExecution.Fail` | src/jb_orchestrator/workflows/engine.py:304-309 | The execution fails with the reason and nothing is left active. |
| `WorkflowEngine.Start` | src/jb_orchestrator/workflows/engine.py:22-29 | `start` on the object: the new state, or the error and an unchanged object, is exactly that of the specified call; so all the invariants above hold of it. |
| `WorkflowEngine.BeginTask` | src/jb_orchestrator/workflows/engine.py:31-46 | `begin_task` on the object: the new state, or the error and an unchanged object, is exactly that of the specified call; so all the invariants above hold of it. |
| `WorkflowEngine.ClaimTask` | src/jb_orchestrator/workflows/engine.py:48-69 | `claim_task` on the object: the new state, or the error and an unchanged object, is exactly that of the specified call; so all the invariants above hold of it. |
| `WorkflowEngine.RenewLease` | src/jb_orchestrator/workflows/engine.py:71-86 | `renew_lease` on the object: the new state, or the error and an unchanged object, is exactly that of the specified call; so all the invariants above hold of it. |
| `WorkflowEngine.CompleteTask` | src/jb_orchestrator/workflows/engine.py:88-112 | `complete_task` on the object: the new state, or the error and an unchanged object, is exactly that of the specified call; so all the invariants above hold of it. |
| `WorkflowEngine.FailTask` | src/jb_orchestrator/workflows/engine.py:114-128 | `fail_task` on the object: the new state, or the error and an unchanged object, is exactly that of the specified call; so all the invariants above hold of it. |
| `WorkflowEngine.ExpireTask` | src/jb_orchestrator/workflows/engine.py:130-143 | `expire_task` on the object: the new state, or the error and an unchanged object, is exactly that of the specified call; so all the invariants above hold of it. |
| `WorkflowEngine.ResolveApproval` | src/jb_orchestrator/workflows/engine.py:164-183 | `resolve_approval` on the object: the new state, or the error and an unchanged object, is exactly that of the specified call; so all the invariants above hold of it. |
| `WorkflowEngine.Cancel` | src/jb_orchestrator/workflows/engine.py:185-201 | `cancel` on the object: the new state, or the error and an unchanged object, is exactly that of the specified call; so all the invariants above hold of it. |
| `WorkflowEngine.HandleFailure` | src/jb_orchestrator/workflows/engine.py:145-162 | A failed attempt is retried while attempts are left, and otherwise fails the execution. |
| `Lifecycle.RunTimestamps` | src/jb_orchestrator/domain/runs.py:30-136 | In every history of a run `completed_at` is set exactly in terminal states, a run that left the queue other than by cancellation has `started_at`, it is never moved, and a terminal run never changes. |
| `Lifecycle.RunMovesExactly` | src/jb_orchestrator/domain/runs.py:30-136 | Which state a run may move to from which, column by column, and the fields of the moved run. |
| `Lifecycle.RequestMovesExactly` | src/jb_orchestrator/domain/requests.py:64-70 | A request is activated once, completed when active and cancelled while open. |
| `Lifecycle.SynchronizedExactly` | src/jb_orchestrator/application/execution_lifecycle.py:8-80 | After any synchronisation that does not raise: which workflow status each run status stands for, when the request is completed or cancelled, and the recorded reason and times. |
| `Lifecycle.ProjectionIsAllowed` | src/jb_orchestrator/application/execution_lifecycle.py:8-15 | From any run that has not ended, the status projected from a started execution is the current one or an allowed transition. |
| `Lifecycle.OpenRunSynchronizes` | src/jb_orchestrator/application/execution_lifecycle.py:18-80 | From an open run of an active request, synchronising raises exactly on a non-empty, all-blank failure reason; otherwise run and request show the execution. |
| `Lifecycle.StatusHistoriesProject` | src/jb_orchestrator/application/execution_lifecycle.py:18-80 | For every status history that never returns to pending and keeps its terminal state, no synchronisation raises, the run has the projected status, and the request is completed exactly on success and cancelled exactly on cancellation. |
| `Lifecycle.TrackingStarts` | src/jb_orchestrator/application/workflow_services.py:107-162 | Creating and starting an execution for a queued run of an active request makes run and request track it. |
| `Lifecycle.TrackingKept` | src/jb_orchestrator/application/execution_lifecycle.py:18-80 | After any accepted engine call the synchronisation never raises and run and request track the execution again, failure reason included. |
| `Lifecycle.TrackedHistory` | src/jb_orchestrator/application/execution_lifecycle.py:18-80 | Over any history of engine calls, each followed by a synchronisation, run and request track the execution. |
| `Lifecycle.TrackedEndIsFinal` | src/jb_orchestrator/application/execution_lifecycle.py:18-80 | Once the workflow has ended, no history moves run or request any more. |
| `Lifecycle.RunAggregate.MoveTo` | src/jb_orchestrator/domain/runs.py:118-136 | `transition_to` in place: exactly the specified new run, or a refusal that changes nothing. |
| `Lifecycle.RunAggregate.Fail` | src/jb_orchestrator/domain/runs.py:138-145 | `fail` in place, with the stripped reason; a blank reason is refused. |
| `Lifecycle.RequestAggregate.SetStatus` | src/jb_orchestrator/domain/requests.py:64-70 | `_set_status` in place against the transition table. |
| `Lifecycle.SynchronizeAggregates` | src/jb_orchestrator/application/execution_lifecycle.py:18-80 | Both objects end exactly as specified, or an error is reported, a missing row included; an execution without request context leaves them alone. |
| `Cancellation.CancelTrackedRun` | src/jb_orchestrator/application/services.py:129-151 | A tracked run can be cancelled exactly while its workflow has not ended; then execution, run and request are cancelled together, still track each other, and exactly the reservations of the run are released. |
| `Cancellation.CancelPlainRun` | src/jb_orchestrator/application/services.py:153-173 | A run without a workflow can be cancelled exactly while it and its request are open; exactly its reservations are released. |
| `Cancellation.CancelWithoutContext` | src/jb_orchestrator/application/services.py:129-151 | Without a request context the execution is cancelled and its reservations are released, but run and request stay as they were. |
| `Cancellation.CancelReachesRequestExactly` | src/jb_orchestrator/application/services.py:129-173 | With a request that is not cancelled, and tracked where there is a workflow with context, an accepted cancellation cancels the request exactly when there is no workflow or it has a request context. |
| `Cancellation.CancelLoaded` | src/jb_orchestrator/application/services.py:129-173 | The two paths over loaded objects compute exactly the specified outcome. |
| `Money.RoundIsNearestEven` | src/jb_orchestrator/budgets/models.py:12-13 | Rounding yields the one integer that is nearest, and the even one on a tie. |
| `Money.RoundMonotone` | src/jb_orchestrator/budgets/models.py:12-13 | Half-even rounding is monotone. |
| `Money.MoneyOfMicros` | src/jb_orchestrator/budgets/models.py:12-13 | An amount on the six-digit grid is kept. |
| `Money.TokenCostMonotone` | src/jb_orchestrator/model_routing/router.py:97-102 | More tokens never cost less, at any prices. |
| `BudgetSafety.ConfigureKeeps` | src/jb_orchestrator/application/budget_services.py:62-84 | Creating an account or changing its limit keeps the ledger consistent. |
| `BudgetSafety.ReserveKeeps` | src/jb_orchestrator/application/budget_services.py:99-141 | A reservation keeps the ledger consistent. |
| `BudgetSafety.FinalizeKeeps` | src/jb_orchestrator/application/budget_services.py:170-244 | A settlement or forfeit keeps it consistent. |
| `BudgetSafety.FinalizeRaisesExactly` | src/jb_orchestrator/application/budget_services.py:170-244 | In a consistent ledger finalising raises exactly without a model selection, for an unknown key, or for a released reservation: the account guards and the status guard never fire. |
| `BudgetPostings.ConfiguredExactly` | src/jb_orchestrator/application/budget_services.py:62-84 | Configuring is accepted exactly for a known project and a limit that is not negative, nor below what is committed; it sets the limit to the nearest micro-USD and changes nothing else. |
| `BudgetPostings.ReservedExactly` | src/jb_orchestrator/application/budget_services.py:99-141 | A new reservation holds the nearest micro-USD of the estimate, and is refused exactly when that is negative or not available, or a key is blank. |
| `BudgetPostings.ReservedOnce` | src/jb_orchestrator/application/budget_services.py:99-112 | Reserving a key again, after any further steps, answers the row as it then is and changes nothing. |
| `BudgetPostings.SettledExactly` | src/jb_orchestrator/application/budget_services.py:143-244 | Settling records the tokens at the prices of the profile, rounded to the nearest micro-USD, half to even, gives back what was held and spends the cost, on the account of the reservation alone. |
| `BudgetPostings.ForfeitedExactly` | src/jb_orchestrator/application/budget_services.py:158-244 | A forfeit records and spends exactly the reserved amount. |
| `BudgetPostings.RoutedUsageCostsReservation` | src/jb_orchestrator/application/budget_services.py:99-244 | Reserving for routed token counts and settling exactly those costs the reservation; the account then holds what it held before. |
| `BudgetSafety.ReleaseRunKeeps` | src/jb_orchestrator/application/budget_services.py:27-55 | Releasing a run never raises, in whatever order its reservations are listed; the run then holds nothing, its account holds less by exactly what the run held, and nothing else changed. |
| `BudgetRuns.LedgerAlwaysConsistent` | src/jb_orchestrator/application/budget_services.py:27-244 | After every run from the empty ledger: `reserved` is the sum of reserved rows, `spent` the sum of usage records, usage records exist exactly for settled and forfeited rows, and reserved plus spent passes the limit by no more than the overruns of settlements. |
| `BudgetRuns.RunHistory` | src/jb_orchestrator/budgets/models.py:130-143 | Rows and records are never removed or repriced, and a finalised row never changes again. |
| `BudgetRuns.FirstFinalisationWins` | src/jb_orchestrator/application/budget_services.py:189-198 | Once a usage record exists, every later settle or forfeit of the key, after any further steps, returns that record and changes nothing. |
| `BudgetRuns.CostWithinReservation` | src/jb_orchestrator/application/budget_services.py:199-212 | Usage within the routed estimate rounds to no more than the rounded reservation. |
| `BudgetRuns.NeverOverLimit` | src/jb_orchestrator/application/budget_services.py:99-244 | If every settlement reports tokens within the routed estimate, reserved plus spent never exceeds the limit, in any run. |
| `BudgetService.BudgetAccount.ChangeLimit` | src/jb_orchestrator/budgets/models.py:50-55 | `set_limit` in place. |
| `BudgetService.BudgetAccount.Hold` | src/jb_orchestrator/budgets/models.py:57-66 | `reserve` in place; a refusal changes nothing. |
| `BudgetService.BudgetAccount.Settle` | src/jb_orchestrator/budgets/models.py:68-81 | `settle` in place with both guards. |
| `BudgetService.BudgetAccount.Release` | src/jb_orchestrator/budgets/models.py:83-88 | `release` in place with its guard. |
| `BudgetService.BudgetReservation.Close` | src/jb_orchestrator/budgets/models.py:130-143 | `_finalize` of a reservation: only from reserved. |
| `BudgetService.BudgetTables.ConfigureBudget` | src/jb_orchestrator/application/budget_services.py:62-84 | The transaction computes exactly the specified ledger, or raises and changes nothing. |
| `BudgetService.BudgetTables.ReserveBudget` | src/jb_orchestrator/application/budget_services.py:99-141 | The same for `reserve`, with both lookups of an existing reservation. |
| `BudgetService.BudgetTables.FinalizeBudget` | src/jb_orchestrator/application/budget_services.py:170-244 | The same for `_finalize`. |
| `BudgetService.BudgetTables.SettleBudget` | src/jb_orchestrator/application/budget_services.py:143-156 | The same for `settle`. |
| `BudgetService.BudgetTables.ForfeitBudget` | src/jb_orchestrator/application/budget_services.py:158-168 | The same for `forfeit`. |
| `BudgetService.BudgetTables.ReleaseRunReservations` | src/jb_orchestrator/application/budget_services.py:27-55 | The loop over the reservations of a run computes exactly the specified ledger. |
| `TaskKeys.TaskKeyInjective` | src/jb_orchestrator/application/task_dispatch.py:81 | Execution, node and visit can be read back from a task key, even when node keys contain colons. |
| `TaskKeys.VisitChargedOnce` | src/jb_orchestrator/application/task_dispatch.py:81 | Over every run whose claims carry their task keys, each usage record charges exactly one visit of its execution and node, no visit has two records, and the charge stays the same whatever is settled, forfeited or retried later. |
| `DecimalText.DecimalInjective` | src/jb_orchestrator/application/task_dispatch.py:81 | Different visit numbers are printed differently. |
| `NotificationSafety.PerformKeeps` | src/jb_orchestrator/application/notification_services.py:131-321 | Every claim, finish, retry and cancellation keeps a delivery and its attempts consistent. |
| `NotificationRuns.AttemptLedgerSound` | src/jb_orchestrator/application/notification_services.py:186-321 | In every run: attempts are numbered 1 to the attempt count, one is open exactly while the delivery is claimed, it is the last and has the delivery's token, each trigger is explained by the attempt before, and intervals do not overlap. |
| `NotificationRuns.SupersededTokenIsDead` | src/jb_orchestrator/application/notification_services.py:259-321 | The token of a closed or superseded attempt raises and changes nothing, after any further calls. |
| `NotificationRuns.RunClosedKept` | src/jb_orchestrator/notifications/models.py:294-344 | A closed attempt never changes again. |
| `NotificationRuns.SuccessIsFinal` | src/jb_orchestrator/notifications/models.py:146-227 | No run leaves a succeeded delivery. |
| `NotificationRuns.OneSuccess` | src/jb_orchestrator/notifications/models.py:229-240 | At most one attempt succeeds, it is the last, and it does exactly when the delivery did. |
| `NotificationRuns.AutomaticRetriesBounded` | src/jb_orchestrator/notifications/models.py:242-277 | Over a whole life at most ten attempts are automatic, all numbered 2 to 11, and at most L when no report passes a limit above L. |
| `NotificationRuns.ScheduledRetryIsClaimable` | src/jb_orchestrator/notifications/models.py:146-183 | Every reachable scheduled retry can be claimed from its due time on and runs as automatic. |
| `NotificationRuns.UnscheduledFailureWaits` | src/jb_orchestrator/notifications/models.py:199-227 | A failed delivery without schedule leaves its state only by a manual retry. |
| `NotificationRuns.BackfillUnreachable` | src/jb_orchestrator/application/notification_services.py:267-300 | The branch of a finish that creates a missing attempt is never reached. |
| `NotificationCalls.AcceptedExactly` | src/jb_orchestrator/notifications/models.py:146-277 | When each call on a delivery is accepted, as an equivalence on the delivery before it. |
| `NotificationCalls.ClaimIsRecorded` | src/jb_orchestrator/application/notification_services.py:186-231 | What a claim leaves of delivery and attempts, field by field, with the trigger that the state before explains. |
| `NotificationCalls.FailureIsRecorded` | src/jb_orchestrator/notifications/models.py:242-277 | An accepted failure leaves exactly the reported limit, next attempt, code, retryability and stripped reason. |
| `NotificationCalls.SuccessIsRecorded` | src/jb_orchestrator/notifications/models.py:229-240 | An accepted success leaves exactly the reported result. |
| `NotificationCalls.ScheduledFailureRunsAgain` | src/jb_orchestrator/application/notification_services.py:186-321 | After an accepted failure with a next attempt and no other call, a claim is accepted exactly from that instant on and runs as automatic. |
| `NotificationCalls.LeaseLasts` | src/jb_orchestrator/application/notification_services.py:186-321 | After an accepted claim and no other call, exactly its token finishes the delivery, and another claim is accepted exactly once the lease has run out, as a recovery. |
| `NotificationCalls.RetryStartsAgain` | src/jb_orchestrator/application/notification_services.py:131-154 | A manually retried delivery is as new but for its attempts, can be claimed at once and runs as manual. |
| `NotificationCalls.CancelledRetryNeverRuns` | src/jb_orchestrator/application/notification_services.py:156-184 | Cancelling drops the schedule and nothing else, and no claim is accepted after it. |
| `NotificationService.NotificationDelivery.ClaimFor` | src/jb_orchestrator/notifications/models.py:146-197 | `claim` and `claim_trigger` in place. |
| `NotificationService.NotificationDelivery.RetryAt` | src/jb_orchestrator/notifications/models.py:199-214 | `retry` in place. |
| `NotificationService.NotificationDelivery.CancelRetryAt` | src/jb_orchestrator/notifications/models.py:216-227 | `cancel_automatic_retry` in place. |
| `NotificationService.NotificationDelivery.SucceedWith` | src/jb_orchestrator/notifications/models.py:229-240 | `succeed` in place. |
| `NotificationService.NotificationDelivery.FailWith` | src/jb_orchestrator/notifications/models.py:242-277 | `fail` in place with its four guards. |
| `NotificationService.NotificationDeliveryAttempt.SucceedWith` | src/jb_orchestrator/notifications/models.py:315-321 | An attempt succeeds only for its own token while open. |
| `NotificationService.NotificationDeliveryAttempt.FailWith` | src/jb_orchestrator/notifications/models.py:323-340 | An attempt fails only for its own token while open. |
| `NotificationService.NotificationTables.ClaimNext` | src/jb_orchestrator/application/notification_services.py:186-231 | Delivery and attempts end exactly as specified, the abandoned attempt closed; other deliveries are untouched. |
| `NotificationService.NotificationTables.FinishSucceeded` | src/jb_orchestrator/application/notification_services.py:233-321 | The same for a success. |
| `NotificationService.NotificationTables.FinishFailed` | src/jb_orchestrator/application/notification_services.py:238-321 | The same for a failure. |
| `NotificationService.NotificationTables.RetryDelivery` | src/jb_orchestrator/application/notification_services.py:131-154 | The same for a manual retry. |
| `NotificationService.NotificationTables.CancelRetry` | src/jb_orchestrator/application/notification_services.py:156-184 | The same for cancelling an automatic retry. |
| `NotificationFanout.DeliveryIntents.Enqueue` | src/jb_orchestrator/application/notification_services.py:399-441 | Adds exactly the missing intents of the accepting subscriptions, keeps every existing row, counts exactly the new ones, and refuses a supported event without alert. |
| `NotificationFanout.FannedOutExactly` | src/jb_orchestrator/application/notification_services.py:399-441 | Of every subscription there is a row exactly when there was one or it is enabled for the event type, with the destination of the subscription. |
| `NotificationFanout.FanOutOnce` | src/jb_orchestrator/application/notification_services.py:399-441 | Fanning the same event out again, also to fewer subscriptions, changes nothing. |
| `NotificationFanout.IntentKeyInjective` | src/jb_orchestrator/application/notification_services.py:437 | Subscription and event can be read back from the idempotency key. |
| `BundleConvergence.DoKeepsClosed` | src/jb_orchestrator/application/workflow_services.py:44-64 | Every accepted request leaves the catalog append-only and closed under its references. |
| `BundleConvergence.ConflictFreeIsPrepared` | src/jb_orchestrator/cli/bundles.py:295-386 | A conflict-free plan establishes what applying it relies on. |
| `BundleConvergence.NextWriteAccepted` | src/jb_orchestrator/cli/bundles.py:389-437 | The next planned write is refused exactly when it creates a workflow that maps an external phase pack wrongly: never for a missing reference or a duplicate. |
| `BundleConvergence.FirstItemResolves` | src/jb_orchestrator/cli/bundles.py:413-423 | The first item still to be created finds all its references: bundled ones come earlier in the fixed order, external ones were checked. |
| `BundleConvergence.ReplanAfterWrite` | src/jb_orchestrator/cli/bundles.py:295-348 | After an accepted write, planning again yields exactly the writes that are left. |
| `BundleConvergence.ApplyCompletesExactly` | src/jb_orchestrator/cli/bundles.py:389-437 | Applying completes exactly when every workflow it creates maps the inputs of external packs correctly, and otherwise ends with that error. |
| `BundleConvergence.UnmappedBundleIsRefused` | src/jb_orchestrator/cli/bundles.py:247-251 | The failing family: a valid, conflict-free bundle whose workflow does not map the input of a registered pack stops with that error. |
| `BundleConvergence.CrashConverges` | src/jb_orchestrator/cli/bundles.py:389-437 | After any prefix of the writes, re-planning yields exactly the remaining writes, and running them gives what the uninterrupted run gives. |
| `BundleOutcome.AppliedExactly` | src/jb_orchestrator/cli/bundles.py:389-437 | After a completed apply every item and the project are registered and the project is bound to the definition; new entries are those of the bundle, and everything else is as it was. |
| `BundleOutcome.PrefixOnlyAdds` | src/jb_orchestrator/cli/bundles.py:389-437 | However far an apply got, it only added what the bundle asks for. |
| `BundleOutcome.BindingActionExactly` | src/jb_orchestrator/cli/bundles.py:371-384 | A binding is planned as unchanged exactly when the project is already bound so, as a conflict exactly when it is neither registered nor in the bundle, and otherwise as an update. |
| `BundleOutcome.ItemActionExactly` | src/jb_orchestrator/cli/bundles.py:448-467 | An item is planned as created exactly when it is not registered, as unchanged exactly when it is and all its fields and references agree, and otherwise as a conflict. |
| `BundleOutcome.ProjectActionExactly` | src/jb_orchestrator/cli/bundles.py:448-467 | The same for the project. |
| `BundleOutcome.RegistrationAcceptedExactly` | src/jb_orchestrator/application/workflow_services.py:44-64 | The server accepts a new entry exactly when all it names is registered and every node maps only declared and all required inputs of its pack. |
| `BundleStability.ReapplyAfterCrash` | src/jb_orchestrator/cli/bundles.py:389-437 | For payloads that come back as sent, after a crash at any point: the new plan has no conflict, so applying goes on, ends as the uninterrupted apply ends, completes exactly when that does, and then a further plan is all unchanged. |
| `BundleStability.ReplanCleanExactly` | src/jb_orchestrator/cli/bundles.py:448-467 | After any prefix the new plan is conflict-free exactly when every payload written so far comes back from the server as it was sent. |
| `BundleStability.FinalPlanUnchangedExactly` | src/jb_orchestrator/cli/bundles.py:448-467 | After a complete apply a further plan is all unchanged exactly when every payload came back as sent. |
| `BundleStability.ModelComesBackExactly` | src/jb_orchestrator/model_routing/models.py:65-83 | A model payload comes back as sent exactly when its two lists are sorted and free of repetitions and its two prices are printed in normal form with at most six decimals, however other amounts are rounded. |
| `BundleStability.StoredPriceExactly` | src/jb_orchestrator/infrastructure/database/models.py:374-375 | A price stored with six decimals and normalised is the one that was sent exactly when that was in normal form. |
| `BundleStability.AlteredModelConflictsWithItself` | src/jb_orchestrator/cli/bundles.py:448-467 | Any other model payload, once applied, conflicts with itself in the next plan. |
| `BundleStability.UnsortedExample` | src/jb_orchestrator/model_routing/models.py:69-74 | Capabilities listed as b, a are such a payload. |
| `BundleStability.TrailingZerosExample` | src/jb_orchestrator/model_routing/models.py:65-66 | So is a price of 5.00, which is answered as 5. |
| `DecimalText.PrintReads` | src/jb_orchestrator/model_routing/models.py:65-66 | A printed decimal is read back as it was, trailing zeros included. |
| `BundleCli.ValidateBundle` | src/jb_orchestrator/cli/bundles.py:242-292 | Of bundles whose single payloads are in order, accepts exactly the bundles whose nodes map the inputs of bundled packs, and returns exactly the references that leave the bundle. |
| `BundleCli.PlanBundle` | src/jb_orchestrator/cli/bundles.py:295-386 | The plan holds exactly the actions the bundle calls for on this server. |
| `BundleCli.PlanConflictsExactly` | src/jb_orchestrator/cli/bundles.py:124-126 | A plan has conflicts exactly when the bundle and the server are not conflict-free. |
| `BundleCli.ByIdentity` | src/jb_orchestrator/cli/bundles.py:397-399 | With unique identities the dictionary loses no action. |
| `BundleCli.ApplyBundle` | src/jb_orchestrator/cli/bundles.py:389-437 | With conflicts nothing is written; otherwise the server goes exactly through the planned writes, to their end or up to the first it refuses; it completes exactly when external packs are mapped correctly, and leaves a server it can be continued on. |
| `BundleCli.CatalogServer.ReferencesResolve` | src/jb_orchestrator/application/workflow_services.py:322-349 | The lookups, node by node and with the skills of the packs, succeed exactly when every reference is registered. |
| `BundleCli.CatalogServer.InputsAreMapped` | src/jb_orchestrator/application/workflow_services.py:351-371 | The comparison succeeds exactly when every node maps declared inputs only and all required ones. |
| `BundleCli.CatalogServer.RegisterItem` | src/jb_orchestrator/application/workflow_services.py:44-64 | The guards in their order; a refused registration changes nothing. |
| `Addons.NormalizeSkillAddons` | src/jb_orchestrator/application/request_dispatch_services.py:528-543 | The loop computes exactly the specified normal form or the first error. |
| `Addons.NormalizeAccepts` | src/jb_orchestrator/application/request_dispatch_services.py:528-543 | A list is accepted exactly when stripped node keys are distinct and not blank and every add-on has a skill. |
| `Addons.NormalizeKeepsMeaning` | src/jb_orchestrator/application/request_dispatch_services.py:528-543 | The normal form asks for the same skills at the same nodes and is itself acceptable. |
| `Addons.CanonicalForm` | src/jb_orchestrator/application/request_dispatch_services.py:528-543 | Two accepted lists normalise equally exactly when they give the same map from stripped node key to skill set. |
| `Addons.NormalizeIdempotent` | src/jb_orchestrator/application/request_dispatch_services.py:528-543 | Normalising twice is normalising once. |
| `Addons.NormalizeOrderBlind` | src/jb_orchestrator/application/request_dispatch_services.py:528-543 | Reordering the add-ons, or reordering and repeating their skills, does not change the result. |
| `Addons.MeaningExactly` | src/jb_orchestrator/application/request_dispatch_services.py:528-543 | The map a list of add-ons stands for is the only one that says for every node what the list says. |
| `Addons.ApplySkillAddons` | src/jb_orchestrator/application/request_dispatch_services.py:545-580 | The loops compute exactly the specified result or the first error. |
| `Addons.ApplyExactly` | src/jb_orchestrator/application/request_dispatch_services.py:545-580 | Accepted exactly when every add-on names a task and registered skills; the result is exactly the sorted skill union at the named nodes and leaves all others unchanged. |
| `Addons.ApplyIdempotent` | src/jb_orchestrator/application/request_dispatch_services.py:545-580 | Applying the same add-ons again is accepted and changes nothing. |
| `DispatchSafety.StepKeepsSound` | src/jb_orchestrator/application/request_dispatch_services.py:292-478 | Every dispatch, and anything else that leaves receipts and the ownership of rows alone, keeps all receipts complete, pointing at rows that belong together, and disjoint. |
| `DispatchSafety.NeverInProgress` | src/jb_orchestrator/application/request_dispatch_services.py:582-598 | The errors for unfinished or unavailable results never happen. |
| `DispatchSafety.ReplayForever` | src/jb_orchestrator/application/request_dispatch_services.py:321-334 | After an accepted dispatch and any further events, the same key and payload return the same three identifiers and change nothing, and the same key with another payload is refused and changes nothing. |
| `DispatchSafety.SamePayloadExactly` | src/jb_orchestrator/application/request_dispatch_services.py:480-526 | Two commands carry the same payload exactly when their stripped texts, origins, workflow and recommendation agree and their add-ons ask for the same. |
| `DispatchSafety.ExactlyOnce` | src/jb_orchestrator/application/request_dispatch_services.py:307-334 | Over any run a key gets its receipt by exactly one creating dispatch. |
| `DispatchSafety.KeysStayApart` | src/jb_orchestrator/application/request_dispatch_services.py:292-478 | Two keys never share a request, run or execution. |
| `DispatchSafety.CreatedRows` | src/jb_orchestrator/application/request_dispatch_services.py:408-470 | A creating dispatch needs an active project and a prompt that is not blank, and adds exactly one request with the stripped texts, one run, one execution and one receipt. |
| `DispatchSafety.RecommendationIsFollowed` | src/jb_orchestrator/application/request_dispatch_services.py:337-371 | A recommendation is only followed for its project and prompt, to one of its candidates, unconfirmed only when it needs no confirmation. |
| `DispatchSelection.DispatchAcceptedExactly` | src/jb_orchestrator/application/request_dispatch_services.py:335-478 | Under a new key a well-formed command is accepted exactly for an active project, a prompt that is not blank, and a registered, compatible version that the command wants and whose tasks fit its add-ons. |
| `DispatchSelection.CreatedExecution` | src/jb_orchestrator/application/request_dispatch_services.py:335-455 | The new execution runs the nodes of the wanted version with exactly the requested skills added: the version that is named, else the first candidate of an unconfirmed recommendation that needs no confirmation, else the one the project is bound to. |
| `DispatchSelection.WantedIsUnique` | src/jb_orchestrator/application/request_dispatch_services.py:335-390 | A command wants only one version. |
| `DispatchService.RequestDispatchReceipt.Complete` | src/jb_orchestrator/domain/dispatches.py:50-64 | A receipt is completed once, all three identifiers together; a second completion is refused. |
| `DispatchService.OpenReceipt` | src/jb_orchestrator/domain/dispatches.py:27-42 | Receipts are keyed by the stripped keys, and exactly invalid ones are refused. |
| `DispatchService.DispatchTables.DispatchRequest` | src/jb_orchestrator/application/request_dispatch_services.py:292-478 | The transaction, with the claim rolled back on any error, is exactly the specified dispatch. |
| `DispatchService.DispatchTables.TryClaim` | src/jb_orchestrator/infrastructure/database/dispatch_repositories.py:33-63 | Inserts unless the key is taken. |
| `EventStream.RoundTrip` | src/jb_orchestrator/api/event_streams.py:15-34 | A reader after sections 9.2.5 and 9.2.6 of the WHATWG HTML standard recovers exactly the (id, event, data) triples, in order, with heartbeats anywhere between messages. |
| `EventStream.CutStream` | src/jb_orchestrator/api/event_streams.py:15-65 | Cut after any character, the reader has dispatched exactly the events of the chunks that arrived completely, and its last event ID is that of the last of them. |
| `EventStream.CutReceive` | src/jb_orchestrator/api/event_streams.py:15-65 | A connection lost anywhere has delivered a prefix of the events, ending at the last event ID. |
| `EventStreamLimits.RoundTripExactly` | src/jb_orchestrator/api/event_streams.py:34 | A message is received as sent exactly when its identifier is on one line without NUL, its type is non-empty and on one line, and its data is on one line. |
| `EventTail.TailEvents` | src/jb_orchestrator/api/event_streams.py:69-101 | Over a ledger that grows between polls the messages are exactly the first matching events after the cursor, and whatever a poll could see is sent within as many further polls as it has pages of 100; heartbeats come only after the interval of silence, and no poll but the last leaves a longer silence. |
| `EventTail.SendPage` | src/jb_orchestrator/api/event_streams.py:85-89 | One page is sent in order and the cursor moves with each message. |
| `EventTail.MatchingResumes` | src/jb_orchestrator/infrastructure/database/repositories.py:319-391 | Listing after the k-th matching event yields exactly the events behind it. |
| `EventTail.CursorResumes` | src/jb_orchestrator/application/project_observation_services.py:70-88 | The cursor always resolves, and from it the ledger holds exactly what was not sent. |
| `EventTail.ReconnectContinues` | src/jb_orchestrator/api/event_streams.py:37-101 | After a cut at any character, a stream from the last event ID over any later ledger continues with no gap and no repetition. |
| `EventTail.RepeatedRequestIsRefused` | src/jb_orchestrator/api/routes.py:852-855 | The failing family: a client that asked for the events after one event and received the next may not repeat its request. |
| `EventTail.SameRequestReconnects` | src/jb_orchestrator/api/routes.py:852-855 | A client that repeats its first request and adds its last event ID is accepted exactly when that request had no `after` or nothing was dispatched yet. |
| `Router.Route` | src/jb_orchestrator/model_routing/router.py:32-88 | Succeeds exactly when a profile is feasible, and returns the lexicographic least by tier, cost, key and newest version, with its cost. |
| `Router.RequiredTier` | src/jb_orchestrator/model_routing/router.py:89-95 | The tier is the largest of the three levels. |
| `Router.BestExactly` | src/jb_orchestrator/model_routing/router.py:32-88 | The answer in elementary terms: suitable, and preferred to every other suitable profile by lower tier, lower price, key and newer version. |
| `Router.RequiredTierExactly` | src/jb_orchestrator/model_routing/router.py:89-95 | Advanced exactly for a high or critical level, economy exactly for low levels only. |
| `Router.BestIsUnique` | src/jb_orchestrator/model_routing/router.py:62-70 | With unique (key, version) there is only one answer. |
| `Router.OrderBlind` | src/jb_orchestrator/model_routing/router.py:32-88 | Any permutation of the catalog gives the same answer. |
| `Router.OthersDoNotMatter` | src/jb_orchestrator/model_routing/router.py:32-88 | Removing any other profiles leaves the answer as it is. |
| `Router.StricterIsNoBetter` | src/jb_orchestrator/model_routing/router.py:32-88 | With tokens fixed, raising levels, adding capabilities or lowering the cap never makes a request routable nor its selection key smaller. |
| `Router.CapBoundsReservation` | src/jb_orchestrator/model_routing/router.py:53-55 | A cap in whole micro-USD bounds the rounded reservation too. |
| `Router.CapBoundsExactly` | src/jb_orchestrator/model_routing/router.py:53-55 | Over all requests with this cap and all profiles as they are stored (prices of at most eighteen digits, six of them decimals), the cap bounds every reservation exactly when rounding does not raise the cap, cut down to twelve decimals, above the cap. |
| `Router.CapExceeded` | src/jb_orchestrator/model_routing/router.py:53-55 | One output token at 1.5 USD per million, capped at 1.5 micro-USD, is feasible and is reserved as 2. |
| `Readiness.ListCredentialReadiness` | src/jb_orchestrator/application/security_services.py:201-248 | The nested paging loop returns the first `limit` of the filtered key-ordered reports behind the key, for any number of accounts and either filter. |
| `Readiness.CallsConcatenate` | src/jb_orchestrator/application/security_services.py:201-248 | Successive calls resumed at the last returned key concatenate to the whole filtered list, for every limit. |
| `Readiness.EverythingResumes` | src/jb_orchestrator/application/security_services.py:201-248 | Resuming at the k-th reported key yields exactly the reports behind it. |
| `Readiness.GroupCredentials` | src/jb_orchestrator/application/security_services.py:226-233 | Every account of the page gets exactly its credentials, in order. |
| `Readiness.StatusExactly` | src/jb_orchestrator/application/security_services.py:495-534 | What each of the five statuses says about the credentials, as five equivalences. |
| `Readiness.SummaryAddsUp` | src/jb_orchestrator/application/security_services.py:464-492 | Active, expired and revoked credentials add up to the total. |
| `Readiness.SummaryCountsExactly` | src/jb_orchestrator/application/security_services.py:464-492 | What each count of a summary counts; none is usable while the account is disabled. |
| `Readiness.EverythingExactly` | src/jb_orchestrator/application/security_services.py:201-248 | What is reported: the accounts behind the key with the prefix, each with its own credentials, and with issues only just the unhealthy ones. |
| `Readiness.LatestIsGreatest` | src/jb_orchestrator/application/security_services.py:479-491 | The two instants of a summary are the latest creation and the latest use. |
| `Readiness.NextExpiryIsLeast` | src/jb_orchestrator/application/security_services.py:508-513 | The next expiry is the earliest of an active credential. |
| `Ordering.SortedIsUnique` | src/jb_orchestrator/application/request_dispatch_services.py:543 | Sorting by a key that tells the elements apart has one result. |
| `Ordering.StrictlySortedIsUnique` | src/jb_orchestrator/application/request_dispatch_services.py:539 | `sorted(set(...))` is determined by the set of elements. |

## Left out

- Clocks, identifiers and tokens are parameters; a step with new identifiers or tokens requires them to be new, and
  claims of non-overlapping attempts require a clock that does not run backwards.
- Domain events written next to the rows, audit payloads and log output are not modelled.
- SHA-256 digests, JSON text and decimal context precision: taken as injective, single-line and exact. A dispatch
  receipt holds the normalised payload itself.
- JSON pointers: a task's output is a map from path to scalar, so pointer syntax and escapes are not modelled
  (src/jb_orchestrator/workflows/engine.py:246-261).
- Database repositories: each call is its contract (unique key, ordered list after a cursor, insert unless present).
  A prefix filter is a plain prefix; SQL wildcards in it are not modelled.
- Workflow definition validation covers edges, routes, reachability and loops; the input mappings of nodes and the
  format checks of keys are not part of this model.
- The work lists of the two graph searches are sets, so the order in which nodes are visited is not modelled.
- The listing of projects by the bundle client is taken to contain the target project (it is cut at 500 rows), and
  dependencies are visited in any order rather than sorted.
- Bundle payload fields other than references are compared as opaque values; the schema checks on loading a bundle are
  preconditions.
- Recommendations have a list of candidates; an empty list is an error, where the source raises a different exception.
- `create_execution` during dispatch is a parameter that says whether an execution starts, since catalog resolution and
  routing are modelled elsewhere.
- Whether an event belongs to a project is a fixed predicate on the event; the external execution stream is the same
  loop with another predicate.
- BundleCli.ValidateBundle: takes the checks of the domain constructors (formats, unique keys, graph rules) as done,
  because they concern single payloads; what spans payloads is modelled.
- Subscriptions beyond the 500 that are listed for an event get no intent; the list is a parameter.
- "A cancelled run never holds a reservation" is proved of the cancelling step only, since reserving does not look at
  the status of the run.
- SCM publications, external executions, workspace operations, worker presence and alerts, authentication, HTTP routes
  and schemas, the MCP server and client, the user interface and migrations are not modelled.
