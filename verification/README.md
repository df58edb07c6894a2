# Durable research execution: a verified model

This project models the durable core of a research orchestrator in Dafny 4.11 and proves what its operators rely
on: that a planned experiment reaches a Worker at most once whatever crashes, that budgets hold over whole runs,
that a run's history agrees with its counters, and that secrets do not leave the tree guards.

`dafny verify dfyconfig.toml` checks the whole project.

## Shape

A transaction of the source is one atomic step from committed tables to committed tables; leaving it without a
commit leaves the tables as they were. Between any two transactions the process may die, and any other process may
run transactions of its own.

- `BudgetLedger`, `BudgetConsumption`: the append-only consumption ledger, its allowance rule, and the recording
  transaction as a class.
- `DailyCost`: the grouped daily cost sum and the gate built on it.
- `ModelPort`, `ModelPortTheorems`: the reserve-before-call decorator, alone and with many ports on one ledger; what
  it charges when ids repeat.
- `Records`: the tables the next group shares.
- `ExecutionProtocol`, `ExecutionSafety`, `ExecutionTheorems`: authorize, dispatch, Worker call and outcome as a
  state machine over calls, crashes and other writers; its inductive invariant; the promises.
- `OrchestrationPolicy`, `OrchestrationProtocol`, `OrchestrationSafety`, `OrchestrationTheorems`: stop policy and
  configuration checks, then a larger machine that adds controllers, operators and cycle rows to the first one.
- `OperatorTheorems`: which operator writes last while a step is open.
- `Database`, `Executor`, `Controller`: the object code. `Connection` is one process's view of the shared tables;
  its `Others` runs an arbitrary schedule of other people's transactions. `ExecutePlannedExperiment` and
  `AutonomousResearchController` edit a unit of work and commit it. Every method keeps the tables equal to a run of
  the larger machine (`Connection.Ok`), so each promise about machine runs also holds for the objects, at every
  prefix, which is where a crash would leave the tables.
- `SafeData`, `SafeDataTheorems`: rejecting and redacting secrets in trees.
- `ReplayRedaction`: canonical redaction for replay manifests.
- `Ingestion`: idempotent ingestion of Worker results.
- `HuntQueue`: the V3 queue and its approval gate.
- `ContractTree`, `ContractLint`, `ContractLintTheorems`: the schema lint.

## What turned out not to hold

Each of these is stated as a lemma, next to the exact condition under which the promise does hold.

- A dispatch that overspends reports BUDGET_EXHAUSTED, but rolls back: the stored experiment stays READY and its
  attempt AUTHORIZED (`OverspendRollsBack`).
- UNKNOWN_OUTCOME is final only when no Worker call is in flight: a late outcome is written over it
  (`UnknownIsLeftIff`, `LateOutcomeOverwritesMark`).
- `max_cycles` bounds the counter only for steps that begin below it. Pausing and resuming revives a finished run,
  and its next step, the stop itself included, inserts one more cycle row (`RevivingAddsCycle`); a run that is allowed
  no cycle gets one that way (`ZeroCycleRunGetsACycle`).
- A pause or cancel that arrives while a step is open is lost, without a trace in any table, as soon as the step writes
  its row from memory: running mark, checkpoint, admission, plan, granted authorization or ending
  (`OperatorWriteIsLostIff`). Otherwise a pause lasts (`PauseLastsUntil`, `PauseLastsWithoutSteps`); a step that starts
  from it changes nothing (`Step`).
- No ending of a cycle clears `active_cycle_id`, so all later cycles of a run propose under the first one's id
  (`CycleIdStays`, `Ticks`). Their model ports count attempts from one again and rebuild ids that are already charged:
  they call the model without a new charge (`NextCycleCallsModelWithoutCharge`, `ChargedIdCallsForFree`), their tokens
  are missing from the daily cost (`RepeatedCallIsNotMetered`), and no allowance bounds their number
  (`ReopenedCycleIsUnbounded`). What the allowance does bound is the number of distinct ids
  (`DistinctIdsAreBounded`, `ChargesCountNewIds`); it bounds calls while cycle ids are fresh
  (`ModelCallsAreReservedAndBounded`).
- A consumption without a request id is recorded again on replay (`ReplayIsIdempotentIffIdentified`).
- The daily cost depends on row order when the model ids of one request price differently, and drops when an unpriced
  request is labelled late (`OrderIrrelevantIffPricesAgree`, `AppendLowersCostIff`).
- Observation ids join their parts with colons. Two results that share an id exclude each other: the second ingestion
  is rolled back (`SharedIdIsLost`, `ColonsCollide`, `StoresIff`). The shipped normalizers use kinds without colons,
  for which this cannot happen (`ColonFreeStoresIff`); it takes an injected normalizer.
- The lint does not see secret names below a list under "properties", and passes such a file (`CleanHidesSecretIff`,
  `HiddenToken`).
- The command check of a step does not look at the routing version (`CommandPassesIff`).

## Model

| member | source | states |
|---|---|---|
| `ExecutionTheorems.AtMostOneWorkerCall` | src/research_os/application/execute_planned_experiment.py:500-570 | over every interleaving of transactions of any number of calls and every crash point, no two Worker calls are for the same experiment |
| `ExecutionTheorems.JointStateInvariant` | src/research_os/application/execute_planned_experiment.py:372-476 | in every reachable store attempt and experiment state agree, each attempt rests on a committed ALLOW audit row of its own request, no experiment has two attempts, and an experiment without one is PLANNED, AUTHORIZATION_CHECK, BLOCKED or BUDGET_EXHAUSTED |
| `ExecutionTheorems.BudgetSafety` | src/research_os/application/execute_planned_experiment.py:1090-1130 | over every run and budget: charges stay within max_tool_calls and max_requests, Worker calls never outnumber invocation charges, and the request caps handed to Workers sum to at most max_requests |
| `ExecutionTheorems.ZeroBudgetNeverCalls` | contracts/README.md:83-94 | a budget issued with zero tool calls or zero requests never reaches a Worker in any run |
| `ExecutionTheorems.OverspendRollsBack` | src/research_os/application/execute_planned_experiment.py:545-556 | dispatch answers BUDGET_EXHAUSTED exactly when no tool call or no request is left; the stored experiment then still is READY and nothing was written |
| `ExecutionTheorems.CrashStaysClosed` | src/research_os/application/execute_planned_experiment.py:572-635 | once the owner of a DISPATCHING attempt is gone, no continuation calls the Worker for it, moves it anywhere but UNKNOWN_OUTCOME, or moves its experiment off RUNNING |
| `ExecutionTheorems.NextExecuteMarksUnknown` | src/research_os/application/execute_planned_experiment.py:592-594 | the next execute that finds a DISPATCHING attempt commits UNKNOWN_OUTCOME and goes no further |
| `ExecutionTheorems.UnknownIsLeftIff` | src/research_os/application/execute_planned_experiment.py:647-657 | UNKNOWN_OUTCOME is left by a step exactly when the step is a late outcome write of a call that still owns the attempt |
| `ExecutionTheorems.LateOutcomeOverwritesMark` | src/research_os/application/execute_planned_experiment.py:637-657 | a slow Worker's outcome is recorded over the fail-closed mark (the case in which UNKNOWN_OUTCOME is not final) |
| `ExecutionTheorems.RunKeepsValid` | src/research_os/application/execute_planned_experiment.py:201-718 | the product invariant holds after every run; attempts, audit rows and ledger rows are never lost and no attempt returns to AUTHORIZED |
| `ExecutionTheorems.OnlyOwnersCallWorkers` | src/research_os/application/execute_planned_experiment.py:558-569 | a step reaches the Worker for an attempt only through the call that claimed it |
| `ExecutionTheorems.StoredPlanBinds` | src/research_os/application/execute_planned_experiment.py:786-820 | a stored plan is unchanged by every continuation, and authorizing any other plan for its experiment is refused without a write |
| `ExecutionSafety.AuthorizeGrantsOnceOrDeclines` | src/research_os/application/execute_planned_experiment.py:215-476 | authorize inserts exactly one attempt, with its ALLOW audit row, for an experiment that had none, or inserts none; a grant needs capability binding, rate limit and Core's final ALLOW |
| `ExecutionSafety.DispatchClaimsOrMarks` | src/research_os/application/execute_planned_experiment.py:500-557 | dispatch either claims an AUTHORIZED attempt together with both reservations, or writes nothing but an UNKNOWN_OUTCOME mark |
| `ExecutionSafety.ReserveAppendsBoth` | src/research_os/application/execute_planned_experiment.py:1104-1130 | reserving for an uncharged attempt appends its two rows, invocation first, or nothing |
| `ExecutionSafety.CheckOnlyMarks` | src/research_os/application/execute_planned_experiment.py:572-610 | the fail-closed read writes at most one DISPATCHING to UNKNOWN_OUTCOME change |
| `Executor.ExecutePlannedExperiment.FailClosedExisting` | src/research_os/application/execute_planned_experiment.py:572-635 | the transaction on a unit of work is the specified fail-closed read, whichever attempt the unordered query returns first |
| `Executor.ExecutePlannedExperiment.Authorize` | src/research_os/application/execute_planned_experiment.py:215-476 | the authorize transaction, rollback paths and persist hook included, commits exactly the specified store and answer; an id collision raises and commits nothing |
| `Executor.ExecutePlannedExperiment.LoadContext` | src/research_os/application/execute_planned_experiment.py:720-820 | passes exactly for a live experiment whose hypothesis, run and issued budget exist, whose hypothesis and budget the plan names, and whose stored plan is this plan (or that has none and the plan is bound); otherwise reports the stored state, as ALREADY_TERMINAL or INPUT_REJECTED |
| `Executor.ExecutePlannedExperiment.Decide` | src/research_os/application/execute_planned_experiment.py:280-372 | rate limit, HTTP pre-check, Core and session decide as specified, over the provisional AUTHORIZATION_CHECK write |
| `Executor.ExecutePlannedExperiment.Claim` | src/research_os/application/execute_planned_experiment.py:500-557 | the claim transaction, with its reservation loop and its rollbacks, commits exactly the specified store |
| `Executor.ExecutePlannedExperiment.RecordOutcome` | src/research_os/application/execute_planned_experiment.py:637-664 | the outcome write stores the classified pair of states, or nothing when the tables refuse it |
| `Executor.ExecutePlannedExperiment.FailUnusable` | src/research_os/application/execute_planned_experiment.py:669-683 | a rejected result turns attempt and experiment into FAILED and EXECUTION_FAILED in a transaction of its own |
| `Executor.ExecutePlannedExperiment.Dispatch` | src/research_os/application/execute_planned_experiment.py:500-570 | with others interleaving between its transactions, dispatch calls the Worker once if the claim commits and never otherwise, and answers accordingly |
| `Executor.ExecutePlannedExperiment.Execute` | src/research_os/application/execute_planned_experiment.py:201-213 | with others interleaving, one execute makes at most one Worker call, none for an experiment that ever had an attempt, and after a call answers by what the Worker, the tables and ingestion said |
| `OrchestrationTheorems.HistoryAgreesWithCounter` | src/research_os/application/autonomous_research_controller.py:854-930 | in every state reachable by controllers, operators, executors and crashes, a run's cycle rows carry exactly the numbers 1..cycle_number, each once, and continue exactly when they name no stop |
| `OrchestrationTheorems.ConfigurationNeverDrifts` | src/research_os/application/orchestration_config.py:108-144 | a started run keeps its configuration over every continuation, always recomputes to its stored fingerprint, and only extends its history |
| `OrchestrationTheorems.PassingCommandHasOriginalBounds` | src/research_os/application/orchestration_config.py:147-173 | a step command that passes the check carries the bounds, budget, target, question and scope of the original start |
| `OrchestrationTheorems.OneWorkerCallPerExperiment` | src/research_os/application/autonomous_research_controller.py:704-778 | the one-call promise also holds with controllers resuming AUTHORIZED attempts after crashes |
| `OrchestrationTheorems.RevivingAddsCycle` | src/research_os/application/autonomous_research_controller.py:261-289 | after any run: pause, resume and the stop of the next step add one cycle row and one to the count of any run nobody works on, finished ones included |
| `OrchestrationTheorems.ZeroCycleRunGetsACycle` | src/research_os/application/autonomous_research_controller.py:261-289 | a run started with max_cycles zero, paused and resumed, ends with cycle number one and one cycle row |
| `OperatorTheorems.OperatorWriteIsLostIff` | src/research_os/application/autonomous_research_controller.py:780-825 | for every act of a step and both operator writes: if the act writes the row, all tables end as if pause or cancel had never happened; if it does not, the operator's row stands |
| `OperatorTheorems.AuthorizeStepIgnoresRows` | src/research_os/application/autonomous_research_controller.py:515-560 | the authorize transaction with its persist hook answers and writes the same whatever the stored orchestration rows say |
| `OperatorTheorems.PauseLastsUntil` | src/research_os/application/autonomous_research_controller.py:261-297 | over any run a PAUSED row stays PAUSED until an act that resumes or cancels it or that is a row write of an open step |
| `OperatorTheorems.PauseLastsWithoutSteps` | src/research_os/application/autonomous_research_controller.py:311-319 | with no step open and none begun, only resume or cancel ends a pause, however everybody else interleaves |
| `OrchestrationTheorems.CycleIdStays` | src/research_os/application/autonomous_research_controller.py:962-996 | over any run whose steps reuse the id they find, no ending, operator, crash or other run changes or clears the active cycle id |
| `OrchestrationTheorems.NextCycleCallsModelWithoutCharge` | src/research_os/application/autonomous_research_controller.py:410-431 | hence, for every role, number, program and answer, a later cycle's call of the same role and number is made whenever the gate is open, adds no MODEL_CALL row, and writes only token sides the earlier call left out |
| `OrchestrationSafety.FinishNeverConflicts` | src/research_os/application/autonomous_research_controller.py:905-918 | the insert of the next cycle row never meets an existing number of the run |
| `OrchestrationSafety.RunKeepsSound` | src/research_os/application/autonomous_research_controller.py:170-930 | execution invariant and orchestration invariant hold together after every run of the larger system |
| `OrchestrationPolicy.CommandPassesIff` | src/research_os/application/orchestration_config.py:147-173 | the command check passes exactly when both commands would start the same configuration, routing version excepted |
| `OrchestrationPolicy.EveryStopEndsTheRun` | src/research_os/research/orchestration.py:223-261 | every stop reason leads to a state no step goes on from and to an outcome other than CONTINUE |
| `Database.ForeignLeavesUntouched` | src/research_os/application/autonomous_research_controller.py:131-132 | what anybody else's transaction leaves alone: our call, our session, our run's configuration, count, cycle id and rows, and every abandoned attempt |
| `Database.Connection.Others` | src/research_os/application/execute_planned_experiment.py:201-213 | any schedule of other people's transactions between two of ours keeps the tables a run of the protocol |
| `Controller.AutonomousResearchController.Step` | src/research_os/application/autonomous_research_controller.py:299-626 | one tick with others interleaving: from a state that is not runnable it changes nothing; otherwise at most one Worker call and one more cycle; with an attempt of a dead process open, no Worker call and FAILED_OPERATIONAL; the count ends within max_cycles exactly if it began below it |
| `Controller.AutonomousResearchController.RunBounded` | src/research_os/application/autonomous_research_controller.py:628-638 | the loop terminates with at most max_cycles Worker calls, and from a fresh start with cycle number and rows at most max_cycles, under the started configuration; an existing cycle id is kept throughout |
| `Controller.AutonomousResearchController.Ticks` | src/research_os/application/autonomous_research_controller.py:628-638 | with operators and others acting between any two steps, no step of the loop calls a Worker while an attempt of a dead process is open, and all its cycles run under the cycle id it found |
| `Controller.AutonomousResearchController.StopIfUnknown` | src/research_os/application/autonomous_research_controller.py:324-328 | the step stops here exactly when its phase is DISPATCHING or some attempt of the run is unresolved at that moment |
| `Controller.AutonomousResearchController.Start` | src/research_os/application/autonomous_research_controller.py:170-259 | creates the row with its fingerprint, READY or already COMPLETED for zero cycles; an existing row is answered unchanged |
| `Controller.AutonomousResearchController.Pause` | src/research_os/application/autonomous_research_controller.py:261-267 | the operator's write over whatever state there was |
| `Controller.AutonomousResearchController.Resume` | src/research_os/application/autonomous_research_controller.py:269-289 | only a PAUSED row changes, to READY with its reasons cleared |
| `Controller.AutonomousResearchController.Cancel` | src/research_os/application/autonomous_research_controller.py:291-297 | the operator's write over whatever state there was |
| `Controller.AutonomousResearchController.CompleteCycle` | src/research_os/application/autonomous_research_controller.py:854-930 | the one writer saves the row and inserts the cycle row exactly when the cycle counts |
| `Controller.AutonomousResearchController.Checkpoint` | src/research_os/application/autonomous_research_controller.py:962-996 | a checkpoint commits the specified row and leaves count and configuration alone |
| `Controller.AutonomousResearchController.ResumeAuthorized` | src/research_os/application/autonomous_research_controller.py:704-778 | acts exactly when the run has an unresolved or an AUTHORIZED attempt; an unresolved one stops it as an operational failure without a Worker call, an AUTHORIZED one is dispatched at most once |
| `Controller.AutonomousResearchController.ResumePlanned` | src/research_os/application/autonomous_research_controller.py:1046-1119 | a planned experiment that was ever attempted gets no second Worker call; after a Worker call the loop status decides stop, raise or counted cycle |
| `Controller.AutonomousResearchController.ResumeAdmitted` | src/research_os/application/autonomous_research_controller.py:998-1044 | resuming an admitted hypothesis plans or reuses its experiment and ends with at most one Worker call and one more cycle |
| `Controller.AutonomousResearchController.ResumeAfterWorker` | src/research_os/application/autonomous_research_controller.py:1121-1156 | resuming after a recorded result makes no Worker call and ends the cycle, at the bound by MAX_CYCLES_REACHED |
| `Controller.AutonomousResearchController.FreshCycle` | src/research_os/application/autonomous_research_controller.py:362-416 | with cycles or time used up, or a zero bound, a fresh cycle makes no Worker call and leaves a state no step goes on from |
| `Controller.AutonomousResearchController.DispatchAgain` | src/research_os/application/autonomous_research_controller.py:739-778 | after a resumed Worker call an unknown outcome stops the run and any other outcome ends the cycle READY, whatever max_cycles says |
| `Controller.AutonomousResearchController.PlanAgain` | src/research_os/application/autonomous_research_controller.py:1007-1043 | an experiment the row already names is reused, never planned again |
| `Controller.AutonomousResearchController.ResumePhase` | src/research_os/application/autonomous_research_controller.py:334-360 | phases resume as the source orders them: after a recorded result no Worker call, a planned experiment that was attempted no Worker call, a ready run at its bound a stop |
| `Controller.AutonomousResearchController.SelectAndPropose` | src/research_os/application/autonomous_research_controller.py:371-416 | a routing refusal stops the run with its own reason and no Worker call |
| `Controller.AutonomousResearchController.Propose` | src/research_os/application/autonomous_research_controller.py:423-545 | each answer of the proposal leads to its own stop, raise or free continuation, only an admitted plan within the side effect ceiling can reach a Worker, and then the loop status settles the step |
| `Controller.AutonomousResearchController.AfterLoop` | src/research_os/application/autonomous_research_controller.py:547-626 | the loop status of a fresh cycle settles the step: denied, human review, unknown with phase DISPATCHING, raise of the evaluation, or a counted cycle |
| `Controller.AutonomousResearchController.AfterResumedLoop` | src/research_os/application/autonomous_research_controller.py:1084-1119 | the same for a resumed planned experiment |
| `Controller.AutonomousResearchController.EndCycle` | src/research_os/application/autonomous_research_controller.py:603-626 | a counted cycle stops the run by MAX_CYCLES_REACHED exactly when it was the last one allowed, and leaves it READY otherwise |
| `Controller.AutonomousResearchController.Usage` | src/research_os/application/autonomous_research_controller.py:932-960 | the usage is the ledger's totals, the run's experiments and the row's count |
| `BudgetLedger.LedgerTotals` | src/research_os/data/budget_ledger.py:38-61 | the one-pass totals equal the declarative sums per resource |
| `BudgetLedger.InsertKeepsLedgerOk` | src/research_os/data/postgres/repositories.py:2126-2190 | the allowance-checked insert keeps amounts positive, charges unique and every allowance respected |
| `BudgetLedger.DistinctChargesBoundedByUsed` | src/research_os/data/budget_ledger.py:82-101 | distinct requests holding rows of at least their weight never weigh more than the ledger total |
| `BudgetConsumption.LedgerStore.Execute` | src/research_os/application/budget_consumption.py:50-103 | one recording transaction commits exactly the specified ledger and answer, and keeps the ledger sound and append-only |
| `BudgetConsumption.HistoryKeepsLedger` | src/research_os/application/budget_consumption.py:50-103 | over any history the old ledger is a prefix of the new one, with at most one row per budget, request id and resource, and every allowance respected |
| `BudgetConsumption.ZeroAllowanceChargesNothing` | contracts/README.md:83-94 | a zero allowance is never charged |
| `BudgetConsumption.ReplayIsIdempotentIffIdentified` | src/research_os/application/budget_consumption.py:73-82 | replaying a recorded command is a no-op with the same usage exactly when it carried a request id |
| `BudgetConsumption.LateReplayChangesNothing` | src/research_os/application/budget_consumption.py:73-82 | the replay stays a no-op however many commands came in between |
| `ModelPort.InvocationIdInjective` | src/research_os/application/budget_enforced_model.py:27-28 | the id determines cycle, role and attempt number for all cycle ids |
| `ModelPort.BudgetEnforcedModelPort.Complete` | src/research_os/application/budget_enforced_model.py:57-84 | gate, reservation, inner call and token records in that order give exactly the specified ledger, counters and log; a refusal never reaches the model |
| `ModelPort.BudgetEnforcedModelPort.WriteTokens` | src/research_os/application/budget_enforced_model.py:86-126 | token rows are recorded, input side first, only for a program with a policy and an answer naming its model, on the day read after the call |
| `ModelPort.CompletionReserves` | src/research_os/application/budget_enforced_model.py:57-84 | an inner call happens only on a ledger that already holds its reservation; a refused one changes nothing |
| `ModelPort.ModelCallsAreReservedAndBounded` | src/research_os/application/budget_enforced_model.py:57-84 | while ports are opened on fresh cycle ids, the k-th call happens after k distinct MODEL_CALL rows, and calls stay within the allowance, however ports interleave |
| `ModelPortTheorems.CallIsFreeIffIdWasUsed` | src/research_os/application/budget_enforced_model.py:57-84 | the ledger of a call is the old one exactly when its rebuilt id was charged, otherwise the old one and its one reservation row |
| `ModelPortTheorems.TokenRowsAre` | src/research_os/application/budget_enforced_model.py:86-126 | the token rows of an answer are exactly the sides with a positive amount, an issued daily budget and no earlier row of the id, input first, the output only after an input that was not refused |
| `ModelPortTheorems.ChargedIdCallsForFree` | src/research_os/application/budget_enforced_model.py:57-126 | for every role, port, program and answer: on a charged id the call is made exactly when the gate is open, without a MODEL_CALL row, and its tokens are written exactly for the sides without an earlier row |
| `ModelPortTheorems.RepeatedCallIsNotMetered` | src/research_os/application/budget_enforced_model.py:57-126 | a completed call with both token counts, repeated later under the same id and day, calls the model and writes nothing, so the daily cost never contains the repeated call |
| `ModelPortTheorems.ReopenedCycleIsUnbounded` | src/research_os/application/budget_enforced_model.py:54-63 | a cycle reopened n times makes the same allowed call n times on the charges of the first |
| `ModelPortTheorems.DistinctIdsAreBounded` | src/research_os/application/budget_enforced_model.py:57-84 | over every run of ports, with no assumption on cycle ids, every call follows a reservation of its id, and distinct ids called stay within the amount used and the allowance |
| `ModelPortTheorems.ChargesCountNewIds` | src/research_os/application/budget_enforced_model.py:57-84 | while only ports charge the budget, a run's charges are exactly one per called id that was not charged when it began, however often ids are called |
| `ModelPortTheorems.ReopenedCycleOutrunsAllowance` | src/research_os/application/budget_enforced_model.py:54-63 | for every n, n model calls can be made against an allowance of one |
| `DailyCost.SumEstimatedCost` | src/research_os/application/program_daily_budget.py:183-208 | the grouping and pricing loops compute the sum over distinct request ids of the cost of their total tokens |
| `DailyCost.OrderIrrelevantIffPricesAgree` | src/research_os/application/program_daily_budget.py:183-208 | the sum is the same in every row order exactly when all model ids of a request price its totals alike |
| `DailyCost.PermutationKeepsCost` | src/research_os/application/program_daily_budget.py:183-208 | permuting rows keeps the sum under that condition |
| `DailyCost.AppendLowersCostIff` | src/research_os/application/program_daily_budget.py:197-207 | an appended row lowers the sum exactly when it is the late first price of an unpriced request |
| `DailyCost.AppendNeverLowersLabelledCost` | src/research_os/application/program_daily_budget.py:183-208 | when every token row carries a model id the sum never decreases on append |
| `DailyCost.LateLabelLowersCost` | src/research_os/application/program_daily_budget.py:197-207 | a ledger whose sum drops on append |
| `DailyCost.UnpricedRequestFillsTheRange` | src/research_os/application/program_daily_budget.py:205-207 | one unpriced request makes the sum at least 2^63-1 |
| `DailyCost.EstimateMonotone` | src/research_os/core/pricing.py:22-38 | the estimate is monotone in tokens and unpriced only by model |
| `DailyCost.CheckProgramDailyBudget` | src/research_os/application/program_daily_budget.py:218-260 | allows exactly without a policy, or under a limit and an allocated envelope that the day's cost plus the estimate stays below; raises exactly for a negative sum |
| `DailyCost.GateFailsClosed` | src/research_os/core/budget.py:75-86 | a zero limit, and one unpriced request under any limit in range, close the gate for every estimate that is not negative |
| `SafeData.CollectSensitive` | src/research_os/safe_data.py:103-137 | the accumulating recursion returns the specified tree and appends exactly the secrets' paths, in walking order |
| `SafeData.WalkSensitiveKeys` | src/research_os/safe_data.py:91-100 | the rendered paths of all secrets |
| `SafeData.RejectSecretKeys` | src/research_os/safe_data.py:140-149 | passes with the payload when the walk finds nothing, otherwise reports the set of paths |
| `SafeData.RedactSecretKeys` | src/research_os/safe_data.py:152-156 | the redacted tree |
| `SafeDataTheorems.RejectionIsExact` | src/research_os/safe_data.py:140-149 | rejection passes exactly when no mapping at any depth holds a secret, and then returns a tree equal to the input |
| `SafeDataTheorems.SecretsDoNotInterfere` | src/research_os/safe_data.py:103-156 | trees that differ only under sensitive keys, neither side a safe reference, give equal results and equal paths in both modes |
| `SafeDataTheorems.RedactionHidesOnlySecrets` | src/research_os/safe_data.py:152-156 | two trees redact alike exactly when they differ in secrets only; sets hold no secrets, because a set around a mapping cannot be rebuilt |
| `SafeDataTheorems.RedactionMasks` | src/research_os/safe_data.py:152-156 | under every sensitive key of the output there is the constant or a safe reference |
| `SafeDataTheorems.MaskedIffFixed` | src/research_os/safe_data.py:152-156 | redaction is the identity exactly on masked trees |
| `SafeDataTheorems.RedactionIsIdempotent` | src/research_os/safe_data.py:152-156 | redacting twice equals redacting once |
| `ReplayRedaction.Redact` | src/research_os/application/executor_replay_manifest.py:214-236 | the sorted, accumulating recursion returns the specified output and count |
| `ReplayRedaction.RedactedAlikeIff` | src/research_os/application/executor_replay_manifest.py:214-236 | two values redact to the same output exactly when they differ only in mapping order, secret values and list versus tuple |
| `ReplayRedaction.AlikeValuesShareOutputAndCount` | src/research_os/application/executor_replay_manifest.py:214-236 | such values also share the count |
| `ReplayRedaction.SecondPassIsFixed` | src/research_os/application/executor_replay_manifest.py:214-236 | a second pass changes nothing and counts the same |
| `ReplayRedaction.CountIsOutermost` | src/research_os/application/executor_replay_manifest.py:214-236 | the count is the number of sensitive keys not nested under another sensitive key |
| `Ingestion.IngestCompletedWorkerInvocation.Execute` | src/research_os/application/ingest_worker_invocation.py:90-179 | one ingestion commits exactly the specified tables and answer |
| `Ingestion.IngestCompletedWorkerInvocation.PersistObservations` | src/research_os/application/ingest_worker_invocation.py:290-314 | the loop inserts all observations in order or stops at the first taken id |
| `Ingestion.IngestKeepsTables` | src/research_os/application/ingest_worker_invocation.py:90-179 | tables stay consistent, rows are never lost, and anything but a successful ingestion changes nothing |
| `Ingestion.StoreAdds` | src/research_os/application/ingest_worker_invocation.py:290-358 | a successful ingestion of n drafts adds one result, n observations and n+1 audit rows |
| `Ingestion.StoresIff` | src/research_os/application/ingest_worker_invocation.py:290-314 | an acceptable first ingestion succeeds exactly when its observation ids are distinct and unused |
| `Ingestion.ColonFreeStoresIff` | src/research_os/application/ingest_worker_invocation.py:66-67 | without colons in kinds and versions, exactly when the kind and version pairs are distinct |
| `Ingestion.SharedIdIsLost` | src/research_os/application/ingest_worker_invocation.py:66-67 | when two results share an observation id, after the first is stored and whatever is ingested meanwhile every acceptable ingestion of the second answers with the conflict and changes nothing |
| `Ingestion.ColonsCollide` | src/research_os/application/ingest_worker_invocation.py:66-67 | that happens to request r with kind x:k and request r:x with kind k, for all texts, versions and payloads |
| `Ingestion.AtMostOneResult` | src/research_os/application/ingest_worker_invocation.py:118-150 | any sequence of ingestions leaves at most one result per request id |
| `Ingestion.ReplayAnswersFirst` | src/research_os/application/ingest_worker_invocation.py:118-130 | after any further ingestions a replay answers with the first result and exactly its observations, and changes nothing |
| `HuntQueue.HuntStore.Validate` | src/research_os/application/hunt_validation.py:86-169 | one validation commits exactly the specified audit and queue rows, or rolls all of them back when enqueueing raises |
| `HuntQueue.HuntStore.ApproveItem` | src/research_os/application/hunt_v3_queue_approval.py:45-117 | one approval commits exactly the specified state and audit row |
| `HuntQueue.QueueGate` | src/research_os/application/hunt_validation.py:200-249 | over every history each queue row has V1 PASSED, V2 PASSED and V3 QUEUED audit rows in order, came from an in-scope node, carries the SE3 marker at level 3, and is APPROVED only with an authorizing approval for its own subject |
| `HuntQueue.OnlyTheGateApproves` | src/research_os/application/hunt_v3_queue_approval.py:84-117 | an item changes only from PENDING to APPROVED, by the gate, on an authorizing approval |
| `HuntQueue.GateOpensIff` | src/research_os/application/hunt_v3_queue_approval.py:53-84 | the gate opens exactly for a pending item of the run with an authorizing approval; the missing-marker refusal never happens to an enqueued item |
| `ContractLint.Lint` | scripts/check_contracts.py:153-201 | the command's loops find exactly the specified errors; exit code 0 exactly when there is none |
| `ContractLint.CollectRefs` | scripts/check_contracts.py:71-76 | the references among all walked nodes, in order |
| `ContractLint.AddPropertyNames` | scripts/check_contracts.py:56-68 | adds exactly the names that some object declares on a path that never enters a properties value that is no object |
| `ContractTree.NamesAreVisible` | scripts/check_contracts.py:56-68 | the recursive collection and that path-wise definition agree for every tree and name |
| `ContractTree.DeclaredIsVisibleOrBehind` | scripts/check_contracts.py:56-68 | a name declared anywhere is seen, or lies below a reached properties value that is no object; nothing else is hidden |
| `ContractLint.CheckFile` | scripts/check_contracts.py:116-150 | no error exactly when the file is an object with the canonical schema, a prefixed id, type object, closed properties and a title, and shows no secret name; otherwise the errors in order |
| `ContractLintTheorems.CleanHidesSecretIff` | scripts/check_contracts.py:145-148 | a file of the right shape passes although it declares a secret name exactly when such a name lies below a list under properties and none is visible |
| `ContractLintTheorems.HiddenToken` | scripts/check_contracts.py:145-148 | a file with properties [{properties: {token: {}}}] and the rest in order passes although it declares token |
| `ContractLintTheorems.CollectedIffAtSomeDepth` | scripts/check_contracts.py:46-76 | the collected references are exactly those at some depth of the tree |
| `ContractLintTheorems.ReferencePassesIff` | scripts/check_contracts.py:79-113 | against the required ids a reference passes exactly when it is a fragment or names one of them before its first # |
| `ContractLintTheorems.LintIsExact` | scripts/check_contracts.py:153-201 | no error exactly when every file has its shape and shows no secret name, ids are distinct and are the required ones, and every reference at any depth is good |

## Left out

- Executor.ExecutePlannedExperiment.Authorize: sessions, secrets and the Worker request document are not stored; the
  answers of capability binding, HTTP pre-check, rate limiter, Core, session binder and request validator are inputs.
- Executor.ExecutePlannedExperiment.Execute: the answer carries the status and the reported experiment state, not the
  ids, digests and decision details of the source's outcome record; the verdict of ingestion is an input, not the
  outcome of module Ingestion on the same tables.
- Controller.AutonomousResearchController.Step: surface discovery ticks are not modelled; routing, selection,
  proposal and evaluation answer as inputs, and the last observation, assessment and result ids are not kept.
- Controller.AutonomousResearchController.RunBounded: a raise inside a step ends the loop with a raised result; other
  exceptions of code not modelled appear as a crash after some prefix of the step.
- Controller.AutonomousResearchController.Start: the ORCHESTRATION_STARTED audit row and telemetry are not stored.
- Ingestion.IngestCompletedWorkerInvocation.Execute: login capture and session expiry are not modelled, and with
  atomic transactions the raced-insert branch cannot be reached.
- SafeData.CollectSensitive: keys are stripped of four ASCII white space characters and folded for ASCII letters only.
- ReplayRedaction.Redact: keys are strings, folded for ASCII letters only; the digest of the output is not modelled.
- The replay manifest document around the redacted payload and its determinism class.
- HuntQueue.HuntStore.Validate: the static family match, claim text, matrix and parser plans are inputs; of the
  arguments only claim, identity, approval marker and dispatch marker are kept.
- ContractLint.Lint: files arrive as parsed values in path order; error messages are kinds, without path and value.
- Database.Connection.Others: transactions are serializable and atomic; lock waits and PersistenceConflict races
  between them do not occur. One controller process serves a run at a time; operators may act at any time.
- ModelPort.BudgetEnforcedModelPort.Complete: the provider's answer is an input; gate, reservation and token records of
  one call are not interleaved with other writers of the ledger.
- Fresh ids are assumed new to the tables they enter; SHA-256, JSON encoding, UUIDs and clocks are inputs or an
  uninterpreted fingerprint function.
- PostgreSQL, migrations and triggers; Worker processes, browsers and model providers.
- Issued budgets and model-call bounds are fixed during a run; the daily allocation use case and the usage view's
  per-call listing are not modelled.
- Core policy evaluation, scope compilation, rate-limit arithmetic, normalizers, hypothesis admission, findings and
  candidates.
