# Revanent: a verified model of the durable run coordinator

Revanent drives a build, validation, review and repair workflow over one durable run. This project
models its hard core in Dafny and proves what the core is for: whatever the interleaving of workers
and wherever one of them is lost, an external call is started at most once, a run is approved only on
fresh evidence, an unknown side effect is never forgiven, and every call ends.

## How it is built

* `domain.dfy` is the run and its single transition function.
* `coordinator.dfy` is the coordinator as a state machine. Any number of workers run `execute`,
  `reconcile` and `cancel` against one shared state: the stored run, its events, the journal of intent,
  outcome and reconciliation records, and the usage ledger. Every read, every durable write and every
  start of an external call is a step of its own, and a `Crash` step may hit any worker at any point.
  The run's history and the log of started calls are history variables that no step reads.
* `coordinator_history.dfy`, `coordinator_invariants.dfy`, `coordinator_writes.dfy` and
  `coordinator_steps.dfy` hold the inductive invariant and its proof, `coordinator_theorems.dfy` the
  results over whole runs, and `coordinator_execution.dfy` one call from start to return among
  interfering workers.
* `coordinator_funding.dfy` ties the capped validation time to one undisturbed call, and
  `coordinator_grants.dfy` the attempt budgets of the ledger to the counters of the run.
* `coordinator_outcomes.dfy` says where every outcome leads: the next state, counters and gate.
* `coordinator_runs.dfy` builds runs attempt by attempt. From it come `coordinator_longest.dfy`, the
  runs that are approved and those that reach the limits, and `coordinator_stale.dfy`, a run in which a
  stale request is refused.
* `status.dfy` is the read path: the status projection and its contradiction codes.
* `telemetry.dfy` and `duration_budget.dfy` are the ledger and the capped validation time.
* `validation.dfy`, `validation_runner.dfy`, `review_gate.dfy` and `repair_policy.dfy` are the evidence:
  aggregation, the runner that must satisfy it, the gate that replays it, and the repair decision.
* `discovery.dfy` and `selection.dfy` are context discovery and selection; `utf8.dfy` and
  `truncation.dfy` bound text without breaking characters (section 3 of RFC 3629).
* `worktree.dfy` and `porcelain.dfy` are the owned-worktree lifecycle and the parser of Git's
  worktree list. `ordering.dfy` is shared.

Code that computes is modelled by functions. Loops and state that the program changes in place are
methods and classes, proved against a specification that does not mention them. The coordinator's step
handlers are the exception: other workers act between any two of their durable operations, so they are
steps of the machine, and `CoordinatorExecution.Service.Call` is the loop around those steps.

## Where the code does less than one would expect

* `execute` asks for FAILED without a guard when measured validation time is used up
  (src/revanent/orchestration/service.py:239-244), while the wall-clock branch above it checks the
  permitted destinations first. On the current version of the run this is safe. A worker that stalls on
  an old version in PLANNING can ask for it after another worker's validation overran its reservation,
  and the state machine then refuses the transition. `CoordinatorStale.StaleFailureIsRefused` gives such
  a run. `CoordinatorTheorems.RequestsFailOnDestinationOnly` says that this request, from the three early
  states and from stale versions only, is all that is ever refused. Nothing is written.
* With 100 repairs the validation after the last one gets number 101, which a validation record cannot
  hold. `CoordinatorTheorems.NumbersFit` says exactly when, and `CoordinatorLongest.NumberBeyondReached`
  is a run that comes to it.
* A request may name any number of context requests, and a journal record is numbered up to 1024. With
  R repairs the journal fits exactly when contexts + 3R is at most 337 (for R = 100: at most 39
  contexts), or when there are so many context requests that they cannot be numbered themselves:
  `CoordinatorLongest.RecordsFitExactly`. The statement holds for any number of contexts; the request
  model admits no fewer than two.
* A validation that is refused for lack of budget leaves an outcome without a result. A pass that finds
  it has no step to take (an assertion, src/revanent/orchestration/service.py:781).
  `CoordinatorExecution.CallsProgress` shows that this is the only point at which a call cannot go on.
* A policy-rejected command result whose resolved executable is a relative path makes the runner raise
  instead of reporting it. The command runner's own policy resolves executables to absolute paths
  (src/revanent/commands/policy.py:244-247) and never reports one; the result type admits it.
  `ValidationRunner.NormalizeValidExactly` is the exact condition for one command and
  `ValidationRunner.Execute` for a run.
* The preflight budget decision counts local and remote attempt usage against the build limit, the atomic
  reserve does not. On ledgers that hold such usage their verdicts can differ, and then the preflight
  decision is the stricter: `Telemetry.PreflightAgreesExactly` says exactly when they agree. Nothing in
  the program writes such usage.
* A preferred or optional context item can be listed as a duplicate of an item that was dropped. A
  reference resolves exactly when there was room for the first item of its content at its own turn:
  `Selection.ReferencesResolveExactly`. `Selection.ReferenceToDropped` is a selection in which it does
  not; for required items `Selection.RequiredContentIsPresent` excludes it.

## Model

| member | source | states |
|---|---|---|
| CoordinatorTheorems.AtMostOnce | src/revanent/orchestration/service.py:997-1083 | in every reachable state each revision has started at most one external call, each attempt at most one ever, and only the worker whose write created the intent started it |
| CoordinatorTheorems.NothingRunsUnfunded | src/revanent/orchestration/service.py:739-743 | no agent or validation was started without a reservation on record |
| CoordinatorTheorems.ApprovalIsFresh | src/revanent/orchestration/service.py:832-871 | an APPROVED run has a latest validation that is approvable and younger than every build and repair outcome, a latest review about that validation, and exactly the satisfied gate that this review ruled |
| CoordinatorTheorems.AmbiguityIsAbsorbing | src/revanent/orchestration/service.py:1949-1969 | once a build or repair outcome is ambiguous or incompatible, no continuation or reconciliation is approved or starts a repair |
| CoordinatorLongest.ApprovalIsReached | src/revanent/orchestration/service.py:859-868 | after any number of repairs below the hundredth, for any recordable number of context requests and any satisfied gate, some run is approved with exactly that gate |
| CoordinatorOutcomes.ReviewDecides | src/revanent/orchestration/service.py:852-899 | from a review on record the run is approved with the ruled gate if and only if the gate approves and the attempt was not cancelled, goes to repair if and only if changes are required and a repair is left, and blocks, fails or is cancelled exactly otherwise; the counters follow |
| CoordinatorOutcomes.ValidationDecides | src/revanent/orchestration/service.py:781-806 | from a validation on record the run goes to review if and only if it passed, to repair if and only if it failed in the ordinary way and a repair is left, and ends exactly otherwise |
| CoordinatorOutcomes.AgentDecides | src/revanent/orchestration/service.py:942-975 | a build or a repair counts in any case, and is validated if and only if it was neither blocked nor cancelled and completed or may have written something |
| CoordinatorOutcomes.ReconciliationDecides | src/revanent/orchestration/service.py:331-364 | only a worktree that is there lets a reconciled run go on; what else may have written blocks it, the rest fails it |
| CoordinatorOutcomes.PickDecides | src/revanent/orchestration/service.py:688-690 | before an attempt starts a run fails only for a used-up limit, for want of a plan or because a repair is refused |
| CoordinatorOutcomes.LoopDecides | src/revanent/orchestration/service.py:206-246 | the loop itself takes only the two first transitions; anything else it asks for ends the run, and FAILED only where the state permits it |
| CoordinatorOutcomes.DurationIsDeniedExactly | src/revanent/orchestration/service.py:1481-1487 | the loop head denies duration for other than unresolved capacity if and only if none is unresolved and measured time overran or used plus promised time has reached the limit |
| CoordinatorOutcomes.WorkspaceDecides | src/revanent/orchestration/service.py:449-453 | a worktree just created leads to the build, one that could not be created blocks the run |
| CoordinatorOutcomes.ContextsLead | src/revanent/orchestration/service.py:577-582 | when no context request is left the worktree comes next |
| CoordinatorOutcomes.ContextDecides | src/revanent/orchestration/service.py:536-555 | a context selection that does not complete blocks the run if it says so, and fails it otherwise |
| CoordinatorOutcomes.DenialIsKept | src/revanent/orchestration/service.py:738-747 | a validation that was denied its budget starts nothing, and the worker remembers whether capacity was unresolved |
| CoordinatorOutcomes.RefusalDecides | src/revanent/orchestration/service.py:748-759 | that run is blocked if capacity was unresolved and failed otherwise |
| CoordinatorOutcomes.CancelDecides | src/revanent/orchestration/service.py:1811-1828 | a run asked to be cancelled is cancelled from every state that is not terminal |
| CoordinatorOutcomes.RecordedValidationsAgree | src/revanent/orchestration/service.py:761-778 | the attempt status of every recorded validation is that of its result, and its plan is that of its number |
| CoordinatorTheorems.CurrentRequestsAreAccepted | src/revanent/orchestration/service.py:1757-1787 | whatever is asked of the current version is accepted by the state machine, at any clock reading |
| CoordinatorTheorems.RequestsFailOnDestinationOnly | src/revanent/orchestration/service.py:232-244 | a request is refused exactly when it is a plain FAILED from CREATED, PLANNING or WORKSPACE_PREPARING, and only on a stale version; counters, limits, timestamps and gates are never the reason |
| CoordinatorStale.StaleFailureIsRefused | src/revanent/orchestration/service.py:239-244 | a concrete reachable run in which a stale worker asks for FAILED from PLANNING after a validation overran, and is refused |
| CoordinatorTheorems.PassesAreBounded | src/revanent/orchestration/service.py:202-295 | a call makes at most 3R + 8 loop passes and never reaches the step-bound fallback |
| CoordinatorTheorems.TransitionsBurnPotential | src/revanent/orchestration/service.py:797-805 | every durable transition adds one revision and strictly lowers the measure; the revision never exceeds 3R + 7 |
| CoordinatorTheorems.JournalIsBounded | src/revanent/ports/orchestration.py:453-470 | the journal has at most three records for each context request, the worktree, the build, each of R + 1 validations and reviews (100 at most) and each repair; only context records if there are more than 100 context requests |
| CoordinatorLongest.JournalCapIsReached | src/revanent/orchestration/service.py:1709-1732 | for every number of context requests and every repair limit some run fills the journal to that bound |
| CoordinatorLongest.RecordsFitExactly | src/revanent/ports/orchestration.py:423-423 | every journal stays within the 1024 numbers of the record model if and only if contexts + 3R is at most 337 (R = 100: contexts at most 39) or there are more than 100 context requests |
| CoordinatorTheorems.CountersAgree | src/revanent/orchestration/service.py:1900-1905 | while the run is open every counter is the number of intents of earlier revisions, the n-th intent of a step carries number n, and the repair allowance is never overdrawn |
| CoordinatorTheorems.PickedNumbers | src/revanent/orchestration/service.py:1862-1898 | the allocator gives the next number, or at a re-entry of the same revision the same one |
| CoordinatorSteps.NextIsOrdinal | src/revanent/orchestration/service.py:1862-1898 | on the current version the allocated number is the ordinal of the visit of that state |
| CoordinatorTheorems.PlansSuffice | src/revanent/orchestration/service.py:688-690 | with one plan more than repairs, "no validation plan remains" is unreachable |
| CoordinatorTheorems.ReviewFindsValidation | src/revanent/orchestration/service.py:832-836 | "review lacks passing validation evidence" is unreachable on the current version; the latest validation is the one of the revision before |
| CoordinatorTheorems.NumbersFit | src/revanent/ports/orchestration.py:218-218 | an admitted attempt has a number a record can hold, except the validation after the hundredth repair |
| CoordinatorLongest.NumberBeyondReached | src/revanent/ports/orchestration.py:218-218 | a reachable run with 100 repairs in which a worker comes to validation 101 of the current version |
| CoordinatorTheorems.BudgetsAreConserved | src/revanent/orchestration/service.py:1390-1420 | in every reachable state the ledger of the run is well-formed, and spent plus promised stays within the attempt limits and the duration limit, unless a duration overage is on record; remote tokens are never reserved and not covered |
| CoordinatorTheorems.LatchOverRuns | src/revanent/orchestration/service.py:1504-1547 | once capacity is unresolved or overrun, no later step of any worker is granted another reservation on that metric |
| CoordinatorTheorems.GateRulingsAreSound | src/revanent/orchestration/service.py:1176-1204 | the rulings the coordinator journals are those of the review gate: approval needs a completed reviewer, approvable validation and reconciled side effects |
| CoordinatorGrants.AdmittedIsFunded | src/revanent/orchestration/service.py:1056-1081 | on the current version the budget of a build, a review or a repair that the counters admit is granted unless capacity is unresolved; it is never denied for exhaustion, and always denied under a remote token or cost ceiling |
| CoordinatorGrants.AttemptsAreUnits | src/revanent/orchestration/service.py:1370-1420 | in every reachable state each attempt reservation is one unit of the metric of its step, and no more attempts are spent or promised than were reserved |
| CoordinatorGrants.LimitsArePositive | src/revanent/orchestration/service.py:1304-1350 | the budget policy of a valid run has limits of at least one only, and none for repairs if no repair is allowed |
| CoordinatorSteps.StepKeeps | src/revanent/orchestration/service.py:164-389 | every step of every worker keeps the invariant, for itself and for all other workers |
| CoordinatorWrites.AppendKeeps | src/revanent/storage/sqlite.py:816-880 | journaling a record that the protocol may write keeps the shared invariant |
| CoordinatorWrites.AdvanceKeeps | src/revanent/storage/sqlite.py:1336-1430 | a persisted transition keeps the shared invariant |
| CoordinatorSteps.RequestsAreJustified | src/revanent/orchestration/service.py:1789-1828 | every transition asked of the current version is acceptable and rests on journal evidence |
| CoordinatorExecution.StepIsCloser | src/revanent/orchestration/service.py:202-295 | every step of a call brings it closer to its return, whatever other workers did |
| CoordinatorExecution.CallsProgress | src/revanent/orchestration/service.py:781-781 | a call that is not done has a step to take, if and only if it does not hold a validation outcome without a result |
| CoordinatorExecution.Service.Call | src/revanent/orchestration/service.py:164-295 | a call returns under any interference and leaves a reachable state; it fails only where it could not take the step that came next, and if the environment always offers one there is, only on a validation outcome without a result |
| Status.StatusAgrees | src/revanent/application/workflows.py:762-834 | on what the coordinator left behind only terminal_incomplete_attempt and review_correlation_mismatch can be reported, and for an APPROVED run nothing |
| Status.PendingIsIncomplete | src/revanent/application/workflows.py:426-454 | the pending set is exactly the intents with neither outcome nor reconciliation, and empty for an APPROVED run |
| Status.Project | src/revanent/application/workflows.py:426-454 | the fold computes the open attempts, the latest outcome per step, the validation count and the ambiguity flag |
| Status.Contradictions | src/revanent/application/workflows.py:762-834 | a code is reported exactly when its contradiction is present |
| Domain.TransitionAcceptedExactly | src/revanent/domain/state_machine.py:56-112 | a transition is accepted exactly when destination, counter, limit, gate and time allow it, and the successor is valid |
| Domain.PermittedExactly | src/revanent/domain/state_machine.py:22-54 | the table is the workflow order, the way through repairs, and the ends that each state permits |
| Telemetry.ConservedOverRuns | src/revanent/telemetry/service.py:153-202 | over any sequence of writes, spent plus promised stays within each limit but that on remote tokens, or a duration overage is on record |
| Telemetry.LatchIsForever | src/revanent/telemetry/service.py:64-124 | after an unresolved reservation or an overage no reservation on that metric is ever granted again |
| Telemetry.PreflightMatchesStore | src/revanent/storage/sqlite.py:969-1160 | on ledgers the coordinator can produce, the preflight decision and the atomic reserve agree, remaining capacity included |
| Telemetry.PreflightAgreesExactly | src/revanent/telemetry/service.py:64-124 | on any ledger, when exactly the preflight verdict and that of the atomic reserve agree, and that otherwise the preflight verdict is the stricter |
| Telemetry.PreflightStricterOnLocalUsage | src/revanent/telemetry/service.py:313-325 | an example ledger on which the two verdicts differ |
| Telemetry.PreflightMetricsAreThePreimage | src/revanent/telemetry/service.py:313-325 | the summed usage metrics are exactly those the preflight map sends to the budget metric |
| Telemetry.BudgetLedger.ReserveBudget | src/revanent/storage/sqlite.py:969-1160 | decision and insertion are one write; a new reservation is inserted and allowed if and only if the version is current and the metric has no limit, or no latch and enough left |
| Telemetry.BudgetLedger.SettleWith | src/revanent/storage/sqlite.py:1200-1300 | only an active reservation is settled, once and by its own kind of settlement, a latch never opens, and what was not charged before is charged exactly what is due |
| Telemetry.SettlementCharges | src/revanent/orchestration/service.py:1443-1479 | a validation is charged the time it took, flagged if and only if that exceeds its reservation; an agent attempt is charged as one, plus the reported tokens; the reservation is released, or stays taken if it is only marked |
| DurationBudget.ElapsedIsCeiling | src/revanent/orchestration/service.py:1990-1996 | elapsed time is the least whole number of milliseconds covering the interval, and is subadditive |
| DurationBudget.CapValidationPlan | src/revanent/orchestration/service.py:1999-2018 | nothing is returned exactly when fewer whole seconds than commands are available; otherwise the timeouts sum to the smaller of allowance and declared total, cut from the back |
| DurationBudget.CapIsUnique | src/revanent/orchestration/service.py:1999-2018 | the greedy cap is the only plan meeting its specification |
| DurationBudget.AllowanceIsTheMost | src/revanent/orchestration/service.py:1495-1502 | an amount is within the allowance if and only if it ends before the maximum duration of the run and the ledger has it left |
| DurationBudget.CappedReservationIsGranted | src/revanent/orchestration/service.py:1495-1502 | the reservation for a capped plan is granted on the ledger the allowance was computed from |
| CoordinatorFunding.CappedFundingIsGranted | src/revanent/orchestration/service.py:702-760 | in every run in which no other worker steps in between, the reservation for the plan that was capped to the allowance of this pass is granted |
| Validation.ApprovableExactly | src/revanent/ports/validation.py:442-498 | an aggregate is approvable exactly when every command passed or is an accepted advisory failure |
| Validation.AggregateIsValid | src/revanent/validation/runner.py:283-341 | every aggregate meets the conditions of the plan-result model |
| Validation.AggregateResults | src/revanent/validation/runner.py:255-281 | the aggregator with its correlation loop accepts exactly the correlated, ordered evidence and computes the aggregate |
| Validation.AggregateIsExact | src/revanent/validation/runner.py:283-341 | every field of an aggregate told from its commands: times, counts, verdicts, and a status that is the worst of them unless all pass or are accepted advisory failures |
| Validation.ProjectionCommutes | src/revanent/orchestration/service.py:2039-2050 | aggregating stripped evidence is stripping the aggregate |
| Validation.ReplayIsStable | src/revanent/review/gates.py:195-203 | the journaled result aggregates to itself again |
| ValidationRunner.RunnerSatisfiesAggregator | src/revanent/validation/runner.py:45-134 | whatever the commands, the cancellation and the clock do, the runner's evidence is accepted by the strict aggregator |
| ValidationRunner.NormalizeValidExactly | src/revanent/validation/runner.py:344-439 | normalization yields valid evidence exactly when the command result is representable |
| ValidationRunner.RelativeIdentityRaises | src/revanent/ports/validation.py:341-400 | a policy-rejected result that reports a relative resolved executable is not representable |
| ValidationRunner.Execute | src/revanent/validation/runner.py:45-134 | the run reports each command as RunReports says, and its aggregate; with a workspace root that can be resolved, it raises exactly when it comes to an answer that is not representable |
| ValidationRunner.PreflightReports | src/revanent/validation/runner.py:57-82 | a plan whose preflight fails is invalid at its first command and runs none |
| ValidationRunner.RunReports | src/revanent/validation/runner.py:344-500 | a command was not run if and only if the run had ended before it; otherwise its evidence says how the command ended, repeats its answer, and is invalid if that does not meet the conditions of the plan |
| ReviewGate.Evaluate | src/revanent/review/gates.py:178-313 | the gate reports exactly the failing reasons in canonical order, with a valid decision; it raises only beyond 999 findings |
| ReviewGate.ApprovesExactly | src/revanent/review/gates.py:178-313 | a decision approves exactly when no reason applies |
| ReviewGate.ApprovalGuarantees | src/revanent/review/gates.py:178-313 | the exact conditions of an approval on validation, review and local facts, and that the gate carries that very review |
| ReviewGate.DecisionIsUnique | src/revanent/review/gates.py:178-313 | two evaluations of one input agree |
| ReviewGate.ReplayNeverFires | src/revanent/review/gates.py:195-203 | the replay check never rejects evidence journaled by the coordinator |
| ReviewGate.RefusalIsFailClosed | src/revanent/review/gates.py:355-389 | a reviewer that did not complete never leads to a change request |
| ReviewGate.StatusIsExact | src/revanent/review/gates.py:355-389 | for every response: unreliable evidence is invalid, a stopped reviewer or validation blocks, and changes are required exactly of a completed review of reliable evidence against which something speaks |
| ReviewGate.PlainReasonsAreExact | src/revanent/review/gates.py:215-291 | each local fact and each plain defect of the review is named exactly when it holds |
| ReviewGate.FindingsAreExact | src/revanent/review/gates.py:293-313 | the findings are those of the completed review, and all of them are relevant if the verdict does not approve, otherwise the high and critical ones |
| ReviewGate.FindingsAreRanked | src/revanent/review/gates.py:326-352 | findings stand from critical to low, ties by summary |
| ReviewGate.SortFindingsCorrect | src/revanent/review/gates.py:326-352 | findings are presented most severe first and none is lost |
| RepairPolicy.DecisionIsExact | src/revanent/orchestration/repair_policy.py:16-77 | each of the four strategies is chosen exactly under its stated condition |
| RepairPolicy.ReasonsAreExact | src/revanent/orchestration/repair_policy.py:16-77 | each reason is given exactly when it decided |
| Discovery.Expand | src/revanent/context/discovery.py:318-370 | the discovered files are distinct, new, at their shortest import distance and nearest first; without reaching the cap they are all files within the depth, with it no omitted one is closer |
| Selection.Select | src/revanent/context/selection.py:107-342 | every entry is included or excluded exactly once, in the written-out order, and none that was left out was displaced by a later one; nothing required is excluded, counts, bytes, artifact bytes and baseline stay within their limits, and each failure is returned exactly under its condition |
| Selection.Prepare | src/revanent/context/selection.py:193-237 | the first pass fails exactly when a required entry cannot be kept |
| Selection.Choose | src/revanent/context/selection.py:239-278 | the second pass fails exactly when a required entry is crowded out, and drops an item only for lack of room |
| Selection.RequiredContentIsPresent | src/revanent/context/selection.py:246-263 | a required item carries its content itself or names an earlier selected item that carries the same content |
| Selection.CompleteContentIsWhole | src/revanent/context/selection.py:600-615 | a required item that must be complete is delivered whole, by itself or by the item it names |
| Selection.ReferencesResolveExactly | src/revanent/context/selection.py:243-274 | a reference names the first item of its content, and that is selected if and only if there was room for it when it was looked at |
| Selection.ReferenceToDropped | src/revanent/context/selection.py:260-274 | a selection of two preferred duplicates that returns a reference to a dropped item |
| Selection.ManifestIsCanonical | src/revanent/ports/context.py:447-481 | the manifest built from a selection meets the counting, byte, sequence, limit and ratio conditions, and is canonical exactly when the ids of the included entries are distinct |
| Selection.AgentRequestFits | src/revanent/ports/context.py:509-541 | the agent request made from it stays within 64 references and one mebibyte |
| Truncation.TruncateUtf8 | src/revanent/context/selection.py:697-709 | the result is the longest fitting prefix, the marker and the longest fitting suffix; at most three bytes are lost at each cut and the trimming loop never runs |
| Truncation.BoundedText | src/revanent/commands/local.py:487-491 | output text is cut to the longest character prefix within the limit |
| Truncation.BoundedUtf8 | src/revanent/commands/local.py:494-503 | artifact data is valid UTF-8 within the limit, and shorter than its source exactly when that did not fit |
| Truncation.StreamCollector.Add | src/revanent/commands/local.py:43-50 | however the stream is chunked, both buffers hold its first bytes |
| Truncation.FinalizeStream | src/revanent/commands/local.py:424-484 | the text is the redacted stream or its longest fitting prefix, the artifact holds all that fits, and counters and completeness flags say exactly what is missing |
| Utf8.ByteClasses | src/revanent/context/selection.py:703-704 | every byte is a continuation, announces the length of its sequence, or occurs in no encoding (section 3 of RFC 3629) |
| Utf8.CutKeepsPrefix | src/revanent/context/selection.py:703-703 | decoding a cut encoding gives the longest prefix that fits |
| Utf8.CutKeepsSuffix | src/revanent/context/selection.py:704-704 | decoding the end of an encoding gives the longest suffix that fits |
| Porcelain.ParseWorktreePorcelain | src/revanent/git/parsing.py:129-169 | parsing succeeds exactly on output that denotes worktrees with distinct paths, and returns those sorted by path; repeated fields, fields outside an entry and unterminated text are always rejected |
| Porcelain.RoundTrip | src/revanent/git/parsing.py:129-203 | rendered well-formed worktrees denote exactly themselves, whatever their paths and reasons contain |
| Porcelain.ReadBack | src/revanent/git/parsing.py:129-203 | parsing what was rendered succeeds and gives the same worktrees, sorted by path |
| Porcelain.MeaningIgnoresOrder | src/revanent/git/parsing.py:172-203 | entries with the same distinct fields in another order mean the same worktree |
| Porcelain.LockedWithoutReason | src/revanent/git/parsing.py:154-160 | a worktree locked without a reason is read as locked, with a text that says so |
| Porcelain.PrunableWithoutReason | src/revanent/git/parsing.py:158-159 | likewise for a prunable worktree |
| Porcelain.RecordsExactly | src/revanent/git/parsing.py:20-25 | reading records is the exact inverse of writing them |
| Worktree.LifecycleIsSafe | src/revanent/git/local.py:280-344 | over any interleaving with crashes, `git worktree add` is issued at most once, the lease has one holder, and the record follows one of five histories |
| Worktree.RecordsOnlyAdvance | src/revanent/git/local.py:350-407 | a record never disappears, PARTIAL and REMOVED stay, and after a successful create only removal can follow |
| Worktree.OrphanedLeaseFailsClosed | src/revanent/git/ownership.py:85-106 | a lease whose holder was lost is never acquired again and freezes the record |
| Worktree.Ownership.CreateWorktree | src/revanent/git/local.py:280-344 | for all answers of the environment the outcome, the record and its history, and how often a worktree was added; the lease is always released |
| Worktree.MachineCreates | src/revanent/git/local.py:280-344 | an undisturbed create call is a run of the protocol with the same effect, success included |
| Worktree.LeaseCanBeOrphaned | src/revanent/git/ownership.py:85-106 | a create call that is lost after its first record leaves an orphaned lease |
| Worktree.Ownership.CleanupWorktree | src/revanent/git/local.py:350-407 | only a verified active worktree is removed |
| Worktree.Ownership.Write | src/revanent/git/ownership.py:178-216 | a record is replaced only if its existence is as expected |

## Left out

- SQLite: transactions, schema and corruption checks; the store is its contract of compare-and-set on the whole stored run, records created once, one event and revision per transition, atomic reservation and final settlement.
- Read-then-write windows: a worker decides on what it reads in one step and persists in another, but the reads of one decision are taken together. On the current version nothing they read can change in between except the ledger, and no decision on the ledger alone is durable on a version where it is unfounded.
- CoordinatorOutcomes.LoopDecides: what a worker may ask for at the head of the loop; a worker may also go on where the wall clock, a denied duration or a cancellation would stop it, and the results about all runs cover these runs too.
- Telemetry reconciliation: the prelude of `execute` settles any active reservation in any of the three ways, with arbitrary tokens and elapsed time; the matching of reservations to outcomes and the context usage records are not part of the coordinator model.
- ValidationRunner.Execute: the workspace root is resolved before the answer of a command is asked for; that this can fail and raise is not modelled.
- The start of `execute` on a run that has already ended: it still reconciles telemetry, here it returns at once.
- CoordinatorExecution.Service.Call: the finitely many settlements of that prelude are not counted as steps of the call.
- The status reader is given one consistent snapshot of run, events and journal; the source reads them one after the other.
- A journal of more than 1024 records: the source cannot number the next one and raises; the model goes on, so that the bound on its length says when this cannot happen.
- Status.Contradictions: identities inside a review outcome are equal by construction, so only a missing decision can mismatch; the summaries shown to a user are not modelled.
- Attempt ids, invocation ids, record ids and digests are taken as injective: plain tuples of step and number stand for them.
- The in-memory context cache: restoring context succeeds or the run is blocked.
- Currency budgets: the coordinator denies them before launch, which is modelled; their decimal ledger is not.
- Prompt building, provider adapters, claims in agent payloads and version detection: an agent call returns an arbitrary well-typed answer.
- Defect fingerprints and the other facts behind a repair decision are arbitrary inputs of the policy.
- Process launching, threads, termination signals, file-system and symlink checks: answers of the environment. Discovery assumes that files do not change while it reads them.
- Redaction, secret paths, scope patterns, file reading and retries: what they make of a context entry is part of the input of the selection, as is the merging of equal evidence before it.
- Diagnostic notices appended to captured command output are not part of its text here.
- Parsing of `git status --porcelain=v2` and of single Git answers: only easy members would be added.
- Length limits and patterns of text fields, apart from the numeric bounds used in the proofs.
- Command line, doctor, configuration, reports and live certification: presentation and thin I/O.
