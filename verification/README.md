# Orqalis: verified model

Orqalis runs software tasks durably: an Orchestrator moves a run through its lifecycle under approval gates, agents
and external workers report into it, a delivery driver commits the result, a context builder packs what agents may
read, and a browser follows the event stream.  This project models those five parts in Dafny and proves what they
promise over every input, every run and every interleaving.

## The parts

- **Run lifecycle** (`RunStates`, `RunStore`, `UnitsOfWork`, `Orchestration`, `RunFrames`, `RunHistory`, `RunSteps`,
  `RunSafety`, `RunTheorems`, `RunStages`, `RunRecords`, `RunGates`, `RunWork`, `RunAnswers`, `RunReplays`,
  `RunExamples`).  `RunStore` holds the records of one run and each transaction as a function on them.  `UnitsOfWork`
  and `Orchestration` are the same operations as classes that stage writes, commit in the middle where the source does,
  and loop over attempts and tasks; each is proved against its function.  `RunHistory` lets any sequence of commands act
  on a new run.  About those functions and runs: `RunSafety` and `RunTheorems` prove suspension and resume, the phase
  ledger, quiet ends and approval of exactly what is executed; `RunStages` that no stage is skipped; `RunGates` what
  every state, an installation and a decision demand, in both directions; `RunWork` and `RunRecords` what becomes of
  tasks and attempts; `RunAnswers` what the other commands leave; `RunReplays` that duplicate delivery equals single
  delivery, and when a repeated command is answered with success.  `RunExamples` follows one concrete run into the
  states in which the code falls short.
- **Two-transaction protocols** (`ProviderInvocations`, `GoalValidation`).  Provider calls and criterion validation as
  steps over a shared store, with other callers, takeovers, cancellations and crashes interleaved at will; and what each
  transaction answers in every state such a run reaches.
- **Delivery** (`Delivery`, `DeliverySafety`, `DeliveryApproval`, `DeliveryCalls`, `DeliveryCompletion`,
  `DeliveryExample`).  `Delivery` is `finalize` as the sequence of its transactions, interrupted and repeated, beside
  everything else that may happen to the run.  `DeliverySafety` and `DeliveryApproval` say what never happens,
  `DeliveryCompletion` that a call on an accepted run delivers it.  `DeliveryCalls` proves that a call ends, and its loops
  over attempts, tasks and report paths.
- **Plan graphs** (`Plans`, `PlanGraphs`, `PlanIdentity`, with `Texts`).  The preparatory graft, the delivery plan, the
  draft replacement, and the canonical identity behind approval digests.
- **Context packs** (`ContextDistances`, `ContextCentrality`, `ContextSelection`, `ContextPack`).  Breadth-first search,
  power iteration over the reals, greedy selection, trimming and the self-describing size.
- **Event stream** (`EventStream`, `EventReplication`) and **version order** (`VersionOrder`).

## Assumptions

- A unit of work is an atomic transaction and transactions on one run are serializable.  Between two transactions
  anything else may happen.
- Event keys are structured values, so the keys of different commands never coincide.
- Identifiers of version 5 (section 5.5 of RFC 9562) and SHA-256 digests are injective, and JSON texts of different
  values differ; a digest is therefore represented by what it digests.  Random identifiers are new.
- Clocks, provider answers, evaluators, Git, the file system and the operator are inputs of the commands.
- `RunHistory` represents services it does not model as commands that may do at least what they do in the source.
- Attempts of delivery tasks are moved only by `finalize`, recovery and the end of the run.
- Ranks and scores are real numbers.  Sequence numbers stay below JavaScript's largest safe integer.

## Where the code does not do what it is meant to

- **Deletions after acceptance.**  `_check_report` compares `dict.get(path)` of two reports in which a deleted file has no
  digest, so a deleted path and an untouched one look alike.  `Delivery.DeletionUnnoticed` is a concrete case.
  `Delivery.AgreementMeansSameContent` gives the exact condition: two reports that pass describe the same content if
  and only if neither deletes a path the other does not delete.
- **Refusing a pack that could still be cut.**  The trimming loop of `_fit` measures the text with the old number in the
  size field.  It gives up with items left exactly when the first text that cutting brings within the budget would leave
  it again with a size field as long as the budget (`ContextPack.StopsTooEarly`, shown equivalent by
  `ContextPack.GapExactly` and `ContextPack.Fit`), which a size field of full length rules out
  (`ContextPack.NoGapAtFullLength`).  `ContextPack.RefusedWithItemsLeft` is a refused pack that fits without its item.
- **Negative search limits** still record the seeds; `ContextDistances.Distances` states the bound as the larger of the
  limit and zero.
- **Resuming into INTEGRATING or TESTING** does not check the plan against a goal revised during the suspension;
  `RunExamples.OutdatedPlanResumes` is a run that does it.  `RunTheorems.PlanCurrentUnlessReplaced` says over every run
  when the plan is the plan of the current goal: if and only if the goal was not replaced since EXECUTING was last
  entered.  `RunTheorems.ApprovedBeforeExecuting` therefore speaks of the current goal only for EXECUTING, while
  `RunTheorems.BuildsWhatWasApproved` keeps the approval of the plan for all three states.
- **A repeated report** changes nothing, but outside an execution state it is answered with a conflict, because the run
  state is checked before the receipt of the transition: `RunReplays.ReportOnce` has the exact condition and
  `RunExamples.RepeatedReportRefused` a run.
- **A repeated resume** changes nothing, but is refused when the run has been suspended again somewhere else:
  `RunReplays.ResumeAnswered` has the exact condition.
- **A repeated state key in delivery** (`delivery:state:…`) answers with the run as it is, even if the run has left that
  state since, so that a step may act in the state of a later one.  `DeliveryCompletion.ActsOutsideExactly` says when and
  `DeliveryExample.ActsOutside` is a delivery in which it happens.

## Model

| member | source | states |
|---|---|---|
| RunTheorems.ResumeTargetExactly | src/orqalis/core/orchestrator.py:191-205 | in every state any sequence of commands reaches, a resume target is set exactly while the run is PAUSED, BLOCKED or HUMAN_REVIEW_REQUIRED, and is neither a suspension nor an end |
| RunTheorems.ResumesWhereItLeft | src/orqalis/core/orchestrator.py:191-195 | after any chain of suspensions the resume target is the state the run was in before the first of them, or PLANNED if it was replanned for a new goal in between |
| RunTheorems.ResumeReturns | src/orqalis/core/orchestrator.py:425-434 | an accepted resume under a new key ends the suspension in exactly that state |
| RunTheorems.OnePhaseOpen | src/orqalis/core/orchestrator.py:177-253 | after an admitted transition into a living state exactly one phase is open, the newest, under the run's phase name; after one into an end no phase is open, no attempt active, no task of the plan pending or ready |
| RunSafety.UpdatePhaseLedger | src/orqalis/core/phases.py:20-78 | update_phase keeps neighbours distinct, everything but the newest record closed, and the i-th record of a name numbered i |
| RunAnswers.UpdatePhaseExactly | src/orqalis/core/phases.py:20-78 | the newest phase closes as SUCCEEDED when another begins and as what the run ends as; a phase that goes on only changes its status; all older records stay |
| RunAnswers.FirstPhaseExactly | src/orqalis/core/phases.py:52-68 | the first record of a run that is not over opens its phase with iteration 1 |
| RunAnswers.TransitionShows | src/orqalis/core/orchestrator.py:188-206 | an accepted transition sets state, resume point, start and end of the run as it should and nothing else of it |
| RunAnswers.TransitionShowsActor | src/orqalis/core/orchestrator.py:215-232 | an accepted transition shows the Orchestrator cancelled, failed, complete, waiting, blocked or working as its target says |
| RunAnswers.TransitionShowsPhase | src/orqalis/core/orchestrator.py:196-206 | an accepted transition shows the phase of its target, which a suspension or a failure keeps |
| RunAnswers.CheckpointShows | src/orqalis/core/approvals.py:48-73 | an open question shows the Orchestrator waiting and a rejection blocked, unless it is done |
| RunAnswers.CreateEventsExactly | src/orqalis/core/orchestrator.py:110-147 | an installation logs each planned task that was not on record as preparatory work |
| RunTheorems.EndedForGood | src/orqalis/core/orchestrator.py:177-183 | once a run has ended, its state, phases, tasks and attempts stay as they are whatever commands follow |
| RunFrames.CancelPendingSettles | src/orqalis/core/orchestrator.py:329-355 | after cancelling, no task of the current plan is pending or ready |
| RunFrames.CancelPendingOnlyWork | src/orqalis/core/orchestrator.py:329-355 | cancelling leaves no attempt active and touches nothing but task progress, attempts, the Orchestrator's actor and the log |
| RunWork.EndCancelsExactly | src/orqalis/core/orchestrator.py:329-355 | an accepted transition into an end cancels exactly the tasks with an attempt under way and the planned ones pending or ready; one into a living state touches no work |
| RunWork.RefreshReadiesExactly | src/orqalis/core/task_runtime.py:72-88 | a record becomes READY if and only if it is PENDING, in the current plan, and everything the plan makes it wait for has SUCCEEDED; every other record stays |
| RunWork.InstalledTasksStart | src/orqalis/core/orchestrator.py:45-147 | after an installation every planned task is recorded as given, except that exactly the pending ones with nothing left to wait for are READY |
| RunWork.TransitionExactly | src/orqalis/core/task_runtime.py:251-327 | an accepted task command moves its attempt and its task, tells the Orchestrator when the attempt ends, and after a success makes exactly the freed tasks READY |
| RunWork.TransitionAccepted | src/orqalis/core/task_runtime.py:240-275 | a task command under a new key is accepted if and only if its attempt is under way in a way that allows the status and the run executes work, or it cancels |
| RunWork.EndedAttemptsStay | src/orqalis/core/task_runtime.py:26-48 | an attempt that has succeeded, failed or been cancelled stays as it is whatever commands follow |
| RunWork.ReplanningRetires | src/orqalis/core/replanning.py:25-146 | after a plan has been replaced for a new goal no attempt is under way and no task of the old plan is pending or ready |
| RunRecords.AlwaysRecorded | src/orqalis/core/orchestrator.py:45-147 | in every reachable state each task has exactly one record and each stored plan passes validation |
| RunTheorems.ApprovedBeforeExecuting | src/orqalis/core/orchestrator.py:309-327 | whatever command enters EXECUTING, a run that gates plans has an earlier operator command approving exactly the plan executed: its version and its digest, for the current goal |
| RunTheorems.BuildsWhatWasApproved | src/orqalis/core/orchestrator.py:309-327 | while a run executes, integrates or tests, or is suspended from doing so, the exact current plan stands approved if plans are gated |
| RunGates.ApprovedBeforeRepair | src/orqalis/core/orchestrator.py:274-292 | whatever command enters REPAIR_PLANNING, the newest review failed for the current plan version and goal, and a run that gates REPAIR has an earlier operator command approving repair after exactly that review |
| RunGates.ApprovedBeforePlanning | src/orqalis/core/orchestrator.py:45-147 | a plan becomes the first one only if it is valid, serves the current goal (only its criteria, and every required one) and brings only unstarted work of its own, and a run that gates GOAL has an earlier operator command approving exactly that goal |
| RunGates.ApprovedBeforeDelivery | src/orqalis/core/approval_guard.py:64-84 | whatever command enters CHANGE_GUARD, the newest review passes, every required criterion passes, a policy is bound, and a run that gates DELIVERY has an earlier operator command approving the bound request for the plan reviewed last |
| RunGates.EntryPrepared | src/orqalis/core/orchestrator.py:268-327 | whatever command takes a run into a state, the run had all that state demands, and an operator had approved what it asks to approve |
| RunGates.AdvanceAccepted | src/orqalis/core/orchestrator.py:168-266 | an advance under a new key is accepted if and only if the state follows, the run has all it demands, and the approval it asks for is on record and current where that is gated |
| RunGates.AdvanceAsks | src/orqalis/core/approval_guard.py:19-61 | an advance that lacks nothing but a request for approval leaves exactly that request, durably, and is refused |
| RunGates.PlannedAsks | src/orqalis/core/orchestrator.py:252-264 | entering PLANNED asks for approval of the plan if plans are gated, and for nothing else |
| RunGates.InstallAccepted | src/orqalis/core/orchestrator.py:45-147 | an installation under a new key is accepted if and only if the preparation is done, the grafted plan is admissible, no record contradicts it, and the goal is approved where that is gated |
| RunGates.RequireApprovalExactly | src/orqalis/core/approval_guard.py:19-61 | outside the gate nothing is asked; an outdated subject is refused; a missing request is left durably; only the approved exact subject passes |
| RunGates.PrepareRequestExactly | src/orqalis/core/approvals.py:302-350 | a request is on record afterwards, once, exactly if its stage is gated and its subject current |
| RunGates.DecideExactly | src/orqalis/core/approvals.py:243-299 | a decision is recorded if and only if its request is open, unchanged and current and the operator is named, with a reason to reject; the same decision is answered again, any other refused |
| RunStages.NoStageSkipped | src/orqalis/core/state_machine.py:20-73 | whatever commands a run receives, it has been in every earlier stage when it is in a state, and has a plan from PLANNED on |
| RunStages.TransitionsExactly | src/orqalis/core/state_machine.py:20-73 | a transition is valid if and only if it stops or newly suspends a living run, resumes where it left, or goes one stage on or one of the side steps to repair and pushing |
| RunTheorems.PlanOutdatedExactly | src/orqalis/core/orchestrator.py:309-327 | while a run builds or is suspended from building, its plan stops being for the current goal if and only if the goal is replaced, which takes a suspension |
| RunTheorems.PlanCurrentUnlessReplaced | src/orqalis/core/orchestrator.py:309-327 | over every run: while it builds, or is suspended from building, its plan is for the current goal if and only if the goal was not replaced since EXECUTING was last entered |
| RunExamples.OutdatedPlanResumes | src/orqalis/core/orchestrator.py:309-312 | fourteen commands lead a new run to PAUSED, with TESTING to resume and a plan for a replaced goal; resuming it is admitted |
| RunTheorems.DecisionWasTaken | src/orqalis/core/approvals.py:243-299 | every recorded decision is one an operator took on that very request while it was open and its subject current, and reads as it was taken |
| RunTheorems.GatesAndDecisionsStay | src/orqalis/core/approvals.py:96-149 | over every run, a gate once required stays required and a decision never changes |
| RunSteps.AdvanceStep | src/orqalis/core/orchestrator.py:168-266 | a denied advance durably adds at most one pending request, its event and the actor's status; an accepted one under a new key is the guarded transition, under a used key nothing |
| RunSteps.InstallStep | src/orqalis/core/orchestrator.py:45-147 | a denied installation durably adds at most one pending request, its event and the actor's status; an accepted one stores exactly the given plan, with preparatory work grafted on, as the first and current one |
| RunSteps.RequireApprovalOnly | src/orqalis/core/approval_guard.py:19-61 | require_approval passes exactly when the gate is off or the exact subject is requested, current and approved; otherwise it leaves at most the new request |
| RunSteps.ApplyStep | src/orqalis/core/orchestrator.py:36-434 | every command keeps log, gates, decisions, plans and task contracts, and is steady, an admitted transition, or a new plan |
| RunFrames.SubjectStable | src/orqalis/core/approval_subjects.py:32-33 | the approval subject of a stored plan does not depend on the progress of its tasks |
| RunSafety.AlwaysSound | src/orqalis/core/orchestrator.py:36-434 | suspension, phase ledger, quiet end and approval hold together in every reachable state |
| RunReplays.AdvanceOnce | src/orqalis/core/orchestrator.py:172-176 | an accepted advance sent again at any later time changes nothing and succeeds; its key serves no other target |
| RunReplays.ResumeOnce | src/orqalis/core/orchestrator.py:425-434 | an accepted resume sent again at any later time changes nothing; it succeeds exactly when the run is not suspended and the key is logged as a resumption, or when it is suspended and the key leads where it would go on |
| RunReplays.ResumeAnswered | src/orqalis/core/orchestrator.py:425-434 | a resume that ended a suspension, sent again, succeeds if and only if the run is not suspended or would go on in the same state |
| RunReplays.InstallOnce | src/orqalis/core/orchestrator.py:73-78 | no installation under an accepted key changes anything later; it succeeds exactly for a plan equal to the stored one of its version |
| RunReplays.InstallKeyTaken | src/orqalis/core/orchestrator.py:73-78 | another plan of the same version under an accepted key is refused, whatever happened since |
| RunReplays.TransitionOnce | src/orqalis/core/task_runtime.py:240-262 | a task transition sent again changes nothing; it succeeds if and only if attempt and status are the same and the run is in an execution state or the status is CANCELLED |
| RunReplays.ReportOnce | src/orqalis/core/external.py:236-266 | a report sent again changes nothing; it succeeds if and only if it brings the same result and the run is in an execution state |
| RunExamples.RepeatedReportRefused | src/orqalis/core/task_runtime.py:240-262 | in a concrete run an accepted report, sent again while the run integrates, changes nothing and is refused |
| RunReplays.InterruptedReport | src/orqalis/core/external.py:236-266 | a report interrupted after its receipt and sent again ends as an uninterrupted one |
| RunReplays.FindingOnce | src/orqalis/core/external.py:279-298 | a finding sent again changes nothing and is answered with the stored finding; another finding under its key is refused |
| RunAnswers.ReceiveExactly | src/orqalis/core/external.py:219-262 | a first report is received if and only if its assigned attempt is running and completed in an executing run; receipt and artifact are all it leaves |
| RunAnswers.FindingExactly | src/orqalis/core/external.py:268-343 | a finding under a new key is stored if and only if its assigned attempt is running in an executing run and it is in scope |
| RunAnswers.ConfigureExactly | src/orqalis/core/approvals.py:96-149 | a control policy is stored once, before anything is planned or asked, and for a supervised run only |
| RunAnswers.ChosenGates | src/orqalis/core/approvals.py:96-149 | autonomy with gates is refused; a supervised run without a choice gates every stage but TASK |
| RunReplays.AcceptedOnce | src/orqalis/core/orchestrator.py:172-176 | any accepted keyed command, arriving again in any later state, leaves that state unchanged |
| RunReplays.DuplicatesDoNotMatter | src/orqalis/core/external.py:236-298 | for every trace, delivering accepted commands again at any later points yields the same store and log as delivering each once |
| UnitsOfWork.UnitOfWork.UpdatePhase | src/orqalis/core/phases.py:12-78 | the transaction stages exactly the phase records and events of its specification |
| UnitsOfWork.UnitOfWork.CancelPending | src/orqalis/core/orchestrator.py:329-355 | the loops over attempts and tasks stage exactly the specified cancellation |
| UnitsOfWork.UnitOfWork.RefreshReady | src/orqalis/core/task_runtime.py:72-88 | the loop stages what the specification says, which by RunWork.RefreshReadiesExactly readies exactly the pending tasks whose prerequisites have succeeded |
| UnitsOfWork.UnitOfWork.TransitionAttempt | src/orqalis/core/task_runtime.py:240-327 | stages the attempt, its task, the Orchestrator's status and newly ready tasks |
| UnitsOfWork.UnitOfWork.RequireApproval | src/orqalis/core/approval_guard.py:19-61 | a missing request is committed in the middle of the caller's transaction, together with what is staged; nothing else ever becomes durable here |
| UnitsOfWork.UnitOfWork.PrepareApproval | src/orqalis/core/approvals.py:302-350 | stages a validated request without committing |
| Orchestration.Orchestrator.Guard | src/orqalis/core/orchestrator.py:268-327 | the checks in source order, refusing with at most a committed request; RunGates.AdvanceAccepted and EntryPrepared say what passing means |
| Orchestration.Orchestrator.Advance | src/orqalis/core/orchestrator.py:168-266 | what is durable afterwards and what is replied are those of the specification, with nothing left staged |
| Orchestration.Orchestrator.Resume | src/orqalis/core/orchestrator.py:425-434 | the two transactions together leave and reply what the specification says |
| Orchestration.Orchestrator.InstallPlan | src/orqalis/core/orchestrator.py:45-147 | grafting, validation, replay, goal gate and writes leave and reply what the specification says |
| Orchestration.Orchestrator.Decide | src/orqalis/core/approvals.py:243-299 | errors, replays and the recorded decision are those of the specification |
| Orchestration.Orchestrator.Configure | src/orqalis/core/approvals.py:96-149 | an autonomous mode with gates is refused, a supervised one without gates takes the default set; the policy is saved at most once and only before planning |
| Orchestration.ExternalWork.Report | src/orqalis/core/external.py:219-266 | receipt and transition, each its own transaction, leave and reply what the specification says |
| Orchestration.ExternalWork.ReportFinding | src/orqalis/core/external.py:268-343 | a finding and its receipt are stored together or not at all |
| Orchestration.CanBeOrdered | src/orqalis/domain/plan.py:36-40 | removing edges into tasks that wait for nothing empties the graph exactly when it has no cycle |
| Orchestration.Validate | src/orqalis/domain/plan.py:18-41 | accepts exactly the valid plans: distinct tasks of this run, known and distinct finish-to-start edges, no cycle |
| ProviderInvocations.AtMostOnce | src/orqalis/agents/service.py:230-320 | under any interleaving of calls, deadline takeovers, cancellations, recoveries and crashes the provider starts at most once per key |
| ProviderInvocations.SettledForever | src/orqalis/agents/service.py:334-342 | a record leaves RUNNING once and never changes afterwards |
| ProviderInvocations.SucceedsOnlyWhileWorking | src/orqalis/agents/service.py:339-342 | a record becomes SUCCEEDED only in the second transaction of its owner, with run and attempt active, and holds the answer of the provider its owner started |
| ProviderInvocations.SameResult | src/orqalis/agents/service.py:234-235 | all calls of a key that return normally return the same result |
| ProviderInvocations.EachForItsRequest | src/orqalis/agents/service.py:230-233 | every call under way or returned was made for the very request that the record of its key holds |
| ProviderInvocations.RepeatedCallExactly | src/orqalis/agents/service.py:230-244 | under a taken key another request is refused and changes nothing; the same request gets the recorded result or error, is refused up to the deadline, and afterwards settles the record as interrupted |
| ProviderInvocations.NewCallExactly | src/orqalis/agents/service.py:245-270 | a call under a new key is admitted if and only if it is permitted and run, attempt and goal are current; its record holds its request, attempt and deadline |
| ProviderInvocations.CompleteExactly | src/orqalis/agents/service.py:315-353 | the second transaction settles a running record by the answer, or as cancelled once run or attempt are inactive, and replies accordingly; any other record it leaves |
| ProviderInvocations.RecoverExactly | src/orqalis/core/recovery.py:101-114 | recovery interrupts the running records of its attempt and no other |
| ProviderInvocations.AgentExecutionService.BeginInvocation | src/orqalis/agents/service.py:230-314 | the first transaction: replay, refusal, takeover after the deadline, or a new RUNNING record |
| ProviderInvocations.AgentExecutionService.FinishInvocation | src/orqalis/agents/service.py:330-390 | the second transaction settles a RUNNING record with the status its outcome calls for, and no other |
| GoalValidation.EvaluatorAtMostOnce | src/orqalis/core/goals.py:316-348 | under any interleaving the evaluator is invoked at most once for a criterion and key |
| GoalValidation.EveryAttemptCounted | src/orqalis/core/goals.py:371-394 | every criterion counts exactly its pieces of evidence, all distinct and its own; PASS rests on the newest, a passing one, and the validator when it is neither review nor manual or on the reviewer |
| GoalValidation.VerdictIsNewest | src/orqalis/core/goals.py:371-394 | in every run a criterion that is PASS or FAIL has evidence, and is PASS if and only if the newest piece passed |
| GoalValidation.ConcludeExactly | src/orqalis/core/goals.py:364-437 | the second transaction attaches the observation as newest evidence of a current criterion: PASS or FAIL as observed if it is checked by machine in a run neither cancelled nor failed, PENDING otherwise; it leaves an outdated goal alone |
| GoalValidation.ReturnsWhatIsRecorded | src/orqalis/core/goals.py:318-320 | a call that returns normally returns what its evidence says |
| GoalValidation.ObservedWasAnswered | src/orqalis/core/goals.py:349-363 | what is recorded is what the evaluator answered, and a failed evaluation has not passed |
| GoalValidation.ValidateExactly | src/orqalis/core/goals.py:304-348 | a validation is answered with its evidence, or admitted if and only if the criterion is current, it has not been started and the attempt, if any, is running, or refused |
| GoalValidation.ReviseAccepted | src/orqalis/core/goals.py:181-292 | a goal is set or revised if and only if the caller saw the current version, the state allows it and delivery has not begun |
| GoalValidation.ReviseExactly | src/orqalis/core/goals.py:181-292 | a revision leaves the next version with fresh criteria, and the old ones as they were |
| GoalValidation.ReviewExactly | src/orqalis/execution/review.py:111-203 | the reviewer passes review criteria of the current goal only, fails any, each once per review |
| GoalValidation.EvidenceOnlyOnCurrentGoal | src/orqalis/core/goals.py:364-370 | evidence is attached only while its goal version is current, and never detached |
| GoalValidation.RevisionsDoNotCollide | src/orqalis/core/goals.py:268-273 | two revisions based on the same version cannot both succeed |
| GoalValidation.GoalService.BeginValidation | src/orqalis/core/goals.py:304-348 | replay, refusal, or the criterion marked as under test with a start event |
| GoalValidation.GoalService.RecordEvidence | src/orqalis/core/goals.py:364-437 | evidence and verdict are stored together while the goal is current, otherwise nothing is |
| DeliverySafety.ActsInOrder | src/orqalis/core/delivery.py:128-137 | over any interrupted and repeated calls, interleaved with anything else, a step acts only when all earlier steps have succeeded, its own task is running, and the call carries the authorized policy |
| DeliverySafety.NoSecondAct | src/orqalis/core/delivery.py:135-136 | no step acts again once its task has succeeded |
| DeliverySafety.PolicyStays | src/orqalis/core/delivery.py:78-81 | the bound policy never changes and no call proceeds under another one |
| DeliverySafety.GitAfterFinalReport | src/orqalis/core/delivery.py:211-239 | the commit record changes only while the Git step acts, after a passing final report that the comparison finds in agreement with the accepted one and with the last validated tree, which the newest final report also passes on |
| DeliverySafety.GitAfterNewestFinal | src/orqalis/core/delivery.py:211-239 | in a run that starts without final reports the newest final report itself passes all of these checks whenever the commit record changes |
| DeliveryApproval.ActsWhenApproved | src/orqalis/core/delivery.py:82-127 | in a run that gates DELIVERY no step acts before the operator has approved a request for exactly the policy bound and carried by the call |
| DeliveryApproval.RulingWasMade | src/orqalis/core/approvals.py:243-299 | every decision on a delivery request is one the operator made, on that very request while it was open |
| DeliveryApproval.InstalledWhenBound | src/orqalis/core/plan_revision.py:55-66 | the delivery steps come into being only while the binding fits the newest review and its approved request |
| DeliveryCompletion.DeliversAccepted | src/orqalis/core/delivery.py:51-209 | a call on an undelivered run that is accepted in review, its criteria passed and its tasks finished, answered with success and agreeing evidence, ends with the run COMPLETED, all six steps SUCCEEDED, the final tree committed, pushed if the policy says so, and memory promoted |
| DeliveryExample.Delivers | src/orqalis/core/delivery.py:51-209 | such a run and such answers exist, and the call completes the run |
| DeliveryCompletion.ActsOutsideExactly | src/orqalis/core/delivery.py:139-154 | when nothing happens between reading the run and starting a step, the step acts outside its own run states if and only if the run was outside them and the key of its target had been used before |
| DeliveryCompletion.AtHomeGoesOn | src/orqalis/core/delivery.py:139-147 | in one of its own states a step goes on at once, the Git step also in PUSHING |
| DeliveryExample.ActsOutside | src/orqalis/core/delivery.py:139-154 | in a concrete interrupted delivery the first step acts again in DOCUMENTING because the repeated key moves nothing |
| DeliverySafety.FailureBlocks | src/orqalis/core/delivery.py:178-194 | a failed action blocks its attempt, its step and the run, which resumes into the state it failed in, and ends the call |
| DeliverySafety.RecoverExactly | src/orqalis/core/recovery.py:25-183 | recovery fails an attempt under way and makes its step ready again, unless a call holds the run, it has ended or awaits human review |
| DeliverySafety.BeginExactly | src/orqalis/core/delivery.py:63-87 | a call gets past its first transaction if and only if the run is at a delivery checkpoint and the policy is the bound one or, before one is bound, the newest review passes |
| DeliverySafety.ReportHoldsExactly | src/orqalis/core/delivery.py:211-229 | a report holds if and only if it passes and is of the tree reviewed last or, for the final state, of the tree validated last with every path outside the documentation as accepted |
| DeliverySafety.CommittedOnce | src/orqalis/delivery/commits.py:22-185 | whatever is interrupted and repeated, a commit record keeps its tree, its hash, and what has been done with it |
| DeliverySafety.CommitExactly | src/orqalis/delivery/commits.py:22-149 | the commit is of the finally reported tree, to be pushed if the policy says so |
| DeliverySafety.InspectExactly | src/orqalis/delivery/guardian.py:202-260 | an inspection records its report once; it passes if the inspection does and, for the final state, if it agrees with the accepted implementation |
| DeliverySafety.RecordsExactly | src/orqalis/core/delivery.py:158-176 | documentation needs an accepted implementation, a final validation is recorded and goes on only if it passes, promotion is recorded |
| DeliveryApproval.AuthorizeExactly | src/orqalis/core/delivery.py:88-106 | a call without a bound policy asks, durably, for the delivery of exactly this policy, and goes on only if that is approved or not gated |
| DeliveryApproval.DeliveryRequestExactly | src/orqalis/core/approval_subjects.py:36-70 | the request names goal, plan version, the newest review and its tree, and the policy |
| DeliverySafety.CompletesWhenDelivered | src/orqalis/delivery/gates.py:6-13 | a run completes only when all six delivery tasks have succeeded and every other task of its plan has succeeded or was skipped |
| Delivery.AgreementMeansSameContent | src/orqalis/core/delivery.py:221-226 | two reports that pass the comparison describe the same content outside the documentation path if and only if neither deletes a path that the other does not delete |
| Delivery.DeletionUnnoticed | src/orqalis/core/delivery.py:221-226 | a file the accepted implementation left alone and that is deleted afterwards passes the comparison |
| DeliverySafety.AlwaysSound | src/orqalis/core/delivery.py:63-209 | evidence of every succeeded step, order of successes and agreement of tasks with attempts hold in every reachable state |
| DeliveryCalls.ContinueAdvances | src/orqalis/core/delivery.py:128-195 | every transaction of a call brings it nearer to its end |
| DeliveryCalls.DeliveryCoordinator.EnterState | src/orqalis/core/orchestrator.py:329-355 | the loops over attempts and tasks at the end of a run cancel exactly what is active, pending or ready |
| DeliveryCalls.DeliveryCoordinator.CheckReport | src/orqalis/core/delivery.py:211-229 | passes exactly the reports the specification calls holding |
| DeliveryCalls.SameOutside | src/orqalis/core/delivery.py:221-226 | the loop over all paths of both reports finds agreement outside the documentation path exactly when there is |
| PlanGraphs.GraftValid | src/orqalis/core/orchestrator.py:49-71 | a grafted plan is valid if and only if no planned task reuses a preparatory identity |
| PlanGraphs.GraftWaitsForPreparation | src/orqalis/core/orchestrator.py:54-69 | every planned task waits, directly or not, for every preparatory task |
| PlanGraphs.GraftExactly | src/orqalis/core/orchestrator.py:54-69 | the graft adds the preparatory tasks and exactly the edges from tasks that waited for nothing to them |
| Plans.ReachesRoot | src/orqalis/core/orchestrator.py:54-56 | in a finite acyclic graph every task is a root or waits for one |
| Plans.LayersStayAcyclic | src/orqalis/core/orchestrator.py:58-69 | adding edges that descend between layers creates no cycle |
| PlanGraphs.DeliveryPlanValid | src/orqalis/core/delivery_plan.py:17-46 | the delivery plan passes validation if and only if no delivery step is in the plan yet |
| PlanGraphs.DeliveryPlanInstallable | src/orqalis/core/plan_revision.py:33-110 | the delivery plan keeps all tasks and edges and adds only unstarted tasks of the new version for which no old task waits |
| PlanGraphs.StepsWait | src/orqalis/core/delivery_plan.py:31-39 | every step waits for all steps before it and for every succeeded task |
| PlanGraphs.DeliveryPlanExactly | src/orqalis/core/delivery_plan.py:17-46 | the delivery plan adds six unstarted tasks, the chain between them and the edges from the first to every succeeded task, and nothing else |
| PlanGraphs.DraftIsomorphic | src/orqalis/core/plan_draft.py:9-41 | the draft has an edge between two copies exactly when the plan has one between the originals |
| PlanGraphs.DraftValid | src/orqalis/core/plan_draft.py:9-41 | the draft of a valid plan is valid if and only if some task is not preparatory |
| PlanGraphs.DraftCoverage | src/orqalis/core/plan_draft.py:9-41 | the draft covers exactly the criteria of the active tasks, with new identities and no progress |
| PlanGraphs.DraftExactly | src/orqalis/core/plan_draft.py:9-41 | the draft holds one copy of each active task, in order, new in identity, version and progress and otherwise as it was |
| PlanIdentity.SubjectsAgree | src/orqalis/core/planning.py:12-20 | the digests of two plans are equal if and only if run, goal, version and the multisets of task contracts and edges are |
| PlanIdentity.ProgressKeepsSubject | src/orqalis/core/approval_subjects.py:32-33 | no progress of the tasks changes the digest |
| PlanIdentity.StoreSubjectsAgree | src/orqalis/core/approval_subjects.py:32-33 | the subjects of the run store tell apart exactly the plans that the digests do |
| PlanIdentity.SortForgetsOrder | src/orqalis/core/planning.py:12-20 | sorted sequences are equal if and only if the multisets are |
| ContextDistances.Distances | src/orqalis/context/builder.py:77-89 | holds a node at d if and only if its shortest distance from the seeds is d and d is within the limit; a negative limit still records the seeds |
| ContextDistances.BuildAdjacency | src/orqalis/context/builder.py:69-74 | links two nodes exactly when some edge joins them in either direction |
| ContextCentrality.PowerConservesMass | src/orqalis/context/builder.py:51-64 | in every round of every graph the ranks are non-negative and sum to exactly 1 |
| ContextCentrality.StepConservesMass | src/orqalis/context/builder.py:53-64 | one round turns a distribution into one that leaves no node without rank |
| ContextCentrality.Centrality | src/orqalis/context/builder.py:43-66 | every score lies in (0, 1] and some node scores exactly 1; the scores are the ranks after eight rounds over their largest |
| ContextCentrality.Iterate | src/orqalis/context/builder.py:54-64 | the in-place updates compute one round of the rank equations |
| ContextCentrality.UnlinkedRank | src/orqalis/context/builder.py:53-64 | a node nobody links to holds 0.15 plus 0.85 of the dangling rank, over the number of nodes |
| ContextCentrality.SoleLinkPasses | src/orqalis/context/builder.py:53-64 | a node with one link passes 0.85 of its rank along it |
| ContextPack.FourRoundsSettle | src/orqalis/context/builder.py:427-431 | from any start below a million four rounds reach a number equal to the length of the text that contains it |
| ContextPack.StampSize | src/orqalis/context/builder.py:427-431 | the loop with its early exit ends at that number |
| ContextPack.Trim | src/orqalis/context/builder.py:390-426 | what is cut scores at most what is kept, one cut fewer would not have fitted, derived fields follow the kept items |
| ContextPack.LowestTailByScoreThenName | src/orqalis/context/builder.py:394-404 | of the tails with the lowest score the first by name is cut |
| ContextPack.RelevantFilesListed | src/orqalis/context/builder.py:413-414 | the relevant files are the files of the graph items and the paths of the memory items |
| ContextPack.DecisionsListed | src/orqalis/context/builder.py:415-417 | the decisions are the records of the memory items that are decisions |
| ContextPack.Fit | src/orqalis/context/builder.py:384-434 | a returned pack states its own length, within the budget, and holds what greedy cutting leaves of the input; it is returned if and only if that fits, and refused with items left if and only if the input stops too early |
| ContextPack.GapExactly | src/orqalis/context/builder.py:390-431 | cutting stops with items left and a text that does not fit if and only if the first text within the room is in the gap between the digits of the budget and the digits in place |
| ContextPack.NoGapAtFullLength | src/orqalis/context/builder.py:390-431 | with a size field as long as the budget a pack is refused only when nothing is left to cut |
| ContextPack.RefusedWithItemsLeft | src/orqalis/context/builder.py:390-434 | a pack that is refused with an item left although the pack without that item fits |
| ContextSelection.SelectionAccounted | src/orqalis/context/builder.py:202-212 | the selection never exceeds the budget and its size is the base plus what was taken |
| ContextSelection.SelectionTakesAllThatFits | src/orqalis/context/builder.py:202-212 | a candidate is taken if and only if it has room beside the base and what was taken before it and is no preview of a record taken in full; the flag is set if and only if the base was truncated or something was left out for room |
| ContextSelection.SortKeepsTies | src/orqalis/context/builder.py:197-197 | candidates that agree in score, kind and size keep their order |
| ContextSelection.EverythingOffered | src/orqalis/context/builder.py:177-196 | every graph item, record, preview of a record and task is offered once, memory entries with their score raised by one half |
| ContextSelection.ContentHoldsTaken | src/orqalis/context/builder.py:213-248 | the pack carries everything taken, each item in the list of its kind, and nothing else |
| ContextSelection.ListsDescend | src/orqalis/context/builder.py:197-224 | each selected list is in descending order of score |
| ContextSelection.SelectionKeepsApart | src/orqalis/context/builder.py:204-208 | no record is selected both in full and as a preview |
| ContextSelection.SelectLoop | src/orqalis/context/builder.py:198-224 | the loop over four lists takes exactly what fits at its turn, and its lists, size and flag are those of what it took |
| ContextSelection.BuildPack | src/orqalis/context/builder.py:174-248 | in a stable order by score, kind and size exactly what fits at its turn is selected and the flag says whether something was left out for room; lowest-scoring tails are cut off and not one too many; the pack is exactly as long as it says, without a record carried twice, and returned if and only if what is kept fits; bare metadata over budget is refused and nothing else is with that error |
| EventStream.MergeEvents | web/src/api.ts:65-76 | the map, sort and slice of the client compute the newest 200 unique events |
| EventStream.MergeAppends | web/src/api.ts:65-76 | merging a later batch appends it and keeps the newest 200 |
| EventStream.LastOfParts | web/src/api.ts:65-76 | the newest of the newest are the newest |
| EventStream.MergeAscends | web/src/api.ts:65-76 | whatever the lists hold, a merge is ascending, without duplicates and at most 200 long |
| EventStream.EventBuffer.Take | web/src/api.ts:19-23 | all it hands out is at or below the cursor, all it keeps above; an ascending buffer is cut in two without loss or reordering |
| EventReplication.ViewIsWindow | web/src/api.ts:92-145 | under any appends, rounds, deliveries and reconnects a connected client shows exactly the newest 200 events up to its cursor, contiguous and in order |
| EventReplication.SnapshotAdvances | web/src/api.ts:132-140 | every snapshot frame brings the cursor to its sequence, never back |
| EventReplication.HistoryIsWindow | web/src/api.ts:100-117 | the history request yields exactly the window that ends at the snapshot although the log may have grown |
| EventReplication.CaughtUp | src/orqalis/api/app.py:397-426 | once everything sent has arrived and the server has read to the end of the log, the client shows the newest events of the log and buffers none |
| EventReplication.RoundCatchesUp | src/orqalis/api/app.py:397-426 | one round is enough: an idle connection shows the newest 200 events of the log as soon as its frames have arrived |
| EventReplication.CursorNeverRefused | src/orqalis/api/app.py:403-406 | the server never refuses a cursor |
| EventReplication.UpdateSender.SendUpdate | src/orqalis/api/app.py:402-420 | one round sends the events up to the snapshot read before them, then the snapshot |
| EventReplication.RunView.OnMessage | web/src/api.ts:125-145 | the handler buffers events and shows them at the next snapshot at or above the cursor |
| VersionOrder.CompareVersions | packages/npm/lib/update.js:32-69 | defined exactly on the texts the pattern matches, with the sign of their precedence |
| VersionOrder.ParseText | packages/npm/lib/update.js:33-36 | the groups of a matching text are unique and found |
| VersionOrder.ParseSound | packages/npm/lib/update.js:33-36 | whatever parses is the text of its groups |
| VersionOrder.BelowAsymmetric | packages/npm/lib/update.js:39-68 | antisymmetric in sign |
| VersionOrder.BelowChain | packages/npm/lib/update.js:39-68 | transitive, also across ties: a strict weak order |
| VersionOrder.PrecedenceRises | packages/npm/lib/update.js:39-68 | the precedence chain of section 11 of Semantic Versioning 2.0.0 rises |
| VersionOrder.WellFormedTies | packages/npm/lib/update.js:39-68 | two well-formed versions tie only when they agree in everything but the build tag |

## Left out

- `RunTheorems.ApprovedBeforeExecuting`: does not cover the TASK gate, which `TaskRuntime.start` checks for each attempt.
- `ContextPack.FourRoundsSettle`: speaks of starts below a million; `_fit` is only called with sizes up to the largest budget, 200000.
- `ContextCentrality.Centrality`: does not model the rounding of floating-point numbers.
- `VersionOrder.CompareVersions`: does not model the rounding of version numbers above JavaScript's largest safe integer.
- `DeliverySafety.ActsInOrder`: takes each external action with its own writes as one step; the intermediate commits inside inspection, documentation, validation and commit are not steps of their own, except that a commit intent may be left without its commit.
- `UnitsOfWork.UnitOfWork.TransitionAttempt`: omits the worker's own actor record and the event of its change; the Orchestrator's actor is modelled.
- `ProviderInvocations.AgentExecutionService.BeginInvocation`: takes the checks of actor, context and skill before the replay as one flag and omits the writes to actor and skill records.
- `DeliveryCompletion.DeliversAccepted`: speaks of a call that nothing disturbs; disturbed calls are the subject of `DeliverySafety`.
- Update in place of the delivery records: `finalize` is a machine over values; only `DeliveryCalls.DeliveryCoordinator` has its loops.
- Task start (`TaskRuntime.start`): its readiness, writer and approval checks; in `RunHistory` any attempt may start in an execution state, in `Delivery` only a step whose predecessor has succeeded.
- The four plan revision services: their coverage and criteria checks and the replay of their keys; which plans they may install, when, and what they retire is modelled.
- `GoalValidation.ReviseAccepted`: takes each definition as a new one; that `define_initial` answers the identical draft again with the goal as it is, is not modelled.
- Worker actors, timing totals, timestamps of records, and the text of events.
- Redaction of diagnostics and field-level input validation beyond what the operations branch on.
- The trimming of `dirty_paths` before selection, and how graph, memory and task candidates get their scores.
- The order of `relevant_files`, which is modelled as a set.
- Whitespace beyond U+00A0 in `strip`.
- How a validation or invocation request is assembled and hashed before its first transaction.
- Expiry of run locks and file-level locking: a lock is held by at most one call and is free after a crash.
- HTTP routes other than the stream loop, the command line, hosting, packaging and the user interface.
