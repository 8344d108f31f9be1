# Durable approval and execution protocol

A Dafny 4.11 model of the backend that runs agent Tasks, pauses them for a human decision on protected tool calls, executes an approved call at most once per claim through a durable ledger, and lets an operator recover what a crash left behind. Three layers share one state, and the proofs are about every interleaving of them.

**Ledger.** One row per (Task, tool call id). `LedgerModel` holds the rows, the tables after each transaction and the repository class that writes them. `ExecutionProtocol` is the state machine of `execute()` and `recover()`: any number of actors, one transaction per step, with aborted commits, lost acknowledgements and crashes at every step. Logs of claims, calls of the tool, terminal writes and returned contents observe the machine and never influence it. `LedgerInvariant` and `LedgerSteps` prove its invariant slot by slot. `ToolOutcomes` says of every step, in the terms of the tables, what a row may tell about the tool and which cause each content and each error has; `Observations` ties the logs to the steps of a run.

**Tasks and Approvals.** `TaskModel` and `ApprovalModel` hold the objects whose transition methods overwrite fields in place, `BusinessStore` the conditional and two-row writes, `BusinessProtocol` the machine of creators, continuations, deciders and operators, `BusinessInvariant` its invariant. `Deployment` joins both machines over one database; a run is any sequence of steps of any actors.

**Agent graph.** `AgentGraph` holds the nodes and the tool loop, `GraphRuns` runs of completed nodes with their pairing and budget, `AgentRuntime` one invocation over stored checkpoints, `ModelCalls` the life of a workflow over all its invocations, `DurableRun` a workflow whose checkpoint moves while everybody else works on the tables, `Transparency` its equality with the run that never pauses, and `FinalAnswers` carries that to the result stored in the Task row.

**Services.** `ApprovedExecution`, `TaskServices` and `TaskRecovery` are the service methods as sequential code. `Site` is the database as such code meets it: between two of its own transactions the rest of the deployment may do anything. `Invocations` is the runtime as the services call it. Every service method is proved to be a lawful part of a run (so every guarantee about runs holds of it), to take exactly the steps its contract lists, to call the runtime exactly when it should, and to reply as the tables at the moment of its transaction demand. `Continuations` proves by rely and guarantee that the Task row and the stored workflow agree. `RecoveryRules` is the operator's classification as a function of what was read, `SecondAttempt` the attempt on an abandoned call, and `WindowRecovery` joins them with the recovery method and the stored checkpoints. `Timing` and `TaskExits` hold the results about clocks, `Thresholds` what the configured threshold means for recovery, `StandingClock` and `ReusedCallId` two concrete runs. `Retry` is the request loop of the LLM client.

Time is an integer number of microseconds and the clock is an arbitrary input unless a statement says otherwise. Arguments are their canonical JSON text. Tool idempotency is a fixed function of the tool name. A model, a tool and the jitter source are arbitrary functions.

Three results are about limits of the code, each with its exact condition:

- Transitions other than the recovery claim may keep `updated_at`, and an approval may be stamped as the waiting row, and that one as the generation which the pause left. Then a RUNNING generation runs again. In every run, whatever the clocks show, each RUNNING generation is left by at most one committed write and the present one by none, if and only if no approval reopened a generation in this way (`TaskExits.OneExitPerGeneration`); after one that did, two more steps leave it twice (`TaskExits.ReopenedIsLeftTwice`), and `StandingClock.GenerationLeftTwice` is such a run. A caller of `decide()` keeps clear of it by stamping an approval later than the waiting row (`TaskExits.LaterApprovalsSuffice`).
- The rate bound is about the threshold in whole microseconds, as the code uses it. From one microsecond on a row has at most 1 + (t - created) / threshold claims; a configured threshold that rounds to zero leaves 2 + (t - created) (`Timing.RecoveryRate`).
- A tool call id that the model uses again in a later round finds the ledger row of the earlier approval. `execute()` refuses it, and recovery hands the Task to a human although the row is a success; `ReusedCallId.NeedsReview` reaches such a state from empty tables. `WindowRecovery.RecoverInWindow` gives the exact condition for a dispatch, at every point of the window.

## Model

| member | source | states |
|---|---|---|
| LedgerGuarantees.AtMostOnce | backend/app/approved_execution.py:55-96 | in every reachable state the calls of the tool for one (Task, call id) are at most the claims issued on its row, at most one for a tool without recovery capability, and none without a row |
| LedgerGuarantees.ReturnsAgree | backend/app/approved_execution.py:93-134 | any two contents returned by any actors for one call are equal, and are the stored result of a SUCCEEDED row |
| LedgerGuarantees.WriteOnce | backend/app/executions/repository.py:66-94 | the ledger refines a write-once register: once a row is SUCCEEDED or FAILED neither register nor row changes in any continuation of the run |
| LedgerGuarantees.GenerationsFence | backend/app/executions/repository.py:66-94 | with no assumption on the clock, claim generations of a row strictly increase, each receives at most one terminal write, and only issued generations are settled |
| LedgerGuarantees.SupersededForever | backend/app/executions/repository.py:82-94 | a writer that holds an older generation than the last claim is refused, and changes nothing, in every later state |
| LedgerGuarantees.AuthorizedEffects | backend/app/approved_execution.py:44-71 | although check and claim are separate steps, every row and every call of the tool has a persisted APPROVED approval with the same task, call id, tool name and arguments |
| LedgerGuarantees.RejectedHasNoEffect | backend/app/approvals/repository.py:40-59 | a REJECTED approval has neither a row nor an effect |
| LedgerGuarantees.StableExternalKey | backend/app/executions/models.py:55-58 | across all recoveries two keyed calls carry the same key exactly when they are for the same row |
| LedgerGuarantees.KeyedExactly | backend/app/approved_execution.py:77-81 | the tool is told a key exactly in EXTERNAL_KEY mode |
| LedgerModel.ExecutionRepository.Claim | backend/app/executions/repository.py:46-59 | the insert by unique key decides the winner; table and reply for a refused candidate, an error before the commit, and a commit with lost acknowledgement either way, which is always reported as uncertain |
| LedgerModel.ExecutionRepository.ClaimRecovery | backend/app/executions/repository.py:66-80 | a compare-and-swap on identity, status and generation that moves the generation on by at least a microsecond, with every fault; a lost commit of a claim that may be made is always reported as uncertain |
| LedgerModel.ExecutionRepository.Finish | backend/app/executions/repository.py:82-94 | a terminal write lands only on the EXECUTING row of the given generation; an error of the database is always reported as uncertain, and a conflict exactly when the claim no longer holds the row |
| LedgerModel.CommitsTell | backend/app/executions/repository.py:21-33 | whatever was claimed, renewed or settled: a lost acknowledgement leaves the table of the acknowledged transaction or the one before it, an earlier failure always the one before it |
| TaskRecovery.ListingSuffices | backend/app/executions/repository.py:61-64 | the listed rows of a Task answer what recovery asks of the whole ledger: whether any row is live, and which row a call has |
| LedgerInvariant.WhereIdIsWhereSlot | backend/app/executions/repository.py:71-92 | the WHERE clauses name the row's identity only; in every invariant state the one row they find is that of the slot |
| LedgerSteps.NextKeeps | backend/app/approved_execution.py:55-106 | every step of every actor keeps the ledger invariant, and rows and logs only grow |
| LedgerInvariant.FinishKeeps | backend/app/executions/repository.py:82-94 | the fenced terminal write keeps the invariant of the whole table |
| LedgerInvariant.ReclaimWon | backend/app/executions/repository.py:66-80 | a granted recovery claim holds a generation that nobody held or used before |
| ToolOutcomes.FinishTells | backend/app/approved_execution.py:73-106 | the terminal write of any actor in any state: if its claim still holds the row, the row becomes SUCCEEDED with the content that the tool returned, FAILED only if the tool knew of no effect, and UNKNOWN for any other error; otherwise nothing changes; the caller gets the content only after an acknowledged write and otherwise the error that fits outcome and write |
| ToolOutcomes.RowsAreExplained | backend/app/executions/repository.py:46-94 | a row changes only by the insert of an authorized claim on an empty slot, by the renewal of an abandoned row that is still what its actor read, or by a terminal write that holds the row and tells what the tool said |
| ToolOutcomes.RowWasTold | backend/app/approved_execution.py:82-96 | for every settled row of every run there is one earlier call of the tool, by the actor that wrote the row, whose outcome the row tells |
| ToolOutcomes.PhasesAreEarned | backend/app/approved_execution.py:43-134 | the protocol by what each step needs, in the terms of the tables: no actor is authorized, claims, calls the tool, or is told a content or any one of the errors, unless the cause that the source names was the case in that step |
| Observations.RunIsLogged | backend/app/approved_execution.py:73-81 | the logs are what happened: one entry for each step that called the tool, and one for each step that claimed the row |
| Observations.EffectsAreBounded | backend/app/approved_execution.py:55-96 | in terms of the steps of a run alone: calls of the tool for one (Task, call id) are at most the steps that claimed its row, at most one for a tool without recovery capability, and none without a row |
| ApprovedExecution.ApprovedToolExecutionService.Execute | backend/app/approved_execution.py:54-71 | among arbitrary other actors: its transactions are protocol steps in the order validate, read, claim, call, finish; a returned content is that of a SUCCEEDED row under this approval |
| ApprovedExecution.ApprovedToolExecutionService.Recover | backend/app/executions/recovery.py:13-36 | the same for recovery: a cached success, or one new claim on an abandoned row of a retryable tool, then one call |
| ApprovedExecution.ApprovedToolExecutionService.Validate | backend/app/approved_execution.py:43-52 | goes on exactly when permission is given and a persisted APPROVED row covers the call, otherwise ends with the error of the protocol step |
| ApprovedExecution.ApprovedToolExecutionService.ExecuteClaimed | backend/app/approved_execution.py:73-96 | one claim, exactly one call, exactly one terminal write attempt; the row then says what the tool said: its result, a known absence of an effect, or for any other error that the outcome is unknown; and so does the reply |
| ApprovedExecution.ApprovedToolExecutionService.PersistFailure | backend/app/approved_execution.py:98-106 | FAILED or UNKNOWN under the claim's generation, and whether that write itself failed |
| ApprovedExecution.ApprovedToolExecutionService.Replay | backend/app/approved_execution.py:123-134 | a cached success for the same identity and authorization, or the reason why there is none |
| ApprovedExecution.ReplayIsBacked | backend/app/approved_execution.py:62-64 | in a reachable state a replayed content is the ledger's content for exactly this approved call |
| ApprovedExecution.FinishIsBacked | backend/app/approved_execution.py:91-96 | an acknowledged success is what any later execute() under this approval returns |
| ApprovedExecution.ClaimOutcome | backend/app/approved_execution.py:67-70 | the winner holds a claim for this call, the loser replays the winner's row or reports an error |
| TaskModel.TransitionIsSound | backend/app/tasks/models.py:58-196 | an accepted transition keeps shape and identity, never moves time back, starts from an open Task, and reaches WAITING_APPROVAL and REJECTED only from their one source; the recovery claim moves time strictly forward |
| TaskModel.LifecycleByStatus | backend/app/tasks/models.py:121-196 | the same lifecycle read from the statuses: what is accepted in each of them, which exception each refusal raises, and that each operation leads to its status, text and stamp |
| TaskModel.Task.Start | backend/app/tasks/models.py:121-127 | in place, exactly the step of the lifecycle table from PENDING, without result and error; a refusal keeps every field |
| TaskModel.Task.MarkWaitingApproval | backend/app/tasks/models.py:129-133 | in place, exactly the step of the lifecycle table from RUNNING to WAITING_APPROVAL; a refusal keeps every field |
| TaskModel.Task.ResumeApproved | backend/app/tasks/models.py:135-139 | in place, exactly the step of the lifecycle table from WAITING_APPROVAL to RUNNING; a refusal keeps every field |
| TaskModel.Task.RequireRecovery | backend/app/tasks/models.py:141-146 | in place, exactly the step of the lifecycle table from RUNNING or WAITING_APPROVAL to RECOVERY_REQUIRED; a refusal keeps every field |
| TaskModel.Task.ClaimRecovery | backend/app/tasks/models.py:148-154 | in place, exactly the step of the lifecycle table from RUNNING or RECOVERY_REQUIRED to a strictly later RUNNING generation; a refusal keeps every field |
| TaskModel.Task.MarkRejected | backend/app/tasks/models.py:156-160 | in place, exactly the step of the lifecycle table from WAITING_APPROVAL to REJECTED; a refusal keeps every field |
| TaskModel.Task.Succeed | backend/app/tasks/models.py:162-170 | in place, exactly the step of the lifecycle table from RUNNING; a refusal keeps every field, and a blank result is refused first |
| TaskModel.Task.Fail | backend/app/tasks/models.py:172-180 | in place, exactly the step of the lifecycle table from RUNNING; a refusal keeps every field, and a blank error is refused first |
| ApprovalModel.Approval.Decide | backend/app/approvals/models.py:136-160 | only a PENDING approval is decided, never before its creation; otherwise nothing changes |
| BusinessStore.Store.ReconcileIfUnchanged | backend/app/tasks/repository.py:74-97 | the row changes only if the snapshot's status and generation still hold and the commit took place; the reply tells acceptance only when it is certain |
| BusinessStore.Store.SaveFailedIfRunning | backend/app/tasks/repository.py:40-47 | the same, only for a FAILED candidate and a RUNNING owner |
| BusinessStore.Store.SavePause | backend/app/tasks/pause_persistence.py:16-45 | Approval and waiting Task are written together or not at all, with every refusal and fault |
| BusinessStore.Store.SaveDecision | backend/app/approvals/continuation_persistence.py:15-38 | APPROVED with RUNNING, or REJECTED with REJECTED, in one transaction, only from PENDING with WAITING_APPROVAL |
| BusinessStore.CommitsTell | backend/app/tasks/repository.py:74-97 | the same for the fenced write, the pause and the decision: both rows of a transaction or none, whatever the caller hears |
| BusinessInvariant.DecisionStays | backend/app/approvals/rejection_persistence.py:15-38 | the two rows of a decision keep the invariant of both tables, and both tables only move forward |
| BusinessInvariant.PauseStays | backend/app/tasks/pause_persistence.py:16-45 | the two rows of a pause keep the invariant of both tables, and both tables only move forward |
| BusinessInvariant.NextKeeps | backend/app/tasks/service.py:50-113 | every step of every actor keeps the cross-row invariant; time never moves back, terminal Tasks and decided approvals never change |
| Deployment.RunKeeps | backend/app/approved_execution.py:54-106 | every run of the joined machines keeps both invariants and only moves forward |
| Deployment.Reachable | backend/app/approved_execution.py:54-106 | every state reached from empty tables satisfies both invariants |
| TaskGuarantees.CrossRows | backend/app/tasks/pause_persistence.py:16-45 | a waiting Task has a PENDING approval; a Task is REJECTED exactly when one of its approvals is |
| TaskGuarantees.FinalityOfRows | backend/app/approvals/repository.py:40-59 | terminal Tasks and decided approvals are the same row in every later state |
| TaskGuarantees.DecidedOnce | backend/app/approvals/service.py:38-66 | at most one accepted decision per approval, at most one resume dispatched by decide(), and only after an approval |
| TaskGuarantees.ClaimFencesOwner | backend/app/tasks/repository.py:74-97 | once a recovery claim moved a Task on, no write of any kind and no pause that expects the old generation changes anything in any continuation of the run |
| TaskGuarantees.SupersededIsRefused | backend/app/tasks/repository.py:74-86 | a snapshot older than the row is refused whatever it wants to write |
| Timing.RecoveryRate | backend/app/executions/recovery.py:27-32 | with commits at non-decreasing readings, claims stamped not later than their commit and cutoffs at least the threshold before the reading of their claim, by time t a row has had at most 1 + (t - created) / threshold claims, and at most 2 + (t - created) when the threshold is zero; other actors may commit between the reading and the commit of a claim; Thresholds.Recover shows that the steps of recover() meet the hypothesis |
| Thresholds.StepIsOnTime | backend/app/executions/recovery.py:27-32 | each ledger step of a recovery: its claim is made for a cutoff that lies at least the configured threshold before its clock, and is on time when its readings were taken in order |
| Thresholds.Recover | backend/app/tasks/recovery.py:78-171 | recover() among arbitrary others: every claim of an abandoned row that it makes respects the configured threshold, so that its steps meet the hypothesis of the bound on the rate of claims |
| TaskExits.OneExitPerGeneration | backend/app/tasks/models.py:182-186 | in every run, with no assumption on any clock: every RUNNING generation was left by at most one committed write and the present one by none, if and only if no approval reopened a left generation |
| TaskExits.LaterApprovalsSuffice | backend/app/approvals/service.py:50-60 | when each approval that commits is stamped later than the waiting row, no generation is left twice |
| TaskExits.ReopenedIsLeftTwice | backend/app/tasks/resume.py:21-29 | after an approval that reopened a generation at most two more steps of another actor leave it again |
| TaskExits.NextOnce | backend/app/tasks/repository.py:74-97 | step by step: exactly the approvals that reopen a generation spoil the log of exits |
| StandingClock.GenerationLeftTwice | backend/app/tasks/models.py:182-186 | a run at one clock reading in which a RUNNING generation is left by a pause and, after approval, by a success |
| AgentGraph.RunToolNode | backend/app/workflows/agent.py:56-82 | the loop over cursor, pending request and messages: the approved call first, then the rest of the round up to an error, a request or its end |
| GraphRuns.WalkRunsFreely | backend/app/protected_execution.py:43-61 | going through a round without an approval runs only calls that are permitted, registered and free of side effects, with their answers in order; it stops before one that is permitted and registered but needs an approval, and breaks only with the error of a call that may not be run or fails |
| GraphRuns.ToolNodeRunsFreely | backend/app/workflows/agent.py:56-82 | a completed tool node: the approved call first, under the resume that matches the request, then only freely run calls; a new request is for the call at the cursor, which may not be run without an approval |
| GraphRuns.ModelNodeRaises | backend/app/workflows/agent.py:39-54 | a model node ends with an error exactly for a used-up budget, an error of the model or a blank last word, and otherwise uses one step and answers with what the model said |
| GraphRuns.AdvanceKeeps | backend/app/workflows/agent.py:18-82 | every completed node keeps the shape of the checkpoint, whatever the model, the tools and the operators answer |
| GraphRuns.WellPaired | backend/app/workflows/agent.py:43-54 | at every model call, after any pauses, no call of the appended history is unanswered |
| GraphRuns.PairedMeaning | backend/app/workflows/agent.py:56-82 | a paired history is rounds of one assistant message with calls, followed by one tool message per call, in call order, with the same ids |
| GraphRuns.BudgetAcrossPauses | backend/app/workflows/agent.py:40-54 | completed model calls of the whole run equal the stored step count and stay within the persisted budget however often it is resumed |
| ModelCalls.BudgetBoundsAllCalls | backend/app/workflows/agent.py:40-54 | over the whole life of a workflow, any number of invocations each from the checkpoint at which the one before ended, all calls of the model, those that failed included, stay within the persisted budget |
| GraphRuns.NodesDescend | backend/app/workflows/agent.py:39-92 | every completed node descends in remaining steps, then calls after the cursor, then node phase |
| AgentRuntime.LimitSuffices | backend/app/agents/runtime.py:92-106 | any invocation, fresh, resumed at the pause or resumed at the tool, executed at most 2*max_steps + 1 nodes and was not ended by the limit 2*max_steps + 4 |
| AgentRuntime.ExecutionIsBounded | backend/app/workflows/agent.py:84-92 | completed nodes and the nodes left together never exceed what the start allowed |
| AgentRuntime.AgentRuntime.Drive | backend/app/agents/runtime.py:112-120 | the nodes of this environment complete one by one, each stored; the count is that of the nodes executed, and the reply is the final answer, the request or error of the node at the stored checkpoint, or the limit that was met |
| AgentRuntime.AgentRuntime.Run | backend/app/agents/runtime.py:63-120 | a Task has at most one workflow; a new one is a whole invocation from the first checkpoint that never meets the limit, and the workflows of all other Tasks stay as they are |
| AgentRuntime.AgentRuntime.Resume | backend/app/agents/runtime.py:79-120 | goes on exactly from an authorized pause that asks for the call at the cursor under this approval, executing at least one node, under the stored budget and below the limit; otherwise refuses and stores nothing; other workflows stay as they are |
| AgentRuntime.AgentRuntime.ResumePendingTool | backend/app/agents/runtime.py:175-195 | goes on exactly from the identified checkpoint at the tool node, resumed under this approval for the call at the cursor, executing at least one node; otherwise refuses and stores nothing |
| AgentRuntime.AgentRuntime.WorkflowEvidence | backend/app/agents/runtime.py:160-164 | evidence exactly of stored workflows, of this Task and in the shape that every node keeps; its identity is the only one under which the pending tool may be resumed |
| Invocations.Invoke | backend/app/agents/runtime.py:83-120 | run, resume and resume_pending_tool as the services call them: let in exactly when the Task has no workflow, is paused for this approval, or stopped at the identified tool checkpoint; otherwise refused with nothing stored; an answer is that of the ended workflow as stored, a request that of the stored pause |
| Invocations.RequestIsForTheCall | backend/app/protected_execution.py:55-61 | once approved, the stored request authorizes exactly the call of the Task that was asked for |
| Invocations.LifeGoesOn | backend/app/agents/runtime.py:63-195 | every invocation that is let in goes on from the latest checkpoint of the life of its workflow, so that the budget over a life bounds whatever the services do |
| DurableRun.FollowKeeps | backend/app/workflows/agent.py:56-82 | however the workflow and everybody else are interleaved, the shape of the checkpoint and its agreement with the ledger are kept |
| DurableRun.HistoryAgrees | backend/app/workflows/agent.py:56-82 | every tool message that answers a protected call, in this round or an earlier one, is the content of a SUCCEEDED row whose approval is APPROVED |
| Transparency.PausesAreTransparent | backend/app/agents/runtime.py:79-120 | a run with any pauses, crashes and resumes that ends has the messages and the answer of the straight run with the answers that the ledger recorded |
| Transparency.TransparentForFunctions | backend/app/workflows/agent.py:39-82 | for any model and any tool function: the paused, crashed and recovered run ends exactly as the run that never pauses |
| Transparency.NodeKeepsProspect | backend/app/workflows/agent.py:56-82 | completing a node never changes the outcome that the checkpoint leads to |
| FinalAnswers.ResultIsTheAnswer | backend/app/tasks/service.py:109-113 | in every run in which each attempted success write of the Task carries the final answer that is stored at that moment, the result of a SUCCEEDED Task is the final answer of its workflow, and that of the straight run over the answers that the ledger recorded; Continuations shows what each service contributes to the hypothesis |
| FinalAnswers.SuccessIsWritten | backend/app/tasks/models.py:162-170 | a Task becomes SUCCEEDED only by a write that carries its result |
| FinalAnswers.ConclusionIsFinal | backend/app/tasks/recovery.py:103-112 | recovery concludes a Task only with the answer of its ended workflow |
| Continuations.AgreementKept | backend/app/tasks/service.py:109-113 | rely and guarantee: when every success that this actor tried to write, and every one of this Task that others tried to write meanwhile, carries the answer of the stored workflow, a SUCCEEDED row and its workflow go on agreeing |
| Continuations.Execute | backend/app/tasks/service.py:50-113 | execute() with the runtime it runs: every success that it tries to write carries the answer of the workflow it stored, what it returns is the stored answer or the stored request, and with others reporting no other answer the row of the new Task says what its workflow answered |
| Continuations.Decide | backend/app/approvals/service.py:38-66 | decide() with the runtime it resumes: the same guarantee for the Task of the request, whose row and workflow go on agreeing |
| Continuations.Recover | backend/app/tasks/recovery.py:78-179 | recover() with the evidence and the continuation of the runtime: whether it concludes the Task from the evidence or continues it, every success that it tries to write carries the stored final answer, and row and workflow go on agreeing |
| Continuations.AcknowledgedIsBacked | backend/app/tasks/service.py:77-113 | a continuation that returns normally: SUCCEEDED with the final answer of the ended workflow as stored, or WAITING_APPROVAL with the PENDING approval of the request at which the stored workflow pauses |
| Continuations.ResultWrite | backend/app/tasks/service.py:85-87 | from the outcome of the tool through the ledger to the Task: when a database fault kept a result from being stored, the continuation raises that persistence is uncertain and takes no further step, so that a Task whose tool took effect is not recorded as FAILED |
| RecoveryRules.WindowIsRecoverable | backend/app/tasks/recovery.py:95-162 | the decision and the claims in every state of the window: dispatch if and only if the ledger row is absent, SUCCEEDED, or an abandoned attempt of a retryable tool, under this approval; then the Task claim wins and the stored correlation passes |
| RecoveryRules.DecisionMeans | backend/app/tasks/recovery.py:85-158 | each decision that acts or waits, if and only if all that the source demands for it is the case: STILL_IN_PROGRESS for what is recent, a conclusion for an ended workflow with an answer, a dispatch for a granted request whose call may be made or repeated; the dispatch is for the request at the cursor and its row |
| RecoveryRules.RefusalMeans | backend/app/tasks/recovery.py:85-144 | no action, and the review of an orphaned pause, each if and only if the case is one of those that the source names |
| TaskRecovery.WaitsForTheRecent | backend/app/tasks/recovery.py:94-98 | with the numbers of the configuration: recovery waits if and only if a RUNNING row, or where the source looks at the rows any row of the Task, changed less than the threshold before the clock |
| WindowRecovery.RecoverInWindow | backend/app/tasks/recovery.py:78-179 | recover() itself, with nobody else at work, at every point from the committed approval to the checkpoint of the tool node: it wins its claim and goes on if and only if the ledger row allows it, through the ledger first exactly for an abandoned attempt; it hands the Task over after that exactly when the attempt raised, never when the tool serves, and otherwise continues the claimed row itself with the reply for the tables that show the claim; given permission the runtime goes on from the checkpoint of the flow |
| WindowRecovery.Undisturbed | backend/app/tasks/recovery.py:78-179 | with nobody else at work recover() decides on the tables as they are; a dispatch gives way exactly when its claim is refused or the checkpoint changed, is handed over exactly when the attempt on an abandoned call raised, and otherwise continues the claimed row; all its transactions are listed |
| RecoveryRules.ClaimsAreGranted | backend/app/tasks/recovery.py:159-162 | with nobody else at work the claim of the Task and of the abandoned row are both granted |
| SecondAttempt.AttemptAnswers | backend/app/executions/recovery.py:13-36 | with nobody else at work, an attempt on an abandoned row of a retryable tool that is permitted, registered and answers, and meets no fault, is over only when it returned the answer of the tool |
| ReusedCallId.NeedsReview | backend/app/tasks/recovery.py:145-149 | a run from empty tables to a quiet state of the window whose call id was used before: the row is a success, and recovery still asks for a human |
| TaskServices.SafeMessage | backend/app/tasks/service.py:26-34 | the stored error text is never blank, so that recording a failure cannot itself be refused for its text |
| TaskServices.TextTells | backend/app/tasks/service.py:26-34 | the three errors of a tool share one text, and exactly the errors that the table does not name show the unspecific one |
| TaskServices.TaskExecutionService.ContinueRunning | backend/app/tasks/service.py:72-113 | calls the runtime once, then exactly the lawful transactions for how the invocation ended, without naming how they are computed: a success only with the answer; one pause and at most one failure after a request; nothing after lost ownership or uncertain persistence; RECOVERY_REQUIRED and never a failure while an effect is in doubt; one failure with a text after any other error; with nobody else at work and no fault the row shows exactly that; otherwise the reply is what the tables at the moment of the first transaction demand, and the original error is raised again |
| TaskServices.RowsAfterShow | backend/app/tasks/service.py:82-113 | a continuation that nobody disturbs: SUCCEEDED with the answer, WAITING_APPROVAL with the stored request, RECOVERY_REQUIRED without a text after an unknown outcome or a blocked replay, the row as it was after lost ownership or uncertain persistence, and FAILED with a text after any other error |
| TaskServices.WriteReports | backend/app/tasks/repository.py:74-97 | each report of a fenced write by the holder of a RUNNING Task, if and only if clock, fault and the row that it meets call for it |
| TaskServices.PauseReports | backend/app/tasks/pause_persistence.py:16-45 | each report of a pause by the holder of a RUNNING Task, if and only if clock, fault and the two rows that it meets call for it |
| TaskServices.ContinuationReports | backend/app/tasks/service.py:82-113 | what a continuation reports by how the invocation ended: the error of the invocation or of its pause, which a clock behind the Task replaces exactly where that error had to be recorded; lost ownership and uncertain persistence always reach the caller |
| TaskServices.TaskExecutionService.Conclude | backend/app/tasks/service.py:109-113 | one success write, and the reply that the table it meets demands: success only for an acknowledged write of this generation, a refused write as lost ownership |
| TaskServices.TaskExecutionService.Ask | backend/app/tasks/service.py:77-107 | accepted exactly when the rows it meets accept the pause; otherwise one failure write, unless ownership was lost, and the error of the pause |
| TaskServices.TaskExecutionService.Pause | backend/app/tasks/service.py:77-81 | one transaction on the two rows, with the reply that the rows it meets demand; the expected row is kept for the handlers |
| TaskServices.TaskExecutionService.Handle | backend/app/tasks/service.py:88-107 | an unknown outcome or a blocked replay becomes RECOVERY_REQUIRED, any other error FAILED with its safe text, by one write of the generation held; the error raised is the original one |
| TaskServices.TaskExecutionService.Execute | backend/app/tasks/service.py:50-70 | an unused identity, two saves, then one continuation that runs the runtime on the input; nothing is invoked before the start is committed and acknowledged |
| TaskServices.TaskExecutionService.Resume | backend/app/tasks/resume.py:21-29 | continues exactly when the row is RUNNING at the moment it is read, from that row and through a resume of the runtime under the approval; refuses otherwise, without calling the runtime |
| TaskServices.ApprovalDecisionService.Settle | backend/app/approvals/service.py:42-60 | one transaction: the verdict on the rows that it sees, and both rows after an acceptance |
| TaskServices.DecisionReports | backend/app/approvals/service.py:42-60 | each error of decide(), and its acceptance, if and only if the rows, the clocks and the fault call for it, in the order of the source; and the two rows that an acceptance writes |
| TaskServices.ApprovalDecisionService.Decide | backend/app/approvals/service.py:38-66 | one decision step, whose verdict on the rows that it met fixes what follows: an error is reported; an acknowledged approval is dispatched once when the service has a resume, which continues exactly when the row is RUNNING at the dispatch; the reported decision is the stored one; errors of the resume reach the caller; the runtime is called by that resume alone |
| TaskRecovery.TaskRecoveryService.Assess | backend/app/tasks/recovery.py:78-158 | the decision is the classification of a Task, rows and Approval that were each read at some moment of the call, in that order, and all from one state when nobody else is at work; nothing is written |
| TaskRecovery.TaskRecoveryService.Recover | backend/app/tasks/recovery.py:66-179 | exactly the transactions of each decision; a row that changed less than the configured threshold before the clock, where the source looks at it, is reported as still in progress and nothing is written; a dispatch gives way if and only if the table that its claim met refuses it or the checkpoint changed, hands over if and only if the attempt on an abandoned call raised, and otherwise continues: at the pause from the row RUNNING at a later moment, at the tool from the claim; RECOVERED means this call committed SUCCEEDED or WAITING_APPROVAL, RECOVERY_REQUIRED means the row read or just written is RECOVERY_REQUIRED, NO_ACTION and PENDING or terminal Tasks mean no write |
| TaskRecovery.TaskRecoveryService.Required | backend/app/tasks/recovery.py:57-64 | only RUNNING and WAITING_APPROVAL Tasks are written, always to a later generation; a lost race is reported as still in progress |
| TaskRecovery.HandOverReports | backend/app/tasks/recovery.py:57-64 | each report of a hand-over if and only if its cause is the case: a fault, a row that has moved, or a write that landed, for an orphan or not; and its stamp is later than the row, so that no clock refuses it |
| TaskRecovery.TaskRecoveryService.Finish | backend/app/tasks/recovery.py:103-112 | an ended workflow's answer reaches the Task only through the fenced write |
| TaskRecovery.ConclusionReports | backend/app/tasks/recovery.py:103-112 | each report of a conclusion if and only if clock, fault and the row that it meets call for it |
| TaskRecovery.TaskRecoveryService.Redispatch | backend/app/tasks/recovery.py:159-179 | claim first; it stops there if and only if the claim is refused or the checkpoint is another one, with the report of each; otherwise the abandoned call through the ledger, a hand-over exactly when that raised, and else the continuation under the approval of the decision |
| TaskRecovery.DispatchReports | backend/app/tasks/recovery.py:159-164 | a dispatch gives way if and only if the clock is behind the Task, the database fails, the row has moved or the checkpoint is another one; and which of these it reports |
| TaskRecovery.DispatchedRows | backend/app/tasks/recovery.py:146-165 | of the calls that are dispatched exactly those with a row that is not a success are made again first |
| TaskRecovery.TaskRecoveryService.Reexecute | backend/app/tasks/recovery.py:165-171 | one recovery attempt for this approval, call and cutoff, whose steps are ledger steps only and leave the Task claim alone; with nobody else at work they are all that happens |
| TaskRecovery.DecisionFits | backend/app/tasks/recovery.py:86-97 | only open Tasks are handed over, concluded or dispatched; PENDING, terminal and missing ones are left alone |
| Retry.RequestWithRetry | backend/app/llm/client.py:116-150 | at most max_attempts requests, one delay between any two, the outcome of the last one; every request but the last one failed with a provider error that is retryable, so that any other outcome ends the loop at once, and a retryable error is raised only when the attempts are used up |
| Retry.DelaysIncrease | backend/app/llm/client.py:192-197 | with a positive base each delay exceeds the previous one, whatever the jitter source returns |
| Retry.TotalBounds | backend/app/llm/client.py:192-197 | the time slept over k retries lies between the backoff minus its base, that is base * (2^k - 1), and a tenth more |
| Retry.BackoffGrowth | backend/app/llm/client.py:192-193 | the backoff minus its base, in which the time slept is bounded, is base * (2^k - 1) |
| Retry.BackoffIsExponential | backend/app/llm/client.py:192-193 | the doubling delay is base * 2^k |
| Retry.RetryDelay | backend/app/llm/client.py:192-197 | the delay with the jitter clamped into its limits: the source's jitter where it lies within them, and the limit that it passes otherwise |

## Left out

- HTTP routes, DTOs, middleware, wiring, containers, migrations: plumbing without protocol content.
- Sessions, row locks, SQL and the checkpoint store: each transaction is one step, each completed node one checkpoint; lengths of strings and foreign keys are not modelled.
- Encoding of arguments: they are opaque texts with equality.
- Request building and response parsing of the LLM client: an attempt is a success, a provider error that is retryable or not, or another error.
- Permission scopes and agent identity: what decides a permission; the guard itself is modelled where an approved call or a call without approval is made, and for the checkpoint it is part of the `authorized` input.
- Observability, task listing, pagination, calculator, registries, configuration: easy members.
- Runtimes without a checkpointer: only the signal that leaves the tool node is modelled (`AgentGraph.ToolNode`, `durable = false`).
- Ways in which the runtime's own storage fails: they reach the services as one of the errors of the invocation.
- Unreadable checkpoints: a cursor out of range and a missing request are modelled, malformed identifiers and values of a wrong type are not.
- TaskServices.TaskExecutionService.Execute: a fresh UUID is one that nobody uses, and the upsert on a collision of UUIDs is not modelled; nor is the hook that replaces the run of the runtime.
- TaskServices.TaskExecutionService.ContinueRunning: during an invocation the approved call is an arbitrary function of the environment and the others act afterwards; DurableRun answers that call from the ledger among all others.
- TaskRecovery.TaskRecoveryService.Recover: both reads of the checkpoint are arbitrary inputs, as for checkpoints that others move; WindowRecovery.RecoverInWindow and Continuations.Recover read them from the runtime, whose store changes during a call by that call alone.
- Invocations.Invoke: whether validate() lets a resume pass is an input; in the window WindowRecovery.AuthorizedInWindow shows that the stored approval does.
- TaskModel.Task.Succeed: blank means the ASCII white space that `str.strip` removes; further Unicode white space is not modelled.
- DurableRun.FollowKeeps: approval requests carry fresh identities; a collision of UUIDs between workflows is not modelled.
- Transparency.TransparentForFunctions: the model, the side-effect-free tools and the protected tools answer as functions of their input; without that assumption PausesAreTransparent compares with the answers that the ledger recorded.
- Retry.RequestWithRetry: delays are real numbers; floating-point rounding is not modelled.
- Liveness under unfair schedules.
