# ArkFlow, verified

A Dafny model of the parts of the ark operator that decide what runs, when, and how often, with
machine-checked proofs about all of its runs.

* **Flows.** A flow is a graph of named steps with `if` conditions, bounded loops, a timeout and a
  token budget. `Dag` validates it with the three-colour search; `FlowLogic` and `ArkFlows` hold the
  step logic both drivers share (as functions on values, and as the in-place methods that refine them).
* **The controller.** `Controller` and `Reconciling` model one reconcile: initialise, collect results,
  parse outputs, evaluate loops, submit pending steps, update the phase. `ControllerRuns` interleaves
  reconciles with an environment that appends results and foreign tasks to the Redis streams and may
  refuse to enqueue a task; `ControllerSafety`, `ControllerProgress` and `ControllerTokens` prove what
  holds in every reachable state.
* **The local executor.** `LocalExecutor` and `Executing` model the in-process driver, whose steps run
  in parallel and report in any order. `LocalTermination`, `LocalExecutions` and `LocalRuns` prove that
  it halts on every flow, how often it runs a step, and exactly when it leaves a flow unfinished.
* **What it all means.** `StepMeaning` says in terms of templates, records and clocks alone what a prompt,
  a condition, a loop, a kept output and the end of a flow are. `ControllerMeaning` and `LocalMeaning` prove
  that every pass and every batch does just that, with the exact cause of every end and the exact output;
  `LocalLedger` ties the records and totals of a local run to the replies its log reports.
* **Schedule independence.** `Agreement` and `DriversAgree` prove that in a loop-free flow any two
  runs, of either driver and under any arrival order, agree on every step that is done in both, and
  on the flow output. The proof shows every reachable status to be consistent with its own template
  data, and consistent statuses to agree by induction on the rank that validation provides.
* **The task queue.** `QueueWire` models Submit, Poll, Ack and Nack over the Redis streams;
  `QueueLineage` proves, over all interleavings of any number of agents, that no task is lost or
  doubled, that its content survives retries and that it is delivered a bounded number of times.
  The two Redis commands of an Ack or Nack are separate events there. `LostTasks` puts queue and
  controller together.
* **Time windows.** `Cron` covers the catch-up scan and the decision to fire; `DailyBudget` the rolling
  24-hour budget, its wake-up time and the replica override.
* **JSON extraction.** `JsonExtract` covers finding the JSON in an agent's free-text reply.

Template evaluation, JSON validity, cron's `Next`, agents, clocks and Redis IDs are parameters; the
theorems hold for all of them. Where a theorem needs a hypothesis about them it is a named predicate in
its `requires`:

* of flows: unique step names (`UniqueNames`), templates that read only what is upstream of their step
  (`ReadsOnlyUpstream`), no loops where it says so (`LoopFree`);
* of Redis: fresh non-empty IDs (`FreshIds`), results that answer tasks already submitted (`Legal`), and
  where the queue is modelled too, results that an agent acknowledged (`AnsweredBy`);
* of clocks: they do not go back (`Monotone`);
* of agents: output that depends on step and prompt only (`Honest`, `Deterministic`), non-negative token
  counts (`CountsTokens`), every call returns (`EveryResultArrives`), retry limits that are 64-bit
  integers (`limit <= MAX_INT`);
* of the cron library: `Advances`, its answers lie in the future; `FirstAfter`, they are the instants of a
  crontab expression. `FirstAfter` is false of `@every` schedules, which the code accepts too; it is asked
  only where instants of the schedule are meant;
* of JSON: no line break followed by a fence (`JsonHasNoFence`, sections 2 and 7 of RFC 8259);
* of lower-casing: it treats ASCII and white space as Unicode does (`LowersLetters`);
* of templates, in one example: a condition on an absent input is falsy (`FalsyWithoutInput`).

The spec of a flow is fixed for a run, and status writes succeed.

Several results deserve attention because the code does less than one might expect:

* The local executor can stop with a validated flow still Running and a step still Pending: a step that
  is listed before the conditional step it depends on is not looked at again when that step is skipped
  in the same batch and nothing else is ready (`ValidatedFlowLeftRunning`).
  `RunGivesUpExactly` says for every run exactly when this happens, and `RunFinishesTheFlow` shows that
  listing conditional steps before their dependents rules it out. The comment at
  internal/ark/local/executor.go:65-66 says a stuck flow should not happen after validation; the model
  follows the code. The controller has no such case (`NoDeadlock`).
* A task that is retried or dead-lettered stalls its flow: the retry runs under an ID that the flow never
  learns, so the step stays Running and the flow never succeeds (`LostTaskStallsFlow`).
* The cron scan does not always end. `ScanEndsExactly` shows that it does if and only if the library
  finds a next instant from every time of the window, so a schedule that can never be met
  (`NeverMetNeverEnds`), or not within five years, keeps the reconcile busy for good.
* An `@every` trigger with a delay of more than a day never fires, because the scan looks back only a day
  (`EveryCanFireExactly`).
* A loop takes charges out of the daily budget: re-arming a step clears the completion time that the
  budget goes by, so replicas can return long before expiry. For example, a step that loops on the output
  of its dependent is stored as succeeded, and charged, until the dependent answers and the step is
  re-armed (`RearmEndsExcess`, `UsageHoldsExactly`).
* The daily-budget code has a one-hour fallback that can never be taken (`ExceededHasExpiry`), and the
  cron reconcile an extra comparison that its scan already implies (`DueIsAfterLastFire`).

## Model

| member | source | states |
|---|---|---|
| Dag.ValidateDAG | internal/flow/dag.go:58-100 | accepts exactly the flows whose `dependsOn` entries all name steps and whose dependencies are acyclic, equivalently rankable; acceptance yields a rank, a reported unknown name is unknown, a reported cycle is real and ends with the reported edge |
| Dag.FindUnknownDependency | internal/flow/dag.go:59-69 | no error exactly when every dependency names a step, otherwise the error names a step and a dependency of it that no step has |
| Dag.Search.Visit | internal/flow/dag.go:77-91 | the recursive visit terminates (white steps shrink), leaves the gray stack as it was with the step black, or returns a real cycle closed by the reported edge |
| Dag.SearchFrom | internal/flow/dag.go:92-99 | visiting all white steps ends with a rank or a real cycle |
| Dag.BuildAdjacency | internal/flow/dag.go:70-73 | the adjacency map, last step of a name winning |
| Dag.LeaveKeepsOrder | internal/flow/dag.go:79-90 | steps turn black once, after all their dependencies |
| Dag.GrayEdgeClosesCycle | internal/flow/dag.go:80-82 | an edge to a gray step closes a cycle through the gray stack |
| Dag.FinishedOrderRanks | internal/flow/dag.go:84-90 | the order in which steps turn black is a rank that falls along dependencies |
| Dag.RankedIsAcyclic | internal/flow/dag.go:57-58 | a ranked graph has no cycle of any length |
| Dag.ValidDagRank | internal/flow/dag.go:70-73 | with unique names the rank is one over the steps' own `dependsOn` lists |
| ArkFlows.ArkFlow.InitializeSteps | internal/flow/step.go:43-58 | a fresh flow becomes Running with one Pending record per step in spec order; any other flow is unchanged |
| ArkFlows.ArkFlow.BuildStatusByName | internal/flow/dag.go:34-40 | the name index, last record of a name winning |
| FlowLogic.LastIndexIsLast | internal/flow/dag.go:34-40 | no later record has the name that the index points from |
| ArkFlows.ArkFlow.ParseOutputJson | internal/flow/step.go:62-86 | exactly the succeeded, schema-bearing, unparsed records get the JSON found in their output, in whatever order the map is visited |
| ArkFlows.ArkFlow.BuildTemplateData | internal/flow/template.go:70-89 | one entry per name with the output and, when it parses, the JSON |
| ArkFlows.ArkFlow.EvaluateLoops | internal/flow/step.go:91-124 | the loop refines the step-by-step re-arming function, also when names repeat |
| ArkFlows.ArkFlow.SumStepTokens | internal/flow/phase.go:30-46 | returns the token sum over all steps and records the totals when there is any usage |
| ArkFlows.ArkFlow.EnforceTimeout | internal/flow/phase.go:49-62 | fails the flow exactly when its deadline has passed |
| ArkFlows.ArkFlow.UpdateFlowPhase | internal/flow/phase.go:65-108 | timeout, then budget, then failed steps, then success; nothing else changes the phase |
| FlowLogic.LoopsEvaluatedPointwise | internal/flow/step.go:96-123 | with unique names each step is re-armed on its own, exactly when a repetition is due |
| StepMeaning.UpdateDecides | internal/flow/phase.go:48-108 | one update of a started flow, told by its records and its clock: failed past start + timeoutSeconds * 10^9 ns, else over budget, else on a failed step, else succeeded when every step has succeeded or was skipped; the totals and the output it records |
| FlowLogic.PhaseMeaning | internal/flow/phase.go:65-108 | a helper that reads one update by its outcome |
| StepMeaning.PromptIsRendered | internal/flow/template.go:48-64 | a prompt is the layout of every input, resolved, and of the schema; there is none exactly when an input does not resolve |
| StepMeaning.DataIsSeen | internal/flow/template.go:70-89 | templates see the flow input and, for each step, the output and the valid JSON of its record |
| StepMeaning.LoopsMean | internal/flow/step.go:96-123 | a step is repeated exactly when it has succeeded, its loop condition is a truthy text and it was repeated fewer than maxIterations times if that is positive, otherwise fewer than 10 times |
| StepMeaning.ParsedKeepsJson | internal/flow/step.go:62-86 | a succeeded record of a step with a schema keeps what extraction finds in its output, any other record no JSON |
| StepMeaning.SumsAreTotals | internal/flow/phase.go:30-46 | the token sums are the sums of the counts of the records |
| Templates.TruthyUnderAnyLowering | internal/flow/template.go:29-33 | a text is falsy exactly when, trimmed, it is empty or spells `false`, `0` or `no` in any mix of cases; any lower-casing that treats ASCII and white space as Unicode does gives the same answer |
| Templates.TruthyIgnoresCase | internal/flow/template.go:29-33 | texts with the same lower case, in any script, are equally truthy |
| Templates.BlankIsFalsy | internal/flow/template.go:29-33 | white space is falsy |
| Templates.TrimCutsBothEnds | internal/flow/template.go:31 | trimming cuts white space from both ends, and nothing else |
| Templates.AsciiSpaces | internal/flow/template.go:31 | which ASCII characters are white space |
| JsonExtract.Extract | internal/flow/step.go:131-166 | the line scan refines the extraction function |
| JsonExtract.ExtractedIsValidPiece | internal/flow/step.go:126-166 | a non-empty result is a trimmed contiguous piece of the reply and valid JSON, so the second validity test at step.go:81 never fails |
| JsonExtract.ExtractTwice | internal/flow/step.go:131-166 | extraction is idempotent |
| JsonExtract.FencedBodyIsRecovered | internal/flow/step.go:127-163 | a JSON object or array on its own lines up to a closing fence (or the end) is returned exactly, if the reply is not JSON itself, no earlier line begins with a brace or a bracket and the body's first line does not occur earlier |
| JsonExtract.WholeJsonIsKept | internal/flow/step.go:132-139 | a reply that is JSON as a whole is kept as it is, trimmed |
| JsonExtract.ExtractionIsFirstBlock | internal/flow/step.go:142-165 | from any reply that is not JSON itself: nothing if no line begins with a brace or a bracket, otherwise the text from where the first such line first occurs up to the next fence, if that is JSON, and nothing else |
| JsonExtract.LinesAreAll | internal/flow/step.go:142 | the lines joined by line breaks are the text, and none contains a line break |
| Reconciling.Reconciler.CollectResults | internal/controller/arkflow_controller.go:193-234 | every message goes to the one record that waits for its task ID; when in-flight IDs are distinct, each in-flight record gets exactly the messages with its ID; it fails, without a change, exactly when somebody waits and the stream cannot be read |
| Reconciling.Reconciler.SubmitPendingSteps | internal/controller/arkflow_controller.go:138-190 | refines the submission round: skip, reject or launch each pending step whose dependencies are done, appending one task per launch, up to the first task that cannot be enqueued |
| Reconciling.Reconciler.Reconcile | internal/controller/arkflow_controller.go:57-135 | a reconcile that gets past its checks is one pass over the flow and the task stream, requeued exactly when the flow is left Running; a task that cannot be enqueued ends it before the phase update, unreadable results end it with nothing stored; otherwise only the condition changes |
| ControllerRuns.RunInvariant | internal/controller/arkflow_controller.go:105-134 | every reachable state has well-formed records per phase (identifiers, outputs and times), an exact submission ledger, task IDs issued for the current iteration, and no scanned result that a running step still waits for |
| ControllerRuns.InterruptedPassKeepsInv | internal/controller/arkflow_controller.go:177-181 | a pass that ends early because a task cannot be enqueued keeps the invariant, at whichever step it ends; runs contain such passes |
| ControllerRuns.InterruptedStory | internal/controller/arkflow_controller.go:177-181 | it leaves the steps before that one as the whole round would and the others as the loops did |
| ControllerRuns.SubmitFate | internal/controller/arkflow_controller.go:149-188 | what a round does to each step, its dependencies being judged when its turn comes |
| ControllerMeaning.EveryPassMeans | internal/controller/arkflow_controller.go:105-134 | what a pass does in any reachable state, told by templates, records, messages and clocks: how each step is started, collected, parsed, re-armed, skipped, failed or launched, what its templates see, which tasks are appended with which prompts, and how the flow ends |
| ControllerMeaning.EveryTaskIsPrompted | internal/controller/arkflow_controller.go:168-186 | every task of the flow ever in the stream carries a prompt rendered from the resolved inputs of its step |
| ControllerMeaning.CollectMeans | internal/controller/arkflow_controller.go:211-231 | a waiting record is completed by the last message with its ID, and charged what the last such message that reports tokens reports |
| ControllerMeaning.EveryRecordKeepsJson | internal/flow/step.go:62-86 | in every reachable state a record keeps the JSON found in its output exactly when its step has a schema |
| ControllerMeaning.EveryEndIsExact | internal/flow/phase.go:48-108 | in every reachable state: a flow has succeeded with every step over, no later than start + timeoutSeconds * 10^9 ns and within budget; it has failed late, over budget or on a failed step; and the reason says which |
| ControllerMeaning.EveryOutputIsExact | internal/flow/phase.go:99-106 | in every reachable state a succeeded flow outputs its output template resolved under the outputs of its steps, any other flow nothing |
| ControllerMeaning.GatesMean | internal/controller/arkflow_controller.go:57-101 | template, validation, agents, terminal phase and Redis are looked up in this order; a reconcile that does not get through changes the condition at most |
| ControllerSafety.RunningIdsAreDistinct | internal/controller/arkflow_controller.go:198-203 | in-flight steps have distinct task IDs in every reachable state |
| ControllerSafety.ResultReachesItsIteration | internal/controller/arkflow_controller.go:211-220 | a result changes only the step and iteration that issued its task, and a running step is left alone only when no result carries its ID |
| ControllerSafety.SeenResultsAreSpent | internal/controller/arkflow_controller.go:198-217 | a result seen by one pass is waited for by no step in any later state |
| ControllerSafety.RescanIsRedundant | internal/controller/arkflow_controller.go:207-217 | scanning the whole stream and scanning from the last seen message give the same pass |
| ControllerSafety.ConsumingOnceIsTheSame | internal/controller/arkflow_controller.go:207-217 | every run equals the run of a controller that reads each message once |
| ControllerSafety.SubmissionAccounting | internal/controller/arkflow_controller.go:177-186 | the stream holds one task per begun iteration of a step, in order, and at most one more than its repetitions: maxIterations if positive, 10 otherwise, none without a loop |
| ControllerSafety.CompletedStepHasDuration | internal/controller/trigger_webhook_server.go:397-402 | a succeeded step has both times set and in order, so the unguarded subtraction is defined |
| ControllerSafety.PassAdvances | internal/controller/arkflow_controller.go:138-234 | one pass never changes a failed or skipped record, begins at most one iteration of a step, and takes back a success only by beginning the next |
| ControllerSafety.RecordsOnlyAdvance | internal/controller/arkflow_controller.go:138-234 | along any run a failed or skipped record stays as it is and iterations never decrease |
| ControllerSafety.LeavesPendingAfterDependencies | internal/controller/arkflow_controller.go:118-156 | a step leaves Pending only with every dependency done and none due for repetition under the data of that pass |
| ControllerSafety.DependencySafety | internal/controller/arkflow_controller.go:149-156 | in loop-free flows every reachable status has all dependencies of every started step done |
| ControllerMeaning.MeaningOfSucceeded | internal/flow/phase.go:65-108 | a flow becomes Succeeded only with all steps over, in time, within budget, and no step that is to be repeated |
| ControllerSafety.TerminalIsFinal | internal/controller/arkflow_controller.go:91-94 | after a terminal phase only the Ready condition can change |
| LostTasks.UnansweredStepKeepsRunning | internal/controller/arkflow_controller.go:193-234 | a running step whose task ID no result ever carries keeps its record in every later state |
| LostTasks.LostTaskStallsFlow | internal/agent/queue/queue.go:124-162 | once the task of a running step is retried or dead-lettered, the step stays Running and the flow never succeeds: it stays Running until it is late, over budget or has a failed step |
| ControllerProgress.NoDeadlock | internal/controller/arkflow_controller.go:149-188 | in a validated flow a pass with nothing running ends the flow or moves a step out of Pending, for any order of steps |
| ControllerProgress.ProductivePassDecreases | internal/controller/arkflow_controller.go:105-124 | a pass with something to do ends the flow or lowers the measure; no pass raises it |
| ControllerProgress.BoundedRuns | internal/controller/arkflow_controller.go:105-134 | a run has at most 1 + sum(3 * cap + 2) passes with something to do, and beyond the sum the flow is finished |
| ControllerTokens.TotalsMatchSteps | internal/flow/phase.go:30-46 | after every update that is no timeout the totals are the sums over the steps, with loops too |
| ControllerTokens.TokenAccounting | internal/flow/phase.go:30-46 | the same in every reachable state that is not a failure and whose last pass was not cut short |
| ControllerTokens.SpendingNeverShrinks | internal/controller/arkflow_controller.go:223-231 | along a run of a loop-free flow neither the sums over the steps nor the recorded totals ever decrease, timeouts and passes cut short included |
| ControllerTokens.TotalsNeverExceedSpending | internal/flow/phase.go:39-45 | in every state of such a run the recorded totals are at most the sums over the steps |
| Executing.Executor.CollectReadySteps | internal/ark/local/executor.go:144-171 | refines the round that skips and collects steps |
| Executing.Executor.RunBatch | internal/ark/local/executor.go:80-132 | starts every ready step and applies the results in the order they arrive |
| Executing.Executor.Run | internal/ark/local/executor.go:50-140 | halts on every flow, cyclic and duplicate-named ones included, in a state of the model's run |
| LocalTermination.BatchLowersMeasure | internal/ark/local/executor.go:58-137 | a batch that goes on lowers the measure sum(2 * repetitions left + pending) |
| LocalTermination.EveryRunHalts | internal/ark/local/executor.go:58-137 | every run halts within the initial measure plus one batches, whatever agents, conditions and arrival orders do |
| LocalExecutions.ExecutionsAreBounded | internal/ark/local/executor.go:82-101 | a step is started once per begun iteration and at most once more than its repetitions |
| LocalRuns.RanPointwise | internal/ark/local/executor.go:80-132 | each ready step ends with its own agent's reply whatever the arrival order, and no other record changes |
| LocalRuns.ReadyFate | internal/ark/local/executor.go:150-169 | which steps a round skips, which it collects |
| LocalMeaning.EveryBatchMeans | internal/ark/local/executor.go:58-137 | what a batch does in any state of a run, told by templates, replies and clocks: which steps it re-arms, skips and runs, with which prompt (none when an input fails), and what each record keeps of its agent's reply |
| LocalMeaning.EveryLocalEndIsExact | internal/flow/phase.go:48-108 | the exact cause of every end, the exact output and the JSON of every record, in every state of a run |
| LocalLedger.RecordsKeepReports | internal/ark/local/executor.go:103-132 | the log reports starts and agents' replies only; each record keeps the counts of its last success, the output of a success, the error of a failure |
| LocalLedger.TotalsAreReported | internal/ark/local/executor.go:124-128 | every update that is not late records the sums that the log reports, if any; a run that succeeds has reported no more than its budget, and one that fails on it has reported more |
| LocalRuns.GivesUpExactlyAfterLateSkip | internal/ark/local/executor.go:63-70 | a batch stops the run with the flow unfinished if and only if it finds nothing ready although the flow is neither overdue nor over budget and nothing failed, and a pending step is listed before a pending dependency whose condition is false |
| LocalRuns.RunGivesUpExactly | internal/ark/local/executor.go:58-137 | a run leaves the flow unfinished if and only if the batch at which it halts is such a batch |
| LocalRuns.RunFinishesTheFlow | internal/ark/local/executor.go:58-137 | a validated flow without a conditional step listed after a dependent ends Succeeded or Failed |
| LocalExecutions.ValidatedFlowLeftRunning | internal/ark/local/executor.go:63-70 | a two-step validated flow that the executor leaves Running when its condition, on an input it does not have, is falsy |
| Agreement.ConsistentStatusesAgree | internal/flow/template.go:66-89 | two statuses that are consistent with their own template data agree on every step done in both |
| DriversAgree.ControllerIsConsistent | internal/controller/arkflow_controller.go:105-124 | every reachable controller status is consistent, whatever the order of results |
| DriversAgree.ExecutorIsConsistent | internal/ark/local/executor.go:58-137 | every reachable executor status is consistent, whatever the order of arrival |
| DriversAgree.DriversAgreeOnDoneSteps | internal/ark/local/executor.go:58-137 | a controller run and a local run agree on the verdict and output of every step done in both |
| DriversAgree.ControllerRunsAgree | internal/controller/arkflow_controller.go:105-124 | so do two controller runs |
| DriversAgree.LocalRunsAgree | internal/ark/local/executor.go:103-132 | so do two local runs |
| DriversAgree.ControllerRunsGiveTheSameOutput | internal/flow/phase.go:99-106 | two controller runs that succeed give every step the same verdict and output, and the flow the same output |
| DriversAgree.LocalRunsGiveTheSameOutput | internal/flow/phase.go:99-106 | so do two local runs that succeed |
| DriversAgree.DriversGiveTheSameOutput | internal/flow/phase.go:99-106 | so do a controller run and a local run that both succeed |
| QueueWire.Queue.Submit | internal/agent/queue/queue.go:95-104 | appends the prompt and returns its ID |
| QueueWire.Queue.Poll | internal/agent/queue/queue.go:58-91 | delivers the next unread message, split into prompt and metadata |
| QueueWire.Queue.Ack | internal/agent/queue/queue.go:107-119 | acknowledges and stores the result with its token counts |
| QueueWire.Queue.Nack | internal/agent/queue/queue.go:124-162 | acknowledges, then requeues with the counter raised while retries are left, else dead-letters |
| QueueLineage.MethodsAreEvents | internal/agent/queue/queue.go:107-162 | a helper that ties the methods to the runs: Ack and Nack are two events each |
| QueueLineage.RetryKeepsContent | internal/agent/queue/queue.go:136-144 | a retry keeps the prompt and all metadata but the counter, which goes up by one |
| QueueLineage.OneLiveRepresentative | internal/agent/queue/queue.go:58-162 | in every reachable state a submitted task is in exactly one message that is undelivered, pending, being settled, answered or dead-lettered |
| QueueLineage.PlacesAreExclusive | internal/agent/queue/queue.go:107-162 | undelivered, pending, being settled, answered and dead-lettered exclude each other, and a message has at most one result or dead letter |
| QueueLineage.LostIsNeverAnswered | internal/agent/queue/queue.go:124-162 | a message that was retried or dead-lettered has no result in any later state |
| QueueLineage.ContentSurvivesRetries | internal/agent/queue/queue.go:124-150 | prompt and metadata stay as submitted through any number of retries, and the counter counts them |
| QueueLineage.DeliveriesAreBounded | internal/agent/queue/queue.go:127-150 | a task is delivered at most max(limit - initial counter, 0) + 1 times, with agents of different limits |
| QueueLineage.SubmittedTaskDeliveries | internal/agent/queue/queue.go:95-104 | a submitted prompt is delivered at most max(limit, 0) + 1 times |
| QueueLineage.SubmittedIsPolled | internal/agent/queue/queue.go:58-104 | a submitted prompt is what the agent that polls it gets |
| QueueLineage.FailureIsSettled | internal/agent/queue/queue.go:127-161 | a failed task is requeued exactly while its counter is below the limit of the agent, and otherwise dead-lettered with its prompt, the reason and the counter |
| QueueLineage.DeadTaskWasRetried | internal/agent/queue/queue.go:127-161 | when all agents share a limit, a dead-lettered task was delivered exactly max(limit - initial counter, 0) + 1 times |
| QueueLineage.UnreadableCounterIsZero | internal/agent/queue/queue.go:127-130 | a counter that is missing, empty or no number counts as zero |
| QueueLineage.CounterIsRead | internal/agent/queue/queue.go:127-130 | a printed counter is read as the number it shows |
| QueueLineage.TokensReadBack | internal/flow/step.go:168-178 | the controller reads the task ID, the result and the token counts that were acknowledged |
| Decimal.AtoiOfItoa | internal/agent/queue/queue.go:127-138 | printing and reading the counter is the identity on 64-bit integers |
| Decimal.DigitsAreDecimal | internal/agent/queue/queue.go:138 | printing is decimal: a number is its tenth followed by its last digit |
| Cron.MostRecentSchedule | internal/controller/arkevent_controller.go:391-410 | the forward scan refines the recursive one, on exactly the schedules and windows on which it ends (`ScanEndsExactly`) |
| Cron.ScanEndsExactly | internal/controller/arkevent_controller.go:399-408 | for every schedule the library parses and a window that begins no later than now, the scan ends if and only if the library finds a next instant from every time of the window; otherwise it goes on forever |
| Cron.AnswersAreScheduled | internal/controller/arkevent_controller.go:403 | the instants of a crontab expression are exactly the answers the library can give |
| Cron.NeverMetNeverEnds | internal/controller/arkevent_controller.go:399-408 | on a crontab expression that is never met the scan goes on forever |
| Cron.LastDueInWindow | internal/controller/arkevent_controller.go:391-410 | for any schedule the scan finds an answer in the window, and nothing exactly when the next one is still to come |
| Cron.LastDueIsGreatest | internal/controller/arkevent_controller.go:389-410 | for a crontab expression the scan returns the greatest scheduled instant in the window, and nothing exactly when there is none |
| Cron.Trigger.ReconcileCron | internal/controller/arkevent_controller.go:122-163 | fires exactly when an instant is due, records the fire only when dispatching succeeded, and asks to be called again a second after the next instant; a missing or invalid expression only sets the condition |
| Cron.ReconcileRecords | internal/controller/arkevent_controller.go:144-160 | the next fire recorded is the first instant of a crontab expression after now; a fire is counted and dated, a failed dispatch records nothing |
| Cron.DueIsAfterLastFire | internal/controller/arkevent_controller.go:140-142 | the comparison with the last fire is implied, for any schedule |
| Cron.WakeUpFires | internal/controller/arkevent_controller.go:155-162 | the reconcile after the requeue delay of a crontab expression, if it is less than a day late, fires |
| Cron.EveryHasNoInstants | internal/controller/arkevent_controller.go:128 | an `@every` schedule is no crontab expression: what comes next depends on when one asks |
| Cron.EveryWakeUp | internal/controller/arkevent_controller.go:136-162 | the reconcile after the requeue delay of an `@every` schedule fires if and only if its delay is at most a day |
| Cron.EveryFirstFire | internal/controller/arkevent_controller.go:136-142 | so does a reconcile before the first fire |
| Cron.EveryCanFireExactly | internal/controller/arkevent_controller.go:128-162 | a trigger with an `@every` schedule ever fires, in any run, if and only if its delay is at most a day |
| Cron.RunFiresOk | internal/controller/arkevent_controller.go:134-155 | on any schedule that advances, each fire answers an instant that the library named, of the last day and after the previous fire |
| Cron.FiresAreInjective | internal/controller/arkevent_controller.go:134-155 | on any schedule that advances, no two fires answer the same instant |
| Cron.NoInstantIsLeft | internal/controller/arkevent_controller.go:136-155 | after a reconcile that could dispatch, every instant of a crontab expression in the last day has a fire at or after it |
| DailyBudget.Agent.ReconcileDailyBudget | internal/controller/arkagent_controller.go:451-525 | usage and earliest entry over all flows, the decision and the requeue delay |
| DailyBudget.Agent.DeploymentReplicas | internal/controller/arkagent_controller.go:218-225 | no replicas while the budget is exceeded, otherwise the wanted number or one |
| DailyBudget.UsageIsOwed | internal/controller/arkagent_controller.go:474-507 | the usage is the sum, over all records of all flows, of the tokens of those that belong to the agent (the last step with the name runs on it) and were completed in the last 24 hours |
| DailyBudget.ReplicasFollowUsage | internal/controller/arkagent_controller.go:511-525 | the budget is exceeded exactly when what is owed reaches a positive limit, and then there are no replicas |
| DailyBudget.OthersDoNotMatter | internal/controller/arkagent_controller.go:490 | usage, decision and delay of an agent do not change with the records of other agents' steps |
| DailyBudget.UsageOfConcat | internal/controller/arkagent_controller.go:480-507 | charges add up in any grouping of flows |
| DailyBudget.ExceededHasExpiry | internal/controller/arkagent_controller.go:511-520 | while the limit is reached the one-hour fallback is unreachable and the delay is at least a minute |
| DailyBudget.UsageHoldsUntilExpiry | internal/controller/arkagent_controller.go:514-518 | while the records of the flows do not change, neither does the sum before the oldest entry expires |
| DailyBudget.UsageHoldsExactly | internal/controller/arkagent_controller.go:480-507 | when steps may be re-armed in between, the sum is at most what it was, and the same if and only if no record that was charged in the window, with tokens, was re-armed |
| DailyBudget.RearmEndsExcess | internal/flow/step.go:115-121 | re-arming a step that alone reaches the limit ends the excess at once, although its usage is kept and no entry expired |
| DailyBudget.WakeUpFindsFewer | internal/controller/arkagent_controller.go:514-518 | at unchanged records every wake-up finds strictly fewer entries in the window |
| DailyBudget.ReplicasComeBack | internal/controller/arkagent_controller.go:218-225 | at unchanged records replicas are restored after at most as many wake-ups as entries |
| DailyBudget.RestoredStays | internal/controller/arkagent_controller.go:522-524 | restored replicas stay while the records do not change |

## Left out

- Kubernetes client calls, watches, owner references, RBAC, HTTP and SSE serving, CLI output and LLM providers: I/O.
- Go's template language, JSON parsing and cron parsing: parameters of the model; a prompt is a function of the map of resolved inputs, because Go visits the map in no fixed order.
- Lost status updates, and a crash between the two Redis commands of an Ack or Nack: the theorems assume that these succeed.
- Reconciling.Reconciler.Reconcile: API errors and a deleted flow end the call without a stored change and are not part of the contract.
- Events inside one reconcile: a pass is atomic. The results stream is read once per pass, and foreign tasks between two submissions would only shift IDs.
- 64-bit overflow of token sums and of durations: integers are unbounded, except for the retry counter and the token texts, which are read and printed as 64-bit values.
- A cron schedule that can never be met, in the theorems over runs of the trigger: the first scan does not end, so there is no run (`Advances` excludes it).
- Webhook and pipeline-output triggers, the Forbid policy and flow dispatch: single branches and I/O; dispatching is a success flag here.
- LostTasks.LostTaskStallsFlow: relates controller and queue by task IDs and results; that their task streams hold the same entries is not needed and not stated.
- ControllerTokens.SpendingNeverShrinks: only for loop-free flows, because a later iteration overwrites a step's usage.
- DriversAgree.DriversGiveTheSameOutput: only for loop-free flows, because the executor sets the phase before it evaluates loops and may leave the last repetition out.
- Observed generations, transition times and messages of conditions; of a condition only its reason is kept.
- The flow's stop on context cancellation and the elapsed times of step events: they depend on the runtime.
