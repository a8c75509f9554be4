# A verified model of the vai-core agent runtime

vai-core runs LLM agents: a supervisor moves each agent through a life cycle, routes its messages to an
LLM, to a workflow or to a job queue, lets agents defer to one another, asks a human before side effects,
and splits large tasks into a graph of jobs. This project models the deterministic part of that runtime in
Dafny and proves what it keeps. LLM replies, tool executors, clocks, generated identifiers, prompts and the
evaluation of condition expressions are arbitrary inputs: every theorem holds for all of them.

`dafny verify dfyconfig.toml` checks everything.

| file | what it models |
|---|---|
| `Digraph.dfy` | walks, cycles and ranks of adjacency-list graphs, shared by the validators and the run proofs |
| `DagValidator.dfy` | validation and topological sorting of a decomposition plan |
| `DeferralValidator.dfy` | cycle detection in the deferral graph, with the cycle spelled out from parent pointers |
| `LivenessClosure.dfy` | the closure loop of the dead-code report |
| `FollowUpLoop.dfy` | the loop that feeds tool results back to the LLM, with its two resetting counters |
| `WorkflowEngine.dfy` | the stateless workflow engine |
| `WorkflowDefinitions.dfy` | what loading a definition checks, with its cycle test |
| `PlainWorkflows.dfy`, `LoadedLoops.dfy` | workflows of LLM and tool steps, and definitions that load although they loop |
| `WorkflowInvoker.dfy`, `WorkflowRuns.dfy` | the capped driver loop, suspension and resumption, properties of whole runs |
| `InlineWorkflows.dfy` | the loop behind `/invoke-workflow` lines and `workflow.execute.` calls |
| `WorkflowAnswers.dfy`, `WorkerAnswers.dfy` | what each driver makes of an answer, of a child workflow and of a resumption |
| `WorkflowPlaces.dfy`, `WorkflowReach.dfy`, `WorkflowLimits.dfy`, `InlineReach.dfy` | the registry as one graph of places, how far each driver gets in it, when the cap is met, and which tools a reply's workflows reach |
| `TodoWorker.dfy`, `WorkerLoops.dfy` | the uncapped driver that recurses into sub-workflows, and when it need not end |
| `Decomposition.dfy`, `DecompositionRuns.dfy`, `DecompositionStages.dfy` | fan-out, the release and failure hooks, every schedule of a plan's jobs, also with a RUNNING phase and with failures |
| `AgentStates.dfy` | the versioned agent state and its lifecycle log |
| `Supervisor.dfy`, `SupervisorLoops.dfy` | the supervisor's operations, one agent step, deferral, and its loops |
| `SupervisorRuns.dfy`, `SupervisorProtocol.dfy` | what each step and every sequence of calls keeps |
| `ExecutedCalls.dfy`, `StepEffects.dfy` | which calls a step runs, how often and in which order, and the state it leaves |
| `AgentOperations.dfy` | what each life-cycle operation accepts and leaves, who may defer to whom, and which tools need a confirmation |
| `GateBypass.dfy`, `StepBypass.dfy` | exactly when a side effect can run that nobody confirmed |
| `DriftMemory.dfy` | the bounded event buffer against an unbounded log |
| `InvokeParams.dfy` | the `key="value"` parser of workflow directives |
| `InputSchemas.dfy` | the dictionary form of a user-input schema |
| `ConfigSystem.dfy` | layered configuration |

## Where the code and its documentation part ways

The model follows the code. These are the places where the code does not do what its documentation says,
or where an expected property fails; each is a lemma below.

- **Plans with dependencies never finish.** Fan-out copies subtask ids into `depends_on`
  (src/agent/decomposition/orchestrator.py:336), while the scheduler looks each of them up as a job id
  (src/platform/runtime/scheduling/dependency.py:53). `WrittenPlanCompletesIff`: the continuation runs if and
  only if the plan has no dependencies. `ResolvedPlanCompletes` proves the documented rule, with each subtask
  id replaced by the id of its job.
- **The follow-up loop has no hard ceiling.** Both counters reset together on progress, so the exit at
  `MAX_TOTAL_ROUNDS` is unreachable (`CallsAreBounded`). The loop stops whatever the LLM and the tools do if and
  only if the LLM has finitely many primitive calls to name (`StopsIffVocabularyIsFinite`). With D calls attempted
  it makes at most 3D + 2 LLM calls (1 if D = 0), and that bound is attained (`BoundIsTight`).
- **The confirmation gate covers the primitive calls of a reply, and nothing else.** There are three ways around it.
  A `/invoke-workflow` line in the reply's text runs a workflow before the gate is asked
  (src/agent/supervisor.py:622), so its tools run even when the calls are parked (`DirectiveBypassesParking`). A
  `workflow.execute.` call is no side effect to the gate, and its workflow's tools run too (`WorkflowCallBypasses`).
  And a reply that passes the gate and gets a result from one harmless primitive enters the follow-up loop, which
  executes whatever primitive the LLM names next (`FollowUpsSlipIff`). `StepBypassIff` says exactly when one of these
  can happen, in the step itself or in that of an agent it defers to; `CanHandIff` says which tool steps the workflows
  can reach.
- **A confirmed batch can run twice.** The pending batch is taken out of the metadata only when the call returns; if
  it raises after the execution, the same answer executes it again (`InterruptedAnswerRunsAgain`). In every run the
  batch is executed once for each confirming call that raises, and once more if it is consumed as confirmed
  (`BatchRunsPerConfirmation`).
- **An answer to an input step is filed under the step after it**, because the engine has already moved on when
  `resume_with_input` reads the current step. An input step gets its own answer only if the caller names it or it leads to its own id
  (`AnswerIsFiledUnderSuccessor`).
- **`resume_with_result` revives a terminal workflow** (`ResumeRevives`); that terminal workflows stay so is
  due to the loops that call it.
- **The cycle test of a definition misses cycles.** It reads `on_success` edges only, and lets every cycle pass as soon
  as one of them goes through a condition (`PassesCycleTest`, computed by `ValidateGraphIsAcyclic`). Failure edges are
  not read: an LLM step that is retried on failure loads (`RetryLoads`). Nor are step ids compared with the keys they
  are stored under, although `fail_step` looks a failed step up by its id: a definition of two steps that is acyclic
  along every transition as written can loop (`SharedIdLoads`). Nor does it follow an edge to a step stored under the
  empty string (`EmptyKeyLoads`). For workflows that call no other the worker returns whatever happens if and only if
  no circle can be reached from the start, counting failure edges as the engine follows them (`WorkerEndsIff`), and the
  capped loop can meet its limit if and only if 50 places can be passed in a row (`LimitIffLongTrail`,
  `TwoStepsMeetTheLimit`).
- **In the capped loop a sub-workflow never comes back.** `resume_with_result` is documented for sub-workflow steps
  that complete (src/agent/workflow/engine.py:306-307), but the loop never calls it for one: the child replaces its
  parent, whose remaining steps never run and where the child's result is never recorded (`ParentIsLeftBehind`). The todo
  worker does return to the parent.
- **`on_failure` never rescues a todo item**: the worker refuses a workflow in which the last record of some step id is
  a failure, and otherwise always returns "Done." (`ReturnsIffNoBadRecord`). Where step ids are not shared that means
  no step ever failed (`ReturnsIffNothingFailed`); where they are, a later step can hide an earlier failure
  (`LaterRecordHidesFailure`).
- **A failed plan leaves its continuation BLOCKED for good**: the failure hook cancels the subtasks only
  (`FailureSettlesPlan`, `FailedPlanIsOver`).
- **A delegate gets one step.** The loop that is to bring an unfinished delegate to its end calls
  `resume_agent`, which rejects every state a step can leave unfinished; the deferral raises instead
  (`DeferralReturnsIffDelegateEnds`). A third hop raises out of the whole chain (`DeepDeferralsRaise`). Inside
  `run_agent_step` the deferral result is then dropped with the delegator's metadata (`StepProof`).
- **A removal can make the bounded drift buffer differ from the end of the log**; `BoundedRefinesIff` says
  exactly when.
- **A configuration override whose field is the name of a section** is accepted with an empty dictionary
  (`LoadAcceptedIff`, `SectionAsFieldLoads`) and adds a key outside the schema (`LoadedKeys`).
- `set_tool_result` has no guard and stamps a terminal agent again (`TerminalIsForever` says what it may change).

## Model

| member | source | states |
|---|---|---|
| DagValidator.ValidateDag | src/agent/decomposition/dag_validator.py:24-45 | returns normally exactly for plans with unique ids, known dependencies, no self-dependency and no directed cycle; each refusal names the first bad dependency in plan order, or an edge that closes a real cycle |
| DagValidator.IdCount | src/agent/decomposition/dag_validator.py:24-45 | comparing the number of distinct ids with the list's length detects duplicates |
| DagValidator.BuildAdjacency | src/agent/decomposition/dag_validator.py:77-82 | the adjacency dictionary maps each id to its last occurrence's dependencies |
| DagValidator.AdjacencyIsOfLast | src/agent/decomposition/dag_validator.py:77-82 | where ids repeat the dictionary holds the dependencies of the last one |
| DagValidator.CycleSearch.Dfs | src/agent/decomposition/dag_validator.py:95-105 | a returned edge closes a cycle; otherwise the node is finished after everything it reaches and the state is restored |
| DagValidator.CheckCycles | src/agent/decomposition/dag_validator.py:85-108 | finds a back-edge if and only if the graph has a cycle |
| DagValidator.TopologicalVisit.Visit | src/agent/decomposition/dag_validator.py:59-66 | terminates on the unvisited ids and on return the node is emitted, its dependencies before it |
| DagValidator.VisitAll | src/agent/decomposition/dag_validator.py:48-71 | on a ranked plan the emitted list is a permutation of the plan with every dependency first |
| DagValidator.TopologicalSort | src/agent/decomposition/dag_validator.py:48-71 | on an accepted list the result is a permutation in which every dependency precedes its dependents; any other list is refused with the same witnesses as validation gives |
| DagValidator.PlanIsRanked | src/agent/decomposition/dag_validator.py:24-45 | acceptance gives a rank that strictly decreases along `depends_on` |
| Digraph.AcyclicIffRanked | src/agent/decomposition/dag_validator.py:77-108 | in a graph closed under its edges, having no cycle is having a strictly decreasing rank |
| Digraph.CompleteSearch | src/agent/decomposition/dag_validator.py:85-108 | a search that has finished every node in dependency order proves the graph acyclic |
| DeferralValidator.ValidateDeferralGraph | src/agent/deferral/validator.py:34-97 | returns normally exactly when every target is registered and the graph is acyclic; self-deferrals are reported first, and every other error is an edge to an unregistered agent or a real cycle |
| DeferralValidator.DeferralSearch.Dfs | src/agent/deferral/validator.py:67-86 | every error the search returns is real; without one the node is finished and the current path restored |
| DeferralValidator.DeferralSearch.CyclePath | src/agent/deferral/validator.py:76-82 | on a back-edge the path handed out is a closed walk of real `defer_to` edges |
| DeferralValidator.ExtractCycle | src/agent/deferral/validator.py:100-117 | the walk over parent pointers terminates and returns exactly the stack segment, closed by the repeated node |
| DeferralValidator.SearchAll | src/agent/deferral/validator.py:67-97 | no error from any agent means closed and acyclic |
| DeferralValidator.DeferralGraphIsOfLast | src/agent/deferral/validator.py:34-97 | an agent registered again replaces what it may defer to |
| LivenessClosure.Closure | tools/scripts/find_strategy_deadcode.py:153-164 | the live modules are exactly those reachable from the directly live ones, the least closed set; live and dead partition the modules and nothing live imports a dead module |
| LivenessClosure.Pass | tools/scripts/find_strategy_deadcode.py:155-163 | one pass keeps the set sound and covers the imports of everything live before it |
| LivenessClosure.AddImports | tools/scripts/find_strategy_deadcode.py:158-163 | adds exactly the followed imports of one module, all of them reachable |
| FollowUpLoop.CallsAreBounded | src/agent/tool_orchestrator.py:298-385 | at every loop head both counters agree and are at most 3, the depth exit is never taken, and the LLM calls are at most 3D + 2 for D attempted calls |
| FollowUpLoop.StopsIffVocabularyIsFinite | src/agent/tool_orchestrator.py:298-385 | the loop stops for every LLM that names only calls of a vocabulary if and only if the primitive calls of that vocabulary are finitely many |
| FollowUpLoop.FiniteVocabularyStops | src/agent/tool_orchestrator.py:298-385 | with finitely many calls to name the loop stops within the bound for that many |
| FollowUpLoop.BoundIsTight | src/agent/tool_orchestrator.py:298-385 | for every D of at least 1 some LLM makes the loop call it exactly 3D + 2 times |
| FollowUpLoop.NewCallsNeverStop | src/agent/tool_orchestrator.py:298-385 | for every infinite vocabulary there is an LLM that names only its calls and is never stopped, calling once per round |
| FollowUpLoop.AllCallsAreInfinite | src/agent/tool_orchestrator.py:298-385 | a vocabulary of all calls is infinite |
| FollowUpLoop.RunRound | src/agent/tool_orchestrator.py:326-366 | a round attempts the signatures of its primitive calls, executes in order those that give a result, and makes progress exactly when one of them succeeds that neither an earlier round nor an earlier call of it attempted |
| FollowUpLoop.ProgressDecides | src/agent/tool_orchestrator.py:298-385 | when the loop goes on and why it ends: its counters start afresh after a round with progress and rise by one after any other, and the third without progress is the last |
| FollowUpLoop.ErringToolsStall | src/agent/tool_orchestrator.py:298-385 | if no execution gives a result that is not an error the loop gives up within four LLM calls |
| FollowUpLoop.ExecuteFollowUps | src/agent/tool_orchestrator.py:298-385 | the loop as written ends, never by the depth limit, within the call bound, within four calls if all executions err, and as the round-by-round specification says |
| WorkflowEngine.DispatchShape | src/agent/workflow/engine.py:510-733 | every handler either moves the state along a transition of its own step, naming it, or fails the run with everything else unchanged |
| WorkflowAnswers.ConditionsEvaluateTheirExpression | src/agent/workflow/engine.py:643-671 | a condition evaluates its expression, `True` if it has none, over context and results, and tells where it goes |
| WorkflowAnswers.CouncilsAreGivenAProblem | src/agent/workflow/engine.py:674-719 | a council is asked the problem its step names, or else the one in the context |
| WorkflowAnswers.PatternsAddInstructions | src/agent/workflow/engine.py:560-611 | a pattern step adds the pattern's instructions to its configuration and changes nothing else of it |
| WorkflowEngine.StepDescends | src/agent/workflow/engine.py:195-251 | a dispatched step is the current one of a live workflow, named by its own id, and is left behind for one of lower rank; every other call leaves a terminal state |
| WorkflowEngine.FailureDescends | src/agent/workflow/engine.py:338-447 | a failed or timed-out step is recorded under its own id, and the run ends or stands where a second lookup by that id leads, strictly below |
| WorkflowEngine.TerminalIsAbsorbing | src/agent/workflow/engine.py:195-251 | a state is completed, failed or cancelled if and only if stepping leaves it unchanged and dispatches nothing; stepping it reports a completion exactly for a completed one |
| WorkflowAnswers.StepsThatAreNotThere | src/agent/workflow/engine.py:222-248 | a live workflow with no step left completes, one whose definition or step is unknown fails, and neither touches what was recorded |
| WorkflowEngine.AnswerIsFiledUnderSuccessor | src/agent/workflow/engine.py:253-296 | after an input step its own result is set if and only if the caller names the step, or names none and the step leads to a step of that id |
| WorkflowDefinitions.ValidateGraphIsAcyclic | src/agent/workflow/workflow_definition.py:203-243 | the queue-based cycle test passes exactly when there is no cycle along `on_success`, or some such cycle goes through a condition step |
| WorkflowDefinitions.LeftAreCycles | src/agent/workflow/workflow_definition.py:220-238 | the steps the search never visits are exactly the steps on cycles |
| LoadedLoops.RetryLoads | src/agent/workflow/workflow_definition.py:203-243 | a definition without a condition that loads and has a cycle through a failure edge |
| LoadedLoops.SharedIdLoads | src/agent/workflow/workflow_definition.py:199-201 | a definition that loads and is acyclic along every written transition, but loops because a step's id is another's key |
| LoadedLoops.ExemptedLoads | src/agent/workflow/workflow_definition.py:234-243 | one condition loop lets a plain cycle of LLM steps load |
| LoadedLoops.LoadedWithoutFailureEdges | src/agent/workflow/workflow_definition.py:203-243 | where no failure is followed, a loaded definition of LLM and tool steps has no cycle to reach, unless the empty string is a key |
| LoadedLoops.EmptyKeyLoads | src/agent/workflow/workflow_definition.py:214-218 | a definition with the empty string as a key that loads and loops although no failure is followed |
| WorkflowInvoker.RestoreInvertsFreeze | src/agent/workflow_invoker.py:27-41 | restoring a frozen workflow state gives it back |
| WorkflowInvoker.RunWorkflowLoop | src/agent/workflow_invoker.py:142-500 | the loop with its counter, early returns and metadata edits computes the recursive specification with a budget of 50 |
| WorkflowAnswers.IterationAnswers | src/agent/workflow_invoker.py:158-500 | each iteration stops for the reason its outcome gives, or records the answer as it came under its step (value, context, last output; or error, status and failure edge), with every other record, key and the place unchanged, and goes on from there |
| WorkflowAnswers.InlineIterationAnswers | src/agent/workflow_invoker.py:561-678 | the same for the loop of inline workflows, and each tool step reached is handed over exactly when there is an executor |
| WorkflowAnswers.DirectiveNames | src/agent/workflow_invoker.py:535-542 | a directive means the workflow it names, with or without either prefix |
| WorkflowAnswers.JobResultIsRecorded | src/agent/supervisor.py:891-951 | an injected job result is recorded on resuming as an inline result would be |
| WorkflowAnswers.UserReplyIsFiled | src/agent/supervisor.py:891-951 | the message itself, or what the interaction manager made of an accepted reply, is filed decoded under the place; an expired request fails the waiting step with status timeout; a refused one keeps waiting |
| WorkflowInvoker.FrozenIffWaiting | src/agent/workflow_invoker.py:171-217 | the metadata holds `workflow_state` exactly when the agent is left WAITING, and it restores to the state the loop stopped in |
| WorkflowInvoker.ToolResumeIsInline | src/agent/supervisor.py:891-951 | suspending a tool step, injecting the job's result and resuming gives the state inline execution would have given |
| WorkflowInvoker.RefusalKeepsWaiting | src/agent/supervisor.py:891-951 | a refused reply leaves the agent waiting in the very same workflow state |
| WorkflowAnswers.RefusalKeepsTheState | src/agent/supervisor.py:913-935 | whatever the metadata, a refused reply keeps the workflow state it restores to and every other key |
| WorkflowAnswers.OtherMetadataStays | src/agent/workflow_invoker.py:152-500 | a run of the loop writes no metadata but its own suspension keys, and when it does not suspend only removes the frozen state and what it waits for |
| WorkflowRuns.LoopDescends | src/agent/workflow_invoker.py:158-500 | in every run the ranks of the places steps are dispatched at strictly fall, so their number bounds the `step()` calls |
| WorkflowRuns.SmallWorkflowsEnd | src/agent/workflow_invoker.py:158-500 | a well-formed workflow of at most 49 steps without sub-workflows, acyclic along the edges the engine follows, never meets the limit, is at no step twice and makes at most n + 1 `step()` calls |
| WorkflowRuns.ChainCompletesIffShort | src/agent/workflow_invoker.py:142-500 | a chain of n succeeding LLM steps completes if and only if n < 50 |
| WorkflowPlaces.LeadsToKnown | src/agent/workflow/engine.py:195-251 | from a step of well-formed workflows every driver goes on to a registered step only |
| WorkflowReach.GoesWhereItLeads | src/agent/workflow_invoker.py:158-500 | whatever is answered, a driver stops, ends the workflow, or stands where the graph of places leads |
| WorkflowReach.PickLeads | src/agent/workflow_invoker.py:158-500 | and wherever the graph leads some answer takes it |
| WorkflowReach.CanStandAtIff | src/agent/workflow_invoker.py:158-500 | a driver can get to a step within n iterations if and only if a trail of at most n places leads there, for all step types and across sub-workflows |
| WorkflowReach.CanRunIff | src/agent/workflow_invoker.py:158-500 | it can go on for n iterations if and only if there is a trail of n places whose last can be left; a circle in reach is enough |
| WorkflowLimits.LimitIffLongTrail | src/agent/workflow_invoker.py:142-500 | for all step types: some outside world makes the loop meet its limit if and only if 50 places can be passed in a row from where it stands |
| WorkflowLimits.LayeredRunsEnd | src/agent/workflow_invoker.py:142-500 | with acyclic workflows and call graph, sub-workflows included, fewer than 50 registered steps mean that no run meets the limit |
| WorkflowLimits.ParentIsLeftBehind | src/agent/workflow_invoker.py:457-472 | once a sub-workflow has started no iteration stands in its parent again |
| WorkflowLimits.TwoStepsMeetTheLimit | src/agent/workflow/engine.py:363-383 | a definition of two steps that loads, is acyclic as written, and meets the limit |
| WorkflowRuns.MetadataIsPassive | src/agent/workflow_invoker.py:171-217 | a run does not depend on the suspension keys left in the metadata |
| WorkflowRuns.SuspensionSplices | src/agent/workflow_invoker.py:315-365 | up to its suspension a run equals the inline run, which goes on with the job's result |
| WorkflowRuns.ResumesWhereSuspended | src/agent/supervisor.py:891-951 | the resume path, fed with a suspended run's metadata, picks up the inline state |
| WorkflowRuns.SuspensionIsTransparent | src/agent/workflow_invoker.py:315-365 | suspending any number of tool steps ends like never suspending: same exit, state and outcomes |
| WorkflowRuns.SmallWorkflowsSuspendFreely | src/agent/workflow_invoker.py:315-365 | for workflows of at most 49 steps that holds with no condition on budgets |
| TodoWorker.Terminates | src/agent/planner/todo_worker.py:409-458 | with well-formed definitions, acyclic along the edges the engine follows, and an acyclic call graph every run of the uncapped loop ends, by (call rank, steps left) |
| TodoWorker.TurnsDescend | src/agent/planner/todo_worker.py:409-574 | every iteration that goes on has fewer steps of its own workflow left, also after a child workflow |
| TodoWorker.CallsRankLower | src/agent/planner/todo_worker.py:527-574 | a sub-workflow call goes to a registered workflow of lower call rank |
| TodoWorker.FuelIsMonotone | src/agent/planner/todo_worker.py:409-458 | the result of a run does not depend on the bound used to define it |
| TodoWorker.ReturnsIffNoBadRecord | src/agent/planner/todo_worker.py:409-458 | for all well-formed definitions: a text is returned if and only if the workflow completed and the last record of every step id is no failure or timeout; the text is "Done." |
| TodoWorker.ReturnsIffNothingFailed | src/agent/planner/todo_worker.py:409-458 | where step ids are not shared and nothing loops: if and only if the workflow completed and no dispatched step ever failed |
| TodoWorker.StartedRunsReturnDone | src/agent/planner/todo_worker.py:372-458 | from a fresh start every run on acyclic definitions ends, and returns "Done." exactly when it completed and no last record is a failure |
| WorkerLoops.WorkerEndsIff | src/agent/planner/todo_worker.py:409-458 | for workflows that call no other: the worker returns whatever is answered and however conditions evaluate if and only if no circle can be reached from the start step |
| WorkerLoops.RetryNeedNotEnd | src/agent/planner/todo_worker.py:409-458 | a definition that loads without any condition step and on which the worker does not return while the backend errs |
| WorkerLoops.SharedIdNeedNotEnd | src/agent/planner/todo_worker.py:409-458 | the same for one that is acyclic along every transition as written |
| WorkerLoops.ConditionLoopNeverReturns | src/agent/workflow/workflow_definition.py:203-243 | a condition loop loads, and while its condition holds the worker never returns |
| WorkerLoops.LaterRecordHidesFailure | src/agent/workflow/engine.py:321-322 | with shared step ids a later success replaces a failure, and the item is reported done |
| TodoWorker.RunWithin | src/agent/planner/todo_worker.py:409-458 | the loop and its recursion compute the specified run |
| WorkerAnswers.RunAnswers | src/agent/planner/todo_worker.py:409-574 | each iteration of the worker ends with what its outcome gives, or records its answer and goes on; after a child that returned t the parent's step has the result t and stays in place, after one that failed it has that failure and stands where the failure leads |
| WorkerAnswers.FailedChildFailsTheItem | src/agent/planner/todo_worker.py:527-574 | where step ids are not shared a run on which a child failed never returns a text |
| WorkerAnswers.BadRecordsAreFailuresAndTimeouts | src/agent/planner/todo_worker.py:421-430 | what a failed or timed-out step records is held against the item, and nothing but a dictionary that carries one of these two statuses is |
| TodoWorker.RunWorkflowToCompletion | src/agent/planner/todo_worker.py:409-458 | the whole worker: always ends on acyclic definitions, and returns text exactly when it completed and no last record is a failure |
| Decomposition.Platform.EnqueueJob | src/agent/composition_root.py:567-579 | a job with dependencies is stored BLOCKED, any other is pushed, by a permitted transition |
| Decomposition.Platform.FanOut | src/agent/decomposition/orchestrator.py:65-110 | an invalid plan changes nothing; a valid one stores a job for each subtask, a waiting handle, and a continuation on all of them |
| Decomposition.Platform.HandleChildSuccess | src/platform/runtime/scheduling/dependency.py:65-108 | records the completion and releases the plan's blocked jobs whose dependencies have all succeeded |
| Decomposition.Platform.HandleChildFailure | src/platform/runtime/scheduling/dependency.py:111-169 | records the failure and cancels the waiting siblings one by one |
| Decomposition.ReleasedInOrder | src/platform/runtime/scheduling/dependency.py:65-108 | released jobs go behind everything queued, in the order the store lists them in |
| Decomposition.FannedOutInOrder | src/agent/decomposition/orchestrator.py:65-110 | a fan-out pushes exactly the subtasks without dependencies, behind everything queued and in the plan's order, and its continuation only if there is no subtask |
| Decomposition.HooksAreLegal | src/platform/runtime/scheduling/dependency.py:65-169 | both hooks change job states only as the state machine permits, and nothing else of any job |
| Decomposition.JoinsWhenAllHaveReported | src/platform/runtime/join_handle.py:77-105 | a handle is joined when all children completed and none failed, failed when all have reported otherwise, and waits before that |
| DecompositionRuns.FanOutEstablishes | src/agent/decomposition/orchestrator.py:83-110 | after fan-out exactly the jobs without dependencies are queued and the continuation is blocked |
| DecompositionRuns.FreeSubtasksArePushed | src/agent/decomposition/orchestrator.py:83-110 | fan-out of a valid non-empty plan pushes exactly the subtasks without dependencies, at least one, and blocks the continuation |
| DecompositionRuns.RunsKeepInvariant | src/platform/runtime/scheduling/dependency.py:65-108 | under every interleaving with other plans' jobs, a job is queued exactly when all its dependencies have run, and dependencies finish first |
| DecompositionRuns.QueuedCanRun | src/platform/runtime/scheduling/dependency.py:65-108 | a queued job of the plan can be executed and has not run before |
| DecompositionRuns.RunsAreShort | src/platform/runtime/scheduling/dependency.py:65-108 | no schedule runs a job of the plan twice |
| DecompositionRuns.IdleMeansWaiting | src/platform/runtime/scheduling/dependency.py:47-59 | when nothing of a plan is queued, a job has run if and only if all it depends on has |
| DecompositionRuns.WrittenPlanCompletesIff | src/agent/decomposition/orchestrator.py:314-373 | as coded, exactly the subtasks without dependencies ever run, and the continuation runs if and only if no subtask has any |
| DecompositionRuns.ResolvedPlanCompletes | src/platform/runtime/scheduling/dependency.py:65-108 | with subtask ids resolved to jobs no valid plan deadlocks: every schedule that stops has run each of the N + 1 jobs once, dependencies first, the continuation last, and joined the handle |
| DecompositionRuns.RunsExtendToIdle | src/platform/runtime/scheduling/dependency.py:65-108 | every run can be carried on to rest in no more steps than the plan has jobs left |
| DecompositionRuns.ResolvedPlanCanFinish | src/platform/runtime/scheduling/dependency.py:65-108 | and with resolved ids every run of a valid plan can be completed, its handle joined |
| DecompositionStages.StagedIsRun | src/platform/runtime/scheduling/dependency.py:65-108 | a schedule of starts and ends is the run of the jobs that ended, in that order |
| DecompositionStages.StagedPlanCompletes | src/platform/runtime/scheduling/dependency.py:65-108 | so no valid plan deadlocks with a RUNNING phase: at rest all N + 1 jobs have ended once, in order |
| DecompositionRuns.FailureSettlesPlan | src/platform/runtime/scheduling/dependency.py:111-169 | after the first failure every sibling has succeeded or failed, the handle has failed, and what depends on the failed job stays BLOCKED and cannot be released |
| DecompositionStages.FailedPlanIsOver | src/platform/runtime/scheduling/dependency.py:111-169 | after the first failure nothing of the plan is started again, whatever else succeeds or fails, and nothing that had not succeeded ever does |
| DecompositionStages.StagedFailureIsOver | src/platform/runtime/scheduling/dependency.py:111-169 | the same when siblings are running at the time: they may end, but nothing is started and the continuation never runs |
| AgentStates.NewIsSound | src/agent/supervisor.py:318-336 | a new agent's log is the single CREATED event |
| AgentStates.WithKeepsSound | src/agent/interfaces/agent_state.py:204-244 | copy-on-write along a permitted transition extends the chain, stamps the state and raises the version |
| AgentOperations.Suspending | src/agent/supervisor.py:1100-1143 | which agents can be suspended, the error otherwise, and the state, log and timestamps left |
| AgentOperations.Cancelling | src/agent/supervisor.py:1967-2009 | the same for cancelling, which fails the agent from any state that is not terminal |
| AgentOperations.Activating | src/agent/supervisor.py:340-403 | the same for activation, accepted from every state that is not terminal |
| AgentOperations.Decomposing | src/agent/supervisor.py:1502-1600 | a decomposed task brings its agent back RUNNING if all children completed and fails it otherwise |
| AgentOperations.ResumeUndoesSuspend | src/agent/supervisor.py:1100-1190 | suspending and resuming loses nothing but the place in the log |
| AgentOperations.Authorising | src/agent/deferral/resolver.py:35-77 | a deferral is authorised exactly for an active agent, another registered target it may defer to, and a depth left; each refusal says which is missing |
| AgentOperations.ConfirmedNames | src/agent/hitl_manager.py:62-108 | a tool needs a confirmation exactly when its last name segment, in any case, begins with one of the words, unless it is a local todo tool |
| AgentStates.EarlierEntriesAreNotTerminal | src/agent/interfaces/agent_state.py:204-244 | no event is a self-loop, and only the last entry can be terminal |
| SupervisorRuns.StepProof | src/agent/supervisor.py:405-1096 | every agent step, nested deferrals, workflows started by the reply and follow-up rounds included, returning or raising, keeps the log sound, ends in COMPLETED, FAILED, WAITING or (after a confirmation) ACTIVATED, runs no side effect among its own primitive calls unconfirmed, hops only along allowed deferrals within the depth, and keeps the old deferral result |
| StepEffects.ReplyRuns | src/agent/supervisor.py:624-825 | a step past the gate, returning or raising, has run each primitive call of the reply as often and in the order the reply makes it, handed over the tool steps of each workflow it starts, and gone through exactly the rounds of the follow-up loop that follow from the calls with a result; it completes with the text, and a deferral's result is dropped |
| StepEffects.OwnPrimitivesRun | src/agent/tool_orchestrator.py:137-281 | without deferrals each primitive call is run exactly as often as the reply makes it |
| StepEffects.ConfirmedBatchRuns | src/agent/hitl_manager.py:138-261 | so is each of a confirmed batch, also when the call raises afterwards, and the agent is left ACTIVATED with nothing pending |
| StepEffects.ParkedReplyWaits | src/agent/supervisor.py:624-658 | a parked reply leaves its calls pending and its text as the response |
| StepEffects.FailedDeferralStops | src/agent/supervisor.py:660-698 | a reply whose deferral raises does nothing more |
| ExecutedCalls.DeferralsAre | src/agent/supervisor.py:660-698 | the deferrals of a reply are its complete `defer_to` calls, each as often as it occurs, in order |
| SupervisorRuns.DeferAllProof | src/agent/supervisor.py:660-698 | the loop over a reply's deferrals leaves the delegator RUNNING with its pending batch untouched, also when a later one raises |
| SupervisorRuns.DelegateProof | src/agent/supervisor.py:1378-1498 | one deferral, authorised or not, suspends and resumes the delegator, and what the delegate's own calls did passed the gate |
| SupervisorRuns.SettleNeedsTerminal | src/agent/supervisor.py:1463-1468 | the loop that would finish a delegate returns terminal states only, and raises at once for any other |
| SupervisorRuns.RouteEnds | src/agent/supervisor.py:836-1096 | a step routed anywhere but to the LLM ends in COMPLETED, FAILED or WAITING, with no event of the gate and none of a reply's calls run |
| StepEffects.RoutedStepAnswers | src/agent/supervisor.py:836-1096 | the state such a step ends in and the answer it leaves, for each end of its jobs, workflow or council: a new answer from a completed workflow or council or where nothing was to do, the earlier one otherwise |
| SupervisorRuns.ExecutionsAreFine | src/agent/hitl_manager.py:169-209 | a batch run on an affirmative input, or one without side effects, runs no side effect without consent |
| SupervisorProtocol.LlmChainIsShort | src/agent/deferral/depth_guard.py:34-63 | deferrals started by replies make at most DEFAULT_MAX_DEPTH - 1 hops, two by default, along allowed deferrals, and visit no agent twice in an accepted graph |
| SupervisorProtocol.LongestChainHappens | src/agent/deferral/depth_guard.py:34-63 | the bound is attained: over a chain of three agents two hops happen and all complete |
| SupervisorProtocol.DeepDeferralsRaise | src/agent/deferral/depth_guard.py:55-63 | at the last depth a reply's deferrals succeed if and only if there are none |
| SupervisorProtocol.DeferralReturnsIffDelegateEnds | src/agent/supervisor.py:1421-1498 | a deferral returns if and only if the delegate can be set up and its first step ends it; then the delegator holds its response |
| SupervisorProtocol.ApplyKeeps | src/agent/supervisor.py:295-2068 | every supervisor call, returning or raising, keeps a sound log, leaves a terminal agent as it was, and makes at most one gate step |
| SupervisorProtocol.PermittedIffLogged | src/agent/supervisor.py:290-2100 | the permitted transitions are exactly those that some call logs from some sound state |
| SupervisorProtocol.ReachableStatesAreSound | src/agent/interfaces/agent_state.py:204-244 | after any sequence of calls the log is a chain of permitted transitions from CREATED to the current state, with its timestamps, no longer than the version; no side effect among replies' own primitive calls ran without an affirmative input |
| SupervisorProtocol.TerminalIsForever | src/agent/supervisor.py:2062-2068 | no sequence of calls changes the state, log, response or pending batch of a terminal agent |
| SupervisorProtocol.GateAlternates | src/agent/supervisor.py:481-510 | in every run parked and consumed batches alternate: at most one is pending, each is consumed once, and executed exactly when the answer is affirmative |
| SupervisorProtocol.AnswerDecides | src/agent/hitl_manager.py:138-261 | an affirmative answer runs every primitive of the pending batch, side effects and all, as often and in the order it holds them, any other runs none; both clear it, unless the call raises after running it |
| SupervisorProtocol.InterruptedAnswerRunsAgain | src/agent/supervisor.py:484-510 | a confirming call that raises after the run leaves the batch pending: the next one runs it again |
| SupervisorProtocol.ConfirmingCallsRun | src/agent/hitl_manager.py:138-261 | while a batch is pending a step runs each of its primitives as often as it holds it, in order, if it confirms, returning or raising, and nothing otherwise |
| SupervisorProtocol.BatchRunsPerConfirmation | src/agent/supervisor.py:481-510 | in every run a pending batch is run once for each confirming call that raises, and once more if it is consumed as confirmed; so at most once exactly if at most one of these happens |
| SupervisorProtocol.SideEffectsAreParked | src/agent/supervisor.py:622-658 | the batch of calls is parked whole, and none of it runs, if and only if it has a side-effect call and the input is not affirmative; what ran before is what the directives of the text started |
| StepBypass.StepSlipsIff | src/agent/supervisor.py:617-806 | for every outside world: what a step gets run unconfirmed comes from its directives, or past the gate from its deferrals, or once these have all returned from its own calls and follow-up rounds |
| StepBypass.StepBypassIff | src/agent/supervisor.py:617-806 | for every reply: an unconfirmed side effect can run if and only if a directive has a sensitive tool in reach, or past the gate an allowed deferral leads to an agent asked something not affirmative and there is a router or some workflow with such a tool in reach, or once all deferrals are allowed a workflow call has such a tool in reach or a primitive gives a result and a router is configured; all of this with an executor, and without an affirmative input to the agent whose reply it is |
| StepBypass.WorkflowCallBypasses | src/agent/tool_orchestrator.py:147-245 | a reply whose only call starts a workflow passes the gate and can get its tool run, without a router or a primitive of its own |
| StepBypass.DirectiveBypassesParking | src/agent/supervisor.py:622-658 | a workflow started by the text can get its tool run while the calls are parked |
| InlineReach.CanHandIff | src/agent/workflow_invoker.py:561-678 | starting a workflow can hand a sensitive tool step to the executor if and only if one is within 50 places of its start |
| InlineReach.HandedIff | src/agent/workflow_invoker.py:561-678 | what the loop hands over is what its iterations hand over |
| GateBypass.FollowUpsSlipIff | src/agent/tool_orchestrator.py:326-366 | for a given LLM: a follow-up round gets an unconfirmed side effect run exactly when some round the loop reaches asks for one |
| SupervisorLoops.RunAgentStep | src/agent/supervisor.py:405-1096 | the step as written, with early returns and metadata updates, computes the step the protocol is proved for; its mutual recursion with deferral terminates on the depth left |
| SupervisorLoops.FinishElsewhere | src/agent/supervisor.py:836-1096 | a step not routed to the LLM runs none of a reply's calls, leaves no event of the gate and keeps its metadata; it raises only for a council failure without a message, waits exactly for dispatched jobs or a waiting workflow, and fails exactly for a missing or failed workflow or a failed council |
| SupervisorLoops.RunConfirmedSkills | src/agent/hitl_manager.py:138-261 | consumes the batch first, runs each of its primitives as often and in the order it holds them exactly on an affirmative input, leaves the agent ACTIVATED with nothing pending, and raises exactly when interrupted after the run |
| SupervisorLoops.DeferTo | src/agent/supervisor.py:1392-1498 | the delegator comes back RUNNING, three versions on, with SUSPENDED and RUNNING added to its log, its pending batch and response kept and the delegate's result noted; the hop is the first effect, also when the call raises |
| SupervisorLoops.SideEffectCalls | src/agent/hitl_manager.py:62-108 | the nested loops return the side-effect calls in order |
| SupervisorLoops.SideEffectsAreConfirmed | src/agent/hitl_manager.py:62-108 | that list is empty exactly when nothing needs confirmation, and holds each side-effect call as often as the reply does |
| SupervisorLoops.RunConfirmed | src/agent/hitl_manager.py:169-209 | the execution loop runs each primitive of the batch as often and in the order it holds them, and nothing else |
| SupervisorLoops.RunDirectives | src/agent/workflow_invoker.py:506-685 | the loop over the directive lines runs their workflows one after the other |
| SupervisorLoops.RunToolPlan | src/agent/tool_orchestrator.py:137-385 | each primitive call of the reply is run as often and in the order it makes them, workflows are started among them, and the primitives that gave a result start the follow-up rounds |
| InlineWorkflows.RunInline | src/agent/workflow_invoker.py:561-678 | the loop both of them run a workflow in, with its cap of 50 |
| SupervisorLoops.HandleDeferrals | src/agent/supervisor.py:660-698 | the loop threads the delegator's state through its deferrals and stops at the first that raises |
| SupervisorLoops.SettleDelegate | src/agent/supervisor.py:1463-1468 | the resume-and-step loop with its cap of 20 |
| DriftMemory.BoundedRefinesIff | src/agent/memory/drift_memory.py:30-111 | one operation keeps the buffer the last `capacity` events of the log if and only if it is not a removal that lets older events back in |
| DriftMemory.BufferIsEndOfLog | src/agent/memory/drift_memory.py:30-92 | after any records, clears, loads and such removals the buffer is the last `capacity` events of the unbounded log |
| DriftMemory.BufferIsSuffix | src/agent/memory/drift_memory.py:30-111 | after any operations at all, removals included, the buffer is a suffix of the unbounded log within capacity, and the last `capacity` events exactly when it is as long as they are |
| DriftMemory.KeepIsSubsequence | src/agent/memory/drift_memory.py:56-62 | filtering keeps exactly the matching events, as often as they occur |
| DriftMemory.KeysIdentify | src/agent/memory/drift_memory.py:98-111 | a removal tells events apart by time, goal, segment and signal |
| DriftMemory.SnapshotTransfers | src/agent/memory/drift_memory.py:79-92 | loading a memory's own snapshot is the identity; into another memory it gives the end of the same log |
| DriftMemory.NewMemory | src/agent/memory/drift_memory.py:20-24 | a memory exists exactly for a positive capacity, and starts empty |
| DriftMemory.Memory.Append | src/agent/memory/drift_memory.py:30-32 | appends, dropping the oldest event when full |
| DriftMemory.Memory.Recent | src/agent/memory/drift_memory.py:34-42 | the last n events of the log, as far as the capacity reaches; none for n <= 0 |
| DriftMemory.Memory.Last | src/agent/memory/drift_memory.py:44-46 | the log's last event, if any |
| DriftMemory.Memory.ClearAll | src/agent/memory/drift_memory.py:48-50 | empties the buffer |
| DriftMemory.Memory.Filter | src/agent/memory/drift_memory.py:56-62 | the matching events of the window, oldest first |
| DriftMemory.Memory.CountRecent | src/agent/memory/drift_memory.py:64-73 | counts the matching events among the log's last `window` ones within capacity |
| DriftMemory.Memory.Snapshot | src/agent/memory/drift_memory.py:79-81 | the window, oldest first |
| DriftMemory.Memory.LoadSnapshot | src/agent/memory/drift_memory.py:83-92 | clearing and appending one by one leaves the snapshot's last `capacity` events |
| DriftMemory.Memory.RemoveEvents | src/agent/memory/drift_memory.py:98-111 | keeps exactly the events with other keys, in order |
| InvokeParams.MatchIffPattern | src/agent/workflow_invoker.py:695-695 | the scanner finds a match at a position exactly when the regular expression has one there, and the same one |
| InvokeParams.ValueEndsAtFirstQuote | src/agent/workflow_invoker.py:695-695 | a value ends at the first quote that is not escaped |
| InvokeParams.NothingFoundIff | src/agent/workflow_invoker.py:695-695 | nothing is found exactly when the expression matches nowhere |
| InvokeParams.ParseInvokeParams | src/agent/workflow_invoker.py:691-706 | the loop over all matches builds the dictionary of unescaped, interpreted values, the last of equal keys winning |
| InvokeParams.ParseInvertsPrint | src/agent/workflow_invoker.py:691-706 | parsing printed pairs gives the printed dictionary, for all pairs with word keys |
| InvokeParams.PlainPairsComeBack | src/agent/workflow_invoker.py:691-706 | with distinct keys and values not starting with a brace or bracket that dictionary is exactly the pairs |
| InvokeParams.BracketedValueIsDecoded | src/agent/workflow_invoker.py:691-706 | a value that starts with a brace or bracket is decoded if it can be and kept as text if not |
| InvokeParams.UnescapingDropsBackslashes | src/agent/workflow_invoker.py:697-698 | unescaping drops the backslash of each escaped pair and nothing else |
| InputSchemas.PrintSchema | src/agent/workflow/interaction_request.py:98-137 | the printing loop |
| InputSchemas.ParseSchema | src/agent/workflow/interaction_request.py:62-96 | the parsing loop, stopping at the first unsupported type |
| InputSchemas.RoundTripIff | src/agent/workflow/interaction_request.py:62-137 | parsing a printed schema gives it back if and only if names are distinct, labels not empty unless the name is, and a schema without fields has no title or description |
| InputSchemas.DistinctNamesComeBack | src/agent/workflow/interaction_request.py:62-137 | with distinct names it always comes back up to empty labels |
| InputSchemas.SecondPrintIsFirst | src/agent/workflow/interaction_request.py:62-137 | with distinct names printing again gives the same dictionary |
| InputSchemas.SchemaIsRead | src/agent/workflow/interaction_request.py:62-96 | a dictionary parses exactly when every type is supported, each property to one field with the documented defaults; otherwise the first other type is reported |
| ConfigSystem.LoadIsPrecedence | src/config/config_system.py:411-467 | every field has the value of the last source that sets it (override, variable, file, default), and that value passes its check |
| ConfigSystem.LoadAcceptedIff | src/config/config_system.py:411-467 | loading succeeds if and only if all file and variable values for known fields are valid and every override is a known valid field or an empty skeleton under a section name |
| ConfigSystem.LoadedKeys | src/config/config_system.py:411-467 | a loaded section has the schema's fields and besides them only such skeletons |
| ConfigSystem.LoadedValuesSuit | src/config/config_system.py:159-228 | every field of a loaded configuration holds a value of its kind, one of those listed if any are |
| ConfigSystem.OverrideNeedsSuitableValue | src/config/config_system.py:411-467 | and it can be overridden by exactly such values |
| ConfigSystem.SectionAsFieldLoads | src/config/config_system.py:168-178 | an override with any section name as its field and an empty dictionary loads whenever the rest does, although no such field exists, and stands in the configuration |
| ConfigSystem.ProgramSchemaIsGood | src/config/config_system.py:29-109 | the program's own table has plain section names, no field named like a section, and defaults that pass their checks |
| ConfigSystem.OverridesAcceptedIff | src/config/config_system.py:452-465 | which overrides pass validation |
| ConfigSystem.KnownLayerIff | src/config/config_system.py:159-228 | a layer with known fields only passes validation exactly when each value is of its type and value set |
| ConfigSystem.MergeDict | src/config/config_system.py:231-238 | the recursive merge, key by key |
| ConfigSystem.ValidateParsed | src/config/config_system.py:159-228 | the recursive validator, key by key |
| ConfigSystem.Load | src/config/config_system.py:411-467 | the load layer by layer, skipping absent and empty layers |
| ConfigSystem.OverlayKeeps | src/config/config_system.py:231-238 | merging a validated layer keeps every field present and valid, and the layer wins where it has a value |

## Left out

- Error texts and `details` payloads: which error is raised is modelled, its wording is not; in the configuration only whether loading succeeds.
- Concurrency: supervisor calls, starts and ends of jobs and store writes happen one at a time; failures of the join-handle store or a handle saved late are not modelled.
- DecompositionRuns.RunsKeepInvariant: runs each job at once and to success; starts and ends that interleave are in `DecompositionStages.StagedIsRun`, failures in `DecompositionStages.FailedPlanIsOver`.
- Several join handles for one plan, and job retries and the POISON state: each plan has one handle, keyed by its id.
- `fan_in`, `cancel` and `parallelize` of the decomposition orchestrator: they poll or combine what is modelled.
- The texts the tool plan appends to a reply, prompt templates of inline workflows, and exceptions out of their LLM calls. The supervisor is taken to have a workflow engine.
- Tool calls carry one name; the nested `function.name` form and objects with attributes are read as that name. Lower-casing is ASCII.
- A missing inline executor for a reply's own calls: an execution there stands for the attempt.
- SupervisorRuns.StepProof: does not model the interception of `convene_council` and `execute_todo_plan` calls, which change no field of the calling agent's state.
- SupervisorLoops.RunAgentStep: leaves out the same two interceptions, and the hallucination guard, which leaves every reply with a directive as it is. Finding the directive lines in a text is an arbitrary function.
- SupervisorRuns.RouteEnds: the workflow, job and council branches appear by how they end, and what they run is no effect; the workflow loop and its resumption are in the invoker modules, council deliberation is not modelled.
- SupervisorLoops.FinishElsewhere: likewise.
- SupervisorProtocol.LlmChainIsShort: counts the deferrals a reply asks for; those a council makes for its members skip authorisation and are not part of a reply's chain.
- SupervisorProtocol.ApplyKeeps: speaks of the state a call returns; the store is not modelled, where a failed deferral leaves the delegator SUSPENDED and creating an agent replaces a stored one of the same id.
- SupervisorProtocol.GateAlternates: speaks of batches consumed; a batch executed by a call that then raises is not consumed, see `SupervisorProtocol.InterruptedAnswerRunsAgain`.
- StepBypass.StepBypassIff: is for replies that convene no council, whose members would take steps of their own, and for registries of well-formed workflows in which no two conditions have the same expression; `StepBypass.StepSlipsIff`, about a given outside world, needs neither of these. Which tool the inline executor reads from a configuration is an arbitrary function.
- `run_agent_step` and `defer_to_agent` are specified by functions on immutable states, as states are immutable in the source, and the methods that follow the source are proved against them.
- WorkflowLimits.LimitIffLongTrail: where two conditions share an expression they can evaluate alike, so not every trail can be taken; that a run takes trails only holds without that (`WorkflowReach.LongRunIsTrail`).
- WorkerLoops.WorkerEndsIff: is for workflows without sub-workflow steps, and with conditions of different expressions; `TodoWorker.Terminates` covers all step types in one direction.
- Duplicates that the invoker appends to an agent's `errors` list.
- `_run_goal_inner_loop` and the todo store of the worker; rendering of context templates is an arbitrary function; Python's recursion limit.
- Reading YAML, labels, names and the other descriptive fields of a definition. `_evaluate_expression` is an arbitrary function that may fail.
- `Supervisor.execute_todo_plan` and the pipeline driver: their code refers to fields and states that do not exist or are never received.
- TodoWorker.ReturnsIffNoBadRecord: takes the failure text in an arbitrary order, since records do not keep the order of insertion.
- Regular-expression word characters and JSON decoding in the parameter parser are arbitrary functions, with `=`, quote and space not word characters.
- An override key that is not exactly `section.field` raises before anything else; the model starts from split keys.
- Configuration values are read as booleans, integers, strings, lists, dictionaries or others; file reading, environment access and number parsing are arbitrary functions. The theorems hold for every schema with plain section names, no field named like a section, and valid defaults.
- Registries, agent selection, message routing, council phases, prompt building and channels: input or output only.
