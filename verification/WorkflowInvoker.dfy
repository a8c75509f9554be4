/** The capped workflow loop, its suspension into agent metadata, and the resume path. */
module WorkflowInvoker {
  import opened Wrappers
  import opened Digraph
  import opened WorkflowEngine

  const MAX_ITERATIONS: nat := 50

  // ---------------------------------------------------------------- frozen state

  function StatusText(s: Status): string {
    match s
    case Pending => "pending"
    case Running => "running"
    case WaitingForInput => "waiting_for_input"
    case Completed => "completed"
    case Failed => "failed"
    case Cancelled => "cancelled"
  }

  function ParseStatus(t: string): Option<Status> {
    if t == "pending" then Some(Pending)
    else if t == "running" then Some(Running)
    else if t == "waiting_for_input" then Some(WaitingForInput)
    else if t == "completed" then Some(Completed)
    else if t == "failed" then Some(Failed)
    else if t == "cancelled" then Some(Cancelled)
    else None
  }

  function OptText(o: Option<string>): Value {
    match o case Some(t) => Text(t) case None => Null
  }

  function Freeze(s: WfState): Value {
    Dict(map[
      "execution_id" := Text(s.executionId),
      "workflow_id" := Text(s.workflowId),
      "current_step_id" := OptText(s.currentStepId),
      "context" := Dict(s.context),
      "step_results" := Dict(s.stepResults),
      "status" := Text(StatusText(s.status)),
      "error" := OptText(s.error)])
  }

  /** `None` stands for the exception a missing or malformed entry raises. */
  function Restore(v: Value): Option<WfState> {
    if !v.Dict? then None
    else
      var d := v.entries;
      var id, wf, st := Get(d, "execution_id", Null), Get(d, "workflow_id", Null), Get(d, "status", Null);
      var cur, err := Get(d, "current_step_id", Null), Get(d, "error", Null);
      var ctx, res := Get(d, "context", Dict(map[])), Get(d, "step_results", Dict(map[]));
      if !(id.Text? && wf.Text? && st.Text? && ctx.Dict? && res.Dict?) then None
      else if !(cur.Text? || cur.Null?) || !(err.Text? || err.Null?) || ParseStatus(st.s).None? then None
      else Some(WfState(id.s, wf.s, ParseStatus(st.s).value, if cur.Text? then Some(cur.s) else None,
                        ctx.entries, res.entries, if err.Text? then Some(err.s) else None))
  }

  lemma RestoreInvertsFreeze(s: WfState)
    ensures Restore(Freeze(s)) == Some(s)
  {
    assert ParseStatus(StatusText(s.status)) == Some(s.status);
  }

  // ---------------------------------------------------------------- the loop

  datatype Reply = Output(value: Value) | ReplyError(message: string)

  /** Submitting a tool step as a job either yields the job's id or is refused. */
  datatype Submission = Submitted(jobId: string) | Rejected(message: string)

  /** What the outside world answers to the k-th step: only the part the step asks for is used.
      `jobResult` is what a submitted job eventually reports. */
  datatype Answer = Answer(llm: Reply, inline: Option<Value>, dispatch: Submission, jobResult: Value,
                           council: Reply, freshId: string)

  type World = nat -> Answer

  /** `requestId` is present when an interaction manager is configured. */
  datatype Config = Config(env: Env, requestId: Option<(string, string) -> string>)

  datatype Reason = Finished | StepFailed | ToolPending | InputPending | IterationLimit

  datatype Lifecycle = AgentCompleted | AgentFailed | AgentWaiting

  /** One `step()` call: the key the state stood at, and what the engine returned. */
  datatype StepCall = StepCall(at: Option<string>, outcome: Outcome)

  /** `calls` lists the `step()` calls in order; `next` is the first unused world index. */
  datatype LoopResult = LoopResult(reason: Reason, wf: WfState, meta: Record, newErrors: seq<string>,
                                   calls: seq<StepCall>, next: nat)

  function LifecycleOf(r: Reason): Lifecycle {
    match r
    case Finished => AgentCompleted
    case StepFailed => AgentFailed
    case IterationLimit => AgentFailed
    case ToolPending => AgentWaiting
    case InputPending => AgentWaiting
  }

  datatype Reaction = Proceed(wf: WfState, errors: seq<string>) | Stop(reason: Reason)

  function AfterReply(cfg: Config, reg: Registry, r: Reply, s: WfState, stepId: string): WfState {
    match r
    case Output(v) => ResumeWithResult(cfg.env, s, stepId, v)
    case ReplyError(e) => FailStep(reg, s, stepId, e).0
  }

  /** The branch of the loop body that handles outcome `o`. */
  function React(cfg: Config, reg: Registry, a: Answer, s: WfState, o: Outcome): Reaction {
    match o.kind
    case Continue => Proceed(s, [])
    case Done => Stop(Finished)
    case Fail => Stop(StepFailed)
    case LlmCall => Proceed(AfterReply(cfg, reg, a.llm, s, o.stepId), [])
    case Council => Proceed(AfterReply(cfg, reg, a.council, s, o.stepId), [])
    case AwaitInput => Stop(InputPending)
    case ToolExecute =>
      if a.inline.Some? then Proceed(ResumeWithResult(cfg.env, s, o.stepId, a.inline.value), [])
      else if a.dispatch.Submitted? then Stop(ToolPending)
      else Proceed(FailStep(reg, s, o.stepId, "tool_execute dispatched zero jobs").0, [a.dispatch.message])
    case SubWorkflow =>
      var id := if o.workflowId.Some? && Truthy(o.workflowId.value) then o.workflowId.value else Text("");
      match StartWorkflow(reg, a.freshId, id, s.context)
      case Ok(child) => Proceed(child, [])
      case Err(e) => Proceed(FailStep(reg, s, o.stepId, e).0, [])
  }

  /** The metadata each exit leaves behind. */
  function ExitMeta(cfg: Config, meta: Record, reason: Reason, s: WfState, o: Outcome): Record {
    match reason
    case ToolPending =>
      meta["workflow_state" := Freeze(s)]["workflow_waiting_for" := Text("tool_result")]
          ["workflow_last_step_id" := Text(o.stepId)]["workflow_last_result" := Dict(map[])]
    case InputPending =>
      var waiting := meta["workflow_state" := Freeze(s)]["workflow_waiting_for" := Text("user_input")]
                         ["workflow_waiting_step_id" := Text(o.stepId)];
      if cfg.requestId.None? then waiting
      else waiting["workflow_interaction_request_id" := Text(cfg.requestId.value(s.workflowId, o.stepId))]
                  ["workflow_interaction_prompt" := Get(o.config, "prompt", Text("Please provide input:"))]
                  ["workflow_interaction_schema" := Get(o.config, "input_schema", Dict(map[]))]
    case _ => meta - {"workflow_state", "workflow_waiting_for"}
  }

  function Prepend(calls: seq<StepCall>, errors: seq<string>, r: LoopResult): LoopResult {
    r.(calls := calls + r.calls, newErrors := errors + r.newErrors)
  }

  function Loop(cfg: Config, reg: Registry, w: World, s: WfState, meta: Record, k: nat, budget: nat): LoopResult
    decreases budget
  {
    if budget == 0 then
      LoopResult(IterationLimit, s, meta - {"workflow_state", "workflow_waiting_for"}, [], [], k)
    else
      var (s', o) := StepOnce(cfg.env, reg, s);
      match React(cfg, reg, w(k), s', o)
      case Stop(reason) => LoopResult(reason, s', ExitMeta(cfg, meta, reason, s', o), [],
                                      [StepCall(s.currentStepId, o)], k + 1)
      case Proceed(wf, errors) => Prepend([StepCall(s.currentStepId, o)], errors,
                                          Loop(cfg, reg, w, wf, meta, k + 1, budget - 1))
  }

  /** One iteration seen from behind a prefix of earlier calls and errors. */
  lemma PrefixedIteration(cfg: Config, reg: Registry, w: World, s: WfState, meta: Record, k: nat, budget: nat,
                          before: seq<StepCall>, errors: seq<string>)
    requires budget > 0
    ensures var (s', o) := StepOnce(cfg.env, reg, s);
            var call := StepCall(s.currentStepId, o);
            Prepend(before, errors, Loop(cfg, reg, w, s, meta, k, budget)) ==
            match React(cfg, reg, w(k), s', o) {
              case Stop(reason) => LoopResult(reason, s', ExitMeta(cfg, meta, reason, s', o), errors, before + [call],
                                              k + 1)
              case Proceed(wf, more) => Prepend(before + [call], errors + more,
                                                Loop(cfg, reg, w, wf, meta, k + 1, budget - 1))
            }
  {
    hide StepOnce, React, ExitMeta;
    var (s', o) := StepOnce(cfg.env, reg, s);
    match React(cfg, reg, w(k), s', o)
    case Stop(reason) => assert errors + [] == errors;
    case Proceed(wf, more) =>
      var rest := Loop(cfg, reg, w, wf, meta, k + 1, budget - 1);
      var call := StepCall(s.currentStepId, o);
      assert before + ([call] + rest.calls) == (before + [call]) + rest.calls;
      assert errors + (more + rest.newErrors) == (errors + more) + rest.newErrors;
  }

  lemma PrependNothing(r: LoopResult)
    ensures Prepend([], [], r) == r
  {
    assert [] + r.calls == r.calls && [] + r.newErrors == r.newErrors;
  }

  /** The loop as the program runs it; it computes `Loop` with a budget of `MAX_ITERATIONS`. */
  method RunWorkflowLoop(cfg: Config, reg: Registry, w: World, wf0: WfState, meta0: Record, k: nat)
    returns (r: LoopResult)
    ensures r == Loop(cfg, reg, w, wf0, meta0, k, MAX_ITERATIONS)
  {
    hide StepOnce, React, ExitMeta, Loop;
    var iteration, wf, calls, newErrors := 0, wf0, [], [];
    PrependNothing(Loop(cfg, reg, w, wf0, meta0, k, MAX_ITERATIONS));
    while iteration < MAX_ITERATIONS
      invariant iteration <= MAX_ITERATIONS
      invariant Loop(cfg, reg, w, wf0, meta0, k, MAX_ITERATIONS) ==
                Prepend(calls, newErrors, Loop(cfg, reg, w, wf, meta0, k + iteration, MAX_ITERATIONS - iteration))
    {
      PrefixedIteration(cfg, reg, w, wf, meta0, k + iteration, MAX_ITERATIONS - iteration, calls, newErrors);
      var (stepped, outcome) := StepOnce(cfg.env, reg, wf);
      var reaction := React(cfg, reg, w(k + iteration), stepped, outcome);
      iteration := iteration + 1;
      if reaction.Stop? {
        return LoopResult(reaction.reason, stepped, ExitMeta(cfg, meta0, reaction.reason, stepped, outcome),
                          newErrors, calls + [StepCall(wf.currentStepId, outcome)], k + iteration);
      }
      wf, calls, newErrors := reaction.wf, calls + [StepCall(wf.currentStepId, outcome)], newErrors + reaction.errors;
    }
    ExhaustedLoop(cfg, reg, w, wf, meta0, k + iteration);
    assert newErrors + [] == newErrors && calls + [] == calls;
    return LoopResult(IterationLimit, wf, meta0 - {"workflow_state", "workflow_waiting_for"},
                      newErrors, calls, k + iteration);
  }

  lemma ExhaustedLoop(cfg: Config, reg: Registry, w: World, s: WfState, meta: Record, k: nat)
    ensures Loop(cfg, reg, w, s, meta, k, 0)
         == LoopResult(IterationLimit, s, meta - {"workflow_state", "workflow_waiting_for"}, [], [], k)
  {
  }

  /** Whatever the metadata held before, `workflow_state` is there afterwards exactly when the
      agent waits, and then it restores to the state the loop stopped in. */
  lemma {:induction false} FrozenIffWaiting(cfg: Config, reg: Registry, w: World, s: WfState, meta: Record, k: nat,
                                            budget: nat)
    ensures var r := Loop(cfg, reg, w, s, meta, k, budget);
            && ("workflow_state" in r.meta <==> LifecycleOf(r.reason) == AgentWaiting)
            && ("workflow_waiting_for" in r.meta <==> LifecycleOf(r.reason) == AgentWaiting)
            && (LifecycleOf(r.reason) == AgentWaiting ==> Restore(r.meta["workflow_state"]) == Some(r.wf))
    decreases budget
  {
    hide StepOnce, React;
    if budget > 0 {
      var (s', o) := StepOnce(cfg.env, reg, s);
      RestoreInvertsFreeze(s');
      match React(cfg, reg, w(k), s', o)
      case Stop(_) =>
      case Proceed(wf, errors) => FrozenIffWaiting(cfg, reg, w, wf, meta, k + 1, budget - 1);
    }
  }

  // ---------------------------------------------------------------- resuming

  /** Injecting a job's result while the agent waits. */
  function SetToolResult(meta: Record, result: Value): Record {
    meta["workflow_last_result" := result]
  }

  /** What the interaction manager makes of a reply to a registered request. */
  datatype Verdict = Accepted(serialised: string) | Refused | Expired

  datatype Resumption = StartAfresh | Malformed | StayWaiting(meta: Record) | GoOn(wf: WfState)

  /** The resume path taken when a message is routed to the workflow again. */
  function Resume(cfg: Config, reg: Registry, meta: Record, input: string, verdict: Verdict): Resumption {
    if Get(meta, "workflow_state", Null).Null? then StartAfresh
    else
      match Restore(meta["workflow_state"])
      case None => Malformed
      case Some(wf) =>
        var waitingFor := Get(meta, "workflow_waiting_for", Text(""));
        if waitingFor == Text("user_input") then
          if Truthy(Get(meta, "workflow_interaction_request_id", Text(""))) && cfg.requestId.Some? then
            match verdict
            case Accepted(text) => GoOn(ResumeWithInput(cfg.env, wf, text, None))
            case Refused => StayWaiting(meta["workflow_state" := Freeze(wf)])
            case Expired =>
              var step := Get(meta, "workflow_waiting_step_id", Text(""));
              GoOn(HandleTimeout(reg, wf, if step.Text? then step.s else "").0)
          else GoOn(ResumeWithInput(cfg.env, wf, input, None))
        else if waitingFor == Text("tool_result") then
          var last := Get(meta, "workflow_last_step_id", Text(""));
          GoOn(ResumeWithResult(cfg.env, wf, if last.Text? then last.s else "",
                                Get(meta, "workflow_last_result", Dict(map[]))))
        else GoOn(wf)
  }

  /** Suspending a tool step, injecting its result and resuming gives the state that
      executing the step inline with the same result would have given. */
  lemma ToolResumeIsInline(cfg: Config, reg: Registry, meta: Record, s: WfState, o: Outcome, result: Value,
                           input: string, verdict: Verdict)
    ensures Resume(cfg, reg, SetToolResult(ExitMeta(cfg, meta, ToolPending, s, o), result), input, verdict)
         == GoOn(ResumeWithResult(cfg.env, s, o.stepId, result))
  {
    hide ResumeWithResult, ResumeWithInput, HandleTimeout, Freeze, Restore;
    RestoreInvertsFreeze(s);
    FrozenIsNotNull(s);
    var frozen := ExitMeta(cfg, meta, ToolPending, s, o);
    assert SetToolResult(frozen, result)["workflow_state"] == Freeze(s);
  }

  lemma FrozenIsNotNull(s: WfState)
    ensures !Freeze(s).Null?
  {
  }

  /** A refused reply leaves the agent waiting in the very same workflow state. */
  lemma RefusalKeepsWaiting(cfg: Config, reg: Registry, meta: Record, s: WfState, o: Outcome, input: string)
    requires cfg.requestId.Some? && cfg.requestId.value(s.workflowId, o.stepId) != ""
    ensures var frozen := ExitMeta(cfg, meta, InputPending, s, o);
            Resume(cfg, reg, frozen, input, Refused) == StayWaiting(frozen)
  {
    hide ResumeWithResult, ResumeWithInput, HandleTimeout, Freeze, Restore;
    RestoreInvertsFreeze(s);
    FrozenIsNotNull(s);
    var frozen := ExitMeta(cfg, meta, InputPending, s, o);
    assert frozen["workflow_state"] == Freeze(s) && frozen["workflow_waiting_for"] == Text("user_input");
    assert frozen["workflow_state" := Freeze(s)] == frozen;
  }
}
