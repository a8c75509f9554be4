/** What the loops that drive a workflow make of each answer: what is recorded, where the run stands,
    and what a waiting agent is left with. */
module WorkflowAnswers {
  import opened Wrappers
  import opened WorkflowEngine
  import opened WorkflowInvoker
  import opened InlineWorkflows

  /** The workflow id a sub-workflow outcome asks for. */
  ghost predicate AsksFor(o: Outcome, id: Value) {
    if o.workflowId.Some? && Truthy(o.workflowId.value) then id == o.workflowId.value else id == Text("")
  }

  /** `wf` is where the run goes on after a sub-workflow step: in the child, with the parent's context, or
      where the failure of the step leads if no such workflow is registered. */
  ghost predicate GoesIntoChild(reg: Registry, s: WfState, o: Outcome, freshId: string, wf: WfState) {
    forall id :: AsksFor(o, id) ==>
      if id.Text? && id.s in reg then Fresh(reg, id.s, s.context, wf) && wf.executionId == freshId
      else exists e :: FailureRecorded(reg, s, o.stepId, e, "failed", wf)
  }

  /** `wf` is where the run goes on after the reply `r` to step `o`. */
  ghost predicate GoesOnFromReply(env: Env, reg: Registry, r: Reply, s: WfState, o: Outcome, wf: WfState) {
    match r
    case Output(v) => ResultRecorded(env, s, o.stepId, v, wf)
    case ReplyError(e) => FailureRecorded(reg, s, o.stepId, e, "failed", wf)
  }

  lemma ReplyGoesOn(cfg: Config, reg: Registry, r: Reply, s: WfState, o: Outcome)
    ensures GoesOnFromReply(cfg.env, reg, r, s, o, AfterReply(cfg, reg, r, s, o.stepId))
  {
    hide ResultRecorded, FailureRecorded, ResumeWithResult, FailStep;
    match r
    case Output(v) => ResultIsRecorded(cfg.env, s, o.stepId, v);
    case ReplyError(e) => FailureIsRecorded(reg, s, o.stepId, e);
  }

  lemma ChildIsEntered(reg: Registry, s: WfState, o: Outcome, freshId: string, id: Value)
    requires AsksFor(o, id)
    ensures var start := StartWorkflow(reg, freshId, id, s.context);
            && (start.Ok? ==> GoesIntoChild(reg, s, o, freshId, start.value))
            && (start.Err? ==> GoesIntoChild(reg, s, o, freshId, FailStep(reg, s, o.stepId, start.error).0))
  {
    hide FailureRecorded, Fresh, StartWorkflow, FailStep;
    var start := StartWorkflow(reg, freshId, id, s.context);
    StartIsFresh(reg, freshId, id, s.context);
    if start.Err? { FailureIsRecorded(reg, s, o.stepId, start.error); }
  }

  // ---------------------------------------------------------------- what a step asks for

  /** What counts as false: nothing, `false`, zero, and whatever is empty. */
  lemma FalsyValues(v: Value)
    ensures Truthy(v) <==> !(v == Null || v == Bool(false) || v == Num(0) || v == Text("") || v == Arr([])
                             || v == Dict(map[]))
  {
  }

  /** An LLM, tool, input or sub-workflow step hands its driver its configuration as it is written. */
  lemma StepsHandOverTheirConfiguration(env: Env, s: WfState, step: Step)
    requires step.stepType.LlmStep? || step.stepType.ToolStep? || step.stepType.UserInputStep?
             || step.stepType.SubWorkflowStep?
    ensures var (_, o) := Dispatch(env, s, step);
            o.kind.Fail? || (o.config == step.config && o.stepId == step.stepId)
    ensures var (s', o) := Dispatch(env, s, step);
            (o.kind.AwaitInput? ==> s'.status.WaitingForInput?)
                && (!o.kind.AwaitInput? && !o.kind.Fail? ==> s'.status == s.status)
  {
  }

  /** A pattern step hands over the same and the pattern's instructions besides. */
  lemma PatternsAddInstructions(env: Env, s: WfState, step: Step)
    requires step.stepType.PatternStep? && Dispatch(env, s, step).1.kind.LlmCall?
    ensures var (_, o) := Dispatch(env, s, step);
            && env.patterns.Some? && "pattern_id" in step.config && step.config["pattern_id"].Text?
            && step.config["pattern_id"].s in env.patterns.value
            && "pattern_instructions" in o.config
            && o.config["pattern_instructions"] == Arr([env.patterns.value[step.config["pattern_id"].s]])
            && KeptBut(step.config, o.config, {"pattern_instructions"})
  {
    hide Truthy;
    NothingSaid();
  }

  /** A council step asks its council for the problem it names, or else for the one in the context. */
  lemma CouncilsAreGivenAProblem(env: Env, s: WfState, step: Step)
    requires step.stepType.CouncilStep? && Dispatch(env, s, step).1.kind.Council?
    ensures var (_, o) := Dispatch(env, s, step);
            && "council_id" in step.config && o.config.Keys == {"council_id", "problem"}
            && o.config["council_id"] == step.config["council_id"]
            && ("problem" in step.config && Truthy(step.config["problem"]) ==>
                  o.config["problem"] == step.config["problem"])
            && (!("problem" in step.config && Truthy(step.config["problem"])) ==>
                  o.config["problem"] == if "problem" in s.context then s.context["problem"] else Text(""))
  {
    hide Truthy;
    NothingSaid();
    assert "council_id" != "problem" by { assert "council_id"[0] == 'c' && "problem"[0] == 'p'; }
  }

  /** A condition evaluates its expression, `True` if it has none, over the context and the results so far,
      and tells where it goes. */
  lemma ConditionsEvaluateTheirExpression(env: Env, s: WfState, step: Step, expression: Value)
    requires step.stepType.ConditionStep?
    requires if "expression" in step.config then expression == step.config["expression"] else expression == Text("True")
    ensures var (s', o) := Dispatch(env, s, step);
            var holds := env.evaluate(expression, s.context, s.stepResults);
            && (o.kind.Fail? <==> holds.None?)
            && (holds.Some? ==>
                  var key := if holds.value then "on_success" else "on_failure";
                  o.kind.Continue?
                  && o.nextStepId == Some(if key in step.transitions then step.transitions[key] else END_TARGET)
                  && s'.context == s.context && s'.stepResults == s.stepResults && s'.status == s.status)
  {
  }

  // ---------------------------------------------------------------- the capped loop

  /** What the capped loop goes on with after outcome `o`: `wf`, and the errors noted for the agent. */
  ghost predicate LoopGoesOn(env: Env, reg: Registry, a: Answer, s: WfState, o: Outcome, wf: WfState,
                             errors: seq<string>) {
    match o.kind
    case Continue => wf == s && errors == []
    case LlmCall => GoesOnFromReply(env, reg, a.llm, s, o, wf) && errors == []
    case Council => GoesOnFromReply(env, reg, a.council, s, o, wf) && errors == []
    case ToolExecute =>
      if a.inline.Some? then ResultRecorded(env, s, o.stepId, a.inline.value, wf) && errors == []
      else
        && a.dispatch.Rejected? && errors == [a.dispatch.message]
        && FailureRecorded(reg, s, o.stepId, "tool_execute dispatched zero jobs", "failed", wf)
    case SubWorkflow => GoesIntoChild(reg, s, o, a.freshId, wf) && errors == []
    case _ => false
  }

  /** Where the capped loop stops at outcome `o`, and why. */
  predicate LoopStops(a: Answer, o: Outcome, reason: Reason) {
    match o.kind
    case Done => reason == Finished
    case Fail => reason == StepFailed
    case AwaitInput => reason == InputPending
    case ToolExecute => a.inline.None? && a.dispatch.Submitted? && reason == ToolPending
    case _ => false
  }

  lemma ToolReaction(cfg: Config, reg: Registry, a: Answer, s: WfState, o: Outcome)
    requires o.kind.ToolExecute?
    ensures match React(cfg, reg, a, s, o)
            case Proceed(wf, errors) => LoopGoesOn(cfg.env, reg, a, s, o, wf, errors)
            case Stop(reason) => LoopStops(a, o, reason) && a.inline.None? && !a.dispatch.Rejected?
  {
    hide ResultRecorded, FailureRecorded, ResumeWithResult, FailStep;
    if a.inline.Some? { ResultIsRecorded(cfg.env, s, o.stepId, a.inline.value); }
    FailureIsRecorded(reg, s, o.stepId, "tool_execute dispatched zero jobs");
  }

  lemma ChildReaction(cfg: Config, reg: Registry, a: Answer, s: WfState, o: Outcome)
    requires o.kind.SubWorkflow?
    ensures var r := React(cfg, reg, a, s, o); r.Proceed? && LoopGoesOn(cfg.env, reg, a, s, o, r.wf, r.errors)
  {
    hide FailStep, StartWorkflow, GoesIntoChild, AsksFor;
    var id := if o.workflowId.Some? && Truthy(o.workflowId.value) then o.workflowId.value else Text("");
    AskedId(o, id);
    ChildIsEntered(reg, s, o, a.freshId, id);
  }

  lemma OtherReaction(cfg: Config, reg: Registry, a: Answer, s: WfState, o: Outcome)
    requires !o.kind.SubWorkflow? && !o.kind.ToolExecute?
    ensures match React(cfg, reg, a, s, o)
            case Proceed(wf, errors) => LoopGoesOn(cfg.env, reg, a, s, o, wf, errors)
            case Stop(reason) => !Dispatching(o.kind) || o.kind.AwaitInput?
  {
    hide GoesOnFromReply, AfterReply;
    ReplyGoesOn(cfg, reg, a.llm, s, o);
    ReplyGoesOn(cfg, reg, a.council, s, o);
  }

  lemma ReactionAnswers(cfg: Config, reg: Registry, a: Answer, s: WfState, o: Outcome)
    ensures match React(cfg, reg, a, s, o)
            case Proceed(wf, errors) => LoopGoesOn(cfg.env, reg, a, s, o, wf, errors)
            case Stop(reason) => LoopStops(a, o, reason)
                                 && forall wf, errors :: !LoopGoesOn(cfg.env, reg, a, s, o, wf, errors)
  {
    hide React, GoesOnFromReply, GoesIntoChild, ResultRecorded, FailureRecorded;
    if o.kind.ToolExecute? {
      ToolReaction(cfg, reg, a, s, o);
    } else if o.kind.SubWorkflow? {
      ChildReaction(cfg, reg, a, s, o);
    } else {
      OtherReaction(cfg, reg, a, s, o);
      StopsAsItShould(cfg, reg, a, s, o);
    }
  }

  lemma StopsAsItShould(cfg: Config, reg: Registry, a: Answer, s: WfState, o: Outcome)
    requires !o.kind.SubWorkflow? && !o.kind.ToolExecute?
    ensures React(cfg, reg, a, s, o).Stop? ==> LoopStops(a, o, React(cfg, reg, a, s, o).reason)
  {
    hide AfterReply;
  }

  /** Each iteration of the capped loop stops for the reason its outcome gives, or records its answer as it
      came and goes on from there. */
  lemma IterationAnswers(cfg: Config, reg: Registry, w: World, s: WfState, meta: Record, k: nat, budget: nat)
      returns (wf: WfState, errors: seq<string>)
    requires budget > 0
    ensures var (s', o) := StepOnce(cfg.env, reg, s);
            var r, call := Loop(cfg, reg, w, s, meta, k, budget), StepCall(s.currentStepId, o);
            if LoopGoesOn(cfg.env, reg, w(k), s', o, wf, errors) then
              var rest := Loop(cfg, reg, w, wf, meta, k + 1, budget - 1);
              && r.reason == rest.reason && r.wf == rest.wf && r.meta == rest.meta && r.next == rest.next
              && r.newErrors == errors + rest.newErrors && r.calls == [call] + rest.calls
            else
              && LoopStops(w(k), o, r.reason) && r.wf == s' && r.newErrors == [] && r.calls == [call] && r.next == k + 1
  {
    hide StepOnce, React, LoopGoesOn, LoopStops, ExitMeta;
    var (s', o) := StepOnce(cfg.env, reg, s);
    ReactionAnswers(cfg, reg, w(k), s', o);
    match React(cfg, reg, w(k), s', o)
    case Proceed(next, more) => wf, errors := next, more;
    case Stop(_) => wf, errors := s', [];
  }

  lemma AskedId(o: Outcome, id: Value)
    requires id == if o.workflowId.Some? && Truthy(o.workflowId.value) then o.workflowId.value else Text("")
    ensures AsksFor(o, id)
  {
  }

  /** The loop that has no budget left stops where it stands. */
  lemma LimitStops(cfg: Config, reg: Registry, w: World, s: WfState, meta: Record, k: nat)
    ensures var r := Loop(cfg, reg, w, s, meta, k, 0);
            r.reason == IterationLimit && r.wf == s && r.calls == [] && r.newErrors == [] && r.next == k
  {
  }

  /** The agent completes with its workflow, fails with it or at the limit, and waits in between. */
  lemma LifecycleFollowsReason(r: Reason)
    ensures LifecycleOf(r) == AgentCompleted <==> r == Finished
    ensures LifecycleOf(r) == AgentFailed <==> r == StepFailed || r == IterationLimit
    ensures LifecycleOf(r) == AgentWaiting <==> r == ToolPending || r == InputPending
  {
  }

  // ---------------------------------------------------------------- inline workflows

  /** What the loop of an inline workflow goes on with: no job is dispatched, and a council is passed over. */
  ghost predicate InlineGoesOn(env: Env, reg: Registry, hasExecutor: bool, a: Answer, s: WfState, o: Outcome,
                               wf: WfState) {
    match o.kind
    case Continue => wf == s
    case Council => wf == s
    case LlmCall => GoesOnFromReply(env, reg, a.llm, s, o, wf)
    case ToolExecute => hasExecutor && a.inline.Some? && ResultRecorded(env, s, o.stepId, a.inline.value, wf)
    case SubWorkflow => GoesIntoChild(reg, s, o, a.freshId, wf)
    case _ => false
  }

  predicate InlineStops(hasExecutor: bool, a: Answer, o: Outcome, end: InlineEnd) {
    match o.kind
    case Done => end == InlineCompleted
    case Fail => end == InlineFailed
    case AwaitInput => end == InlineInput
    case ToolExecute => !(hasExecutor && a.inline.Some?) && end == InlineDeferred
    case _ => false
  }

  /** The same for inline workflows: and each tool step's configuration is handed over exactly when it is
      reached and there is an executor. */
  lemma InlineIterationAnswers(env: Env, reg: Registry, hasExecutor: bool, w: World, s: WfState, k: nat, budget: nat)
      returns (wf: WfState)
    requires budget > 0
    ensures var (s', o) := StepOnce(env, reg, s);
            var r := InlineLoop(env, reg, hasExecutor, w, s, k, budget);
            var handed := if o.kind.ToolExecute? && hasExecutor then [o.config] else [];
            if InlineGoesOn(env, reg, hasExecutor, w(k), s', o, wf) then
              var rest := InlineLoop(env, reg, hasExecutor, w, wf, k + 1, budget - 1);
              r.end == rest.end && r.wf == rest.wf && r.handed == handed + rest.handed
            else InlineStops(hasExecutor, w(k), o, r.end) && r.wf == s' && r.handed == handed
  {
    hide StepOnce, ResultRecorded, FailureRecorded, GoesIntoChild, ResumeWithResult, FailStep, AfterReply,
         StartWorkflow, GoesOnFromReply, AsksFor;
    var (s', o) := StepOnce(env, reg, s);
    var a := w(k);
    ReplyGoesOn(Config(env, None), reg, a.llm, s', o);
    if a.inline.Some? { ResultIsRecorded(env, s', o.stepId, a.inline.value); }
    var id := if o.workflowId.Some? && Truthy(o.workflowId.value) then o.workflowId.value else Text("");
    AskedId(o, id);
    ChildIsEntered(reg, s', o, a.freshId, id);
    var next := NextState(env, reg, hasExecutor, a, s', o);
    wf := if next.Some? then next.value else s';
  }

  /** The name a directive gives may carry the tool adapter's prefix, or the shorter `workflow.`. */
  lemma DirectiveNames(id: string)
    ensures DirectiveTarget("workflow.execute." + id) == id
    ensures !("execute." <= id) ==> DirectiveTarget("workflow." + id) == id
    ensures !("workflow." <= id) ==> DirectiveTarget(id) == id
  {
    var long, short := "workflow.execute." + id, "workflow." + id;
    assert EXECUTE <= long && long[|EXECUTE|..] == id;
    assert EXECUTE[..|WORKFLOW|] == WORKFLOW && EXECUTE[|WORKFLOW|..] == "execute.";
    if EXECUTE <= short {
      assert short[|WORKFLOW|..] == id;
      assert short[|WORKFLOW|..|EXECUTE|] == EXECUTE[|WORKFLOW|..];
      assert id[..|EXECUTE| - |WORKFLOW|] == short[|WORKFLOW|..|EXECUTE|];
    }
    assert WORKFLOW <= short && short[|WORKFLOW|..] == id;
    if EXECUTE <= id { assert id[..|WORKFLOW|] == WORKFLOW; }
  }

  // ---------------------------------------------------------------- resuming

  /** The result of a job is recorded under the step that submitted it, as an inline result would be. */
  lemma JobResultIsRecorded(cfg: Config, reg: Registry, meta: Record, s: WfState, o: Outcome, result: Value,
                            input: string, verdict: Verdict) returns (wf: WfState)
    ensures Resume(cfg, reg, SetToolResult(ExitMeta(cfg, meta, ToolPending, s, o), result), input, verdict) == GoOn(wf)
    ensures ResultRecorded(cfg.env, s, o.stepId, result, wf)
  {
    hide ResultRecorded, Resume, ResumeWithResult, ExitMeta;
    ToolResumeIsInline(cfg, reg, meta, s, o, result, input, verdict);
    ResultIsRecorded(cfg.env, s, o.stepId, result);
    wf := ResumeWithResult(cfg.env, s, o.stepId, result);
  }

  /** Before any result has come in, resuming records the empty result the suspension left. */
  lemma EarlyResumeRecordsNothing(cfg: Config, reg: Registry, meta: Record, s: WfState, o: Outcome,
                                  input: string, verdict: Verdict) returns (wf: WfState)
    ensures Resume(cfg, reg, ExitMeta(cfg, meta, ToolPending, s, o), input, verdict) == GoOn(wf)
    ensures ResultRecorded(cfg.env, s, o.stepId, Dict(map[]), wf)
  {
    hide ResultRecorded, Resume, ResumeWithResult;
    var frozen := ExitMeta(cfg, meta, ToolPending, s, o);
    assert SetToolResult(frozen, Dict(map[])) == frozen;
    wf := JobResultIsRecorded(cfg, reg, meta, s, o, Dict(map[]), input, verdict);
  }

  /** The user's reply to a waiting workflow: without an interaction manager the message itself is filed;
      with one, what it made of an accepted reply is, and an expired request fails the waiting step. */
  lemma UserReplyIsFiled(cfg: Config, reg: Registry, meta: Record, s: WfState, o: Outcome, input: string,
                         verdict: Verdict)
    ensures var r := Resume(cfg, reg, ExitMeta(cfg, meta, InputPending, s, o), input, verdict);
            var place := if s.currentStepId.Some? then s.currentStepId.value else "";
            var asked := cfg.requestId.Some? && cfg.requestId.value(s.workflowId, o.stepId) != "";
            && (!asked ==> r.GoOn? && ReplyFiled(cfg.env, s, place, input, r.wf))
            && (asked && verdict.Accepted? ==> r.GoOn? && ReplyFiled(cfg.env, s, place, verdict.serialised, r.wf))
            && (asked && verdict.Expired? ==>
                  r.GoOn? && FailureRecorded(reg, s, o.stepId, "timed out waiting for user input", "timeout", r.wf))
            && (asked && verdict.Refused? ==> r.StayWaiting?)
  {
    hide ReplyFiled, FailureRecorded, ResumeWithInput, ResumeWithResult, HandleTimeout, Freeze, Restore;
    RestoreInvertsFreeze(s);
    FrozenIsNotNull(s);
    WaitingKeys(cfg, meta, s, o);
    var place := if s.currentStepId.Some? then s.currentStepId.value else "";
    InputIsFiled(cfg.env, s, input, None, place);
    if verdict.Accepted? { InputIsFiled(cfg.env, s, verdict.serialised, None, place); }
    FailureIsRecorded(reg, s, o.stepId, "");
  }

  /** What a workflow that waits for its user leaves in the metadata. */
  lemma WaitingKeys(cfg: Config, meta: Record, s: WfState, o: Outcome)
    ensures var left := ExitMeta(cfg, meta, InputPending, s, o);
            && Get(left, "workflow_state", Null) == Freeze(s)
            && Get(left, "workflow_waiting_for", Null) == Text("user_input")
            && Get(left, "workflow_waiting_step_id", Null) == Text(o.stepId)
            && (cfg.requestId.Some? ==>
                  && Get(left, "workflow_interaction_request_id", Null) ==
                      Text(cfg.requestId.value(s.workflowId, o.stepId))
                  && Get(left, "workflow_interaction_prompt", Null)
                     == Get(o.config, "prompt", Text("Please provide input:"))
                  && Get(left, "workflow_interaction_schema", Null) == Get(o.config, "input_schema", Dict(map[])))
  {
    hide Freeze;
  }

  /** A refused reply changes the frozen state at most in form: it restores to the same state, and all
      other metadata stays. */
  lemma RefusalKeepsTheState(cfg: Config, reg: Registry, meta: Record, input: string, verdict: Verdict)
    requires Resume(cfg, reg, meta, input, verdict).StayWaiting?
    ensures var kept := Resume(cfg, reg, meta, input, verdict).meta;
            && "workflow_state" in meta && Restore(meta["workflow_state"]).Some?
            && kept == meta["workflow_state" := Freeze(Restore(meta["workflow_state"]).value)]
            && Restore(kept["workflow_state"]) == Restore(meta["workflow_state"])
  {
    hide Restore, Freeze, ResumeWithInput, ResumeWithResult, HandleTimeout;
    RestoreInvertsFreeze(Restore(meta["workflow_state"]).value);
  }

  /** The metadata keys a run of the loop may write. */
  const SUSPENSION_KEYS := {"workflow_state", "workflow_waiting_for", "workflow_last_step_id", "workflow_last_result",
                            "workflow_waiting_step_id", "workflow_interaction_request_id",
                            "workflow_interaction_prompt", "workflow_interaction_schema"}

  /** A run that ends clears the frozen state and touches nothing else; one that is suspended writes its own keys
      only. */
  lemma {:induction false} OtherMetadataStays(cfg: Config, reg: Registry, w: World, s: WfState, meta: Record, k: nat,
                                              budget: nat)
    ensures var r := Loop(cfg, reg, w, s, meta, k, budget);
            && r.meta - SUSPENSION_KEYS == meta - SUSPENSION_KEYS
            && (LifecycleOf(r.reason) != AgentWaiting ==>
                  r.meta == meta - {"workflow_state", "workflow_waiting_for"})
    decreases budget
  {
    hide StepOnce, React, Freeze;
    if budget > 0 {
      var (s', o) := StepOnce(cfg.env, reg, s);
      match React(cfg, reg, w(k), s', o)
      case Stop(_) =>
      case Proceed(wf, errors) => OtherMetadataStays(cfg, reg, w, wf, meta, k + 1, budget - 1);
    }
  }

  /** A live workflow with no step left completes; one whose definition or step is unknown fails. Neither
      touches what was recorded. */
  lemma StepsThatAreNotThere(env: Env, reg: Registry, s: WfState)
    requires s.status in {Pending, Running, WaitingForInput}
    ensures var (s', o) := StepOnce(env, reg, s);
            var known := s.currentStepId.Some? && s.workflowId in reg
                && s.currentStepId.value in reg[s.workflowId].steps;
            && (s.currentStepId.None? ==> o.kind.Done? && s' == s.(status := Completed))
            && (s.currentStepId.Some? && !known ==>
                  o.kind.Fail? && o.error.Some? && s' == s.(status := Failed, error := o.error))
  {
    hide Dispatch;
  }

  /** An agent that is not suspended starts afresh; a frozen state that cannot be read raises. */
  lemma ResumeNeedsAFrozenState(cfg: Config, reg: Registry, meta: Record, input: string, verdict: Verdict)
    ensures Resume(cfg, reg, meta, input, verdict).StartAfresh? <==> Get(meta, "workflow_state", Null).Null?
    ensures Resume(cfg, reg, meta, input, verdict).Malformed? <==>
            !Get(meta, "workflow_state", Null).Null? && Restore(Get(meta, "workflow_state", Null)).None?
  {
    hide Restore, ResumeWithInput, ResumeWithResult, HandleTimeout, Freeze;
  }
}
