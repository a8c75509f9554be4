/** The stateless workflow engine: a pure navigator over a graph of steps. */
module WorkflowEngine {
  import opened Wrappers
  import opened Digraph

  // ---------------------------------------------------------------- data

  /** A JSON-like value, as kept in configurations, contexts and step results. */
  datatype Value =
    | Null
    | Bool(b: bool)
    | Num(n: int)
    | Text(s: string)
    | Arr(items: seq<Value>)
    | Dict(entries: map<string, Value>)

  type Record = map<string, Value>

  datatype StepType =
    | LlmStep | ToolStep | SubWorkflowStep | UserInputStep | ConditionStep | PatternStep | CouncilStep
    | OtherStep(name: string)

  datatype Step = Step(stepId: string, stepType: StepType, config: Record, transitions: map<string, string>)

  datatype Definition = Definition(steps: map<string, Step>, startStep: string)

  type Registry = map<string, Definition>

  datatype Status = Pending | Running | WaitingForInput | Completed | Failed | Cancelled

  datatype WfState = WfState(
    executionId: string, workflowId: string, status: Status, currentStepId: Option<string>,
    context: Record, stepResults: Record, error: Option<string>)

  datatype Kind = LlmCall | ToolExecute | SubWorkflow | AwaitInput | Continue | Done | Fail | Council

  datatype Outcome = Outcome(
    kind: Kind, stepId: string, nextStepId: Option<string>, config: Record, workflowId: Option<Value>,
        error: Option<string>)

  /** What the engine consults but does not define: printing of values, evaluation of a
      condition (`None` when it raises), JSON decoding, and the two optional registries. */
  datatype Env = Env(
    show: Value -> string,
    evaluate: (Value, Record, Record) -> Option<bool>,
    parseJson: string -> Option<Value>,
    patterns: Option<Record>,
    councils: Option<set<string>>)

  const END_TARGET := "__end__"

  function Truthy(v: Value): bool {
    match v
    case Null => false
    case Bool(b) => b
    case Num(n) => n != 0
    case Text(s) => s != ""
    case Arr(items) => items != []
    case Dict(entries) => entries != map[]
  }

  function Get(r: Record, key: string, default: Value): Value {
    if key in r then r[key] else default
  }

  predicate IsTerminal(s: WfState) {
    s.status.Completed? || s.status.Failed? || s.status.Cancelled?
  }

  function Plain(kind: Kind, stepId: string): Outcome {
    Outcome(kind, stepId, None, map[], None, None)
  }

  // ---------------------------------------------------------------- transitions

  function StartWorkflow(reg: Registry, executionId: string, workflowId: Value,
                         context: Record): Result<WfState, string> {
    if workflowId.Text? && workflowId.s in reg then
      Ok(WfState(executionId, workflowId.s, Running, Some(reg[workflowId.s].startStep), context, map[], None))
    else
      Err("workflow not found in registry")
  }

  function Complete(s: WfState): (WfState, Outcome) {
    (s.(status := Completed, currentStepId := None), Plain(Done, ""))
  }

  function FailWith(s: WfState, error: string): (WfState, Outcome) {
    (s.(status := Failed, error := Some(error)), Plain(Fail, "").(error := Some(error)))
  }

  /** Where a transition leads: a missing key means the end. */
  function Target(step: Step, key: string): Option<string> {
    if key in step.transitions && step.transitions[key] != END_TARGET then Some(step.transitions[key]) else None
  }

  function Advance(s: WfState, step: Step, key: string, o: Outcome): (WfState, Outcome) {
    (s.(currentStepId := Target(step, key)), o)
  }

  function StepOnce(env: Env, reg: Registry, s: WfState): (WfState, Outcome) {
    if IsTerminal(s) then
      (s, Plain(if s.status.Completed? then Done else Fail, "").(error := s.error))
    else if s.currentStepId.None? then Complete(s)
    else if s.workflowId !in reg then FailWith(s, "workflow not found in registry")
    else if s.currentStepId.value !in reg[s.workflowId].steps then FailWith(s, "current step not found in workflow")
    else Dispatch(env, s, reg[s.workflowId].steps[s.currentStepId.value])
  }

  /** The handler table. */
  function Dispatch(env: Env, s: WfState, step: Step): (WfState, Outcome) {
    match step.stepType
    case LlmStep => Advance(s, step, "on_success", Plain(LlmCall, step.stepId).(config := step.config))
    case ToolStep => Advance(s, step, "on_success", Plain(ToolExecute, step.stepId).(config := step.config))
    case SubWorkflowStep => HandleSubWorkflow(s, step)
    case UserInputStep =>
      (s.(status := WaitingForInput, currentStepId := Target(step, "on_success")),
       Plain(AwaitInput, step.stepId).(config := step.config))
    case ConditionStep => HandleCondition(env, s, step)
    case PatternStep => HandlePattern(env, s, step)
    case CouncilStep => HandleCouncil(env, s, step)
    case OtherStep(_) => FailWith(s, "unknown step type")
  }

  function HandleSubWorkflow(s: WfState, step: Step): (WfState, Outcome) {
    var id := Get(step.config, "workflow_id", Null);
    if id.Null? then FailWith(s, "sub_workflow step missing config.workflow_id")
    else Advance(s, step, "on_success", Plain(SubWorkflow, step.stepId).(config := step.config, workflowId := Some(id)))
  }

  function HandleCondition(env: Env, s: WfState, step: Step): (WfState, Outcome) {
    match env.evaluate(Get(step.config, "expression", Text("True")), s.context, s.stepResults)
    case None => FailWith(s, "condition evaluation failed")
    case Some(holds) =>
      var key := if holds then "on_success" else "on_failure";
      Advance(s, step, key,
              Plain(Continue, step.stepId).(nextStepId :=
                                            Some(if key in step.transitions then step.transitions[key]
                                                 else END_TARGET)))
  }

  function HandlePattern(env: Env, s: WfState, step: Step): (WfState, Outcome) {
    var id := Get(step.config, "pattern_id", Null);
    if !Truthy(id) then FailWith(s, "apply_pattern step missing config.pattern_id")
    else if env.patterns.None? then FailWith(s, "no pattern_registry configured")
    else if !id.Text? || id.s !in env.patterns.value then FailWith(s, "pattern not found in registry")
    else
      Advance(s, step, "on_success",
              Plain(LlmCall, step.stepId).(config :=
                                           step.config["pattern_instructions" := Arr([env.patterns.value[id.s]])]))
  }

  function HandleCouncil(env: Env, s: WfState, step: Step): (WfState, Outcome) {
    var id := Get(step.config, "council_id", Null);
    if !Truthy(id) then FailWith(s, "council_deliberate step missing config.council_id")
    else if env.councils.None? then FailWith(s, "no council_registry configured")
    else if !id.Text? || id.s !in env.councils.value then FailWith(s, "council not found in registry")
    else
      var asked := Get(step.config, "problem", Null);
      var problem := if Truthy(asked) then asked else Get(s.context, "problem", Text(""));
      Advance(s, step, "on_success",
              Plain(Council, step.stepId).(config := map["council_id" := id, "problem" := problem]))
  }

  function ResumeWithResult(env: Env, s: WfState, stepId: string, result: Value): WfState {
    var said := if result.Dict? && Truthy(Get(result.entries, "message", Null))
                then result.entries["message"] else result;
    s.(status := Running,
       context := s.context["result" := result]["last_output" := Text(env.show(said))],
       stepResults := s.stepResults[stepId := result])
  }

  /** `stepId` is `None` when the caller names no step: then the current step stands in. */
  function ResumeWithInput(env: Env, s: WfState, input: string, stepId: Option<string>): WfState {
    var source := if stepId.Some? && stepId.value != "" then stepId.value
                  else if s.currentStepId.Some? then s.currentStepId.value else "";
    var parsed := match env.parseJson(input) case Some(v) => v case None => Text(input);
    s.(status := Running,
       context := s.context["_user_input" := Text(input)],
       stepResults := s.stepResults[source := Dict(map["result" := parsed])])
  }

  function FailureRecord(error: string, status: string): Value {
    Dict(map["error" := Text(error), "status" := Text(status)])
  }

  /** Shared by `fail_step` and `handle_timeout`: record, then follow `on_failure` if there is one. */
  function FollowFailure(reg: Registry, s: WfState, stepId: string, error: string, status: string): (WfState, Outcome) {
    var noted := s.(stepResults := s.stepResults[stepId := FailureRecord(error, status)]);
    if s.workflowId !in reg || stepId !in reg[s.workflowId].steps
       || "on_failure" !in reg[s.workflowId].steps[stepId].transitions then
      FailWith(noted, error)
    else
      var target := reg[s.workflowId].steps[stepId].transitions["on_failure"];
      if target == END_TARGET then Complete(noted)
      else (noted.(status := Running, currentStepId := Some(target)), Plain(Continue, "").(nextStepId := Some(target)))
  }

  function FailStep(reg: Registry, s: WfState, stepId: string, error: string): (WfState, Outcome) {
    FollowFailure(reg, s, stepId, error, "failed")
  }

  function HandleTimeout(reg: Registry, s: WfState, stepId: string): (WfState, Outcome) {
    FollowFailure(reg, s, stepId, "timed out waiting for user input", "timeout")
  }

  // ---------------------------------------------------------------- what an answer leaves

  /** `after` differs from `before` under `keys` at most. */
  ghost predicate KeptBut(before: Record, after: Record, keys: set<string>) {
    forall k :: k !in keys ==> (k in after <==> k in before) && (k in before ==> after[k] == before[k])
  }

  /** What a result says: its message if it has one worth printing, and else the result itself. */
  ghost predicate Says(result: Value, said: Value) {
    if result.Dict? && "message" in result.entries && Truthy(result.entries["message"])
    then said == result.entries["message"] else said == result
  }

  /** `wf` is `s` once step `id` has the result `v`: recorded as it is, and told to the context. */
  ghost predicate ResultRecorded(env: Env, s: WfState, id: string, v: Value, wf: WfState) {
    && wf.executionId == s.executionId && wf.workflowId == s.workflowId && wf.error == s.error
    && wf.currentStepId == s.currentStepId && wf.status.Running?
    && id in wf.stepResults && wf.stepResults[id] == v && KeptBut(s.stepResults, wf.stepResults, {id})
    && "result" in wf.context && wf.context["result"] == v
    && "last_output" in wf.context
    && (exists said :: Says(v, said) && wf.context["last_output"] == Text(env.show(said)))
    && KeptBut(s.context, wf.context, {"result", "last_output"})
  }

  /** `wf` is `s` once a reply is filed under `id`: decoded if it is JSON, and told to the context as it came. */
  ghost predicate ReplyFiled(env: Env, s: WfState, id: string, text: string, wf: WfState) {
    && wf.executionId == s.executionId && wf.workflowId == s.workflowId && wf.error == s.error
    && wf.currentStepId == s.currentStepId && wf.status.Running?
    && id in wf.stepResults && KeptBut(s.stepResults, wf.stepResults, {id})
    && wf.stepResults[id].Dict? && wf.stepResults[id].entries.Keys == {"result"}
    && (env.parseJson(text).Some? ==> wf.stepResults[id].entries["result"] == env.parseJson(text).value)
    && (env.parseJson(text).None? ==> wf.stepResults[id].entries["result"] == Text(text))
    && "_user_input" in wf.context && wf.context["_user_input"] == Text(text)
    && KeptBut(s.context, wf.context, {"_user_input"})
  }

  /** The failure edge written at the step stored under `id`, if there is such a step. */
  predicate FailureEdge(reg: Registry, s: WfState, id: string, target: string) {
    && s.workflowId in reg && id in reg[s.workflowId].steps
    && "on_failure" in reg[s.workflowId].steps[id].transitions
    && reg[s.workflowId].steps[id].transitions["on_failure"] == target
  }

  /** `wf` is `s` once step `id` has failed: the failure recorded, and followed if an edge says where to. */
  ghost predicate FailureRecorded(reg: Registry, s: WfState, id: string, error: string, status: string, wf: WfState) {
    && wf.executionId == s.executionId && wf.workflowId == s.workflowId && wf.context == s.context
    && id in wf.stepResults && KeptBut(s.stepResults, wf.stepResults, {id})
    && wf.stepResults[id].Dict? && wf.stepResults[id].entries.Keys == {"error", "status"}
    && wf.stepResults[id].entries["error"] == Text(error) && wf.stepResults[id].entries["status"] == Text(status)
    && (forall target :: FailureEdge(reg, s, id, target) ==>
          && wf.error == s.error
          && (if target == END_TARGET then wf.status.Completed? && wf.currentStepId.None?
              else wf.status.Running? && wf.currentStepId == Some(target)))
    && ((forall target :: !FailureEdge(reg, s, id, target)) ==>
          wf.status.Failed? && wf.error == Some(error) && wf.currentStepId == s.currentStepId)
  }

  /** A workflow just started: at its first step, with nothing recorded. */
  ghost predicate Fresh(reg: Registry, wf: string, context: Record, s: WfState) {
    && wf in reg && s.workflowId == wf && s.status.Running? && s.currentStepId == Some(reg[wf].startStep)
    && s.context == context && s.stepResults == map[] && s.error.None?
  }

  lemma ResultIsRecorded(env: Env, s: WfState, id: string, v: Value)
    ensures ResultRecorded(env, s, id, v, ResumeWithResult(env, s, id, v))
  {
    hide Truthy;
    assert "result" != "last_output" by { assert "result"[0] == 'r' && "last_output"[0] == 'l'; }
    NothingSaid();
    var said := if v.Dict? && Truthy(Get(v.entries, "message", Null)) then v.entries["message"] else v;
    assert Says(v, said);
  }

  lemma NothingSaid()
    ensures !Truthy(Null)
  {
  }

  lemma InputIsFiled(env: Env, s: WfState, text: string, stepId: Option<string>, id: string)
    requires if stepId.Some? && stepId.value != "" then id == stepId.value
             else id == (if s.currentStepId.Some? then s.currentStepId.value else "")
    ensures ReplyFiled(env, s, id, text, ResumeWithInput(env, s, text, stepId))
  {
  }

  lemma FailureIsRecorded(reg: Registry, s: WfState, id: string, error: string)
    ensures FailureRecorded(reg, s, id, error, "failed", FailStep(reg, s, id, error).0)
    ensures FailureRecorded(reg, s, id, "timed out waiting for user input", "timeout", HandleTimeout(reg, s, id).0)
  {
    FollowingRecords(reg, s, id, error, "failed");
    FollowingRecords(reg, s, id, "timed out waiting for user input", "timeout");
  }

  lemma FollowingRecords(reg: Registry, s: WfState, id: string, error: string, status: string)
    ensures FailureRecorded(reg, s, id, error, status, FollowFailure(reg, s, id, error, status).0)
  {
    assert "error" != "status" by { assert "error"[0] == 'e' && "status"[0] == 's'; }
    var record := FailureRecord(error, status);
    assert record.entries.Keys == {"error", "status"};
    if s.workflowId in reg && id in reg[s.workflowId].steps && "on_failure" in reg[s.workflowId].steps[id].transitions {
      assert FailureEdge(reg, s, id, reg[s.workflowId].steps[id].transitions["on_failure"]);
    }
  }

  lemma StartIsFresh(reg: Registry, executionId: string, id: Value, context: Record)
    ensures var s := StartWorkflow(reg, executionId, id, context);
            && (s.Ok? <==> id.Text? && id.s in reg)
            && (s.Ok? ==> Fresh(reg, id.s, context, s.value) && s.value.executionId == executionId)
  {
  }

  // ---------------------------------------------------------------- definitions

  function Listed(target: Option<string>): seq<string> {
    if target.Some? then [target.value] else []
  }

  /** Where a failure of the step stored under `id` leads: the engine looks the step up once more,
      by its own `step_id`, which need not be `id`. */
  function FailureTarget(d: Definition, id: string): Option<string>
    requires id in d.steps
  {
    var own := d.steps[id].stepId;
    if own in d.steps then Target(d.steps[own], "on_failure") else None
  }

  /** The places the engine can go from the step stored under `id`. */
  function Successors(d: Definition, id: string): seq<string>
    requires id in d.steps
  {
    Listed(Target(d.steps[id], "on_success"))
    + Listed(if d.steps[id].stepType.ConditionStep? then Target(d.steps[id], "on_failure") else FailureTarget(d, id))
  }

  function StepGraph(d: Definition): Graph {
    map id | id in d.steps :: Successors(d, id)
  }

  /** What the field validators of a definition guarantee: a start step, non-empty step ids, and no
      dangling target. Nothing ties a step's id to the key it is stored under. */
  ghost predicate WellFormed(d: Definition) {
    && d.startStep in d.steps
    && (forall id :: id in d.steps ==> d.steps[id].stepId != "")
    && (forall id, key :: id in d.steps && key in d.steps[id].transitions ==>
          d.steps[id].transitions[key] == END_TARGET || d.steps[id].transitions[key] in d.steps)
  }

  ghost predicate NoSubWorkflows(d: Definition) {
    forall id :: id in d.steps ==> !d.steps[id].stepType.SubWorkflowStep?
  }

  /** The state stands at a step of its own registered workflow, or past its last step. */
  ghost predicate Located(reg: Registry, s: WfState) {
    && s.workflowId in reg
    && (s.currentStepId.Some? ==> s.currentStepId.value in reg[s.workflowId].steps)
  }

  /** How many further `StepOnce` calls can still dispatch a step. */
  function StepsLeft(rank: map<string, nat>, s: WfState): nat {
    if IsTerminal(s) || s.currentStepId.None? || s.currentStepId.value !in rank then 0
    else rank[s.currentStepId.value] + 1
  }

  predicate Dispatching(k: Kind) {
    !k.Done? && !k.Fail?
  }

  // ---------------------------------------------------------------- properties

  lemma TargetIsEdge(d: Definition, id: string)
    requires WellFormed(d) && id in d.steps
    ensures var t := Target(d.steps[id], "on_success"); t.Some? ==>
            Edge(StepGraph(d), id, t.value) && t.value in d.steps
    ensures d.steps[id].stepType.ConditionStep? ==>
              var t := Target(d.steps[id], "on_failure"); t.Some? ==>
                  Edge(StepGraph(d), id, t.value) && t.value in d.steps
    ensures !d.steps[id].stepType.ConditionStep? ==>
              var t := FailureTarget(d, id); t.Some? ==> Edge(StepGraph(d), id, t.value) && t.value in d.steps
  {
  }

  /** Where the state stands after leaving step `id`: past the end or strictly lower. */
  ghost predicate Below(reg: Registry, rank: map<string, nat>, s: WfState, id: string) {
    && Located(reg, s)
    && (s.currentStepId.Some? ==> s.currentStepId.value in rank && id in rank && rank[s.currentStepId.value] < rank[id])
  }

  /** The keys of the transitions a step's own handler can take. */
  predicate Takes(step: Step, key: string) {
    key == "on_success" || (key == "on_failure" && step.stepType.ConditionStep?)
  }

  lemma AdvanceGoesBelow(reg: Registry, rank: map<string, nat>, s: WfState, key: string)
    requires Located(reg, s) && s.currentStepId.Some? && Takes(reg[s.workflowId].steps[s.currentStepId.value], key)
    requires WellFormed(reg[s.workflowId]) && Ranked(StepGraph(reg[s.workflowId]), rank)
    ensures var step := reg[s.workflowId].steps[s.currentStepId.value];
            Below(reg, rank, s.(currentStepId := Target(step, key)), s.currentStepId.value)
  {
    hide WellFormed, StepGraph;
    var d, id := reg[s.workflowId], s.currentStepId.value;
    TargetIsEdge(d, id);
    InGraph(d, id);
    if Target(d.steps[id], key).Some? { InGraph(d, Target(d.steps[id], key).value); }
  }

  lemma InGraph(d: Definition, id: string)
    ensures id in StepGraph(d) <==> id in d.steps
  {
  }

  /** `s'` is `s` moved along one transition of `step`, at most its status changed. */
  ghost predicate MovedAlong(s: WfState, s': WfState, step: Step) {
    && s' == s.(status := s'.status, currentStepId := s'.currentStepId)
    && (s'.status == s.status || s'.status == WaitingForInput)
    && exists key :: Takes(step, key) && s'.currentStepId == Target(step, key)
  }

  ghost predicate HandlerShape(s: WfState, step: Step, s': WfState, o: Outcome) {
    if Dispatching(o.kind) then
      && o.stepId == step.stepId && MovedAlong(s, s', step)
      && (o.kind.SubWorkflow? ==> step.stepType.SubWorkflowStep?)
      && (o.kind.Continue? <==> step.stepType.ConditionStep?)
    else o.kind.Fail? && s' == s.(status := Failed, error := s'.error)
  }

  lemma AdvanceShape(s: WfState, step: Step, key: string, o: Outcome)
    requires Takes(step, key) && Dispatching(o.kind) && o.stepId == step.stepId
    requires o.kind.SubWorkflow? ==> step.stepType.SubWorkflowStep?
    requires o.kind.Continue? <==> step.stepType.ConditionStep?
    ensures HandlerShape(s, step, Advance(s, step, key, o).0, Advance(s, step, key, o).1)
  {
  }

  lemma ConditionShape(env: Env, s: WfState, step: Step)
    requires step.stepType.ConditionStep?
    ensures HandlerShape(s, step, HandleCondition(env, s, step).0, HandleCondition(env, s, step).1)
  {
    match env.evaluate(Get(step.config, "expression", Text("True")), s.context, s.stepResults)
    case None =>
    case Some(holds) =>
      var key := if holds then "on_success" else "on_failure";
      AdvanceShape(s, step, key, HandleCondition(env, s, step).1);
  }

  lemma PatternShape(env: Env, s: WfState, step: Step)
    requires step.stepType.PatternStep?
    ensures HandlerShape(s, step, HandlePattern(env, s, step).0, HandlePattern(env, s, step).1)
  {
    hide Truthy, Target, IsTerminal;
    if HandlePattern(env, s, step).1.kind.LlmCall? {
      AdvanceShape(s, step, "on_success", HandlePattern(env, s, step).1);
    }
  }

  lemma CouncilShape(env: Env, s: WfState, step: Step)
    requires step.stepType.CouncilStep?
    ensures HandlerShape(s, step, HandleCouncil(env, s, step).0, HandleCouncil(env, s, step).1)
  {
    hide Truthy, Target, IsTerminal;
    if HandleCouncil(env, s, step).1.kind.Council? {
      AdvanceShape(s, step, "on_success", HandleCouncil(env, s, step).1);
    }
  }

  /** Every handler either moves along a transition of its step, naming that step, or fails the run. */
  lemma DispatchShape(env: Env, s: WfState, step: Step)
    ensures HandlerShape(s, step, Dispatch(env, s, step).0, Dispatch(env, s, step).1)
  {
    hide HandlerShape, HandleCondition, HandlePattern, HandleCouncil, HandleSubWorkflow;
    match step.stepType
    case ConditionStep => ConditionShape(env, s, step);
    case PatternStep => PatternShape(env, s, step);
    case CouncilStep => CouncilShape(env, s, step);
    case SubWorkflowStep => SubWorkflowShape(s, step);
    case LlmStep => AdvanceShape(s, step, "on_success", Dispatch(env, s, step).1);
    case ToolStep => AdvanceShape(s, step, "on_success", Dispatch(env, s, step).1);
    case UserInputStep => InputShape(env, s, step);
    case OtherStep(_) => FailureShape(s, step, "unknown step type");
  }

  lemma SubWorkflowShape(s: WfState, step: Step)
    requires step.stepType.SubWorkflowStep?
    ensures HandlerShape(s, step, HandleSubWorkflow(s, step).0, HandleSubWorkflow(s, step).1)
  {
    if HandleSubWorkflow(s, step).1.kind.SubWorkflow? {
      AdvanceShape(s, step, "on_success", HandleSubWorkflow(s, step).1);
    }
  }

  lemma InputShape(env: Env, s: WfState, step: Step)
    requires step.stepType.UserInputStep?
    ensures HandlerShape(s, step, Dispatch(env, s, step).0, Dispatch(env, s, step).1)
  {
    assert Takes(step, "on_success");
  }

  lemma FailureShape(s: WfState, step: Step, error: string)
    ensures HandlerShape(s, step, FailWith(s, error).0, FailWith(s, error).1)
  {
  }

  /** Outcome `o` names the step that `s` stands at, found under its key `id`. */
  ghost predicate DispatchedAt(reg: Registry, s: WfState, id: string, o: Outcome) {
    && !IsTerminal(s) && s.currentStepId == Some(id) && s.workflowId in reg && id in reg[s.workflowId].steps
    && o.stepId == reg[s.workflowId].steps[id].stepId
    && (o.kind.SubWorkflow? ==> reg[s.workflowId].steps[id].stepType.SubWorkflowStep?)
    && (o.kind.Continue? <==> reg[s.workflowId].steps[id].stepType.ConditionStep?)
  }

  /** A step that dispatches is the current one, never a finished workflow's; results are not touched. */
  lemma StepStays(env: Env, reg: Registry, s: WfState)
    requires Located(reg, s) && WellFormed(reg[s.workflowId])
    ensures var (s', o) := StepOnce(env, reg, s);
            && Located(reg, s') && s'.workflowId == s.workflowId && s'.stepResults == s.stepResults
            && (Dispatching(o.kind) ==>
                  && s.currentStepId.Some? && DispatchedAt(reg, s, s.currentStepId.value, o) && !IsTerminal(s')
                  && exists key :: Takes(reg[s.workflowId].steps[s.currentStepId.value], key)
                                   && s'.currentStepId == Target(reg[s.workflowId].steps[s.currentStepId.value], key))
            && (!Dispatching(o.kind) ==> IsTerminal(s') && (o.kind.Done? <==> s'.status.Completed?))
  {
    hide StepGraph, Dispatch;
    if !IsTerminal(s) && s.currentStepId.Some? {
      DispatchShape(env, s, reg[s.workflowId].steps[s.currentStepId.value]);
    }
  }

  /** So does a failure, and it leads where the step's own id says. */
  lemma FailureStays(reg: Registry, s: WfState, id: string, error: string, status: string)
    requires Located(reg, s) && WellFormed(reg[s.workflowId]) && id in reg[s.workflowId].steps
    ensures var own := reg[s.workflowId].steps[id].stepId;
            var (s', o) := FollowFailure(reg, s, own, error, status);
            && Located(reg, s') && s'.workflowId == s.workflowId
            && s'.stepResults == s.stepResults[own := FailureRecord(error, status)]
            && (IsTerminal(s') || s'.currentStepId == FailureTarget(reg[s.workflowId], id))
  {
  }

  /** In a ranked definition a dispatched step is left behind for good. */
  lemma StepDescends(env: Env, reg: Registry, rank: map<string, nat>, s: WfState)
    requires Located(reg, s)
    requires WellFormed(reg[s.workflowId]) && Ranked(StepGraph(reg[s.workflowId]), rank)
    ensures var (s', o) := StepOnce(env, reg, s);
            && Located(reg, s')
            && s'.workflowId == s.workflowId
            && s'.stepResults == s.stepResults
            && (Dispatching(o.kind) ==>
                  && s.currentStepId.Some? && DispatchedAt(reg, s, s.currentStepId.value, o)
                  && Below(reg, rank, s', s.currentStepId.value) && !IsTerminal(s'))
            && (!Dispatching(o.kind) ==> IsTerminal(s') && (o.kind.Done? <==> s'.status.Completed?))
  {
    hide WellFormed, StepGraph, StepOnce;
    StepStays(env, reg, s);
    var (s', o) := StepOnce(env, reg, s);
    if Dispatching(o.kind) {
      var step := reg[s.workflowId].steps[s.currentStepId.value];
      var key :| Takes(step, key) && s'.currentStepId == Target(step, key);
      AdvanceGoesBelow(reg, rank, s, key);
    }
  }

  /** Failing the step stored under `id` leaves it behind as well, whatever became of the current step since. */
  lemma FailureDescends(reg: Registry, rank: map<string, nat>, s: WfState, id: string, error: string, status: string)
    requires Located(reg, s) && id in reg[s.workflowId].steps && !reg[s.workflowId].steps[id].stepType.ConditionStep?
    requires WellFormed(reg[s.workflowId]) && Ranked(StepGraph(reg[s.workflowId]), rank)
    ensures var own := reg[s.workflowId].steps[id].stepId;
            var (s', o) := FollowFailure(reg, s, own, error, status);
            && Located(reg, s')
            && s'.workflowId == s.workflowId
            && s'.stepResults == s.stepResults[own := FailureRecord(error, status)]
            && (IsTerminal(s') || (Below(reg, rank, s', id)
                                   && s'.currentStepId == FailureTarget(reg[s.workflowId], id)))
  {
    hide WellFormed, StepGraph, FollowFailure;
    var d := reg[s.workflowId];
    FailureStays(reg, s, id, error, status);
    TargetIsEdge(d, id);
    InGraph(d, id);
    if FailureTarget(d, id).Some? { InGraph(d, FailureTarget(d, id).value); }
  }

  /** `s` stands in a well-formed definition ranked by `rank`. */
  ghost predicate Standing(reg: Registry, rank: map<string, nat>, s: WfState) {
    && Located(reg, s)
    && WellFormed(reg[s.workflowId])
    && Ranked(StepGraph(reg[s.workflowId]), rank)
  }

  lemma BelowLeavesLess(reg: Registry, rank: map<string, nat>, s: WfState, id: string)
    requires Below(reg, rank, s, id) && id in rank
    ensures StepsLeft(rank, s) <= rank[id]
  {
  }

  /** `wf` continues the workflow of `s`, with step `id` left behind. */
  ghost predicate Landed(reg: Registry, rank: map<string, nat>, s: WfState, id: string, wf: WfState) {
    && wf.workflowId == s.workflowId && Standing(reg, rank, wf)
    && id in rank && StepsLeft(rank, wf) <= rank[id]
  }

  lemma ResumeLands(env: Env, reg: Registry, rank: map<string, nat>, s: WfState, id: string, recorded: string, v: Value)
    requires Standing(reg, rank, s) && id in rank && Below(reg, rank, s, id)
    ensures Landed(reg, rank, s, id, ResumeWithResult(env, s, recorded, v))
  {
    hide Ranked, WellFormed, StepGraph;
    assert Below(reg, rank, ResumeWithResult(env, s, recorded, v), id);
  }

  lemma FailureLands(reg: Registry, rank: map<string, nat>, s: WfState, id: string, e: string)
    requires Standing(reg, rank, s) && id in rank && id in reg[s.workflowId].steps
    requires !reg[s.workflowId].steps[id].stepType.ConditionStep?
    ensures Landed(reg, rank, s, id, FailStep(reg, s, reg[s.workflowId].steps[id].stepId, e).0)
  {
    hide Ranked, WellFormed, StepGraph, FollowFailure;
    FailureDescends(reg, rank, s, id, e, "failed");
    var wf := FailStep(reg, s, reg[s.workflowId].steps[id].stepId, e).0;
    if !IsTerminal(wf) {
      BelowLeavesLess(reg, rank, wf, id);
    }
  }

  lemma StayingLands(reg: Registry, rank: map<string, nat>, s: WfState, id: string)
    requires Standing(reg, rank, s) && id in rank && Below(reg, rank, s, id)
    ensures Landed(reg, rank, s, id, s)
  {
  }

  /** A completed, failed or cancelled state is a fixed point of stepping, which then reports how it ended;
      a call that dispatches is never made on one. */
  lemma TerminalIsAbsorbing(env: Env, reg: Registry, s: WfState)
    ensures IsTerminal(s) <==> StepOnce(env, reg, s).0 == s && !Dispatching(StepOnce(env, reg, s).1.kind)
    ensures IsTerminal(s) <==> s.status in {Completed, Failed, Cancelled}
    ensures IsTerminal(s) ==> (StepOnce(env, reg, s).1.kind.Done? <==> s.status.Completed?)
    ensures IsTerminal(s) ==> (StepOnce(env, reg, s).1.kind.Fail? <==> s.status in {Failed, Cancelled})
  {
    if !IsTerminal(s) && s.currentStepId.Some? && s.workflowId in reg
       && s.currentStepId.value in reg[s.workflowId].steps {
      DispatchShape(env, s, reg[s.workflowId].steps[s.currentStepId.value]);
    }
  }

  /** Resuming does not look at the status: "terminal stays terminal" is the callers' doing. */
  lemma ResumeRevives(env: Env, s: WfState, stepId: string, result: Value)
    ensures !IsTerminal(ResumeWithResult(env, s, stepId, result))
    ensures ResumeWithResult(env, s, stepId, result).currentStepId == s.currentStepId
  {
  }

  /** After the engine has moved past an input step, an answer given without the step's id (as both
      callers give it) is filed under the step that follows: the input step's own result is set if
      and only if the caller names it, or names none and the step leads to a step of that id. */
  lemma AnswerIsFiledUnderSuccessor(env: Env, reg: Registry, s: WfState, input: string, stepId: Option<string>)
    requires Located(reg, s) && WellFormed(reg[s.workflowId])
    requires StepOnce(env, reg, s).1.kind == AwaitInput
    requires StepOnce(env, reg, s).1.stepId !in s.stepResults
    ensures s.currentStepId.Some? &&
            var (waiting, o) := StepOnce(env, reg, s);
            var resumed := ResumeWithInput(env, waiting, input, stepId);
            var next := Target(reg[s.workflowId].steps[s.currentStepId.value], "on_success");
            o.stepId in resumed.stepResults <==>
              stepId == Some(o.stepId) || (stepId.GetOr("") == "" && next == Some(o.stepId))
  {
    var step := reg[s.workflowId].steps[s.currentStepId.value];
    DispatchShape(env, s, step);
  }
}
