/** Workflows that a reply starts: by a directive line in its text, or by a `workflow.execute.` call.
    Both run the engine in a capped loop that hands tool steps to the inline executor and never suspends. */
module InlineWorkflows {
  import opened Wrappers
  import opened WorkflowEngine
  import opened WorkflowInvoker

  const EXECUTE := "workflow.execute."
  const WORKFLOW := "workflow."

  datatype InlineEnd = InlineCompleted | InlineFailed | InlineInput | InlineDeferred | InlineLimit

  /** How the loop ended, the last state, and the configurations handed to the inline executor. */
  datatype InlineRun = InlineRun(end: InlineEnd, wf: WfState, handed: seq<Record>)

  /** The branch taken on outcome `o`; `None` leaves the loop. A council outcome has no branch, so the
      loop goes on past it. */
  function NextState(env: Env, reg: Registry, hasExecutor: bool, a: Answer, s: WfState, o: Outcome): Option<WfState> {
    match o.kind
    case Continue => Some(s)
    case Council => Some(s)
    case Done => None
    case Fail => None
    case AwaitInput => None
    case LlmCall => Some(AfterReply(Config(env, None), reg, a.llm, s, o.stepId))
    case ToolExecute =>
      if hasExecutor && a.inline.Some? then Some(ResumeWithResult(env, s, o.stepId, a.inline.value)) else None
    case SubWorkflow =>
      var id := if o.workflowId.Some? && Truthy(o.workflowId.value) then o.workflowId.value else Text("");
      match StartWorkflow(reg, a.freshId, id, s.context)
      case Ok(child) => Some(child)
      case Err(e) => Some(FailStep(reg, s, o.stepId, e).0)
  }

  function EndOn(k: Kind): InlineEnd {
    match k
    case Done => InlineCompleted
    case AwaitInput => InlineInput
    case ToolExecute => InlineDeferred
    case _ => InlineFailed
  }

  function HandedBy(hasExecutor: bool, o: Outcome): seq<Record> {
    if o.kind.ToolExecute? && hasExecutor then [o.config] else []
  }

  function InlineLoop(env: Env, reg: Registry, hasExecutor: bool, w: World, s: WfState, k: nat, budget: nat): InlineRun
    decreases budget
  {
    if budget == 0 then InlineRun(InlineLimit, s, [])
    else
      var (s', o) := StepOnce(env, reg, s);
      match NextState(env, reg, hasExecutor, w(k), s', o)
      case None => InlineRun(EndOn(o.kind), s', HandedBy(hasExecutor, o))
      case Some(wf) =>
        var rest := InlineLoop(env, reg, hasExecutor, w, wf, k + 1, budget - 1);
        rest.(handed := HandedBy(hasExecutor, o) + rest.handed)
  }

  /** What starting the workflow `id` hands to the inline executor: nothing when it is not registered. */
  function Handed(env: Env, reg: Registry, hasExecutor: bool, w: World, id: string, context: Record): seq<Record> {
    match StartWorkflow(reg, w(0).freshId, Text(id), context)
    case Ok(s) => InlineLoop(env, reg, hasExecutor, w, s, 1, MAX_ITERATIONS).handed
    case Err(_) => []
  }

  lemma {:induction false} WithoutExecutorNothingIsHanded(env: Env, reg: Registry, w: World, s: WfState, k: nat,
                                                          budget: nat)
    ensures InlineLoop(env, reg, false, w, s, k, budget).handed == []
    decreases budget
  {
    hide StepOnce, NextState;
    if budget > 0 {
      var (s', o) := StepOnce(env, reg, s);
      var next := NextState(env, reg, false, w(k), s', o);
      if next.Some? { WithoutExecutorNothingIsHanded(env, reg, w, next.value, k + 1, budget - 1); }
    }
  }

  /** One iteration seen from behind what was handed over before. */
  lemma InlineIteration(env: Env, reg: Registry, hasExecutor: bool, w: World, s: WfState, k: nat, budget: nat,
                        before: seq<Record>)
    requires budget > 0
    ensures var (s', o) := StepOnce(env, reg, s);
            var run := InlineLoop(env, reg, hasExecutor, w, s, k, budget);
            run.(handed := before + run.handed) ==
            match NextState(env, reg, hasExecutor, w(k), s', o) {
              case None => InlineRun(EndOn(o.kind), s', before + HandedBy(hasExecutor, o))
              case Some(wf) =>
                var rest := InlineLoop(env, reg, hasExecutor, w, wf, k + 1, budget - 1);
                rest.(handed := (before + HandedBy(hasExecutor, o)) + rest.handed)
            }
  {
    hide StepOnce, NextState, HandedBy;
    var (s', o) := StepOnce(env, reg, s);
    var next := NextState(env, reg, hasExecutor, w(k), s', o);
    if next.Some? {
      var rest := InlineLoop(env, reg, hasExecutor, w, next.value, k + 1, budget - 1);
      assert before + (HandedBy(hasExecutor, o) + rest.handed) == (before + HandedBy(hasExecutor, o)) + rest.handed;
    }
  }

  lemma InlineEnds(env: Env, reg: Registry, hasExecutor: bool, w: World, s: WfState, k: nat, before: seq<Record>)
    ensures var run := InlineLoop(env, reg, hasExecutor, w, s, k, 0);
            run.(handed := before + run.handed) == InlineRun(InlineLimit, s, before)
    ensures forall run: InlineRun :: run.(handed := [] + run.handed) == run
  {
    assert before + [] == before;
    forall run: InlineRun ensures run.(handed := [] + run.handed) == run { assert [] + run.handed == run.handed; }
  }

  /** The loop as both callers write it. */
  method RunInline(env: Env, reg: Registry, hasExecutor: bool, w: World, s: WfState) returns (r: InlineRun)
    ensures r == InlineLoop(env, reg, hasExecutor, w, s, 1, MAX_ITERATIONS)
  {
    hide StepOnce, NextState, InlineLoop, HandedBy;
    var wf, handed, iteration := s, [], 0;
    ghost var whole := InlineLoop(env, reg, hasExecutor, w, s, 1, MAX_ITERATIONS);
    InlineEnds(env, reg, hasExecutor, w, s, 1, []);
    while iteration < MAX_ITERATIONS
      invariant iteration <= MAX_ITERATIONS
      invariant var rest := InlineLoop(env, reg, hasExecutor, w, wf, iteration + 1, MAX_ITERATIONS - iteration);
                whole == rest.(handed := handed + rest.handed)
    {
      InlineIteration(env, reg, hasExecutor, w, wf, iteration + 1, MAX_ITERATIONS - iteration, handed);
      iteration := iteration + 1;
      var (stepped, o) := StepOnce(env, reg, wf);
      handed := handed + HandedBy(hasExecutor, o);
      var next := NextState(env, reg, hasExecutor, w(iteration), stepped, o);
      if next.None? { return InlineRun(EndOn(o.kind), stepped, handed); }
      wf := next.value;
    }
    InlineEnds(env, reg, hasExecutor, w, wf, iteration + 1, handed);
    return InlineRun(InlineLimit, wf, handed);
  }

  // ---------------------------------------------------------------- directives

  /** A `/invoke-workflow` line: the name it gives, and its parameters. */
  datatype Directive = Directive(name: string, params: Record)

  /** The workflow a directive means: the name without the prefix the tool adapter puts before it. */
  function DirectiveTarget(name: string): string {
    if EXECUTE <= name then name[|EXECUTE|..]
    else if WORKFLOW <= name then name[|WORKFLOW|..]
    else name
  }
}
