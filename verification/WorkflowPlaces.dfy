/** Where a driver of the engine can get to, as a graph over the steps of all registered workflows. */
module WorkflowPlaces {
  import opened Wrappers
  import opened Digraph
  import opened WorkflowEngine
  import opened WorkflowInvoker
  import opened InlineWorkflows

  /** A step of a registered workflow. */
  datatype Place = Place(wf: string, step: string)

  /** The three loops that drive the engine: the invoker's, the one behind directives and
      `workflow.execute.` calls, and the todo worker's. */
  datatype Mode = Invoked | Inline(hasExecutor: bool) | Worker

  ghost predicate AllWellFormed(reg: Registry) {
    forall wf :: wf in reg ==> WellFormed(reg[wf])
  }

  predicate Known(reg: Registry, p: Place) {
    p.wf in reg && p.step in reg[p.wf].steps
  }

  function StepAt(reg: Registry, p: Place): Step
    requires Known(reg, p)
  {
    reg[p.wf].steps[p.step]
  }

  predicate At(s: WfState, p: Place) {
    !IsTerminal(s) && s.workflowId == p.wf && s.currentStepId == Some(p.step)
  }

  predicate Ended(s: WfState) {
    IsTerminal(s) || s.currentStepId.None?
  }

  function PlaceOf(s: WfState): Place
    requires !Ended(s)
  {
    Place(s.workflowId, s.currentStepId.value)
  }

  // ---------------------------------------------------------------- edges

  function InWorkflow(wf: string, step: Option<string>): Option<Place> {
    match step
    case None => None
    case Some(id) => Some(Place(wf, id))
  }

  function Forward(reg: Registry, p: Place): Option<Place>
    requires Known(reg, p)
  {
    InWorkflow(p.wf, Target(StepAt(reg, p), "on_success"))
  }

  /** Where a condition that does not hold leads. */
  function Otherwise(reg: Registry, p: Place): Option<Place>
    requires Known(reg, p)
  {
    InWorkflow(p.wf, Target(StepAt(reg, p), "on_failure"))
  }

  /** Where a failure leads: looked up by the step's own id. */
  function Failing(reg: Registry, p: Place): Option<Place>
    requires Known(reg, p)
  {
    InWorkflow(p.wf, FailureTarget(reg[p.wf], p.step))
  }

  predicate PatternKnown(env: Env, step: Step) {
    var id := Get(step.config, "pattern_id", Null);
    id.Text? && Truthy(id) && env.patterns.Some? && id.s in env.patterns.value
  }

  predicate CouncilKnown(env: Env, step: Step) {
    var id := Get(step.config, "council_id", Null);
    id.Text? && Truthy(id) && env.councils.Some? && id.s in env.councils.value
  }

  /** Some answer lets the step succeed. */
  predicate CanWork(mode: Mode, env: Env, step: Step) {
    match step.stepType
    case LlmStep => true
    case ToolStep => mode.Inline? ==> mode.hasExecutor
    case PatternStep => PatternKnown(env, step)
    case CouncilStep => CouncilKnown(env, step)
    case _ => false
  }

  /** Some answer makes the driver fail the step and go on. */
  predicate CanFail(mode: Mode, env: Env, step: Step) {
    match step.stepType
    case LlmStep => true
    case ToolStep => !mode.Inline?
    case PatternStep => PatternKnown(env, step)
    case CouncilStep => CouncilKnown(env, step) && mode.Invoked?
    case _ => false
  }

  /** The workflow id a sub-workflow step asks for. */
  function ChildId(step: Step): Value {
    var id := Get(step.config, "workflow_id", Null);
    if Truthy(id) then id else Text("")
  }

  predicate HasChild(reg: Registry, step: Step) {
    ChildId(step).Text? && ChildId(step).s in reg && !Get(step.config, "workflow_id", Null).Null?
  }

  predicate LeadsByCall(reg: Registry, a: Place, b: Place)
    requires Known(reg, a)
  {
    var step := StepAt(reg, a);
    if HasChild(reg, step) then b == Place(ChildId(step).s, reg[ChildId(step).s].startStep)
    else !Get(step.config, "workflow_id", Null).Null? && Failing(reg, a) == Some(b)
  }

  /** One iteration of the driver can lead from `a` to `b`. */
  predicate Leads(mode: Mode, env: Env, reg: Registry, a: Place, b: Place) {
    && Known(reg, a)
    && var step := StepAt(reg, a);
       || (CanWork(mode, env, step) && Forward(reg, a) == Some(b))
       || (CanFail(mode, env, step) && Failing(reg, a) == Some(b))
       || (step.stepType.ConditionStep? && (Forward(reg, a) == Some(b) || Otherwise(reg, a) == Some(b)))
       || (step.stepType.SubWorkflowStep? && LeadsByCall(reg, a, b))
  }

  /** Some answer makes the driver go on after this step, be it to the end of the workflow. */
  predicate CanGoOn(mode: Mode, env: Env, reg: Registry, a: Place) {
    && Known(reg, a)
    && var step := StepAt(reg, a);
       || CanWork(mode, env, step) || step.stepType.ConditionStep?
       || (step.stepType.SubWorkflowStep? && !Get(step.config, "workflow_id", Null).Null?)
  }

  ghost predicate Trail(mode: Mode, env: Env, reg: Registry, p: seq<Place>) {
    |p| >= 1 && forall i :: 0 <= i < |p| - 1 ==> Leads(mode, env, reg, p[i], p[i + 1])
  }

  lemma LeadsToKnown(mode: Mode, env: Env, reg: Registry, a: Place, b: Place)
    requires AllWellFormed(reg) && Leads(mode, env, reg, a, b)
    ensures Known(reg, b)
  {
    hide CanWork, CanFail;
    var d := reg[a.wf];
    assert WellFormed(d);
    TargetsAreSteps(d, a.step);
    if LeadsByCall(reg, a, b) && HasChild(reg, StepAt(reg, a)) { assert WellFormed(reg[ChildId(StepAt(reg, a)).s]); }
  }

  lemma TargetsAreSteps(d: Definition, id: string)
    requires WellFormed(d) && id in d.steps
    ensures forall key :: Target(d.steps[id], key).Some? ==> Target(d.steps[id], key).value in d.steps
    ensures FailureTarget(d, id).Some? ==> FailureTarget(d, id).value in d.steps
  {
  }

  // ---------------------------------------------------------------- trails

  lemma TrailIsKnown(mode: Mode, env: Env, reg: Registry, p: seq<Place>, n: nat)
    requires AllWellFormed(reg) && Trail(mode, env, reg, p) && Known(reg, p[0]) && n < |p|
    ensures Known(reg, p[n])
  {
    hide Leads;
    if n > 0 {
      assert Leads(mode, env, reg, p[n - 1], p[n - 1 + 1]);
      LeadsToKnown(mode, env, reg, p[n - 1], p[n]);
    }
  }

  /** Cutting out the detours of a trail leaves one that visits nothing twice. */
  lemma {:induction false} Straightened(mode: Mode, env: Env, reg: Registry, p: seq<Place>) returns (q: seq<Place>)
    requires Trail(mode, env, reg, p)
    ensures Trail(mode, env, reg, q) && Distinct(q) && 1 <= |q| <= |p| && q[0] == p[0] && q[|q| - 1] == p[|p| - 1]
    decreases |p|
  {
    if Distinct(p) {
      q := p;
    } else {
      hide Leads;
      var i, j :| 0 <= i < j < |p| && p[i] == p[j];
      var cut := p[..i] + p[j..];
      forall k | 0 <= k < |cut| - 1 ensures Leads(mode, env, reg, cut[k], cut[k + 1]) {
        if k + 1 <= i {
          assert Leads(mode, env, reg, p[k], p[k + 1]);
        } else {
          assert Leads(mode, env, reg, p[k - i + j], p[k - i + j + 1]);
        }
      }
      q := Straightened(mode, env, reg, cut);
    }
  }

  function Expression(step: Step): Value {
    Get(step.config, "expression", Text("True"))
  }

  predicate Asks(reg: Registry, p: Place, expression: Value) {
    Known(reg, p) && StepAt(reg, p).stepType.ConditionStep? && Expression(StepAt(reg, p)) == expression
  }

  /** No two condition steps of the registry have the same expression. */
  ghost predicate ConditionsDiffer(reg: Registry) {
    forall a, b, e :: Asks(reg, a, e) && Asks(reg, b, e) ==> a == b
  }

  /** The evaluator sends each condition on the trail the way the trail goes, and evaluates one at its end. */
  ghost predicate Agrees(env: Env, reg: Registry, p: seq<Place>) {
    forall n, e, c, r :: 0 <= n < |p| && Asks(reg, p[n], e) ==>
      && env.evaluate(e, c, r).Some?
      && (n < |p| - 1 ==> env.evaluate(e, c, r).value == (Forward(reg, p[n]) == Some(p[n + 1])))
  }

  ghost predicate GoesForward(reg: Registry, p: seq<Place>, e: Value) {
    exists n :: 0 <= n < |p| - 1 && Asks(reg, p[n], e) && Forward(reg, p[n]) == Some(p[n + 1])
  }

  /** Where a place comes again the trail goes on as before. */
  ghost predicate Steady(p: seq<Place>) {
    forall m, n :: 0 <= m < |p| - 1 && 0 <= n < |p| - 1 && p[m] == p[n] ==> p[m + 1] == p[n + 1]
  }

  ghost function Evaluator(reg: Registry, p: seq<Place>): (Value, Record, Record) -> Option<bool> {
    (e: Value, c: Record, r: Record) => Some(GoesForward(reg, p, e))
  }

  ghost function Judging(env: Env, evaluate: (Value, Record, Record) -> Option<bool>): Env {
    env.(evaluate := evaluate)
  }

  /** No two conditions of the trail have the same expression. */
  ghost predicate DifferAlong(reg: Registry, p: seq<Place>) {
    forall m, n, e :: 0 <= m < |p| && 0 <= n < |p| && Asks(reg, p[m], e) && Asks(reg, p[n], e) ==> p[m] == p[n]
  }

  lemma ForwardIffGoing(reg: Registry, p: seq<Place>, n: nat, e: Value)
    requires Steady(p) && DifferAlong(reg, p) && n + 1 < |p| && Asks(reg, p[n], e)
    ensures GoesForward(reg, p, e) <==> Forward(reg, p[n]) == Some(p[n + 1])
  {
    hide Forward, DifferAlong, Steady;
    if GoesForward(reg, p, e) {
      var m :| 0 <= m < |p| - 1 && Asks(reg, p[m], e) && Forward(reg, p[m]) == Some(p[m + 1]);
      SameCondition(reg, p, m, n, e);
      SameNext(p, m, n);
    }
  }

  lemma SameCondition(reg: Registry, p: seq<Place>, m: nat, n: nat, e: Value)
    requires DifferAlong(reg, p) && m < |p| && n < |p| && Asks(reg, p[m], e) && Asks(reg, p[n], e)
    ensures p[m] == p[n]
  {
  }

  lemma SameNext(p: seq<Place>, m: nat, n: nat)
    requires Steady(p) && m + 1 < |p| && n + 1 < |p| && p[m] == p[n]
    ensures p[m + 1] == p[n + 1]
  {
  }

  lemma DifferentEverywhere(reg: Registry, p: seq<Place>)
    requires ConditionsDiffer(reg)
    ensures DifferAlong(reg, p)
  {
  }

  lemma EvaluatorAgrees(env: Env, reg: Registry, p: seq<Place>)
    requires Steady(p) && DifferAlong(reg, p)
    ensures Agrees(Judging(env, Evaluator(reg, p)), reg, p)
  {
    hide Forward, GoesForward, Steady, DifferAlong;
    forall n, e | 0 <= n < |p| - 1 && Asks(reg, p[n], e)
      ensures GoesForward(reg, p, e) <==> Forward(reg, p[n]) == Some(p[n + 1]) {
      ForwardIffGoing(reg, p, n, e);
    }
  }

  // ---------------------------------------------------------------- one iteration

  /** What the engine makes of the step at `p`, by the kind of its outcome. */
  ghost predicate Dispatched(env: Env, reg: Registry, p: Place, s: WfState, o: Outcome)
    requires Known(reg, p)
  {
    var step := StepAt(reg, p);
    && s.workflowId == p.wf && !o.kind.Done?
    && (Dispatching(o.kind) ==> !IsTerminal(s) && o.stepId == step.stepId)
    && (Dispatching(o.kind) && !o.kind.Continue? ==> InWorkflow(p.wf, s.currentStepId) == Forward(reg, p))
    && (o.kind.LlmCall? <==> step.stepType.LlmStep? || (step.stepType.PatternStep? && PatternKnown(env, step)))
    && (o.kind.ToolExecute? <==> step.stepType.ToolStep?)
    && (o.kind.ToolExecute? ==> o.config == step.config)
    && (o.kind.Council? <==> step.stepType.CouncilStep? && CouncilKnown(env, step))
    && (o.kind.AwaitInput? <==> step.stepType.UserInputStep?)
    && (o.kind.SubWorkflow? <==> step.stepType.SubWorkflowStep? && !Get(step.config, "workflow_id", Null).Null?)
    && (o.kind.SubWorkflow? ==> o.workflowId == Some(Get(step.config, "workflow_id", Null)))
    && (o.kind.Continue? ==> step.stepType.ConditionStep?)
  }

  lemma StepIsDispatched(env: Env, reg: Registry, s: WfState, p: Place)
    requires At(s, p) && Known(reg, p)
    ensures var (s', o) := StepOnce(env, reg, s);
            Dispatched(env, reg, p, s', o)
  {
    hide Dispatched, Dispatch;
    var step := StepAt(reg, p);
    assert StepOnce(env, reg, s) == Dispatch(env, s, step);
    match step.stepType
    case PatternStep => RegistryStep(env, reg, s, p);
    case CouncilStep => RegistryStep(env, reg, s, p);
    case _ => OrdinaryStep(env, reg, s, p);
  }

  lemma RegistryStep(env: Env, reg: Registry, s: WfState, p: Place)
    requires At(s, p) && Known(reg, p) && (StepAt(reg, p).stepType.PatternStep? || StepAt(reg, p).stepType.CouncilStep?)
    ensures var (s', o) := Dispatch(env, s, StepAt(reg, p)); Dispatched(env, reg, p, s', o)
  {
    hide PatternKnown, CouncilKnown, Dispatch, Truthy;
    if StepAt(reg, p).stepType.PatternStep? {
      PatternIsDispatched(env, s, StepAt(reg, p));
    } else {
      CouncilIsDispatched(env, s, StepAt(reg, p));
    }
  }

  lemma OrdinaryStep(env: Env, reg: Registry, s: WfState, p: Place)
    requires At(s, p) && Known(reg, p) && !StepAt(reg, p).stepType.PatternStep? && !StepAt(reg, p).stepType.CouncilStep?
    ensures var (s', o) := Dispatch(env, s, StepAt(reg, p)); Dispatched(env, reg, p, s', o)
  {
    hide PatternKnown, CouncilKnown, Dispatch, Truthy;
    if StepAt(reg, p).stepType.ConditionStep? {
      ConditionDecides(env, s, StepAt(reg, p));
    } else {
      OrdinaryShape(env, s, StepAt(reg, p));
    }
  }

  lemma OrdinaryShape(env: Env, s: WfState, step: Step)
    requires !step.stepType.PatternStep? && !step.stepType.CouncilStep? && !step.stepType.ConditionStep?
    ensures var (s', o) := Dispatch(env, s, step);
            && s'.workflowId == s.workflowId
            && (o.kind.Fail? || (o.stepId == step.stepId && s'.currentStepId == Target(step, "on_success")))
            && (!o.kind.Fail? && !IsTerminal(s) ==> !IsTerminal(s'))
    ensures var (s', o) := Dispatch(env, s, step);
            match step.stepType
            case LlmStep => o.kind.LlmCall?
            case ToolStep => o.kind.ToolExecute? && o.config == step.config
            case UserInputStep => o.kind.AwaitInput?
            case SubWorkflowStep =>
              var id := Get(step.config, "workflow_id", Null);
              if id.Null? then o.kind.Fail? else o.kind.SubWorkflow? && o.workflowId == Some(id)
            case _ => o.kind.Fail?
  {
  }

  /** A condition goes on exactly when it can be evaluated, and then as it evaluates. */
  lemma ConditionStands(env: Env, reg: Registry, s: WfState, p: Place)
    requires At(s, p) && Known(reg, p) && StepAt(reg, p).stepType.ConditionStep?
    ensures var (s', o) := StepOnce(env, reg, s);
            var holds := env.evaluate(Expression(StepAt(reg, p)), s.context, s.stepResults);
            && (o.kind.Continue? <==> holds.Some?)
            && (holds.Some? ==>
                  InWorkflow(p.wf, s'.currentStepId) == if holds.value then Forward(reg, p) else Otherwise(reg, p))
  {
    hide HandleCondition;
    assert StepOnce(env, reg, s) == Dispatch(env, s, StepAt(reg, p));
    ConditionDecides(env, s, StepAt(reg, p));
  }

  lemma ConditionDecides(env: Env, s: WfState, step: Step)
    requires step.stepType.ConditionStep?
    ensures var holds := env.evaluate(Expression(step), s.context, s.stepResults);
            var (s', o) := Dispatch(env, s, step);
            && s'.workflowId == s.workflowId
            && (if holds.None? then o.kind.Fail?
                else o.kind.Continue? && o.stepId == step.stepId
                     && s' == s.(currentStepId := Target(step, if holds.value then "on_success" else "on_failure")))
  {
  }

  lemma PatternIsDispatched(env: Env, s: WfState, step: Step)
    requires step.stepType.PatternStep?
    ensures var (s', o) := Dispatch(env, s, step);
            && s'.workflowId == s.workflowId
            && (if PatternKnown(env, step) then
                s' == s.(currentStepId := Target(step, "on_success")) && o.kind.LlmCall? && o.stepId == step.stepId
                else o.kind.Fail?)
  {
    hide Truthy, Get;
  }

  lemma CouncilIsDispatched(env: Env, s: WfState, step: Step)
    requires step.stepType.CouncilStep?
    ensures var (s', o) := Dispatch(env, s, step);
            && s'.workflowId == s.workflowId
            && (if CouncilKnown(env, step) then
                s' == s.(currentStepId := Target(step, "on_success")) && o.kind.Council? && o.stepId == step.stepId
                else o.kind.Fail?)
  {
    hide Truthy, Get;
  }

  lemma ResumedStands(env: Env, reg: Registry, p: Place, s: WfState, id: string, v: Value)
    requires Known(reg, p) && s.workflowId == p.wf && InWorkflow(p.wf, s.currentStepId) == Forward(reg, p)
    ensures var wf := ResumeWithResult(env, s, id, v);
            if Forward(reg, p).Some? then At(wf, Forward(reg, p).value) else Ended(wf)
  {
  }

  lemma FailedStands(reg: Registry, p: Place, s: WfState, e: string)
    requires Known(reg, p) && s.workflowId == p.wf
    ensures var wf := FailStep(reg, s, StepAt(reg, p).stepId, e).0;
            if Failing(reg, p).Some? then At(wf, Failing(reg, p).value) else Ended(wf)
  {
  }

  lemma ChildStands(reg: Registry, p: Place, s: WfState, id: string)
    requires Known(reg, p) && s.workflowId == p.wf && !Get(StepAt(reg, p).config, "workflow_id", Null).Null?
    ensures var start := StartWorkflow(reg, id, ChildId(StepAt(reg, p)), s.context);
            && (start.Ok? <==> HasChild(reg, StepAt(reg, p)))
            && (start.Ok? ==>
                  At(start.value, Place(ChildId(StepAt(reg, p)).s, reg[ChildId(StepAt(reg, p)).s].startStep)))
  {
  }

  ghost predicate Onward(mode: Mode, env: Env, reg: Registry, p: Place, wf: WfState) {
    Ended(wf) || Leads(mode, env, reg, p, PlaceOf(wf))
  }

  lemma PlaceIs(s: WfState, a: Place, b: Place)
    requires !IsTerminal(s) && s.workflowId == a.wf && InWorkflow(a.wf, s.currentStepId) == Some(b)
    ensures At(s, b)
  {
  }


  lemma TrailCons(mode: Mode, env: Env, reg: Registry, a: Place, p: seq<Place>)
    requires Trail(mode, env, reg, p) && Leads(mode, env, reg, a, p[0])
    ensures Trail(mode, env, reg, [a] + p)
  {
    hide Leads;
    var q := [a] + p;
    forall i | 0 <= i < |q| - 1 ensures Leads(mode, env, reg, q[i], q[i + 1]) {
      if i > 0 { assert Leads(mode, env, reg, p[i - 1], p[i - 1 + 1]); }
    }
  }

  lemma AgreesHere(mode: Mode, env: Env, reg: Registry, p: seq<Place>, j: nat, c: Record, r: Record)
    requires Agrees(env, reg, p) && j + 1 < |p| && Leads(mode, env, reg, p[j], p[j + 1])
    ensures Known(reg, p[j])
    ensures StepAt(reg, p[j]).stepType.ConditionStep? ==>
              env.evaluate(Expression(StepAt(reg, p[j])), c, r) == Some(Forward(reg, p[j]) == Some(p[j + 1]))
  {
    if StepAt(reg, p[j]).stepType.ConditionStep? { assert Asks(reg, p[j], Expression(StepAt(reg, p[j]))); }
  }

  lemma TrailsIgnoreTheEvaluator(mode: Mode, env: Env, reg: Registry, p: seq<Place>,
                                 evaluate: (Value, Record, Record) -> Option<bool>)
    ensures Trail(mode, Judging(env, evaluate), reg, p) <==> Trail(mode, env, reg, p)
    ensures forall a :: CanGoOn(mode, Judging(env, evaluate), reg, a) <==> CanGoOn(mode, env, reg, a)
  {
    forall a, b ensures Leads(mode, Judging(env, evaluate), reg, a, b) <==> Leads(mode, env, reg, a, b) {}
    hide Leads, CanGoOn;
  }

  // ---------------------------------------------------------------- going round

  lemma LeadsGoesOn(mode: Mode, env: Env, reg: Registry, a: Place, b: Place)
    requires Leads(mode, env, reg, a, b)
    ensures CanGoOn(mode, env, reg, a)
  {
  }

  /** The first place a trail comes back to. */
  lemma {:induction false} FirstRepeat(p: seq<Place>) returns (i: nat, j: nat)
    requires !Distinct(p)
    ensures i < j < |p| && p[i] == p[j] && Distinct(p[..j])
  {
    var init := p[..|p| - 1];
    if Distinct(init) {
      forall x, y | 0 <= x < y < |init| ensures p[x] != p[y] { assert init[x] != init[y]; }
      j := |init|;
      i :| 0 <= i < j && p[i] == p[j];
    } else {
      i, j := FirstRepeat(init);
      assert init[..j] == p[..j];
    }
  }

  /** The position in a walk after `n` steps, going round from `j` back to `i` for ever. */
  function Round(i: nat, j: nat, n: nat): (at: nat)
    requires i < j
    ensures at < j
  {
    if n == 0 then 0
    else if Round(i, j, n - 1) + 1 == j then i else Round(i, j, n - 1) + 1
  }

  /** The first `n` places when the trail is walked up to `j` and then round from `i` again and again. */
  function Around(p: seq<Place>, i: nat, j: nat, n: nat): seq<Place>
    requires i < j < |p|
  {
    seq(n, m requires 0 <= m < n => p[Round(i, j, m)])
  }

  lemma AroundLeads(mode: Mode, env: Env, reg: Registry, p: seq<Place>, i: nat, j: nat, m: nat)
    requires Trail(mode, env, reg, p) && i < j < |p| && p[i] == p[j]
    ensures Leads(mode, env, reg, p[Round(i, j, m)], p[Round(i, j, m + 1)])
  {
    hide Leads;
    var at := Round(i, j, m);
    assert Leads(mode, env, reg, p[at], p[at + 1]);
    assert Round(i, j, m + 1) == if at + 1 == j then i else at + 1;
  }

  lemma AroundGoesOnAlike(p: seq<Place>, i: nat, j: nat, x: nat, y: nat)
    requires i < j < |p| && Distinct(p[..j]) && p[Round(i, j, x)] == p[Round(i, j, y)]
    ensures Round(i, j, x + 1) == Round(i, j, y + 1)
  {
    SamePosition(p, j, Round(i, j, x), Round(i, j, y));
  }

  lemma AroundIsSteady(p: seq<Place>, i: nat, j: nat, n: nat)
    requires i < j < |p| && Distinct(p[..j])
    ensures Steady(Around(p, i, j, n))
  {
    hide Distinct, Round;
    var q := Around(p, i, j, n);
    forall x: nat, y: nat | x + 1 < n && y + 1 < n && q[x] == q[y] ensures q[x + 1] == q[y + 1] {
      AroundGoesOnAlike(p, i, j, x, y);
    }
  }

  lemma SamePosition(p: seq<Place>, j: nat, x: nat, y: nat)
    requires j <= |p| && Distinct(p[..j]) && x < j && y < j && p[x] == p[y]
    ensures x == y
  {
    assert p[..j][x] == p[..j][y];
  }

  lemma AroundIsTrail(mode: Mode, env: Env, reg: Registry, p: seq<Place>, i: nat, j: nat, n: nat)
    requires Trail(mode, env, reg, p) && i < j < |p| && p[i] == p[j] && n > 0
    ensures var q := Around(p, i, j, n);
            Trail(mode, env, reg, q) && q[0] == p[0] && CanGoOn(mode, env, reg, q[n - 1])
  {
    hide Leads, CanGoOn;
    var q := Around(p, i, j, n);
    forall m | 0 <= m < n - 1 ensures Leads(mode, env, reg, q[m], q[m + 1]) { AroundLeads(mode, env, reg, p, i, j, m); }
    AroundLeads(mode, env, reg, p, i, j, n - 1);
    LeadsGoesOn(mode, env, reg, p[Round(i, j, n - 1)], p[Round(i, j, n)]);
  }
}
