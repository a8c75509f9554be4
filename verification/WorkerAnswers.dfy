/** What the todo worker makes of each answer, and of a child workflow that has come back. */
module WorkerAnswers {
  import opened Wrappers
  import opened Digraph
  import opened WorkflowEngine
  import opened TodoWorker

  /** What the worker goes on with after outcome `o`, and what it has noted. */
  ghost predicate GoesOn(cfg: Config, reg: Registry, a: Answer, s: WfState, o: Outcome, wf: WfState, log: seq<Event>) {
    match o.kind
    case Continue => wf == s && log == []
    case Council => wf == s && log == []
    case LlmCall =>
      (match a.llm
       case Output(v) => ResultRecorded(cfg.env, s, o.stepId, v, wf) && log == [Event(o.stepId, !IsBad(v))]
       case ReplyError(e) => FailureRecorded(reg, s, o.stepId, e, "failed", wf) && log == [Event(o.stepId, false)])
    case ToolExecute =>
      (match a.tool
       case Some(v) => ResultRecorded(cfg.env, s, o.stepId, v, wf) && log == [Event(o.stepId, !IsBad(v))]
       case None =>
         && FailureRecorded(reg, s, o.stepId, "tool not available inline", "failed", wf)
         && log == [Event(o.stepId, false)])
    case SubWorkflow =>
      && o.workflowId.None? && log == [Event(o.stepId, false)]
      && FailureRecorded(reg, s, o.stepId, "sub_workflow outcome missing workflow_id", "failed", wf)
    case _ => false
  }

  /** What the worker returns or raises at outcome `o`. */
  ghost predicate Returns(cfg: Config, reg: Registry, s: WfState, o: Outcome, result: WorkerResult) {
    match o.kind
    case Done =>
      if exists id :: id in s.stepResults && IsBad(s.stepResults[id]) then
        result == StepFailedError(cfg.failureText(s.stepResults))
      else result.Returned? && ("" !in s.stepResults ==> result.text == "Done.")
           && ("" in s.stepResults ==> result.text == cfg.env.show(s.stepResults[""]))
    case Fail =>
      && result.StepFailedError?
      && (o.error.Some? && o.error.value != "" ==> result.message == o.error.value)
      && (o.error.GetOr("") == "" && s.error.GetOr("") != "" ==> result.message == s.error.value)
      && (o.error.GetOr("") == "" && s.error.GetOr("") == "" ==> result.message == "Unknown workflow failure")
    case AwaitInput => result.StepFailedError?
    case SubWorkflow => o.workflowId.Some? && !Registered(reg, o) && result.ValueError?
    case _ => false
  }

  predicate Registered(reg: Registry, o: Outcome) {
    o.workflowId.Some? && o.workflowId.value.Text? && o.workflowId.value.s in reg
  }

  /** The child a sub-workflow step starts: fresh, with the context its configuration asks for. */
  ghost predicate CallsFor(cfg: Config, reg: Registry, a: Answer, s: WfState, o: Outcome, child: WfState) {
    && o.kind.SubWorkflow? && Registered(reg, o) && child.executionId == a.freshId
    && Fresh(reg, o.workflowId.value.s, cfg.render(Get(o.config, "context", Dict(map[])), s.context, s.stepResults),
             child)
  }

  /** What a child's end makes of its parent's step: its text becomes the step's result, its failure the step's. */
  ghost predicate ChildCameBack(cfg: Config, reg: Registry, s: WfState, id: string, r: WorkerResult, wf: WfState,
                                log: seq<Event>) {
    match r
    case Returned(t) => ResultRecorded(cfg.env, s, id, Text(t), wf) && log == [Event(id, true)]
    case StepFailedError(e) => FailureRecorded(reg, s, id, e, "failed", wf) && log == [Event(id, false)]
    case ValueError(_) => false
  }

  lemma ResultIsNoted(cfg: Config, s: WfState, id: string, v: Value)
    ensures var wf := ResumeWithResult(cfg.env, s, id, v);
            ResultRecorded(cfg.env, s, id, v, wf) && RecordOf(wf, id) == [Event(id, !IsBad(v))]
  {
    hide ResultRecorded, IsBad;
    ResultIsRecorded(cfg.env, s, id, v);
    RecordedValue(cfg.env, s, id, v, ResumeWithResult(cfg.env, s, id, v));
  }

  lemma RecordedValue(env: Env, s: WfState, id: string, v: Value, wf: WfState)
    requires ResultRecorded(env, s, id, v, wf)
    ensures id in wf.stepResults && wf.stepResults[id] == v
  {
  }

  lemma FailureIsNoted(reg: Registry, s: WfState, id: string, e: string)
    ensures var wf := FailStep(reg, s, id, e).0;
            FailureRecorded(reg, s, id, e, "failed", wf) && RecordOf(wf, id) == [Event(id, false)]
  {
    hide FailStep, FailureRecorded;
    FailureIsRecorded(reg, s, id, e);
    FailedValue(reg, s, id, e, FailStep(reg, s, id, e).0);
  }

  lemma FailedValue(reg: Registry, s: WfState, id: string, e: string, wf: WfState)
    requires FailureRecorded(reg, s, id, e, "failed", wf)
    ensures id in wf.stepResults && IsBad(wf.stepResults[id])
  {
  }

  /** The worker holds against an item what a failed or timed-out step records, and such dictionaries only. */
  lemma BadRecordsAreFailuresAndTimeouts(reg: Registry, s: WfState, id: string, e: string, wf: WfState, v: Value)
    ensures FailureRecorded(reg, s, id, e, "failed", wf) ==> id in wf.stepResults && IsBad(wf.stepResults[id])
    ensures FailureRecorded(reg, s, id, e, "timeout", wf) ==> id in wf.stepResults && IsBad(wf.stepResults[id])
    ensures IsBad(v) ==> v.Dict? && exists st ::
            st in {"failed", "timeout"} && v == Dict(v.entries["status" := Text(st)])
  {
    if IsBad(v) {
      var st := v.entries["status"].s;
      assert v.entries == v.entries["status" := Text(st)];
      assert st in {"failed", "timeout"} && v == Dict(v.entries["status" := Text(st)]);
    }
  }

  lemma TextIsNoFailure(t: string)
    ensures !IsBad(Text(t))
  {
  }

  lemma ChildComesBack(cfg: Config, reg: Registry, s: WfState, id: string, r: WorkerResult)
    requires !r.ValueError?
    ensures var wf := AfterChild(cfg, reg, s, id, r); ChildCameBack(cfg, reg, s, id, r, wf, RecordOf(wf, id))
  {
    hide ResultRecorded, FailureRecorded, ResumeWithResult, FailStep, RecordOf;
    match r
    case Returned(t) => ResultIsNoted(cfg, s, id, Text(t)); TextIsNoFailure(t);
    case StepFailedError(e) => FailureIsNoted(reg, s, id, e);
  }

  /** One turn: it ends the run, goes on, or calls a child. */
  lemma TurnAnswers(cfg: Config, reg: Registry, a: Answer, s: WfState, o: Outcome)
    ensures match TakeTurn(cfg, reg, a, s, o)
            case Return(r) => Returns(cfg, reg, s, o, r)
            case Next(wf, log) => GoesOn(cfg, reg, a, s, o, wf, log)
            case Call(child, parent, id) => CallsFor(cfg, reg, a, s, o, child) && parent == s && id == o.stepId
  {
    hide ResultRecorded, FailureRecorded, ResumeWithResult, FailStep, RecordOf, StartWorkflow, Fresh, IsBad;
    match o.kind
    case LlmCall =>
      match a.llm {
        case Output(v) => ResultIsNoted(cfg, s, o.stepId, v);
        case ReplyError(e) => FailureIsNoted(reg, s, o.stepId, e);
      }
    case ToolExecute =>
      match a.tool {
        case Some(v) => ResultIsNoted(cfg, s, o.stepId, v);
        case None => FailureIsNoted(reg, s, o.stepId, "tool not available inline");
      }
    case SubWorkflow =>
      FailureIsNoted(reg, s, o.stepId, "sub_workflow outcome missing workflow_id");
      if o.workflowId.Some? { StartIsFresh(reg, a.freshId, o.workflowId.value, ChildContext(cfg, s, o)); }
    case _ =>
  }

  /** The run from `s`, one iteration at a time: it ends with what its outcome gives, or goes on from the state
      its answer leaves; after a child that raises no `ValueError`, from the state the child's end leaves. */
  lemma RunAnswers(cfg: Config, reg: Registry, w: World, s: WfState, k: nat, fuel: nat)
      returns (wf: WfState, log: seq<Event>, child: WfState)
    requires Eval(cfg, reg, w, s, k, fuel).Some?
    ensures fuel > 0
    ensures var (s', o) := StepOnce(cfg.env, reg, s);
            var run := Eval(cfg, reg, w, s, k, fuel).value;
            || (Returns(cfg, reg, s', o, run.result) && run.wf == s' && run.log == [] && run.next == k + 1)
            || (GoesOn(cfg, reg, w(k), s', o, wf, log) && GoesOnLike(cfg, reg, w, wf, k + 1, fuel - 1, log, run))
            || (CallsFor(cfg, reg, w(k), s', o, child) && Eval(cfg, reg, w, child, k + 1, fuel - 1).Some?
                && var c := Eval(cfg, reg, w, child, k + 1, fuel - 1).value;
                   if c.result.ValueError? then
                     run.result == c.result && run.wf == s' && run.log == [] && run.next == c.next
                   else
                     && ChildCameBack(cfg, reg, s', o.stepId, c.result, wf, log)
                     && GoesOnLike(cfg, reg, w, wf, c.next, fuel - 1, log, run))
  {
    hide StepOnce, TakeTurn, AfterChild, RecordOf, Returns, GoesOn, CallsFor, ChildCameBack;
    var (s', o) := StepOnce(cfg.env, reg, s);
    TurnAnswers(cfg, reg, w(k), s', o);
    wf, log, child := s', [], s';
    match TakeTurn(cfg, reg, w(k), s', o)
    case Return(_) =>
    case Next(next, more) => wf, log := next, more;
    case Call(called, parent, id) =>
      child := called;
      var c := Eval(cfg, reg, w, child, k + 1, fuel - 1).value;
      if !c.result.ValueError? {
        ChildComesBack(cfg, reg, s', o.stepId, c.result);
        wf := AfterChild(cfg, reg, s', o.stepId, c.result);
        log := RecordOf(wf, o.stepId);
      }
  }

  /** `run` is the run from `wf`, with `log` noted before it. */
  ghost predicate GoesOnLike(cfg: Config, reg: Registry, w: World, wf: WfState, k: nat, fuel: nat, log: seq<Event>,
                             run: Run) {
    && Eval(cfg, reg, w, wf, k, fuel).Some?
    && var rest := Eval(cfg, reg, w, wf, k, fuel).value;
       run.result == rest.result && run.wf == rest.wf && run.log == log + rest.log && run.next == rest.next
  }

  // ---------------------------------------------------------------- failed children

  /** Some child workflow of the run, called by its own steps, came back with a failure. */
  ghost predicate SomeChildFailed(cfg: Config, reg: Registry, w: World, s: WfState, k: nat, fuel: nat)
    decreases fuel
  {
    && fuel > 0
    && match TakeTurn(cfg, reg, w(k), StepOnce(cfg.env, reg, s).0, StepOnce(cfg.env, reg, s).1)
       case Return(_) => false
       case Next(wf, _) => SomeChildFailed(cfg, reg, w, wf, k + 1, fuel - 1)
       case Call(child, parent, id) =>
         match Eval(cfg, reg, w, child, k + 1, fuel - 1)
         case None => false
         case Some(c) =>
           match c.result
           case ValueError(_) => false
           case StepFailedError(_) => true
           case Returned(_) => SomeChildFailed(cfg, reg, w, AfterChild(cfg, reg, parent, id, c.result), c.next,
                                               fuel - 1)
  }

  /** A child that failed leaves a failure in the log, whatever follows. */
  lemma {:induction false} FailedChildrenAreLogged(cfg: Config, reg: Registry, w: World, s: WfState, k: nat, fuel: nat)
    requires Eval(cfg, reg, w, s, k, fuel).Some? && SomeChildFailed(cfg, reg, w, s, k, fuel)
    ensures !AllGood(Eval(cfg, reg, w, s, k, fuel).value.log)
    decreases fuel
  {
    hide StepOnce, TakeTurn, AfterChild, RecordOf, AllGood;
    var (s', o) := StepOnce(cfg.env, reg, s);
    match TakeTurn(cfg, reg, w(k), s', o)
    case Next(wf, log) =>
      FailedChildrenAreLogged(cfg, reg, w, wf, k + 1, fuel - 1);
      PrefixedGood(log, Eval(cfg, reg, w, wf, k + 1, fuel - 1).value.log);
    case Call(child, parent, id) =>
      var c := Eval(cfg, reg, w, child, k + 1, fuel - 1).value;
      var wf := AfterChild(cfg, reg, parent, id, c.result);
      PrefixedGood(RecordOf(wf, id), Eval(cfg, reg, w, wf, c.next, fuel - 1).value.log);
      if c.result.StepFailedError? {
        ChildComesBack(cfg, reg, parent, id, c.result);
        assert RecordOf(wf, id) == [Event(id, false)];
        OneBadEvent(id);
      } else {
        FailedChildrenAreLogged(cfg, reg, w, wf, c.next, fuel - 1);
      }
  }

  lemma OneBadEvent(id: string)
    ensures !AllGood([Event(id, false)])
  {
    assert ![Event(id, false)][0].good;
  }

  /** So where step ids are not shared, a run on which a child failed never returns a text: no `on_failure`
      edge makes up for it. */
  lemma FailedChildFailsTheItem(cfg: Config, reg: Registry, w: World, s: WfState, k: nat, fuel: nat)
    requires Layered(reg) && Unshared(reg) && Located(reg, s) && Behind(reg, s)
    requires Eval(cfg, reg, w, s, k, fuel).Some? && SomeChildFailed(cfg, reg, w, s, k, fuel)
    ensures !Eval(cfg, reg, w, s, k, fuel).value.result.Returned?
  {
    hide Eval, SomeChildFailed, AllGood, Behind, Layered, Unshared, Located, HasBad;
    FailedChildrenAreLogged(cfg, reg, w, s, k, fuel);
    ReturnsIffNothingFailed(cfg, reg, w, s, k, fuel);
  }
}
