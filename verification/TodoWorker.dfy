/** The uncapped worker: runs a workflow to completion, calling itself for sub-workflows. */
module TodoWorker {
  import opened Wrappers
  import opened Digraph
  import opened WorkflowEngine

  /** `render` fills the placeholders of a child's context; `failureText` is the message taken
      from the first failed result in dictionary order, an order records do not have here. */
  datatype Config = Config(env: Env, render: (Value, Record, Record) -> Record, failureText: Record -> string)

  datatype Reply = Output(value: Value) | ReplyError(message: string)

  /** What the k-th iteration gets from outside: a routed LLM reply, an inline tool result
      (`None` when there is none or the executor raised), an id for a new execution. */
  datatype Answer = Answer(llm: Reply, tool: Option<Value>, freshId: string)

  type World = nat -> Answer

  /** A text, or one of the two exceptions that can leave the worker. */
  datatype WorkerResult = Returned(text: string) | StepFailedError(message: string) | ValueError(message: string)

  /** A dispatched step whose result was recorded, and whether that record is free of failure. */
  datatype Event = Event(stepId: string, good: bool)

  datatype Turn =
    | Return(result: WorkerResult)
    | Next(wf: WfState, log: seq<Event>)
    | Call(child: WfState, parent: WfState, stepId: string)

  datatype Run = Run(result: WorkerResult, wf: WfState, log: seq<Event>, next: nat)

  // ---------------------------------------------------------------- one iteration

  predicate IsBad(v: Value) {
    v.Dict? && "status" in v.entries
        && (v.entries["status"] == Text("failed") || v.entries["status"] == Text("timeout"))
  }

  predicate HasBad(results: Record) {
    exists id :: id in results && IsBad(results[id])
  }

  function RecordOf(wf: WfState, stepId: string): seq<Event> {
    [Event(stepId, stepId in wf.stepResults && !IsBad(wf.stepResults[stepId]))]
  }

  function Recorded(wf: WfState, stepId: string): Turn {
    Next(wf, RecordOf(wf, stepId))
  }

  function Finish(cfg: Config, s: WfState): WorkerResult {
    if HasBad(s.stepResults) then StepFailedError(cfg.failureText(s.stepResults))
    else Returned(if "" in s.stepResults then cfg.env.show(s.stepResults[""]) else "Done.")
  }

  function FailureMessage(s: WfState, o: Outcome): string {
    if o.error.Some? && o.error.value != "" then o.error.value
    else if s.error.Some? && s.error.value != "" then s.error.value
    else "Unknown workflow failure"
  }

  function ChildContext(cfg: Config, s: WfState, o: Outcome): Record {
    cfg.render(Get(o.config, "context", Dict(map[])), s.context, s.stepResults)
  }

  /** The branch taken on outcome `o`; a council outcome has no branch and falls through. */
  function TakeTurn(cfg: Config, reg: Registry, a: Answer, s: WfState, o: Outcome): Turn {
    match o.kind
    case Done => Return(Finish(cfg, s))
    case Fail => Return(StepFailedError(FailureMessage(s, o)))
    case Continue => Next(s, [])
    case Council => Next(s, [])
    case AwaitInput => Return(StepFailedError("step requested user_input"))
    case LlmCall =>
      (match a.llm
       case Output(v) => Recorded(ResumeWithResult(cfg.env, s, o.stepId, v), o.stepId)
       case ReplyError(e) => Recorded(FailStep(reg, s, o.stepId, e).0, o.stepId))
    case ToolExecute =>
      (match a.tool
       case Some(v) => Recorded(ResumeWithResult(cfg.env, s, o.stepId, v), o.stepId)
       case None => Recorded(FailStep(reg, s, o.stepId, "tool not available inline").0, o.stepId))
    case SubWorkflow =>
      if o.workflowId.None? then
        Recorded(FailStep(reg, s, o.stepId, "sub_workflow outcome missing workflow_id").0, o.stepId)
      else
        match StartWorkflow(reg, a.freshId, o.workflowId.value, ChildContext(cfg, s, o))
        case Ok(child) => Call(child, s, o.stepId)
        case Err(e) => Return(ValueError(e))
  }

  /** The parent once its child workflow has ended, by a text or a step failure. */
  function AfterChild(cfg: Config, reg: Registry, parent: WfState, stepId: string, r: WorkerResult): WfState
    requires !r.ValueError?
  {
    match r
    case Returned(t) => ResumeWithResult(cfg.env, parent, stepId, Text(t))
    case StepFailedError(e) => FailStep(reg, parent, stepId, e).0
  }

  // ---------------------------------------------------------------- whole runs

  function Prefix(log: seq<Event>, r: Run): Run {
    r.(log := log + r.log)
  }

  /** The run from `s`, if `fuel` bounds the iterations on every path through nested calls. */
  function Eval(cfg: Config, reg: Registry, w: World, s: WfState, k: nat, fuel: nat): Option<Run>
    decreases fuel
  {
    if fuel == 0 then None
    else
      var (s', o) := StepOnce(cfg.env, reg, s);
      match TakeTurn(cfg, reg, w(k), s', o)
      case Return(r) => Some(Run(r, s', [], k + 1))
      case Next(wf, log) => Continued(log, Eval(cfg, reg, w, wf, k + 1, fuel - 1))
      case Call(child, parent, id) =>
        match Eval(cfg, reg, w, child, k + 1, fuel - 1)
        case None => None
        case Some(c) =>
          if c.result.ValueError? then Some(Run(c.result, parent, [], c.next))
          else
            var wf := AfterChild(cfg, reg, parent, id, c.result);
            Continued(RecordOf(wf, id), Eval(cfg, reg, w, wf, c.next, fuel - 1))
  }

  function Continued(log: seq<Event>, rest: Option<Run>): Option<Run> {
    match rest
    case None => None
    case Some(r) => Some(Prefix(log, r))
  }

  lemma {:induction false} FuelIsMonotone(cfg: Config, reg: Registry, w: World, s: WfState, k: nat, fuel: nat,
                                          more: nat)
    requires Eval(cfg, reg, w, s, k, fuel).Some? && fuel <= more
    ensures Eval(cfg, reg, w, s, k, more) == Eval(cfg, reg, w, s, k, fuel)
    decreases fuel
  {
    hide StepOnce, TakeTurn, AfterChild, RecordOf;
    var (s', o) := StepOnce(cfg.env, reg, s);
    match TakeTurn(cfg, reg, w(k), s', o)
    case Return(_) =>
    case Next(wf, log) => FuelIsMonotone(cfg, reg, w, wf, k + 1, fuel - 1, more - 1);
    case Call(child, parent, id) =>
      FuelIsMonotone(cfg, reg, w, child, k + 1, fuel - 1, more - 1);
      var c := Eval(cfg, reg, w, child, k + 1, fuel - 1).value;
      if !c.result.ValueError? {
        FuelIsMonotone(cfg, reg, w, AfterChild(cfg, reg, parent, id, c.result), c.next, fuel - 1, more - 1);
      }
  }

  // ---------------------------------------------------------------- termination

  ghost function AsSeq(s: set<string>): (r: seq<string>)
    ensures forall x :: x in s <==> x in r
  {
    if s == {} then [] else var x :| x in s; [x] + AsSeq(s - {x})
  }

  predicate CallsChild(step: Step, child: string) {
    step.stepType.SubWorkflowStep? && Get(step.config, "workflow_id", Null) == Text(child)
  }

  /** Which registered workflows call which. */
  ghost function CallGraph(reg: Registry): Graph {
    map wf | wf in reg :: AsSeq(set c | c in reg
                                && exists id :: id in reg[wf].steps && CallsChild(reg[wf].steps[id], c))
  }

  /** Every definition is well-formed and acyclic along every edge the engine can follow, and no workflow
      calls itself, however indirectly. Loading checks less: see `WorkflowDefinitions`. */
  ghost predicate Layered(reg: Registry) {
    && (forall wf :: wf in reg ==> WellFormed(reg[wf]) && Acyclic(StepGraph(reg[wf])))
    && Acyclic(CallGraph(reg))
  }

  ghost function RankOf(g: Graph): (rank: map<string, nat>)
    requires Acyclic(g)
    ensures Ranked(g, rank)
  {
    assert exists rank :: Ranked(g, rank) by { var rank := TightRank(g); }
    var rank :| Ranked(g, rank);
    rank
  }

  /** The outer measure: how deep a workflow's calls can nest. */
  ghost function CallRank(reg: Registry, wf: string): nat
    requires Layered(reg)
  {
    var rank := RankOf(CallGraph(reg));
    if wf in rank then rank[wf] else 0
  }

  /** The inner measure: how many steps of its own workflow a state can still dispatch. */
  ghost function Left(reg: Registry, s: WfState): nat
    requires Layered(reg) && s.workflowId in reg
  {
    StepsLeft(RankOf(StepGraph(reg[s.workflowId])), s)
  }

  lemma ChildRanksLower(reg: Registry, wf: string, id: string, child: string)
    requires Layered(reg) && wf in reg && child in reg
    requires id in reg[wf].steps && CallsChild(reg[wf].steps[id], child)
    ensures CallRank(reg, child) < CallRank(reg, wf)
  {
    hide Acyclic, RankOf;
    assert Edge(CallGraph(reg), wf, child);
    assert child in CallGraph(reg);
  }

  /** `wf` is a later state of the same workflow, with fewer steps to go. */
  ghost predicate Descends(reg: Registry, s: WfState, wf: WfState)
    requires Layered(reg) && s.workflowId in reg
  {
    wf.workflowId == s.workflowId && Located(reg, wf) && Left(reg, wf) < Left(reg, s)
  }

  lemma LandedDescends(reg: Registry, s: WfState, s': WfState, id: string, wf: WfState)
    requires Layered(reg) && Located(reg, s) && !IsTerminal(s) && s.currentStepId == Some(id)
    requires s'.workflowId == s.workflowId
    requires Landed(reg, RankOf(StepGraph(reg[s.workflowId])), s', id, wf)
    ensures Descends(reg, s, wf)
  {
    hide WellFormed, Ranked, Acyclic, RankOf, StepGraph;
  }

  /** The facts about the step just dispatched that every branch relies on. */
  lemma DispatchedFacts(cfg: Config, reg: Registry, s: WfState)
    requires Layered(reg) && Located(reg, s)
    ensures var (s', o) := StepOnce(cfg.env, reg, s);
            var rank := RankOf(StepGraph(reg[s.workflowId]));
            && s'.workflowId == s.workflowId && Standing(reg, rank, s')
            && s'.stepResults == s.stepResults
            && (Dispatching(o.kind) ==>
                  && s.currentStepId.Some? && DispatchedAt(reg, s, s.currentStepId.value, o)
                  && s.currentStepId.value in rank && Below(reg, rank, s', s.currentStepId.value))
            && (!Dispatching(o.kind) ==> IsTerminal(s') && (o.kind.Done? <==> s'.status.Completed?))
  {
    hide StepOnce, RankOf, WellFormed, Below, StepGraph;
    var rank := RankOf(StepGraph(reg[s.workflowId]));
    StepDescends(cfg.env, reg, rank, s);
    if s.currentStepId.Some? { InGraph(reg[s.workflowId], s.currentStepId.value); }
  }

  /** `wf` is `s` with an answer to step `id`: a result, or a failure. */
  ghost predicate Answered(cfg: Config, reg: Registry, s: WfState, id: string, wf: WfState) {
    || (exists v :: wf == ResumeWithResult(cfg.env, s, id, v))
    || (exists e :: wf == FailStep(reg, s, id, e).0)
  }

  /** An iteration that goes on leaves the stepped state as it is, or with one answer, recorded. */
  lemma TurnShape(cfg: Config, reg: Registry, a: Answer, s: WfState, o: Outcome)
    ensures match TakeTurn(cfg, reg, a, s, o)
            case Return(_) => true
            case Next(wf, log) =>
              Dispatching(o.kind)
              && ((wf == s && log == []) || (!o.kind.Continue? && Answered(cfg, reg, s, o.stepId, wf)
                                             && log == RecordOf(wf, o.stepId)))
            case Call(_, parent, id) =>
              o.kind.SubWorkflow? && parent == s && id == o.stepId
  {
    hide FailStep, ResumeWithResult, StartWorkflow, RecordOf, Finish, FailureMessage, ChildContext, IsBad;
  }

  lemma ChildAnswers(cfg: Config, reg: Registry, parent: WfState, id: string, r: WorkerResult)
    requires !r.ValueError?
    ensures Answered(cfg, reg, parent, id, AfterChild(cfg, reg, parent, id, r))
  {
    hide FailStep, ResumeWithResult;
  }

  lemma AnswerDescends(cfg: Config, reg: Registry, s: WfState, wf: WfState)
    requires Layered(reg) && Located(reg, s)
    requires var (s', o) := StepOnce(cfg.env, reg, s);
             Dispatching(o.kind) && (wf == s' || (!o.kind.Continue? && Answered(cfg, reg, s', o.stepId, wf)))
    ensures Descends(reg, s, wf)
  {
    hide StepOnce, WellFormed, Acyclic, RankOf, Standing, Landed, Below, Descends, FailStep, ResumeWithResult,
         StepGraph;
    var (s', o) := StepOnce(cfg.env, reg, s);
    DispatchedFacts(cfg, reg, s);
    var id := s.currentStepId.value;
    if wf == s' {
      StayingLands(reg, RankOf(StepGraph(reg[s.workflowId])), s', id);
      LandedDescends(reg, s, s', id, s');
    } else if exists v :: wf == ResumeWithResult(cfg.env, s', o.stepId, v) {
      var v :| wf == ResumeWithResult(cfg.env, s', o.stepId, v);
      ResumingDescends(cfg.env, reg, s, s', id, o.stepId, v);
    } else {
      var e :| wf == FailStep(reg, s', o.stepId, e).0;
      FailingDescends(reg, s, s', id, e);
    }
  }

  lemma TurnsDescend(cfg: Config, reg: Registry, a: Answer, s: WfState)
    requires Layered(reg) && Located(reg, s)
    ensures var (s', o) := StepOnce(cfg.env, reg, s);
            match TakeTurn(cfg, reg, a, s', o)
            case Return(_) => true
            case Next(wf, _) => Descends(reg, s, wf)
            case Call(child, parent, id) =>
              forall r: WorkerResult :: !r.ValueError? ==> Descends(reg, s, AfterChild(cfg, reg, parent, id, r))
  {
    hide StepOnce, TakeTurn, Layered, Answered, Descends, AfterChild, RecordOf;
    var (s', o) := StepOnce(cfg.env, reg, s);
    TurnShape(cfg, reg, a, s', o);
    match TakeTurn(cfg, reg, a, s', o)
    case Return(_) =>
    case Next(wf, _) => AnswerDescends(cfg, reg, s, wf);
    case Call(_, parent, id) =>
      forall r: WorkerResult | !r.ValueError? ensures Descends(reg, s, AfterChild(cfg, reg, parent, id, r)) {
        ChildAnswers(cfg, reg, parent, id, r);
        AnswerDescends(cfg, reg, s, AfterChild(cfg, reg, parent, id, r));
      }
  }

  lemma FailingDescends(reg: Registry, s: WfState, s': WfState, id: string, e: string)
    requires Layered(reg) && Located(reg, s) && !IsTerminal(s) && s.currentStepId == Some(id)
    requires s'.workflowId == s.workflowId && Standing(reg, RankOf(StepGraph(reg[s.workflowId])), s')
    requires id in RankOf(StepGraph(reg[s.workflowId])) && !reg[s.workflowId].steps[id].stepType.ConditionStep?
    ensures Descends(reg, s, FailStep(reg, s', reg[s.workflowId].steps[id].stepId, e).0)
  {
    hide WellFormed, Acyclic, RankOf, Standing, Landed, Descends, FailStep, StepGraph;
    FailureLands(reg, RankOf(StepGraph(reg[s.workflowId])), s', id, e);
    LandedDescends(reg, s, s', id, FailStep(reg, s', reg[s.workflowId].steps[id].stepId, e).0);
  }

  lemma ResumingDescends(env: Env, reg: Registry, s: WfState, s': WfState, id: string, recorded: string, v: Value)
    requires Layered(reg) && Located(reg, s) && !IsTerminal(s) && s.currentStepId == Some(id)
    requires s'.workflowId == s.workflowId && Standing(reg, RankOf(StepGraph(reg[s.workflowId])), s')
    requires id in RankOf(StepGraph(reg[s.workflowId])) && Below(reg, RankOf(StepGraph(reg[s.workflowId])), s', id)
    ensures Descends(reg, s, ResumeWithResult(env, s', recorded, v))
  {
    hide WellFormed, Acyclic, RankOf, Standing, Landed, Descends, ResumeWithResult, Below, StepGraph;
    ResumeLands(env, reg, RankOf(StepGraph(reg[s.workflowId])), s', id, recorded, v);
    LandedDescends(reg, s, s', id, ResumeWithResult(env, s', recorded, v));
  }

  /** A sub-workflow call goes to a registered workflow of lower call rank, at its start. */
  lemma CallsRankLower(cfg: Config, reg: Registry, a: Answer, s: WfState)
    requires Layered(reg) && Located(reg, s)
    ensures var (s', o) := StepOnce(cfg.env, reg, s);
            var t := TakeTurn(cfg, reg, a, s', o);
            t.Call? ==>
              && t.parent == s' && t.stepId == o.stepId
              && Located(reg, t.child) && CallRank(reg, t.child.workflowId) < CallRank(reg, s.workflowId)
              && t.child.stepResults == map[] && t.child.status == Running
  {
    hide RankOf, CallRank, FailStep, ResumeWithResult, Acyclic, StepOnce, StepGraph;
    var (s', o) := StepOnce(cfg.env, reg, s);
    var t := TakeTurn(cfg, reg, a, s', o);
    if t.Call? {
      SubWorkflowOutcome(cfg, reg, s);
      ChildRanksLower(reg, s.workflowId, s.currentStepId.value, t.child.workflowId);
    }
  }

  lemma SubWorkflowOutcome(cfg: Config, reg: Registry, s: WfState)
    requires Located(reg, s) && StepOnce(cfg.env, reg, s).1.kind.SubWorkflow?
    requires WellFormed(reg[s.workflowId])
    ensures var o := StepOnce(cfg.env, reg, s).1;
            && s.currentStepId.Some? && s.currentStepId.value in reg[s.workflowId].steps && o.workflowId.Some?
            && reg[s.workflowId].steps[s.currentStepId.value].stepType.SubWorkflowStep?
            && o.workflowId.value == Get(reg[s.workflowId].steps[s.currentStepId.value].config, "workflow_id", Null)
  {
    DispatchShape(cfg.env, s, reg[s.workflowId].steps[s.currentStepId.value]);
  }

  /** With no cap on iterations, the run ends all the same: by the pair (call rank, steps left). */
  lemma {:induction false} Terminates(cfg: Config, reg: Registry, w: World, s: WfState, k: nat) returns (fuel: nat)
    requires Layered(reg) && Located(reg, s)
    ensures Eval(cfg, reg, w, s, k, fuel).Some?
    decreases CallRank(reg, s.workflowId), Left(reg, s)
  {
    hide StepOnce, TakeTurn, AfterChild, Acyclic, RankOf, StepGraph, CallGraph, WellFormed, CallRank, Left, Eval;
    var (s', o) := StepOnce(cfg.env, reg, s);
    TurnsDescend(cfg, reg, w(k), s);
    CallsRankLower(cfg, reg, w(k), s);
    match TakeTurn(cfg, reg, w(k), s', o)
    case Return(_) =>
      fuel := 1;
      EvalReturn(cfg, reg, w, s, k);
    case Next(wf, log) =>
      fuel := Terminates(cfg, reg, w, wf, k + 1);
      EvalNext(cfg, reg, w, s, k, fuel);
      fuel := fuel + 1;
    case Call(child, parent, id) =>
      var f := Terminates(cfg, reg, w, child, k + 1);
      var c := Eval(cfg, reg, w, child, k + 1, f).value;
      var g := 0;
      if !c.result.ValueError? {
        g := Terminates(cfg, reg, w, AfterChild(cfg, reg, parent, id, c.result), c.next);
      }
      EvalCall(cfg, reg, w, s, k, f, g);
      fuel := f + g + 1;
  }

  lemma EvalReturn(cfg: Config, reg: Registry, w: World, s: WfState, k: nat)
    requires var (s', o) := StepOnce(cfg.env, reg, s); TakeTurn(cfg, reg, w(k), s', o).Return?
    ensures Eval(cfg, reg, w, s, k, 1).Some?
  {
    hide StepOnce, TakeTurn;
  }

  lemma EvalNext(cfg: Config, reg: Registry, w: World, s: WfState, k: nat, fuel: nat)
    requires var (s', o) := StepOnce(cfg.env, reg, s);
             var t := TakeTurn(cfg, reg, w(k), s', o);
             t.Next? && Eval(cfg, reg, w, t.wf, k + 1, fuel).Some?
    ensures Eval(cfg, reg, w, s, k, fuel + 1).Some?
  {
    hide StepOnce, TakeTurn;
  }

  lemma EvalCall(cfg: Config, reg: Registry, w: World, s: WfState, k: nat, f: nat, g: nat)
    requires var (s', o) := StepOnce(cfg.env, reg, s);
             var t := TakeTurn(cfg, reg, w(k), s', o);
             t.Call? && Eval(cfg, reg, w, t.child, k + 1, f).Some? &&
             var c := Eval(cfg, reg, w, t.child, k + 1, f).value;
             c.result.ValueError? || Eval(cfg, reg, w, AfterChild(cfg, reg, t.parent, t.stepId, c.result), c.next,
                                          g).Some?
    ensures Eval(cfg, reg, w, s, k, f + g + 1).Some?
  {
    hide StepOnce, TakeTurn, AfterChild, RecordOf;
    var (s', o) := StepOnce(cfg.env, reg, s);
    var t := TakeTurn(cfg, reg, w(k), s', o);
    FuelIsMonotone(cfg, reg, w, t.child, k + 1, f, f + g);
    var c := Eval(cfg, reg, w, t.child, k + 1, f).value;
    if !c.result.ValueError? {
      FuelIsMonotone(cfg, reg, w, AfterChild(cfg, reg, t.parent, t.stepId, c.result), c.next, g, f + g);
    }
  }

  // ---------------------------------------------------------------- what a run returns

  predicate AllGood(log: seq<Event>) {
    forall i :: 0 <= i < |log| ==> log[i].good
  }

  /** Between `s` and `wf` nothing was recorded, or one result, under `id`, as `log` says. */
  ghost predicate RecordsAtMost(s: WfState, wf: WfState, id: string, log: seq<Event>) {
    || (log == [] && wf.stepResults == s.stepResults)
    || (id in wf.stepResults && wf.stepResults == s.stepResults[id := wf.stepResults[id]]
        && log == [Event(id, !IsBad(wf.stepResults[id]))])
  }

  lemma FailureRecords(reg: Registry, s: WfState, id: string, e: string)
    ensures RecordsAtMost(s, FailStep(reg, s, id, e).0, id, RecordOf(FailStep(reg, s, id, e).0, id))
    ensures !AllGood(RecordOf(FailStep(reg, s, id, e).0, id))
  {
    hide Complete, FailWith;
    assert FailStep(reg, s, id, e).0.stepResults == s.stepResults[id := FailureRecord(e, "failed")] by {
      var noted := s.(stepResults := s.stepResults[id := FailureRecord(e, "failed")]);
      assert Complete(noted).0.stepResults == noted.stepResults
             && FailWith(noted, e).0.stepResults == noted.stepResults by {
        CompletionKeepsResults(noted, e);
      }
    }
    assert !RecordOf(FailStep(reg, s, id, e).0, id)[0].good;
  }

  lemma CompletionKeepsResults(s: WfState, e: string)
    ensures Complete(s).0.stepResults == s.stepResults && FailWith(s, e).0.stepResults == s.stepResults
  {
  }

  lemma ResumptionRecords(env: Env, s: WfState, id: string, v: Value)
    ensures RecordsAtMost(s, ResumeWithResult(env, s, id, v), id, RecordOf(ResumeWithResult(env, s, id, v), id))
  {
  }

  lemma AnswerRecords(cfg: Config, reg: Registry, s: WfState, id: string, wf: WfState)
    requires Answered(cfg, reg, s, id, wf)
    ensures RecordsAtMost(s, wf, id, RecordOf(wf, id))
  {
    hide FailStep, ResumeWithResult, RecordsAtMost;
    if exists v :: wf == ResumeWithResult(cfg.env, s, id, v) {
      var v :| wf == ResumeWithResult(cfg.env, s, id, v);
      ResumptionRecords(cfg.env, s, id, v);
    } else {
      var e :| wf == FailStep(reg, s, id, e).0;
      FailureRecords(reg, s, id, e);
    }
  }

  lemma TurnsRecord(cfg: Config, reg: Registry, a: Answer, s: WfState, o: Outcome)
    ensures match TakeTurn(cfg, reg, a, s, o)
            case Return(_) => true
            case Next(wf, log) => RecordsAtMost(s, wf, o.stepId, log)
            case Call(_, parent, id) =>
              forall r: WorkerResult :: !r.ValueError? ==>
                var wf := AfterChild(cfg, reg, parent, id, r);
                RecordsAtMost(s, wf, o.stepId, RecordOf(wf, id))
  {
    hide TakeTurn, Answered, RecordsAtMost, AfterChild, RecordOf;
    TurnShape(cfg, reg, a, s, o);
    match TakeTurn(cfg, reg, a, s, o)
    case Return(_) =>
    case Next(wf, _) =>
      NothingRecords(s, o.stepId);
      if Answered(cfg, reg, s, o.stepId, wf) { AnswerRecords(cfg, reg, s, o.stepId, wf); }
    case Call(_, parent, id) =>
      forall r: WorkerResult | !r.ValueError? ensures
        var wf := AfterChild(cfg, reg, parent, id, r);
        RecordsAtMost(s, wf, o.stepId, RecordOf(wf, id)) {
        ChildAnswers(cfg, reg, parent, id, r);
        AnswerRecords(cfg, reg, s, id, AfterChild(cfg, reg, parent, id, r));
      }
  }

  lemma NothingRecords(s: WfState, id: string)
    ensures RecordsAtMost(s, s, id, [])
  {
  }

  // ---------------------------------------------------------------- the last records decide

  /** Only what field validation checks of every definition. */
  ghost predicate Checked(reg: Registry) {
    forall wf :: wf in reg ==> WellFormed(reg[wf])
  }

  function BadIds(results: Record): set<string> {
    set id | id in results && IsBad(results[id])
  }

  /** The ids whose last record is a failure, after `log`: a later record replaces an earlier one. */
  function BadAfter(bad: set<string>, log: seq<Event>): set<string>
    decreases |log|
  {
    if log == [] then bad
    else BadAfter(if log[0].good then bad - {log[0].stepId} else bad + {log[0].stepId}, log[1..])
  }

  lemma RecordUpdates(s: WfState, wf: WfState, id: string, log: seq<Event>, rest: seq<Event>)
    requires RecordsAtMost(s, wf, id, log)
    ensures BadAfter(BadIds(s.stepResults), log + rest) == BadAfter(BadIds(wf.stepResults), rest)
    ensures "" !in s.stepResults && id != "" ==> "" !in wf.stepResults
  {
    if log == [] {
      assert log + rest == rest;
    } else {
      assert (log + rest)[1..] == rest && (log + rest)[0] == log[0];
      var bad := BadIds(s.stepResults);
      assert BadIds(wf.stepResults) == (if log[0].good then bad - {id} else bad + {id});
    }
  }

  lemma AnswerStays(cfg: Config, reg: Registry, s: WfState, wf: WfState)
    requires Checked(reg) && Located(reg, s)
    requires var (s', o) := StepOnce(cfg.env, reg, s);
             Dispatching(o.kind) && (wf == s' || Answered(cfg, reg, s', o.stepId, wf))
    ensures Located(reg, wf) && StepOnce(cfg.env, reg, s).1.stepId != ""
    ensures StepOnce(cfg.env, reg, s).0.stepResults == s.stepResults
  {
    hide StepOnce, WellFormed, FailStep;
    var (s', o) := StepOnce(cfg.env, reg, s);
    StepStays(cfg.env, reg, s);
    IdsAreNotEmpty(reg[s.workflowId], s.currentStepId.value);
    if wf != s' && !(exists v :: wf == ResumeWithResult(cfg.env, s', o.stepId, v)) {
      var e :| wf == FailStep(reg, s', o.stepId, e).0;
      FailedStays(reg, s', s.currentStepId.value, e);
    }
  }

  lemma FailedStays(reg: Registry, s: WfState, id: string, e: string)
    requires Located(reg, s) && WellFormed(reg[s.workflowId]) && id in reg[s.workflowId].steps
    ensures Located(reg, FailStep(reg, s, reg[s.workflowId].steps[id].stepId, e).0)
  {
    hide FollowFailure;
    FailureStays(reg, s, id, e, "failed");
  }

  /** Whatever the definitions: the worker returns a text exactly when the workflow completed and the
      last record of every step id is not a failure. The text is always "Done.". */
  lemma {:induction false} ReturnsIffNoBadRecord(cfg: Config, reg: Registry, w: World, s: WfState, k: nat, fuel: nat)
    requires Checked(reg) && Located(reg, s) && "" !in s.stepResults
    requires Eval(cfg, reg, w, s, k, fuel).Some?
    ensures var r := Eval(cfg, reg, w, s, k, fuel).value;
            && (r.result.Returned? <==> r.wf.status.Completed? && BadAfter(BadIds(s.stepResults), r.log) == {})
            && (r.result.Returned? ==> r.result.text == "Done.")
    decreases fuel
  {
    hide StepOnce, TakeTurn, AfterChild, RecordOf, Checked, Answered, RecordsAtMost, HasBad, Finish, BadAfter, BadIds,
         Located;
    var (s', o) := StepOnce(cfg.env, reg, s);
    TurnShape(cfg, reg, w(k), s', o);
    TurnsRecord(cfg, reg, w(k), s', o);
    match TakeTurn(cfg, reg, w(k), s', o)
    case Return(r) => EndsHere(cfg, reg, w(k), s);
    case Next(wf, log) =>
      AnswerStays(cfg, reg, s, wf);
      var rest := Eval(cfg, reg, w, wf, k + 1, fuel - 1).value;
      RecordUpdates(s', wf, o.stepId, log, rest.log);
      ReturnsIffNoBadRecord(cfg, reg, w, wf, k + 1, fuel - 1);
    case Call(child, parent, id) =>
      var c := Eval(cfg, reg, w, child, k + 1, fuel - 1).value;
      if c.result.ValueError? {
        EndsHere(cfg, reg, w(k), s);
      } else {
        var wf := AfterChild(cfg, reg, parent, id, c.result);
        ChildAnswers(cfg, reg, parent, id, c.result);
        AnswerStays(cfg, reg, s, wf);
        var rest := Eval(cfg, reg, w, wf, c.next, fuel - 1).value;
        RecordUpdates(s', wf, o.stepId, RecordOf(wf, id), rest.log);
        ReturnsIffNoBadRecord(cfg, reg, w, wf, c.next, fuel - 1);
      }
  }

  /** A run that ends in this turn returns a text iff it completed without a bad record. */
  lemma EndsHere(cfg: Config, reg: Registry, a: Answer, s: WfState)
    requires Checked(reg) && Located(reg, s) && "" !in s.stepResults
    ensures var (s', o) := StepOnce(cfg.env, reg, s);
            match TakeTurn(cfg, reg, a, s', o)
            case Return(r) =>
              && (r.Returned? <==> s'.status.Completed? && BadAfter(BadIds(s.stepResults), []) == {})
              && (r.Returned? ==> r.text == "Done.")
            case Next(_, _) => true
            case Call(_, parent, _) => !parent.status.Completed?
  {
    hide StepOnce, TakeTurn, WellFormed;
    var (s', o) := StepOnce(cfg.env, reg, s);
    StepStays(cfg.env, reg, s);
    EndingTurns(cfg, reg, a, s', o);
    assert BadIds(s.stepResults) == {} <==> !HasBad(s.stepResults) by {
      if HasBad(s.stepResults) {
        var id :| id in s.stepResults && IsBad(s.stepResults[id]);
        assert id in BadIds(s.stepResults);
      }
    }
  }

  // ---------------------------------------------------------------- definitions with ids of their own

  /** Step ids tell the steps of a definition apart; loading does not check it. */
  ghost predicate OwnIds(d: Definition) {
    forall a, b :: a in d.steps && b in d.steps && d.steps[a].stepId == d.steps[b].stepId ==> a == b
  }

  ghost predicate Unshared(reg: Registry) {
    forall wf :: wf in reg ==> OwnIds(reg[wf])
  }

  /** Everything recorded so far belongs to steps the run has left behind for good. */
  ghost predicate Behind(reg: Registry, s: WfState)
    requires Layered(reg) && s.workflowId in reg
  {
    var rank := RankOf(StepGraph(reg[s.workflowId]));
    && "" !in s.stepResults
    && forall id :: id in reg[s.workflowId].steps && reg[s.workflowId].steps[id].stepId in s.stepResults ==>
         && id in rank
         && (!IsTerminal(s) && s.currentStepId.Some? ==>
               s.currentStepId.value in rank && rank[s.currentStepId.value] < rank[id])
  }

  /** Where ids are not shared a new record never replaces an old one: a failure once recorded stays recorded. */
  lemma RecordingKeepsBehind(cfg: Config, reg: Registry, s: WfState, wf: WfState, log: seq<Event>)
    requires Layered(reg) && Unshared(reg) && Located(reg, s) && Behind(reg, s)
    requires var (s', o) := StepOnce(cfg.env, reg, s);
             Dispatching(o.kind) && RecordsAtMost(s', wf, o.stepId, log) && Descends(reg, s, wf)
    ensures Behind(reg, wf)
    ensures HasBad(wf.stepResults) <==> HasBad(s.stepResults) || !AllGood(log)
  {
    hide StepOnce, WellFormed, Acyclic, RankOf, Standing, StepGraph, HasBad, AllGood, RecordsAtMost;
    var (s', o) := StepOnce(cfg.env, reg, s);
    DispatchedFacts(cfg, reg, s);
    var d, c := reg[s.workflowId], s.currentStepId.value;
    assert o.stepId !in s.stepResults;
    RecordAdds(s', wf, o.stepId, log);
    LocatedIsRanked(reg, wf);
    IdsAreNotEmpty(d, c);
    var rank := RankOf(StepGraph(d));
    forall id | id in d.steps && d.steps[id].stepId in wf.stepResults
      ensures id in rank && (!IsTerminal(wf) && wf.currentStepId.Some? ==> rank[wf.currentStepId.value] < rank[id]) {
      if d.steps[id].stepId !in s.stepResults { assert id == c; }
    }
  }

  lemma IdsAreNotEmpty(d: Definition, id: string)
    requires WellFormed(d) && id in d.steps
    ensures d.steps[id].stepId != ""
  {
  }

  lemma LocatedIsRanked(reg: Registry, s: WfState)
    requires Layered(reg) && Located(reg, s)
    ensures s.currentStepId.Some? ==> s.currentStepId.value in RankOf(StepGraph(reg[s.workflowId]))
  {
    if s.currentStepId.Some? { InGraph(reg[s.workflowId], s.currentStepId.value); }
  }

  lemma RecordAdds(s: WfState, wf: WfState, id: string, log: seq<Event>)
    requires RecordsAtMost(s, wf, id, log) && id !in s.stepResults
    ensures HasBad(wf.stepResults) <==> HasBad(s.stepResults) || !AllGood(log)
    ensures forall key :: key in wf.stepResults <==> key in s.stepResults || (key == id && log != [])
  {
    forall key | key in s.stepResults ensures key in wf.stepResults && wf.stepResults[key] == s.stepResults[key] { }
    if log != [] {
      assert log[0].good <==> !IsBad(wf.stepResults[id]);
    }
  }

  lemma PrefixedGood(a: seq<Event>, b: seq<Event>)
    ensures AllGood(a + b) <==> AllGood(a) && AllGood(b)
  {
    if AllGood(a + b) {
      forall i | 0 <= i < |a| ensures a[i].good { assert (a + b)[i].good; }
      forall i | 0 <= i < |b| ensures b[i].good { assert (a + b)[|a| + i].good; }
    }
  }

  /** Where step ids are not shared, the worker returns a text exactly when the workflow completed and
      no step it dispatched ever failed: following `on_failure` never rescues an item. */
  lemma {:induction false} ReturnsIffNothingFailed(cfg: Config, reg: Registry, w: World, s: WfState, k: nat, fuel: nat)
    requires Layered(reg) && Unshared(reg) && Located(reg, s) && Behind(reg, s)
    requires Eval(cfg, reg, w, s, k, fuel).Some?
    ensures var r := Eval(cfg, reg, w, s, k, fuel).value;
            && (r.result.Returned? <==> r.wf.status.Completed? && !HasBad(s.stepResults) && AllGood(r.log))
            && (r.result.Returned? ==> r.result.text == "Done.")
    decreases fuel
  {
    hide StepOnce, TakeTurn, AfterChild, RecordOf, Acyclic, RankOf, StepGraph, CallGraph, WellFormed, Unshared;
    hide Behind, Descends, Left, RecordsAtMost, HasBad, AllGood, Finish, Standing, Below;
    var (s', o) := StepOnce(cfg.env, reg, s);
    TurnShape(cfg, reg, w(k), s', o);
    TurnsDescend(cfg, reg, w(k), s);
    TurnsRecord(cfg, reg, w(k), s', o);
    match TakeTurn(cfg, reg, w(k), s', o)
    case Return(r) => ReturnsHere(cfg, reg, w(k), s);
    case Next(wf, log) =>
      RecordingKeepsBehind(cfg, reg, s, wf, log);
      DescendsLocated(reg, s, wf);
      ReturnsIffNothingFailed(cfg, reg, w, wf, k + 1, fuel - 1);
      PrefixedGood(log, Eval(cfg, reg, w, wf, k + 1, fuel - 1).value.log);
    case Call(child, parent, id) =>
      var c := Eval(cfg, reg, w, child, k + 1, fuel - 1).value;
      if c.result.ValueError? {
        ReturnsHere(cfg, reg, w(k), s);
      } else {
        var wf := AfterChild(cfg, reg, parent, id, c.result);
        RecordingKeepsBehind(cfg, reg, s, wf, RecordOf(wf, id));
        DescendsLocated(reg, s, wf);
        ReturnsIffNothingFailed(cfg, reg, w, wf, c.next, fuel - 1);
        PrefixedGood(RecordOf(wf, id), Eval(cfg, reg, w, wf, c.next, fuel - 1).value.log);
      }
  }

  lemma DescendsLocated(reg: Registry, s: WfState, wf: WfState)
    requires Layered(reg) && s.workflowId in reg && Descends(reg, s, wf)
    ensures Located(reg, wf)
  {
  }

  /** A run that ends in this turn returns a text iff it completed without a bad record. */
  lemma ReturnsHere(cfg: Config, reg: Registry, a: Answer, s: WfState)
    requires Layered(reg) && Located(reg, s) && Behind(reg, s)
    ensures var (s', o) := StepOnce(cfg.env, reg, s);
            match TakeTurn(cfg, reg, a, s', o)
            case Return(r) =>
              && (r.Returned? <==> s'.status.Completed? && !HasBad(s.stepResults))
              && (r.Returned? ==> r.text == "Done.")
            case Next(_, _) => true
            case Call(_, parent, _) => !parent.status.Completed?
    ensures AllGood([])
  {
    hide StepOnce, RankOf, Acyclic, Standing, Below, HasBad, TakeTurn, Behind;
    var (s', o) := StepOnce(cfg.env, reg, s);
    DispatchedFacts(cfg, reg, s);
    StepLeavesNonTerminal(cfg, reg, s);
    NoEmptyId(reg, s);
    EndingTurns(cfg, reg, a, s', o);
  }

  lemma NoEmptyId(reg: Registry, s: WfState)
    requires Layered(reg) && Located(reg, s) && Behind(reg, s)
    ensures "" !in s.stepResults
  {
    hide RankOf, Acyclic;
  }

  /** Only a completed workflow can return a text, and only when no record is bad. */
  lemma EndingTurns(cfg: Config, reg: Registry, a: Answer, s: WfState, o: Outcome)
    ensures match TakeTurn(cfg, reg, a, s, o)
            case Return(r) =>
              && (r.Returned? <==> o.kind.Done? && !HasBad(s.stepResults))
              && (r.Returned? && "" !in s.stepResults ==> r.text == "Done.")
              && (Dispatching(o.kind) || o.kind.Done? || o.kind.Fail?)
            case Next(_, _) => true
            case Call(_, parent, _) => parent == s && Dispatching(o.kind)
  {
    hide FailStep, ResumeWithResult, StartWorkflow, HasBad, FailureMessage;
  }

  lemma StepLeavesNonTerminal(cfg: Config, reg: Registry, s: WfState)
    requires Layered(reg) && Located(reg, s)
    ensures Dispatching(StepOnce(cfg.env, reg, s).1.kind) ==> !StepOnce(cfg.env, reg, s).0.status.Completed?
  {
    hide StepOnce, RankOf, Acyclic;
    StepDescends(cfg.env, reg, RankOf(StepGraph(reg[s.workflowId])), s);
  }

  /** So every child workflow hands its parent the same text, and any failure inside it fails the parent's step. */
  lemma StartedRunsReturnDone(cfg: Config, reg: Registry, w: World, id: string, wf: string, context: Record, k: nat)
    returns (fuel: nat)
    requires Layered(reg) && wf in reg
    ensures var s := StartWorkflow(reg, id, Text(wf), context);
            && s.Ok? && Eval(cfg, reg, w, s.value, k, fuel).Some?
            && var r := Eval(cfg, reg, w, s.value, k, fuel).value;
               && (r.result.Returned? <==> r.wf.status.Completed? && BadAfter({}, r.log) == {})
               && (Unshared(reg) ==> (r.result.Returned? <==> r.wf.status.Completed? && AllGood(r.log)))
               && (r.result.Returned? ==> r.result.text == "Done.")
  {
    hide Eval, RankOf, Acyclic, BadAfter, AllGood, WellFormed;
    var s := StartWorkflow(reg, id, Text(wf), context).value;
    StartIsLocated(reg, wf);
    fuel := Terminates(cfg, reg, w, s, k);
    ReturnsIffNoBadRecord(cfg, reg, w, s, k, fuel);
    assert BadIds(s.stepResults) == {};
    if Unshared(reg) { ReturnsIffNothingFailed(cfg, reg, w, s, k, fuel); }
  }

  lemma StartIsLocated(reg: Registry, wf: string)
    requires wf in reg && WellFormed(reg[wf])
    ensures reg[wf].startStep in reg[wf].steps
  {
  }

  // ---------------------------------------------------------------- the worker itself

  /** The loop and its recursion through sub-workflows; `fuel` is a proof parameter. */
  method RunWithin(cfg: Config, reg: Registry, w: World, s0: WfState, k0: nat, ghost fuel: nat) returns (run: Run)
    requires Eval(cfg, reg, w, s0, k0, fuel).Some?
    ensures Eval(cfg, reg, w, s0, k0, fuel) == Some(run)
    decreases fuel
  {
    hide StepOnce, TakeTurn, AfterChild, RecordOf;
    var s, k, log := s0, k0, [];
    ghost var left: nat := fuel;
    NothingLogged(Eval(cfg, reg, w, s0, k0, fuel));
    while true
      invariant left <= fuel && Eval(cfg, reg, w, s, k, left).Some?
      invariant Eval(cfg, reg, w, s0, k0, fuel) == Continued(log, Eval(cfg, reg, w, s, k, left))
      decreases left
    {
      var (stepped, outcome) := StepOnce(cfg.env, reg, s);
      var turn := TakeTurn(cfg, reg, w(k), stepped, outcome);
      match turn {
        case Return(r) =>
          assert log + [] == log;
          return Run(r, stepped, log, k + 1);
        case Next(wf, more) =>
          LogsCompose(log, more, Eval(cfg, reg, w, wf, k + 1, left - 1));
          s, k, log := wf, k + 1, log + more;
        case Call(child, parent, id) =>
          var c := RunWithin(cfg, reg, w, child, k + 1, left - 1);
          if c.result.ValueError? {
            assert log + [] == log;
            return Run(c.result, parent, log, c.next);
          }
          var wf := AfterChild(cfg, reg, parent, id, c.result);
          LogsCompose(log, RecordOf(wf, id), Eval(cfg, reg, w, wf, c.next, left - 1));
          s, k, log := wf, c.next, log + RecordOf(wf, id);
      }
      left := left - 1;
    }
  }

  lemma NothingLogged(rest: Option<Run>)
    ensures Continued([], rest) == rest
  {
    if rest.Some? { assert [] + rest.value.log == rest.value.log; }
  }

  lemma LogsCompose(a: seq<Event>, b: seq<Event>, rest: Option<Run>)
    ensures Continued(a, Continued(b, rest)) == Continued(a + b, rest)
  {
    if rest.Some? { assert a + (b + rest.value.log) == (a + b) + rest.value.log; }
  }

  /** Runs a started or resumed workflow to its end; on layered definitions there always is one. */
  method RunWorkflowToCompletion(cfg: Config, reg: Registry, w: World, s: WfState, k: nat) returns (run: Run)
    requires Layered(reg) && Located(reg, s) && "" !in s.stepResults
    ensures exists fuel: nat :: Eval(cfg, reg, w, s, k, fuel) == Some(run)
    ensures run.result.Returned? <==> run.wf.status.Completed? && BadAfter(BadIds(s.stepResults), run.log) == {}
    ensures run.result.Returned? ==> run.result.text == "Done."
  {
    hide Eval, Acyclic, RankOf, WellFormed;
    ghost var fuel := Terminates(cfg, reg, w, s, k);
    ReturnsIffNoBadRecord(cfg, reg, w, s, k, fuel);
    run := RunWithin(cfg, reg, w, s, k, fuel);
  }
}
