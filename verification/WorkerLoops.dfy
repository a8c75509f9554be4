/** When the uncapped worker need not return: exactly when a circle can be reached. */
module WorkerLoops {
  import opened Wrappers
  import opened Digraph
  import opened WorkflowEngine
  import opened WorkflowDefinitions
  import opened WorkflowPlaces
  import opened PlainWorkflows
  import opened LoadedLoops
  import opened TodoWorker

  ghost predicate Ends(cfg: Config, reg: Registry, w: World, s: WfState, k: nat) {
    exists fuel: nat :: Eval(cfg, reg, w, s, k, fuel).Some?
  }

  // ---------------------------------------------------------------- one turn

  /** What the worker makes of a step that calls no workflow: it returns, or goes on where the step leads. */
  lemma WorkerGoesOn(cfg: Config, reg: Registry, a: Answer, s: WfState, p: Place)
    requires At(s, p) && Known(reg, p) && !StepAt(reg, p).stepType.SubWorkflowStep?
    ensures var (s', o) := StepOnce(cfg.env, reg, s);
            match TakeTurn(cfg, reg, a, s', o)
            case Return(_) => true
            case Next(wf, _) => Onward(Mode.Worker, cfg.env, reg, p, wf)
            case Call(_, _, _) => false
  {
    hide StepOnce, ResumeWithResult, FailStep, Forward, Failing, Otherwise, PatternKnown, CouncilKnown, RecordOf,
         Finish, FailureMessage;
    var (s', o) := StepOnce(cfg.env, reg, s);
    StepIsDispatched(cfg.env, reg, s, p);
    forall e ensures var wf := FailStep(reg, s', StepAt(reg, p).stepId, e).0;
                     if Failing(reg, p).Some? then At(wf, Failing(reg, p).value) else Ended(wf) {
      FailedStands(reg, p, s', e);
    }
    if Dispatching(o.kind) && !o.kind.Continue? {
      forall v ensures var wf := ResumeWithResult(cfg.env, s', o.stepId, v);
                       if Forward(reg, p).Some? then At(wf, Forward(reg, p).value) else Ended(wf) {
        ResumedStands(cfg.env, reg, p, s', o.stepId, v);
      }
    }
    if o.kind.Continue? { ConditionStands(cfg.env, reg, s, p); }
  }

  /** An answer that leads from `a` to `b` where one does. */
  function Tell(reg: Registry, a: Place, b: Place): Answer {
    if Known(reg, a) && Forward(reg, a) == Some(b) then Answer(Output(Null), Some(Null), "")
        else Answer(ReplyError(""), None, "")
  }

  lemma TellLeads(cfg: Config, reg: Registry, s: WfState, a: Place, b: Place)
    requires At(s, a) && Leads(Mode.Worker, cfg.env, reg, a, b) && !StepAt(reg, a).stepType.SubWorkflowStep?
    requires StepAt(reg, a).stepType.ConditionStep? ==>
               cfg.env.evaluate(Expression(StepAt(reg, a)), s.context, s.stepResults) ==
                   Some(Forward(reg, a) == Some(b))
    ensures var (s', o) := StepOnce(cfg.env, reg, s);
            var t := TakeTurn(cfg, reg, Tell(reg, a, b), s', o);
            t.Next? && At(t.wf, b)
  {
    hide StepOnce, ResumeWithResult, FailStep, Forward, Failing, Otherwise, PatternKnown, CouncilKnown, RecordOf,
         Finish, FailureMessage;
    var (s', o) := StepOnce(cfg.env, reg, s);
    StepIsDispatched(cfg.env, reg, s, a);
    forall e ensures var wf := FailStep(reg, s', StepAt(reg, a).stepId, e).0;
                     if Failing(reg, a).Some? then At(wf, Failing(reg, a).value) else Ended(wf) {
      FailedStands(reg, a, s', e);
    }
    if Dispatching(o.kind) && !o.kind.Continue? { ResumedStands(cfg.env, reg, a, s', o.stepId, Null); }
    if StepAt(reg, a).stepType.ConditionStep? { ConditionStands(cfg.env, reg, s, a); PlaceIs(s', a, b); }
    if o.kind.Council? && Forward(reg, a) == Some(b) { PlaceIs(s', a, b); }
  }

  // ---------------------------------------------------------------- runs without a circle

  /** The steps of one workflow. */
  function PlacesIn(reg: Registry, wf: string): set<Place>
    requires wf in reg
  {
    set id | id in reg[wf].steps :: Place(wf, id)
  }

  lemma AsManyPlaces(reg: Registry, wf: string)
    requires wf in reg
    ensures |PlacesIn(reg, wf)| == |reg[wf].steps|
  {
    SameCount(wf, reg[wf].steps.Keys);
    assert PlacesIn(reg, wf) == set id | id in reg[wf].steps.Keys :: Place(wf, id);
  }

  lemma {:induction false} SameCount(wf: string, ids: set<string>)
    ensures |set id | id in ids :: Place(wf, id)| == |ids|
  {
    if ids != {} {
      var x :| x in ids;
      SameCount(wf, ids - {x});
      assert (set id | id in ids :: Place(wf, id)) == (set id | id in ids - {x} :: Place(wf, id)) + {Place(wf, x)};
    }
  }

  /** A trail of the worker stays in a workflow without sub-workflows. */
  lemma {:induction false} TrailStays(env: Env, reg: Registry, p: seq<Place>, n: nat)
    requires Trail(Mode.Worker, env, reg, p) && n < |p| && Known(reg, p[0]) && WellFormed(reg[p[0].wf])
             && NoSubWorkflows(reg[p[0].wf])
    ensures p[n].wf == p[0].wf && Known(reg, p[n]) && !StepAt(reg, p[n]).stepType.SubWorkflowStep?
  {
    hide Leads, WellFormed;
    if n > 0 {
      TrailStays(env, reg, p, n - 1);
      assert Leads(Mode.Worker, env, reg, p[n - 1], p[n - 1 + 1]);
      LeadsInside(env, reg, p[n - 1], p[n]);
    }
  }

  lemma LeadsInside(env: Env, reg: Registry, a: Place, b: Place)
    requires Leads(Mode.Worker, env, reg, a, b) && WellFormed(reg[a.wf]) && !StepAt(reg, a).stepType.SubWorkflowStep?
    ensures b.wf == a.wf && Known(reg, b)
  {
    hide CanWork, CanFail, WellFormed;
    TargetsAreSteps(reg[a.wf], a.step);
  }

  /** Some trail from `a` comes back to where it has been. */
  ghost predicate Circles(mode: Mode, env: Env, reg: Registry, a: Place) {
    exists p :: Trail(mode, env, reg, p) && p[0] == a && !Distinct(p)
  }

  lemma TrailsAreShort(env: Env, reg: Registry, p: seq<Place>)
    requires Trail(Mode.Worker, env, reg, p) && Known(reg, p[0]) && WellFormed(reg[p[0].wf])
             && NoSubWorkflows(reg[p[0].wf])
    requires !Circles(Mode.Worker, env, reg, p[0])
    ensures |p| <= |reg[p[0].wf].steps|
  {
    hide Leads, WellFormed;
    forall i | 0 <= i < |p| ensures p[i] in PlacesIn(reg, p[0].wf) { TrailStays(env, reg, p, i); }
    AsManyPlaces(reg, p[0].wf);
    if |p| > |PlacesIn(reg, p[0].wf)| { Pigeonhole(p, PlacesIn(reg, p[0].wf)); }
  }

  /** After a trail from the start there are only so many steps left to go to. */
  lemma {:induction false} EndsAlong(cfg: Config, reg: Registry, w: World, s: WfState, k: nat, p: seq<Place>)
    requires |p| >= 1 && Known(reg, p[0]) && WellFormed(reg[p[0].wf]) && NoSubWorkflows(reg[p[0].wf])
    requires !Circles(Mode.Worker, cfg.env, reg, p[0]) && Trail(Mode.Worker, cfg.env, reg, p) && At(s, p[|p| - 1])
    ensures Ends(cfg, reg, w, s, k)
    decreases |reg[p[0].wf].steps| - |p|
  {
    hide StepOnce, TakeTurn, WellFormed, NoSubWorkflows, Eval, RecordOf, Circles, Leads;
    var (s', o) := StepOnce(cfg.env, reg, s);
    var at := p[|p| - 1];
    TrailsAreShort(cfg.env, reg, p);
    TrailStays(cfg.env, reg, p, |p| - 1);
    WorkerGoesOn(cfg, reg, w(k), s, at);
    match TakeTurn(cfg, reg, w(k), s', o)
    case Return(_) => EvalReturn(cfg, reg, w, s, k);
    case Next(wf, _) =>
      if Ended(wf) {
        EndedEnds(cfg, reg, w, wf, k + 1);
      } else {
        TrailSnoc(cfg.env, reg, p, PlaceOf(wf));
        TrailsAreShort(cfg.env, reg, p + [PlaceOf(wf)]);
        EndsAlong(cfg, reg, w, wf, k + 1, p + [PlaceOf(wf)]);
      }
      var fuel: nat :| Eval(cfg, reg, w, wf, k + 1, fuel).Some?;
      EvalNext(cfg, reg, w, s, k, fuel);
  }

  lemma EndedEnds(cfg: Config, reg: Registry, w: World, s: WfState, k: nat)
    requires Ended(s)
    ensures Ends(cfg, reg, w, s, k)
  {
    hide StepOnce, TakeTurn, Eval;
    var (s', o) := StepOnce(cfg.env, reg, s);
    EndDispatchesNothing(cfg.env, reg, s);
    NothingGoesOn(cfg, reg, w(k), s', o);
    EvalReturn(cfg, reg, w, s, k);
  }

  lemma EndDispatchesNothing(env: Env, reg: Registry, s: WfState)
    requires Ended(s)
    ensures !Dispatching(StepOnce(env, reg, s).1.kind)
  {
  }

  lemma NothingGoesOn(cfg: Config, reg: Registry, a: Answer, s: WfState, o: Outcome)
    requires !Dispatching(o.kind)
    ensures TakeTurn(cfg, reg, a, s, o).Return?
  {
  }

  lemma TrailSnoc(env: Env, reg: Registry, p: seq<Place>, b: Place)
    requires Trail(Mode.Worker, env, reg, p) && Leads(Mode.Worker, env, reg, p[|p| - 1], b)
    ensures Trail(Mode.Worker, env, reg, p + [b]) && (p + [b])[0] == p[0]
  {
    hide Leads;
    var q := p + [b];
    forall i | 0 <= i < |q| - 1 ensures Leads(Mode.Worker, env, reg, q[i], q[i + 1]) {
      if i < |p| - 1 { assert Leads(Mode.Worker, env, reg, p[i], p[i + 1]); }
    }
  }

  // ---------------------------------------------------------------- an outside world that goes round for ever

  /** Answers so that a run standing at `p[0]` in iteration `k0` goes along `p` to `j` and round from `i` for ever. */
  function Driver(reg: Registry, p: seq<Place>, i: nat, j: nat, k0: nat): World
    requires i < j < |p|
  {
    (k: nat) =>
      var n: nat := if k < k0 then 0 else k - k0;
      Tell(reg, p[Round(i, j, n)], p[Round(i, j, n) + 1])
  }

  /** A lasso: along `p` to its last place, which is also the `i`-th. */
  ghost predicate Lasso(env: Env, reg: Registry, p: seq<Place>, i: nat) {
    && Trail(Mode.Worker, env, reg, p) && i < |p| - 1 && p[i] == p[|p| - 1]
    && Known(reg, p[0]) && WellFormed(reg[p[0].wf]) && NoSubWorkflows(reg[p[0].wf])
  }

  lemma DriverTurns(cfg: Config, reg: Registry, p: seq<Place>, i: nat, s: WfState, k0: nat, n: nat)
    requires Lasso(cfg.env, reg, p, i) && Agrees(cfg.env, reg, p) && At(s, p[Round(i, |p| - 1, n)])
    ensures var (s', o) := StepOnce(cfg.env, reg, s);
            var t := TakeTurn(cfg, reg, Driver(reg, p, i, |p| - 1, k0)(k0 + n), s', o);
            t.Next? && At(t.wf, p[Round(i, |p| - 1, n + 1)])
  {
    hide StepOnce, TakeTurn, WellFormed, NoSubWorkflows, Leads, Tell, At, Agrees;
    var m := Round(i, |p| - 1, n);
    assert Leads(Mode.Worker, cfg.env, reg, p[m], p[m + 1]);
    AgreesHere(Mode.Worker, cfg.env, reg, p, m, s.context, s.stepResults);
    TrailStays(cfg.env, reg, p, m);
    TellLeads(cfg, reg, s, p[m], p[m + 1]);
    assert Driver(reg, p, i, |p| - 1, k0)(k0 + n) == Tell(reg, p[m], p[m + 1]);
  }

  lemma {:induction false} DriverNeverEnds(cfg: Config, reg: Registry, p: seq<Place>, i: nat, s: WfState, k0: nat,
                                           n: nat, fuel: nat)
    requires Lasso(cfg.env, reg, p, i) && Agrees(cfg.env, reg, p) && At(s, p[Round(i, |p| - 1, n)])
    ensures Eval(cfg, reg, Driver(reg, p, i, |p| - 1, k0), s, k0 + n, fuel).None?
    decreases fuel
  {
    hide StepOnce, TakeTurn, Driver, Agrees, Lasso, At, Round;
    if fuel > 0 {
      LassoIsLong(cfg.env, reg, p, i);
      DriverTurns(cfg, reg, p, i, s, k0, n);
      var (s', o) := StepOnce(cfg.env, reg, s);
      var wf := TakeTurn(cfg, reg, Driver(reg, p, i, |p| - 1, k0)(k0 + n), s', o).wf;
      DriverNeverEnds(cfg, reg, p, i, wf, k0, n + 1, fuel - 1);
    }
  }

  lemma LassoIsLong(env: Env, reg: Registry, p: seq<Place>, i: nat)
    requires Lasso(env, reg, p, i)
    ensures i < |p| - 1
  {
  }

  /** From a circle within reach a lasso that meets no other place twice. */
  lemma CirclesGiveLasso(env: Env, reg: Registry, a: Place) returns (p: seq<Place>, i: nat)
    requires Circles(Mode.Worker, env, reg, a) && Known(reg, a) && WellFormed(reg[a.wf]) && NoSubWorkflows(reg[a.wf])
    ensures Lasso(env, reg, p, i) && p[0] == a && Distinct(p[..|p| - 1])
  {
    hide Leads, WellFormed, NoSubWorkflows;
    var q :| Trail(Mode.Worker, env, reg, q) && q[0] == a && !Distinct(q);
    var j: nat;
    i, j := FirstRepeat(q);
    p := q[..j + 1];
    forall n | 0 <= n < |p| - 1 ensures Leads(Mode.Worker, env, reg, p[n], p[n + 1]) {
      assert Leads(Mode.Worker, env, reg, q[n], q[n + 1]);
    }
    assert p[..|p| - 1] == q[..j];
  }

  lemma LassosRunForever(cfg: Config, reg: Registry, s: WfState, k: nat, p: seq<Place>, i: nat)
    requires Lasso(cfg.env, reg, p, i) && Agrees(cfg.env, reg, p) && At(s, p[0])
    ensures !Ends(cfg, reg, Driver(reg, p, i, |p| - 1, k), s, k)
  {
    hide Driver, Agrees, At, Lasso, Eval, Round;
    LassoIsLong(cfg.env, reg, p, i);
    RoundStarts(i, |p| - 1);
    var w := Driver(reg, p, i, |p| - 1, k);
    forall fuel: nat ensures Eval(cfg, reg, w, s, k, fuel).None? {
      DriverNeverEnds(cfg, reg, p, i, s, k, 0, fuel);
    }
  }

  lemma RoundStarts(i: nat, j: nat)
    requires i < j
    ensures Round(i, j, 0) == 0
  {
  }

  lemma SimpleIsSteady(p: seq<Place>)
    requires |p| >= 1 && Distinct(p[..|p| - 1])
    ensures Steady(p)
  {
    hide Distinct;
    forall m: nat, n: nat | m < |p| - 1 && n < |p| - 1 && p[m] == p[n] ensures p[m + 1] == p[n + 1] {
      SamePosition(p, |p| - 1, m, n);
    }
  }

  // ---------------------------------------------------------------- when the worker returns

  /** No two conditions of a workflow have the same expression. */
  ghost predicate ConditionsDifferIn(reg: Registry, wf: string) {
    forall a, b, e :: Asks(reg, a, e) && Asks(reg, b, e) && a.wf == wf && b.wf == wf ==> a == b
  }

  lemma DifferOnTrail(env: Env, reg: Registry, p: seq<Place>)
    requires Trail(Mode.Worker, env, reg, p) && Known(reg, p[0]) && WellFormed(reg[p[0].wf])
             && NoSubWorkflows(reg[p[0].wf])
    requires ConditionsDifferIn(reg, p[0].wf)
    ensures DifferAlong(reg, p)
  {
    hide Trail, WellFormed, NoSubWorkflows, Asks;
    forall n | 0 <= n < |p| ensures p[n].wf == p[0].wf { TrailStays(env, reg, p, n); }
  }

  function JudgingIn(cfg: Config, evaluate: (Value, Record, Record) -> Option<bool>): Config {
    cfg.(env := cfg.env.(evaluate := evaluate))
  }

  ghost predicate AlwaysEnds(cfg: Config, reg: Registry, s: WfState, k: nat) {
    forall evaluate, w: World :: Ends(JudgingIn(cfg, evaluate), reg, w, s, k)
  }

  /** For a workflow that calls no other: the worker returns, whatever the LLM and the tools answer and
      however conditions evaluate, if and only if no circle can be reached from the start step, counting
      failure edges as the engine follows them. */
  lemma WorkerEndsIff(cfg: Config, reg: Registry, wf: string, id: string, context: Record, k: nat)
    requires wf in reg && WellFormed(reg[wf]) && NoSubWorkflows(reg[wf]) && ConditionsDifferIn(reg, wf)
    ensures var s := StartWorkflow(reg, id, Text(wf), context);
            && s.Ok?
            && (AlwaysEnds(cfg, reg, s.value, k) <==> !Circles(Mode.Worker, cfg.env, reg, Place(wf, reg[wf].startStep)))
  {
    hide Ends, Circles, Trail, NoSubWorkflows, ConditionsDifferIn, Agrees, Lasso, Distinct, Driver, Leads;
    var s := StartWorkflow(reg, id, Text(wf), context).value;
    var start := Place(wf, reg[wf].startStep);
    if Circles(Mode.Worker, cfg.env, reg, start) {
      var p, i := CirclesGiveLasso(cfg.env, reg, start);
      var evaluate, w := CanGoRound(cfg, reg, s, k, p, i);
      assert !Ends(JudgingIn(cfg, evaluate), reg, w, s, k);
    } else {
      forall evaluate, w: World ensures Ends(JudgingIn(cfg, evaluate), reg, w, s, k) {
        CirclesAnyway(cfg.env, reg, start, evaluate);
        OnePlaceTrail(cfg.env.(evaluate := evaluate), reg, start);
        EndsAlong(JudgingIn(cfg, evaluate), reg, w, s, k, [start]);
      }
    }
  }

  lemma OnePlaceTrail(env: Env, reg: Registry, a: Place)
    ensures Trail(Mode.Worker, env, reg, [a])
  {
  }

  lemma CirclesAnyway(env: Env, reg: Registry, a: Place, evaluate: (Value, Record, Record) -> Option<bool>)
    ensures Circles(Mode.Worker, Judging(env, evaluate), reg, a) <==> Circles(Mode.Worker, env, reg, a)
  {
    hide Trail, Judging;
    forall p ensures Trail(Mode.Worker, Judging(env, evaluate), reg, p) <==> Trail(Mode.Worker, env, reg, p) {
      TrailsIgnoreTheEvaluator(Mode.Worker, env, reg, p, evaluate);
    }
  }

  lemma CanGoRound(cfg: Config, reg: Registry, s: WfState, k: nat, p: seq<Place>, i: nat)
      returns (evaluate: (Value, Record, Record) -> Option<bool>, w: World)
    requires Lasso(cfg.env, reg, p, i) && Distinct(p[..|p| - 1]) && At(s, p[0]) && ConditionsDifferIn(reg, p[0].wf)
    ensures !Ends(JudgingIn(cfg, evaluate), reg, w, s, k)
  {
    hide Ends, Trail, NoSubWorkflows, WellFormed, ConditionsDifferIn, Agrees, Distinct, Steady, DifferAlong, Driver;
    SimpleIsSteady(p);
    DifferOnTrail(cfg.env, reg, p);
    evaluate := Evaluator(reg, p);
    EvaluatorAgrees(cfg.env, reg, p);
    TrailsIgnoreTheEvaluator(Mode.Worker, cfg.env, reg, p, evaluate);
    w := Driver(reg, p, i, |p| - 1, k);
    LassosRunForever(JudgingIn(cfg, evaluate), reg, s, k, p, i);
  }

  /** A plain workflow with a circle in its step graph need not end, however conditions evaluate elsewhere. */
  lemma PlainNeedNotEnd(cfg: Config, d: Definition, id: string, context: Record, k: nat)
    requires WellFormed(d) && AllPlain(d) && LoopFrom(StepGraph(d), d.startStep)
    ensures var s := StartWorkflow(map["w" := d], id, Text("w"), context);
            s.Ok? && exists w: World :: !Ends(cfg, map["w" := d], w, s.value, k)
  {
    hide Ends, StepGraph, Edge, Leads, Agrees, Driver, WellFormed;
    var reg := map["w" := d];
    var s := StartWorkflow(reg, id, Text("w"), context).value;
    var p :| Walk(StepGraph(d), p) && p[0] == d.startStep && !Distinct(p);
    var q := PlacesOn("w", p);
    WalkIsTrail(Mode.Worker, cfg.env, reg, "w", p);
    assert !Distinct(q) by { var i, j :| 0 <= i < j < |p| && p[i] == p[j]; assert q[i] == q[j]; }
    assert Circles(Mode.Worker, cfg.env, reg, q[0]);
    StartIsKnown(reg, d);
    var lasso, i := CirclesGiveLasso(cfg.env, reg, q[0]);
    forall n | 0 <= n < |lasso| ensures lasso[n].wf == "w" { TrailStays(cfg.env, reg, lasso, n); }
    PlainAgrees(cfg.env, reg, "w", lasso);
    LassosRunForever(cfg, reg, s, k, lasso, i);
  }

  lemma StartIsKnown(reg: Registry, d: Definition)
    requires reg == map["w" := d] && WellFormed(d) && AllPlain(d)
    ensures Known(reg, Place("w", d.startStep)) && NoSubWorkflows(d)
  {
  }

  // ---------------------------------------------------------------- definitions that load and need not end

  /** So a definition without any condition step loads, and while the backend errs the worker does not return. */
  lemma RetryNeedNotEnd(cfg: Config, id: string, context: Record, k: nat)
    ensures Loads(Retry())
    ensures var s := StartWorkflow(map["w" := Retry()], id, Text("w"), context);
            s.Ok? && exists w: World :: !Ends(cfg, map["w" := Retry()], w, s.value, k)
  {
    hide Ends, LoopFrom, Retry, StepGraph, WellFormed, FieldsOk;
    RetryLoads();
    PlainNeedNotEnd(cfg, Retry(), id, context, k);
  }

  /** And so does one that is acyclic along every transition as written. */
  lemma SharedIdNeedNotEnd(cfg: Config, id: string, context: Record, k: nat)
    ensures Loads(SharedId()) && Acyclic(WrittenGraph(SharedId()))
    ensures var s := StartWorkflow(map["w" := SharedId()], id, Text("w"), context);
            s.Ok? && exists w: World :: !Ends(cfg, map["w" := SharedId()], w, s.value, k)
  {
    hide Ends, LoopFrom, SharedId, StepGraph, Acyclic, WrittenGraph, WellFormed, FieldsOk;
    SharedIdLoads();
    PlainNeedNotEnd(cfg, SharedId(), id, context, k);
  }

  // ---------------------------------------------------------------- conditions

  /** The cycle test permits loops through a condition; while that keeps holding, the worker never returns. */
  lemma {:induction false} ConditionLoopNeverReturns(cfg: Config, w: World, s: WfState, k: nat, fuel: nat)
    requires forall v, c, r :: cfg.env.evaluate(v, c, r) == Some(true)
    requires s.workflowId == "loop" && !IsTerminal(s) && s.currentStepId == Some("c")
    ensures Loads(ConditionLoop())
    ensures Eval(cfg, map["loop" := ConditionLoop()], w, s, k, fuel).None?
    decreases fuel
  {
    hide Loads;
    ConditionLoopLoads();
    if fuel > 0 {
      assert StepOnce(cfg.env, map["loop" := ConditionLoop()], s).0 == s;
      ConditionLoopNeverReturns(cfg, w, s, k + 1, fuel - 1);
    }
  }

  // ---------------------------------------------------------------- shared ids hide failures

  function FailsThenSucceeds(k0: nat): World {
    (k: nat) => Answer(Output(if k == k0 then Dict(map["status" := Text("failed")]) else Null), None, "")
  }

  lemma FirstTurn(cfg: Config, reg: Registry, s: WfState, k: nat)
    requires reg == map["w" := TwoOfOneId()] && s.workflowId == "w" && s.status == Running
             && s.currentStepId == Some("a")
    ensures var (s', o) := StepOnce(cfg.env, reg, s);
            var t := TakeTurn(cfg, reg, FailsThenSucceeds(k)(k), s', o);
            && t.Next? && t.log == [Event("b", false)] && t.wf.workflowId == "w" && t.wf.status == Running
            && t.wf.currentStepId == Some("b")
            && t.wf.stepResults == s.stepResults["b" := Dict(map["status" := Text("failed")])]
  {
    Names();
    assert Target(TwoOfOneId().steps["a"], "on_success") == Some("b");
  }

  lemma SecondTurn(cfg: Config, reg: Registry, s: WfState, k: nat)
    requires reg == map["w" := TwoOfOneId()] && s.workflowId == "w" && s.status == Running
             && s.currentStepId == Some("b")
    ensures var (s', o) := StepOnce(cfg.env, reg, s);
            var t := TakeTurn(cfg, reg, FailsThenSucceeds(k)(k + 1), s', o);
            && t.Next? && t.log == [Event("b", true)] && t.wf.workflowId == "w" && t.wf.status == Running
            && t.wf.currentStepId == None && t.wf.stepResults == s.stepResults["b" := Null]
  {
    Names();
    assert Target(TwoOfOneId().steps["b"], "on_success") == None;
  }

  lemma LastTurn(cfg: Config, reg: Registry, s: WfState, a: Answer)
    requires s.status == Running && s.currentStepId == None && !HasBad(s.stepResults)
    ensures var (s', o) := StepOnce(cfg.env, reg, s);
            TakeTurn(cfg, reg, a, s', o).Return? && TakeTurn(cfg, reg, a, s', o).result.Returned?
  {
    assert StepOnce(cfg.env, reg, s) == Complete(s);
  }

  /** Without shared ids a failure stays recorded; with them, also in an acyclic definition, a later
      success of another step replaces it and the worker reports the item done. */
  lemma LaterRecordHidesFailure(cfg: Config, id: string, context: Record, k: nat)
    ensures var reg := map["w" := TwoOfOneId()];
            var s := StartWorkflow(reg, id, Text("w"), context);
            && Acyclic(StepGraph(TwoOfOneId())) && s.Ok?
            && var run := Eval(cfg, reg, FailsThenSucceeds(k), s.value, k, 3);
               run.Some? && run.value.result.Returned? && !AllGood(run.value.log)
  {
    hide StepOnce, TakeTurn, TwoOfOneId, FailsThenSucceeds, HasBad, Acyclic, StepGraph;
    TwoOfOneIdIsAcyclic();
    var reg, w := map["w" := TwoOfOneId()], FailsThenSucceeds(k);
    StartsAtA(reg, id, context);
    var s := StartWorkflow(reg, id, Text("w"), context).value;
    FirstTurn(cfg, reg, s, k);
    var (s1, o1) := StepOnce(cfg.env, reg, s);
    var t1 := TakeTurn(cfg, reg, w(k), s1, o1);
    SecondTurn(cfg, reg, t1.wf, k);
    var (s2, o2) := StepOnce(cfg.env, reg, t1.wf);
    var t2 := TakeTurn(cfg, reg, w(k + 1), s2, o2);
    assert t2.wf.stepResults == map["b" := Null];
    NullIsNotBad();
    LastTurn(cfg, reg, t2.wf, w(k + 2));
    var (s3, o3) := StepOnce(cfg.env, reg, t2.wf);
    var end := Eval(cfg, reg, w, t2.wf, k + 2, 1);
    var mid := Eval(cfg, reg, w, t1.wf, k + 1, 2);
    assert mid == Continued(t2.log, end);
    var run := Eval(cfg, reg, w, s, k, 3);
    assert run == Continued(t1.log, mid);
    assert run.value.log[0] == Event("b", false);
  }

  lemma NullIsNotBad()
    ensures !HasBad(map["b" := Null])
  {
  }

  lemma StartsAtA(reg: Registry, id: string, context: Record)
    requires reg == map["w" := TwoOfOneId()]
    ensures StartWorkflow(reg, id, Text("w"), context).Ok?
    ensures var s := StartWorkflow(reg, id, Text("w"), context).value;
            s.workflowId == "w" && s.status == Running && s.currentStepId == Some("a") && s.stepResults == map[]
  {
  }
}
