/** How far the two loops that run a workflow inside one call can get: exactly along the trails. */
module WorkflowReach {
  import opened Wrappers
  import opened Digraph
  import opened WorkflowEngine
  import opened WorkflowInvoker
  import opened InlineWorkflows
  import opened WorkflowPlaces

  /** The state the driver goes on with after outcome `o`, if it does. */
  function Next(mode: Mode, env: Env, reg: Registry, a: Answer, s: WfState, o: Outcome): Option<WfState>
    requires !mode.Worker?
  {
    match mode
    case Invoked =>
      (match React(Config(env, None), reg, a, s, o)
       case Proceed(wf, _) => Some(wf)
       case Stop(_) => None)
    case Inline(hasExecutor) => NextState(env, reg, hasExecutor, a, s, o)
  }

  /** What the driver makes of the step at `p`: it stops, ends the workflow, or stands where `p` leads. */
  lemma GoesWhereItLeads(mode: Mode, env: Env, reg: Registry, a: Answer, s: WfState, p: Place)
    requires !mode.Worker? && At(s, p) && Known(reg, p)
    ensures var (s', o) := StepOnce(env, reg, s);
            var wf := Next(mode, env, reg, a, s', o);
            wf.Some? ==> CanGoOn(mode, env, reg, p) && Onward(mode, env, reg, p, wf.value)
  {
    hide StepOnce, ResumeWithResult, FailStep, StartWorkflow, Forward, Failing, Otherwise, PatternKnown, CouncilKnown;
    var (s', o) := StepOnce(env, reg, s);
    StepIsDispatched(env, reg, s, p);
    forall e ensures var wf := FailStep(reg, s', StepAt(reg, p).stepId, e).0; if Failing(reg, p).Some? then
        At(wf, Failing(reg, p).value) else Ended(wf) {
      FailedStands(reg, p, s', e);
    }
    if Dispatching(o.kind) && !o.kind.Continue? {
      forall v ensures var wf := ResumeWithResult(env, s', o.stepId, v);
                       if Forward(reg, p).Some? then At(wf, Forward(reg, p).value) else Ended(wf) {
        ResumedStands(env, reg, p, s', o.stepId, v);
      }
    }
    if o.kind.Continue? { ConditionStands(env, reg, s, p); }
    if o.kind.SubWorkflow? { ChildStands(reg, p, s', a.freshId); }
  }

  // ---------------------------------------------------------------- an outside world that leads along a trail

  function Say(r: Reply, inline: Option<Value>): Answer {
    Answer(r, inline, Rejected(""), Null, r, "")
  }

  /** An answer that leads from `a` to `b` where one does. */
  function Pick(reg: Registry, a: Place, b: Place): Answer {
    if Known(reg, a) && Forward(reg, a) == Some(b) then Say(Output(Null), Some(Null)) else Say(ReplyError(""), None)
  }

  lemma PickLeads(mode: Mode, env: Env, reg: Registry, s: WfState, a: Place, b: Place)
    requires !mode.Worker? && At(s, a) && Leads(mode, env, reg, a, b)
    requires StepAt(reg, a).stepType.ConditionStep? ==>
               env.evaluate(Expression(StepAt(reg, a)), s.context, s.stepResults) == Some(Forward(reg, a) == Some(b))
    ensures var (s', o) := StepOnce(env, reg, s);
            var wf := Next(mode, env, reg, Pick(reg, a, b), s', o);
            wf.Some? && At(wf.value, b)
  {
    hide StepOnce, ResumeWithResult, FailStep, StartWorkflow, Forward, Failing, Otherwise, PatternKnown, CouncilKnown;
    var (s', o) := StepOnce(env, reg, s);
    StepIsDispatched(env, reg, s, a);
    forall e ensures var wf := FailStep(reg, s', StepAt(reg, a).stepId, e).0;
                     if Failing(reg, a).Some? then At(wf, Failing(reg, a).value) else Ended(wf) {
      FailedStands(reg, a, s', e);
    }
    if Dispatching(o.kind) && !o.kind.Continue? { ResumedStands(env, reg, a, s', o.stepId, Null); }
    if StepAt(reg, a).stepType.ConditionStep? { ConditionStands(env, reg, s, a); PlaceIs(s', a, b); }
    if o.kind.Council? && Forward(reg, a) == Some(b) { PlaceIs(s', a, b); }
    if o.kind.SubWorkflow? { ChildStands(reg, a, s', ""); }
  }

  /** Answers so that a run standing at `p[0]` in iteration `k0` follows `p`. */
  function Guide(reg: Registry, p: seq<Place>, k0: nat): World {
    (k: nat) =>
      var n := if k < k0 then 0 else k - k0;
      if n + 1 < |p| then Pick(reg, p[n], p[n + 1]) else Say(Output(Null), Some(Null))
  }

  // ---------------------------------------------------------------- runs

  /** The state after `n` iterations from `s`, if the driver gets that far. */
  function Stand(mode: Mode, env: Env, reg: Registry, w: World, s: WfState, k: nat, n: nat): Option<WfState>
    requires !mode.Worker?
    decreases n
  {
    if n == 0 then Some(s)
    else
      var (s', o) := StepOnce(env, reg, s);
      match Next(mode, env, reg, w(k), s', o)
      case None => None
      case Some(wf) => Stand(mode, env, reg, w, wf, k + 1, n - 1)
  }

  lemma NothingFollowsTheEnd(mode: Mode, env: Env, reg: Registry, w: World, s: WfState, k: nat, n: nat)
    requires !mode.Worker? && Ended(s) && n > 0
    ensures Stand(mode, env, reg, w, s, k, n).None?
  {
    assert !Dispatching(StepOnce(env, reg, s).1.kind);
  }

  /** A run that is still at a step has followed a trail to it. */
  lemma {:induction false} RunIsTrail(mode: Mode, env: Env, reg: Registry, w: World, s: WfState, k: nat, n: nat,
                                      a: Place)
      returns (p: seq<Place>)
    requires !mode.Worker? && AllWellFormed(reg) && Known(reg, a) && At(s, a)
    requires Stand(mode, env, reg, w, s, k, n).Some? && !Ended(Stand(mode, env, reg, w, s, k, n).value)
    ensures Trail(mode, env, reg, p) && |p| == n + 1 && p[0] == a
    ensures p[n] == PlaceOf(Stand(mode, env, reg, w, s, k, n).value)
    decreases n
  {
    hide StepOnce, Next, Leads, AllWellFormed, CanGoOn;
    if n == 0 {
      p := [a];
    } else {
      var (s', o) := StepOnce(env, reg, s);
      GoesWhereItLeads(mode, env, reg, w(k), s, a);
      var wf := Next(mode, env, reg, w(k), s', o).value;
      if Ended(wf) {
        if n > 1 { NothingFollowsTheEnd(mode, env, reg, w, wf, k + 1, n - 1); }
        assert false;
      }
      LeadsToKnown(mode, env, reg, a, PlaceOf(wf));
      var rest := RunIsTrail(mode, env, reg, w, wf, k + 1, n - 1, PlaceOf(wf));
      TrailCons(mode, env, reg, a, rest);
      p := [a] + rest;
    }
  }

  /** A run of `n` iterations has followed a trail of `n` places, the last of which it could leave. */
  lemma {:induction false} LongRunIsTrail(mode: Mode, env: Env, reg: Registry, w: World, s: WfState, k: nat, n: nat,
                                          a: Place)
      returns (p: seq<Place>)
    requires !mode.Worker? && AllWellFormed(reg) && Known(reg, a) && At(s, a) && n > 0
    requires Stand(mode, env, reg, w, s, k, n).Some?
    ensures Trail(mode, env, reg, p) && |p| == n && p[0] == a && CanGoOn(mode, env, reg, p[n - 1])
    decreases n
  {
    hide StepOnce, Next, Leads, AllWellFormed, CanGoOn;
    var (s', o) := StepOnce(env, reg, s);
    GoesWhereItLeads(mode, env, reg, w(k), s, a);
    if n == 1 {
      p := [a];
    } else {
      var wf := Next(mode, env, reg, w(k), s', o).value;
      if Ended(wf) {
        NothingFollowsTheEnd(mode, env, reg, w, wf, k + 1, n - 1);
        assert false;
      }
      LeadsToKnown(mode, env, reg, a, PlaceOf(wf));
      var rest := LongRunIsTrail(mode, env, reg, w, wf, k + 1, n - 1, PlaceOf(wf));
      TrailCons(mode, env, reg, a, rest);
      p := [a] + rest;
    }
  }

  /** Along a trail the evaluator agrees with, the guide leads to every place of it. */
  lemma {:induction false} GuideFollows(mode: Mode, env: Env, reg: Registry, p: seq<Place>, s: WfState, k0: nat,
                                        j: nat, n: nat)
    requires !mode.Worker? && Trail(mode, env, reg, p) && Agrees(env, reg, p) && j + n < |p| && At(s, p[j])
    ensures var t := Stand(mode, env, reg, Guide(reg, p, k0), s, k0 + j, n);
            t.Some? && At(t.value, p[j + n])
    decreases n
  {
    hide StepOnce, Next, Leads, Pick, At;
    if n > 0 {
      assert Leads(mode, env, reg, p[j], p[j + 1]);
      AgreesHere(mode, env, reg, p, j, s.context, s.stepResults);
      PickLeads(mode, env, reg, s, p[j], p[j + 1]);
      assert Guide(reg, p, k0)(k0 + j) == Pick(reg, p[j], p[j + 1]);
      var (s', o) := StepOnce(env, reg, s);
      GuideFollows(mode, env, reg, p, Next(mode, env, reg, Pick(reg, p[j], p[j + 1]), s', o).value, k0, j + 1, n - 1);
    }
  }

  /** An answer that goes on, wherever that leads. */
  lemma SayGoesOn(mode: Mode, env: Env, reg: Registry, s: WfState, a: Place)
    requires !mode.Worker? && At(s, a) && CanGoOn(mode, env, reg, a)
    requires StepAt(reg, a).stepType.ConditionStep? ==>
             env.evaluate(Expression(StepAt(reg, a)), s.context, s.stepResults).Some?
    ensures var (s', o) := StepOnce(env, reg, s);
            Next(mode, env, reg, Say(Output(Null), Some(Null)), s', o).Some?
  {
    hide StepOnce, ResumeWithResult, FailStep, StartWorkflow, PatternKnown, CouncilKnown;
    StepIsDispatched(env, reg, s, a);
    if StepAt(reg, a).stepType.ConditionStep? { ConditionStands(env, reg, s, a); }
  }

  lemma StandSnoc(mode: Mode, env: Env, reg: Registry, w: World, s: WfState, k: nat, n: nat)
    requires !mode.Worker? && Stand(mode, env, reg, w, s, k, n).Some?
    ensures var t := Stand(mode, env, reg, w, s, k, n).value;
            var (t', o) := StepOnce(env, reg, t);
            Stand(mode, env, reg, w, s, k, n + 1) == Next(mode, env, reg, w(k + n), t', o)
    decreases n
  {
    hide StepOnce, Next;
    if n > 0 {
      var (s', o) := StepOnce(env, reg, s);
      StandSnoc(mode, env, reg, w, Next(mode, env, reg, w(k), s', o).value, k + 1, n - 1);
    }
  }

  lemma GuideGoesOn(mode: Mode, env: Env, reg: Registry, p: seq<Place>, s: WfState, k0: nat)
    requires !mode.Worker? && Trail(mode, env, reg, p) && Agrees(env, reg, p) && At(s, p[0])
    requires CanGoOn(mode, env, reg, p[|p| - 1])
    ensures Stand(mode, env, reg, Guide(reg, p, k0), s, k0, |p|).Some?
  {
    hide StepOnce, Next, Leads, Pick, At;
    var n := |p| - 1;
    GuideFollows(mode, env, reg, p, s, k0, 0, n);
    var t := Stand(mode, env, reg, Guide(reg, p, k0), s, k0, n).value;
    if StepAt(reg, p[n]).stepType.ConditionStep? { assert Asks(reg, p[n], Expression(StepAt(reg, p[n]))); }
    SayGoesOn(mode, env, reg, t, p[n]);
    StandSnoc(mode, env, reg, Guide(reg, p, k0), s, k0, n);
  }

  // ---------------------------------------------------------------- what can be reached

  /** Some way of evaluating conditions and some outside world get the driver from `s` to `b` in fewer than
      `n` iterations. */
  ghost predicate CanStandAt(mode: Mode, env: Env, reg: Registry, s: WfState, k: nat, n: nat, b: Place)
    requires !mode.Worker?
  {
    exists evaluate, w, m :: GetsTo(mode, Judging(env, evaluate), reg, w, s, k, n, m, b)
  }

  ghost predicate GetsTo(mode: Mode, env: Env, reg: Registry, w: World, s: WfState, k: nat, n: nat, m: nat, b: Place)
    requires !mode.Worker?
  {
    m < n && Stand(mode, env, reg, w, s, k, m).Some? && At(Stand(mode, env, reg, w, s, k, m).value, b)
  }

  ghost predicate ShortTrail(mode: Mode, env: Env, reg: Registry, a: Place, b: Place, n: nat, p: seq<Place>) {
    Trail(mode, env, reg, p) && |p| <= n && p[0] == a && p[|p| - 1] == b
  }

  /** The driver can get to a place in fewer than `n` iterations if and only if a trail of at most `n` places
      leads there. */
  lemma CanStandAtIff(mode: Mode, env: Env, reg: Registry, s: WfState, k: nat, n: nat, a: Place, b: Place)
    requires !mode.Worker? && AllWellFormed(reg) && ConditionsDiffer(reg) && Known(reg, a) && At(s, a)
    ensures CanStandAt(mode, env, reg, s, k, n, b) <==> exists p :: ShortTrail(mode, env, reg, a, b, n, p)
  {
    hide Stand, Leads, AllWellFormed, ConditionsDiffer, Agrees, Judging, Guide, Trail;
    if CanStandAt(mode, env, reg, s, k, n, b) {
      var evaluate, w, m :| GetsTo(mode, Judging(env, evaluate), reg, w, s, k, n, m, b);
      var p := RunIsTrail(mode, Judging(env, evaluate), reg, w, s, k, m, a);
      TrailsIgnoreTheEvaluator(mode, env, reg, p, evaluate);
      assert ShortTrail(mode, env, reg, a, b, n, p);
    }
    if exists p :: ShortTrail(mode, env, reg, a, b, n, p) {
      var p :| ShortTrail(mode, env, reg, a, b, n, p);
      var q := Straightened(mode, env, reg, p);
      var e := Evaluator(reg, q);
      DifferentEverywhere(reg, q);
      EvaluatorAgrees(env, reg, q);
      TrailsIgnoreTheEvaluator(mode, env, reg, q, e);
      GuideFollows(mode, Judging(env, e), reg, q, s, k, 0, |q| - 1);
      assert GetsTo(mode, Judging(env, e), reg, Guide(reg, q, k), s, k, n, |q| - 1, b);
    }
  }

  // ---------------------------------------------------------------- how long it can go on

  ghost predicate CanRun(mode: Mode, env: Env, reg: Registry, s: WfState, k: nat, n: nat)
    requires !mode.Worker?
  {
    exists evaluate, w :: Stand(mode, Judging(env, evaluate), reg, w, s, k, n).Some?
  }

  /** A trail of `n` places whose last one can be left again. */
  ghost predicate OpenTrail(mode: Mode, env: Env, reg: Registry, a: Place, n: nat, p: seq<Place>) {
    Trail(mode, env, reg, p) && |p| == n && p[0] == a && CanGoOn(mode, env, reg, p[n - 1])
  }

  /** The driver can go through `n` iterations if and only if there is a trail of `n` places that can be
      left again; a circle within reach is enough for any `n`. */
  lemma CanRunIff(mode: Mode, env: Env, reg: Registry, s: WfState, k: nat, n: nat, a: Place)
    requires !mode.Worker? && AllWellFormed(reg) && ConditionsDiffer(reg) && Known(reg, a) && At(s, a) && n > 0
    ensures CanRun(mode, env, reg, s, k, n) <==> exists p :: OpenTrail(mode, env, reg, a, n, p)
  {
    hide Stand, Leads, AllWellFormed, ConditionsDiffer, Agrees, Judging, Guide, Trail, CanGoOn, Steady;
    if CanRun(mode, env, reg, s, k, n) {
      var evaluate, w :| Stand(mode, Judging(env, evaluate), reg, w, s, k, n).Some?;
      var p := LongRunIsTrail(mode, Judging(env, evaluate), reg, w, s, k, n, a);
      TrailsIgnoreTheEvaluator(mode, env, reg, p, evaluate);
      assert OpenTrail(mode, env, reg, a, n, p);
    }
    if exists p :: OpenTrail(mode, env, reg, a, n, p) {
      var p :| OpenTrail(mode, env, reg, a, n, p);
      var q := Steadied(mode, env, reg, p);
      var e := Evaluator(reg, q);
      DifferentEverywhere(reg, q);
      EvaluatorAgrees(env, reg, q);
      TrailsIgnoreTheEvaluator(mode, env, reg, q, e);
      GuideGoesOn(mode, Judging(env, e), reg, q, s, k);
    }
  }

  lemma DistinctIsSteady(p: seq<Place>)
    requires Distinct(p)
    ensures Steady(p)
  {
  }

  lemma Steadied(mode: Mode, env: Env, reg: Registry, p: seq<Place>) returns (q: seq<Place>)
    requires Trail(mode, env, reg, p) && CanGoOn(mode, env, reg, p[|p| - 1])
    ensures Trail(mode, env, reg, q) && |q| == |p| && q[0] == p[0] && CanGoOn(mode, env, reg, q[|q| - 1]) && Steady(q)
  {
    hide Leads, CanGoOn, Round, Distinct, Steady;
    if Distinct(p) {
      q := p;
      DistinctIsSteady(p);
    } else {
      var i, j := FirstRepeat(p);
      AroundIsTrail(mode, env, reg, p, i, j, |p|);
      AroundIsSteady(p, i, j, |p|);
      q := Around(p, i, j, |p|);
    }
  }
}
