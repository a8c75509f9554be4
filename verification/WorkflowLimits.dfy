/** When the capped loop can meet its limit: exactly when there is a trail as long as the limit. Sub-workflows
    are part of the trails. */
module WorkflowLimits {
  import opened Wrappers
  import opened Digraph
  import opened WorkflowEngine
  import opened WorkflowDefinitions
  import opened PlainWorkflows
  import opened LoadedLoops
  import opened WorkflowInvoker
  import opened WorkflowPlaces
  import opened WorkflowReach
  import TW = TodoWorker

  function JudgingIn(cfg: Config, evaluate: (Value, Record, Record) -> Option<bool>): Config {
    cfg.(env := cfg.env.(evaluate := evaluate))
  }

  /** The loop meets its limit exactly when it goes through its budget of iterations. */
  lemma {:induction false} LimitIffStanding(cfg: Config, reg: Registry, w: World, s: WfState, meta: Record, k: nat,
                                            budget: nat)
    ensures Loop(cfg, reg, w, s, meta, k, budget).reason == IterationLimit <==>
            Stand(Invoked, cfg.env, reg, w, s, k, budget).Some?
    decreases budget
  {
    hide StepOnce, React, ExitMeta;
    if budget > 0 {
      var (s', o) := StepOnce(cfg.env, reg, s);
      ReactsAlike(cfg, reg, w(k), s', o);
      var r := React(cfg, reg, w(k), s', o);
      if r.Proceed? { LimitIffStanding(cfg, reg, w, r.wf, meta, k + 1, budget - 1); }
    }
  }

  lemma ReactsAlike(cfg: Config, reg: Registry, a: Answer, s: WfState, o: Outcome)
    ensures React(cfg, reg, a, s, o) == React(Config(cfg.env, None), reg, a, s, o)
    ensures React(cfg, reg, a, s, o).Stop? ==> React(cfg, reg, a, s, o).reason != IterationLimit
  {
  }

  ghost predicate CanMeetLimit(cfg: Config, reg: Registry, s: WfState, meta: Record, k: nat) {
    exists evaluate, w: World ::
      Loop(JudgingIn(cfg, evaluate), reg, w, s, meta, k, MAX_ITERATIONS).reason == IterationLimit
  }

  /** For registered workflows of all step types: some outside world, and some way of evaluating
      conditions, makes the loop meet its limit of 50 if and only if 50 places can be passed in a row
      from where it stands and the last one left again. A circle within reach is enough. */
  lemma LimitIffLongTrail(cfg: Config, reg: Registry, s: WfState, meta: Record, k: nat, a: Place)
    requires AllWellFormed(reg) && ConditionsDiffer(reg) && Known(reg, a) && At(s, a)
    ensures CanMeetLimit(cfg, reg, s, meta, k) <==> exists p :: OpenTrail(Invoked, cfg.env, reg, a, MAX_ITERATIONS, p)
  {
    hide Loop, Stand, AllWellFormed, ConditionsDiffer, OpenTrail;
    CanRunIff(Invoked, cfg.env, reg, s, k, MAX_ITERATIONS, a);
    if CanMeetLimit(cfg, reg, s, meta, k) {
      var evaluate, w: World :|
        Loop(JudgingIn(cfg, evaluate), reg, w, s, meta, k, MAX_ITERATIONS).reason == IterationLimit;
      LimitIffStanding(JudgingIn(cfg, evaluate), reg, w, s, meta, k, MAX_ITERATIONS);
      assert Stand(Invoked, Judging(cfg.env, evaluate), reg, w, s, k, MAX_ITERATIONS).Some?;
    }
    if CanRun(Invoked, cfg.env, reg, s, k, MAX_ITERATIONS) {
      var evaluate, w: World :| Stand(Invoked, Judging(cfg.env, evaluate), reg, w, s, k, MAX_ITERATIONS).Some?;
      LimitIffStanding(JudgingIn(cfg, evaluate), reg, w, s, meta, k, MAX_ITERATIONS);
      assert Loop(JudgingIn(cfg, evaluate), reg, w, s, meta, k, MAX_ITERATIONS).reason == IterationLimit;
    }
  }

  // ---------------------------------------------------------------- layered registries

  /** What the worker needs to end, and no workflow registered under the empty id, which loading refuses. */
  ghost predicate LayeredHere(reg: Registry) {
    TW.Layered(reg) && "" !in reg
  }

  ghost function StepRank(reg: Registry, p: Place): nat
    requires LayeredHere(reg)
  {
    if Known(reg, p) then
      var rank := TW.RankOf(StepGraph(reg[p.wf]));
      if p.step in rank then rank[p.step] else 0
    else 0
  }

  /** First by the rank of the workflow, then by that of the step. */
  ghost predicate Lower(reg: Registry, b: Place, a: Place)
    requires LayeredHere(reg)
  {
    || TW.CallRank(reg, b.wf) < TW.CallRank(reg, a.wf)
    || (b.wf == a.wf && StepRank(reg, b) < StepRank(reg, a))
  }

  lemma CallsLower(reg: Registry, a: Place, b: Place)
    requires LayeredHere(reg) && Known(reg, a) && StepAt(reg, a).stepType.SubWorkflowStep?
             && HasChild(reg, StepAt(reg, a))
    requires b == Place(ChildId(StepAt(reg, a)).s, reg[ChildId(StepAt(reg, a)).s].startStep)
    ensures TW.CallRank(reg, b.wf) < TW.CallRank(reg, a.wf)
  {
    hide TW.RankOf, TW.CallGraph;
    TW.ChildRanksLower(reg, a.wf, a.step, b.wf);
  }

  lemma EdgesLower(reg: Registry, a: Place, b: Place)
    requires LayeredHere(reg) && Known(reg, a) && Known(reg, b) && a.wf == b.wf
             && Edge(StepGraph(reg[a.wf]), a.step, b.step)
    ensures StepRank(reg, b) < StepRank(reg, a)
  {
    hide Acyclic, TW.CallGraph;
    var g := StepGraph(reg[a.wf]);
    assert Ranked(g, TW.RankOf(g)) && b.step in g && a.step in g;
  }

  /** Within a workflow a place leads along an edge of the step graph. */
  lemma LeadsAlongEdges(env: Env, reg: Registry, a: Place, b: Place)
    requires Leads(Invoked, env, reg, a, b)
             && !(StepAt(reg, a).stepType.SubWorkflowStep? && HasChild(reg, StepAt(reg, a)))
    ensures a.wf == b.wf && Edge(StepGraph(reg[a.wf]), a.step, b.step)
  {
  }

  lemma LeadsLower(env: Env, reg: Registry, a: Place, b: Place)
    requires LayeredHere(reg) && Leads(Invoked, env, reg, a, b)
    ensures Lower(reg, b, a)
  {
    hide Acyclic, TW.CallRank, StepRank, Forward, Failing, Otherwise, WellFormed;
    assert AllWellFormed(reg);
    LeadsToKnown(Invoked, env, reg, a, b);
    if StepAt(reg, a).stepType.SubWorkflowStep? && HasChild(reg, StepAt(reg, a)) {
      CallsLower(reg, a, b);
    } else {
      LeadsAlongEdges(env, reg, a, b);
      EdgesLower(reg, a, b);
    }
  }

  lemma {:induction false} TrailsFall(env: Env, reg: Registry, p: seq<Place>, i: nat, j: nat)
    requires LayeredHere(reg) && Trail(Invoked, env, reg, p) && i < j < |p|
    ensures Lower(reg, p[j], p[i])
    decreases j - i
  {
    hide Leads, TW.Layered, TW.CallRank, StepRank;
    assert Leads(Invoked, env, reg, p[j - 1], p[j - 1 + 1]);
    LeadsLower(env, reg, p[j - 1], p[j]);
    if i < j - 1 { TrailsFall(env, reg, p, i, j - 1); }
  }

  function Places(reg: Registry): set<Place> {
    set wf, id | wf in reg && id in reg[wf].steps :: Place(wf, id)
  }

  /** In a layered registry no place is passed twice, sub-workflows included: with fewer than 50 steps
      registered in all, no run of the loop meets its limit. */
  lemma LayeredRunsEnd(cfg: Config, reg: Registry, w: World, s: WfState, meta: Record, k: nat, a: Place)
    requires LayeredHere(reg) && Known(reg, a) && At(s, a) && |Places(reg)| < MAX_ITERATIONS
    ensures Loop(cfg, reg, w, s, meta, k, MAX_ITERATIONS).reason != IterationLimit
  {
    hide Loop, Stand, TW.Layered, WellFormed, Leads, Places;
    LimitIffStanding(cfg, reg, w, s, meta, k, MAX_ITERATIONS);
    if Stand(Invoked, cfg.env, reg, w, s, k, MAX_ITERATIONS).Some? {
      LayeredIsWellFormed(reg);
      var p := LongRunIsTrail(Invoked, cfg.env, reg, w, s, k, MAX_ITERATIONS, a);
      forall i, j | 0 <= i < j < |p| ensures p[i] != p[j] { TrailsFall(cfg.env, reg, p, i, j); }
      forall i | 0 <= i < |p| ensures p[i] in Places(reg) {
        TrailIsKnown(Invoked, cfg.env, reg, p, i);
        KnownIsPlace(reg, p[i]);
      }
      Pigeonhole(p, Places(reg));
    }
  }

  lemma LayeredIsWellFormed(reg: Registry)
    requires LayeredHere(reg)
    ensures AllWellFormed(reg)
  {
  }

  lemma KnownIsPlace(reg: Registry, p: Place)
    ensures Known(reg, p) <==> p in Places(reg)
  {
  }

  /** A sub-workflow replaces its parent for good: once the child has started, no iteration stands in the
      parent again, so its remaining steps never run and the child's result is never recorded in it. */
  lemma ParentIsLeftBehind(env: Env, reg: Registry, w: World, s: WfState, k: nat, n: nat, a: Place)
    requires LayeredHere(reg) && Known(reg, a) && At(s, a) && n > 0
    requires StepAt(reg, a).stepType.SubWorkflowStep? && HasChild(reg, StepAt(reg, a))
    ensures var t := Stand(Invoked, env, reg, w, s, k, n);
            t.Some? && !Ended(t.value) ==> t.value.workflowId != s.workflowId
  {
    hide Stand, TW.Layered, WellFormed, Leads, TW.CallRank, StepRank;
    var t := Stand(Invoked, env, reg, w, s, k, n);
    if t.Some? && !Ended(t.value) {
      LayeredIsWellFormed(reg);
      var p := RunIsTrail(Invoked, env, reg, w, s, k, n, a);
      assert Leads(Invoked, env, reg, p[0], p[0 + 1]);
      FirstIsChild(env, reg, a, p[1]);
      CallsLower(reg, a, p[1]);
      if n > 1 { TrailsFall(env, reg, p, 1, n); }
    }
  }

  lemma FirstIsChild(env: Env, reg: Registry, a: Place, b: Place)
    requires Leads(Invoked, env, reg, a, b) && StepAt(reg, a).stepType.SubWorkflowStep? && HasChild(reg, StepAt(reg, a))
    ensures b == Place(ChildId(StepAt(reg, a)).s, reg[ChildId(StepAt(reg, a)).s].startStep)
  {
  }

  // ---------------------------------------------------------------- two steps are enough

  /** A definition of two steps that loads, is acyclic along every transition as written, and meets the limit. */
  lemma TwoStepsMeetTheLimit(cfg: Config, id: string, context: Record, meta: Record, k: nat)
    ensures Loads(SharedId()) && Acyclic(WrittenGraph(SharedId()))
    ensures var s := StartWorkflow(map["w" := SharedId()], id, Text("w"), context);
            s.Ok? && exists w: World :: Loop(cfg, map["w" := SharedId()], w, s.value, meta, k,
                                             MAX_ITERATIONS).reason == IterationLimit
  {
    hide Loop, Stand, SharedId, StepGraph, Acyclic, WrittenGraph, Edge, Leads, Loads, AllPlain, Trail, Agrees, CanGoOn;
    SharedIdLoads();
    var reg := map["w" := SharedId()];
    var s := StartWorkflow(reg, id, Text("w"), context).value;
    var p :| Walk(StepGraph(SharedId()), p) && p[0] == SharedId().startStep && !Distinct(p);
    var q := PlacesOn("w", p);
    WalkIsTrail(Invoked, cfg.env, reg, "w", p);
    assert !Distinct(q) by { var i, j :| 0 <= i < j < |p| && p[i] == p[j]; assert q[i] == q[j]; }
    var i, j := FirstRepeat(q);
    AroundIsTrail(Invoked, cfg.env, reg, q, i, j, MAX_ITERATIONS);
    var round := Around(q, i, j, MAX_ITERATIONS);
    PlainAgrees(cfg.env, reg, "w", round);
    GuideGoesOn(Invoked, cfg.env, reg, round, s, k);
    LimitIffStanding(cfg, reg, Guide(reg, round, k), s, meta, k, MAX_ITERATIONS);
  }
}
