/** Which tool steps a workflow started by a reply can hand to the inline executor. */
module InlineReach {
  import opened Wrappers
  import opened Digraph
  import opened WorkflowEngine
  import opened WorkflowInvoker
  import opened InlineWorkflows
  import opened WorkflowPlaces
  import opened WorkflowReach

  /** In iteration `m` the loop hands `c` over. */
  ghost predicate HandsOver(env: Env, reg: Registry, w: World, s: WfState, k: nat, m: nat, c: Record) {
    && Stand(Inline(true), env, reg, w, s, k, m).Some?
    && HandedBy(true, StepOnce(env, reg, Stand(Inline(true), env, reg, w, s, k, m).value).1) == [c]
  }

  lemma HandsOverLater(env: Env, reg: Registry, w: World, s: WfState, k: nat, m: nat, c: Record)
    requires m > 0
    ensures var (s', o) := StepOnce(env, reg, s);
            var next := NextState(env, reg, true, w(k), s', o);
            HandsOver(env, reg, w, s, k, m, c) <==> next.Some? && HandsOver(env, reg, w, next.value, k + 1, m - 1, c)
  {
    hide StepOnce, NextState, HandedBy;
  }

  /** What the loop hands over is what its iterations hand over. */
  lemma {:induction false} HandedIff(env: Env, reg: Registry, w: World, s: WfState, k: nat, budget: nat, c: Record)
    ensures c in InlineLoop(env, reg, true, w, s, k, budget).handed <==>
            exists m: nat :: m < budget && HandsOver(env, reg, w, s, k, m, c)
    decreases budget
  {
    hide StepOnce, NextState, HandsOver;
    if budget > 0 {
      var (s', o) := StepOnce(env, reg, s);
      var next := NextState(env, reg, true, w(k), s', o);
      HandsOverFirst(env, reg, w, s, k, c);
      forall m: nat | m > 0
        ensures HandsOver(env, reg, w, s, k, m, c)
                <==> next.Some? && HandsOver(env, reg, w, next.value, k + 1, m - 1, c) {
        HandsOverLater(env, reg, w, s, k, m, c);
      }
      if next.Some? {
        var wf, k1 := next.value, k + 1;
        HandedIff(env, reg, w, wf, k1, budget - 1, c);
        if exists m: nat :: m < budget - 1 && HandsOver(env, reg, w, wf, k1, m, c) {
          var m: nat :| m < budget - 1 && HandsOver(env, reg, w, wf, k1, m, c);
          assert HandsOver(env, reg, w, s, k, m + 1, c);
        }
      }
    }
  }

  lemma HandsOverFirst(env: Env, reg: Registry, w: World, s: WfState, k: nat, c: Record)
    ensures HandsOver(env, reg, w, s, k, 0, c) <==> c in HandedBy(true, StepOnce(env, reg, s).1)
  {
  }

  /** A tool step in the registry. */
  predicate ToolAt(reg: Registry, b: Place, c: Record) {
    Known(reg, b) && StepAt(reg, b).stepType.ToolStep? && StepAt(reg, b).config == c
  }

  lemma OnlyToolsAreHanded(env: Env, reg: Registry, s: WfState, b: Place, c: Record)
    requires At(s, b) && Known(reg, b)
    ensures HandedBy(true, StepOnce(env, reg, s).1) == [c] <==> ToolAt(reg, b, c)
  {
    hide StepOnce, PatternKnown, CouncilKnown, Forward;
    StepIsDispatched(env, reg, s, b);
  }

  lemma TheEndHandsNothing(env: Env, reg: Registry, s: WfState)
    requires Ended(s)
    ensures HandedBy(true, StepOnce(env, reg, s).1) == []
  {
  }

  lemma HandsOverIsAtTool(env: Env, reg: Registry, w: World, s: WfState, k: nat, m: nat, a: Place,
                          c: Record) returns (b: Place)
    requires AllWellFormed(reg) && Known(reg, a) && At(s, a) && HandsOver(env, reg, w, s, k, m, c)
    ensures ToolAt(reg, b, c) && GetsTo(Inline(true), env, reg, w, s, k, m + 1, m, b)
  {
    hide StepOnce, Stand, AllWellFormed;
    var t := Stand(Inline(true), env, reg, w, s, k, m).value;
    if Ended(t) { TheEndHandsNothing(env, reg, t); }
    var p := RunIsTrail(Inline(true), env, reg, w, s, k, m, a);
    b := PlaceOf(t);
    TrailIsKnown(Inline(true), env, reg, p, m);
    OnlyToolsAreHanded(env, reg, t, b, c);
  }

  /** Starting workflow `id` can get the inline executor handed a sensitive tool step. */
  ghost predicate CanHand(env: Env, reg: Registry, id: string, context: Record, sensitive: Record -> bool) {
    exists evaluate, w, c :: HandsSensitive(Judging(env, evaluate), reg, w, id, context, sensitive, c)
  }

  predicate HandsSensitive(env: Env, reg: Registry, w: World, id: string, context: Record, sensitive: Record -> bool,
                           c: Record) {
    c in Handed(env, reg, true, w, id, context) && sensitive(c)
  }

  /** A sensitive tool step is within `MAX_ITERATIONS` places of the start of workflow `id`. */
  ghost predicate SensitiveInReach(env: Env, reg: Registry, id: string, sensitive: Record -> bool) {
    id in reg && exists b, c, p :: SensitiveOnTrail(env, reg, id, sensitive, b, c, p)
  }

  ghost predicate SensitiveOnTrail(env: Env, reg: Registry, id: string, sensitive: Record -> bool, b: Place,
                                   c: Record, p: seq<Place>)
    requires id in reg
  {
    ToolAt(reg, b, c) && sensitive(c)
        && ShortTrail(Inline(true), env, reg, Place(id, reg[id].startStep), b, MAX_ITERATIONS, p)
  }

  lemma Starts(reg: Registry, freshId: string, id: string, context: Record)
    ensures var s := StartWorkflow(reg, freshId, Text(id), context);
            && (s.Ok? <==> id in reg) && (s.Ok? ==> At(s.value, Place(id, reg[id].startStep)))
  {
  }

  /** Whatever the LLM and the tools answer, a sensitive tool step is handed over only if one is in reach;
      and if one is in reach, some answers and some way of evaluating conditions lead there. */
  lemma CanHandIff(env: Env, reg: Registry, id: string, context: Record, sensitive: Record -> bool)
    requires AllWellFormed(reg) && ConditionsDiffer(reg)
    ensures CanHand(env, reg, id, context, sensitive) <==> SensitiveInReach(env, reg, id, sensitive)
  {
    hide AllWellFormed, ConditionsDiffer, Stand, InlineLoop, Leads, HandsOver, StartWorkflow, Trail, Judging, GetsTo,
         ShortTrail, ToolAt;
    if CanHand(env, reg, id, context, sensitive) {
      var evaluate, w, c :| HandsSensitive(Judging(env, evaluate), reg, w, id, context, sensitive, c);
      HandedIsInReach(env, reg, evaluate, w, id, context, sensitive, c);
    }
    if SensitiveInReach(env, reg, id, sensitive) {
      var b, c, p :| SensitiveOnTrail(env, reg, id, sensitive, b, c, p);
      ReachIsHanded(env, reg, id, context, sensitive, b, c, p);
    }
  }

  lemma StartIsKnown(reg: Registry, id: string)
    requires AllWellFormed(reg) && id in reg
    ensures Known(reg, Place(id, reg[id].startStep))
  {
  }

  lemma HandedIsInReach(env: Env, reg: Registry, evaluate: (Value, Record, Record) -> Option<bool>, w: World,
                        id: string, context: Record, sensitive: Record -> bool, c: Record)
    requires AllWellFormed(reg) && ConditionsDiffer(reg)
             && HandsSensitive(Judging(env, evaluate), reg, w, id, context, sensitive, c)
    ensures SensitiveInReach(env, reg, id, sensitive)
  {
    hide AllWellFormed, ConditionsDiffer, Stand, InlineLoop, Leads, HandsOver, StartWorkflow, Trail, Judging, GetsTo,
         ShortTrail, ToolAt;
    var there := Judging(env, evaluate);
    Starts(reg, w(0).freshId, id, context);
    var s, a := StartWorkflow(reg, w(0).freshId, Text(id), context).value, Place(id, reg[id].startStep);
    StartIsKnown(reg, id);
    HandedIff(there, reg, w, s, 1, MAX_ITERATIONS, c);
    var m: nat :| m < MAX_ITERATIONS && HandsOver(there, reg, w, s, 1, m, c);
    var b := HandsOverIsAtTool(there, reg, w, s, 1, m, a, c);
    GetsThereInTime(there, reg, w, s, 1, m, b);
    assert CanStandAt(Inline(true), env, reg, s, 1, MAX_ITERATIONS, b);
    CanStandAtIff(Inline(true), env, reg, s, 1, MAX_ITERATIONS, a, b);
    var p :| ShortTrail(Inline(true), env, reg, a, b, MAX_ITERATIONS, p);
    assert SensitiveOnTrail(env, reg, id, sensitive, b, c, p);
  }

  lemma GetsThereInTime(env: Env, reg: Registry, w: World, s: WfState, k: nat, m: nat, b: Place)
    requires GetsTo(Inline(true), env, reg, w, s, k, m + 1, m, b) && m < MAX_ITERATIONS
    ensures GetsTo(Inline(true), env, reg, w, s, k, MAX_ITERATIONS, m, b)
  {
  }

  /** The guide as a world for a workflow started at index 0, whose loop begins at index 1. */
  lemma ReachIsHanded(env: Env, reg: Registry, id: string, context: Record, sensitive: Record -> bool, b: Place,
                      c: Record, p: seq<Place>)
    requires AllWellFormed(reg) && ConditionsDiffer(reg) && id in reg
             && SensitiveOnTrail(env, reg, id, sensitive, b, c, p)
    ensures CanHand(env, reg, id, context, sensitive)
  {
    hide AllWellFormed, ConditionsDiffer, Stand, InlineLoop, Leads, StartWorkflow, Trail, Judging, ShortTrail, ToolAt,
         HandedBy;
    var a := Place(id, reg[id].startStep);
    StartIsKnown(reg, id);
    Starts(reg, "", id, context);
    var s := StartWorkflow(reg, "", Text(id), context).value;
    CanStandAtIff(Inline(true), env, reg, s, 1, MAX_ITERATIONS, a, b);
    var evaluate, w, m :| GetsTo(Inline(true), Judging(env, evaluate), reg, w, s, 1, MAX_ITERATIONS, m, b);
    var there := Judging(env, evaluate);
    ToolIsKnown(reg, b, c);
    OnlyToolsAreHanded(there, reg, Stand(Inline(true), there, reg, w, s, 1, m).value, b, c);
    assert HandsOver(there, reg, w, s, 1, m, c);
    HandedIff(there, reg, w, s, 1, MAX_ITERATIONS, c);
    var named := NamedFirst(w);
    SameAnswersSameRun(there, reg, w, named, s, 1, MAX_ITERATIONS);
    assert HandsSensitive(there, reg, named, id, context, sensitive, c);
  }

  lemma ToolIsKnown(reg: Registry, b: Place, c: Record)
    requires ToolAt(reg, b, c)
    ensures Known(reg, b)
  {
  }

  function NamedFirst(w: World): World {
    (k: nat) => if k == 0 then w(0).(freshId := "") else w(k)
  }

  /** The loop looks only at the answers it gets. */
  lemma {:induction false} SameAnswersSameRun(env: Env, reg: Registry, w: World, v: World, s: WfState, k: nat,
                                              budget: nat)
    requires forall i: nat :: i >= k ==> w(i) == v(i)
    ensures InlineLoop(env, reg, true, w, s, k, budget) == InlineLoop(env, reg, true, v, s, k, budget)
    decreases budget
  {
    hide StepOnce, NextState;
    if budget > 0 {
      var (s', o) := StepOnce(env, reg, s);
      var next := NextState(env, reg, true, w(k), s', o);
      if next.Some? { SameAnswersSameRun(env, reg, w, v, next.value, k + 1, budget - 1); }
    }
  }
}
