/** What the confirmation gate does not see: side effects of the workflows that a reply starts, and of
    its follow-up rounds. */
module GateBypass {
  import opened Wrappers
  import opened AgentStates
  import opened Supervisor
  import opened SupervisorRuns
  import opened SupervisorProtocol
  import F = FollowUpLoop
  import WE = WorkflowEngine
  import WI = WorkflowInvoker
  import IW = InlineWorkflows
  import WP = WorkflowPlaces
  import IR = InlineReach

  /** Workflow steps whose tool would need a confirmation if a reply called it. */
  function Sensitive(env: Env): WE.Record -> bool {
    c => NamesSideEffect(PRIMITIVE + env.toolName(c))
  }

  /** A side effect outside a reply's own primitives, run although the step's input was not affirmative. */
  predicate SlipsAt(env: Env, e: Effect) {
    match e
    case FollowedUp(input, name) => NamesSideEffect(name) && !env.affirmative(input)
    case HandedOver(input, config) => Sensitive(env)(config) && !env.affirmative(input)
    case _ => false
  }

  ghost predicate Slips(env: Env, effects: seq<Effect>) {
    exists i :: 0 <= i < |effects| && SlipsAt(env, effects[i])
  }

  lemma SlipsConcat(env: Env, a: seq<Effect>, b: seq<Effect>)
    ensures Slips(env, a + b) <==> Slips(env, a) || Slips(env, b)
    ensures !Slips(env, [])
  {
    hide SlipsAt;
    if Slips(env, a) {
      var i :| 0 <= i < |a| && SlipsAt(env, a[i]);
      assert SlipsAt(env, (a + b)[i]);
    }
    if Slips(env, b) {
      var i :| 0 <= i < |b| && SlipsAt(env, b[i]);
      assert SlipsAt(env, (a + b)[|a| + i]);
    }
    if Slips(env, a + b) {
      var i :| 0 <= i < |a + b| && SlipsAt(env, (a + b)[i]);
      assert if i < |a| then SlipsAt(env, a[i]) else SlipsAt(env, b[i - |a|]);
    }
  }

  /** A reply names a side effect. */
  ghost predicate AsksForSideEffect(calls: seq<F.ToolCall>) {
    exists j :: 0 <= j < |calls| && calls[j].Call? && NamesSideEffect(calls[j].name)
  }

  lemma LastAsks(calls: seq<F.ToolCall>)
    requires |calls| > 0
    ensures var n := |calls| - 1;
            AsksForSideEffect(calls) <==>
            AsksForSideEffect(calls[..n]) || (calls[n].Call? && NamesSideEffect(calls[n].name))
  {
    hide NamesSideEffect;
    var n := |calls| - 1;
    if AsksForSideEffect(calls[..n]) {
      var j :| 0 <= j < n && calls[..n][j].Call? && NamesSideEffect(calls[..n][j].name);
      assert NamesSideEffect(calls[j].name);
    }
    if AsksForSideEffect(calls) && !(calls[n].Call? && NamesSideEffect(calls[n].name)) {
      var j :| 0 <= j < |calls| && calls[j].Call? && NamesSideEffect(calls[j].name);
      assert NamesSideEffect(calls[..n][j].name);
    }
  }

  lemma {:induction false} RoundSlipsIff(env: Env, input: string, w: F.World, calls: seq<F.ToolCall>)
    ensures Slips(env, RoundRuns(input, w, calls))
            <==> !env.affirmative(input) && w.hasExecutor && AsksForSideEffect(calls)
  {
    hide Slips, AsksForSideEffect;
    if |calls| > 0 {
      var n := |calls| - 1;
      RoundSlipsIff(env, input, w, calls[..n]);
      LastAsks(calls);
      var more := if F.IsPrimitive(calls[n]) && w.hasExecutor then [FollowedUp(input, calls[n].name)] else [];
      SlipsConcat(env, RoundRuns(input, w, calls[..n]), more);
      OneSlips(env, input, calls[n], w);
    } else {
      SlipsConcat(env, [], []);
      NobodyAsks();
    }
  }

  lemma NobodyAsks()
    ensures !AsksForSideEffect([])
  {
  }

  lemma OneSlips(env: Env, input: string, c: F.ToolCall, w: F.World)
    ensures Slips(env, if F.IsPrimitive(c) && w.hasExecutor then [FollowedUp(input, c.name)] else [])
            <==> !env.affirmative(input) && w.hasExecutor && c.Call? && NamesSideEffect(c.name)
  {
    if F.IsPrimitive(c) {
      assert [FollowedUp(input, c.name)][0] == FollowedUp(input, c.name);
    } else if c.Call? {
      assert !NamesSideEffect(c.name);
    }
  }

  /** The m-th follow-up round is reached, runs, and asks for a side effect. */
  ghost predicate RoundAsks(w: F.World, executed: seq<string>, m: nat) {
    F.Iterations(w, executed, m + 1).Continue? && AsksForSideEffect(w.reply(m))
  }

  /** For a given LLM: an unconfirmed side effect runs exactly when the input is not affirmative, an
      executor is configured, and some round that the loop reaches asks for one. */
  lemma {:induction false} FollowUpsSlipIff(env: Env, input: string, w: F.World, executed: seq<string>, n: nat)
    ensures Slips(env, FollowUpRuns(input, w, executed, n)) <==>
            !env.affirmative(input) && w.hasExecutor && exists m: nat :: m < n && RoundAsks(w, executed, m)
  {
    hide Slips, AsksForSideEffect, F.Iterate, RoundRuns;
    if n == 0 {
      SlipsConcat(env, [], []);
    } else {
      FollowUpsSlipIff(env, input, w, executed, n - 1);
      RoundSlipsIff(env, input, w, w.reply(n - 1));
      SlipsConcat(env, FollowUpRuns(input, w, executed, n - 1), RoundRuns(input, w, w.reply(n - 1)));
      SlipsConcat(env, FollowUpRuns(input, w, executed, n - 1), []);
      if RoundAsks(w, executed, n - 1) { assert n - 1 < n; }
      if exists m: nat :: m < n && RoundAsks(w, executed, m) {
        var m: nat :| m < n && RoundAsks(w, executed, m);
        assert m == n - 1 || m < n - 1;
      }
    }
  }

  lemma {:induction false} RoundsNeedAStart(w: F.World, executed: seq<string>, n: nat)
    requires n > 0 && F.Iterations(w, executed, n).Continue?
    ensures executed != [] && w.hasRouter
  {
    if n > 1 { RoundsNeedAStart(w, executed, n - 1); }
  }

  /** Some own call ran and gave a result. */
  ghost predicate SomeResult(calls: seq<Call>, results: nat -> F.Execution) {
    exists j: nat :: j < |calls| && IsPrimitive(calls[j]) && results(j).Result?
  }

  lemma {:induction false} FirstExecutedIff(calls: seq<Call>, tools: ToolRun)
    ensures FirstExecuted(calls, tools) != [] <==> tools.followUps.hasExecutor && SomeResult(calls, tools.results)
  {
    hide IsPrimitive;
    if |calls| > 0 {
      var n: nat := |calls| - 1;
      FirstExecutedIff(calls[..n], tools);
      if SomeResult(calls[..n], tools.results) {
        var j: nat :| j < n && IsPrimitive(calls[..n][j]) && tools.results(j).Result?;
        assert IsPrimitive(calls[j]);
      }
      if SomeResult(calls, tools.results) && !(IsPrimitive(calls[n]) && tools.results(n).Result?) {
        var j: nat :| j < |calls| && IsPrimitive(calls[j]) && tools.results(j).Result?;
        assert IsPrimitive(calls[..n][j]);
      }
    }
  }

  /** An LLM that asks for a side effect in its first follow-up reply. */
  function Sender(hasRouter: bool, hasExecutor: bool): F.World {
    F.World(k => [F.Call("primitive.send", "")], (k, j) => F.NoResult, hasRouter, hasExecutor)
  }

  lemma SenderAsks(executed: seq<string>)
    requires executed != []
    ensures RoundAsks(Sender(true, true), executed, 0)
  {
    var w := Sender(true, true);
    SendIsASideEffect();
    assert w.reply(0)[0] == F.Call("primitive.send", "");
    assert F.Iterations(w, executed, 0) == F.Continue(F.Start(executed));
  }

  lemma SendIsASideEffect()
    ensures NamesSideEffect("primitive.send")
  {
    var name := "primitive.send";
    assert PRIMITIVE <= name && name[|PRIMITIVE|..] == "send";
    assert "send"[0] == 's' && SAFE_PREFIX[1] == 't' && "send"[1] == 'e';
    NoDot("send");
    LowerIsSame("send");
    assert SIDE_EFFECTS[0] == "send";
  }

  lemma NoDot(s: string)
    requires '.' !in s
    ensures LastSegment(s) == s
  {
  }

  lemma LowerIsSame(s: string)
    requires forall i :: 0 <= i < |s| ==> !('A' <= s[i] <= 'Z')
    ensures Lower(s) == s
  {
  }

  // ---------------------------------------------------------------- workflows started by a reply

  lemma HandOverSlipsIff(env: Env, input: string, configs: seq<WE.Record>)
    ensures Slips(env, HandOver(input, configs))
            <==> !env.affirmative(input) && exists c :: c in configs && Sensitive(env)(c)
  {
    hide NamesSideEffect;
    if exists c :: c in configs && Sensitive(env)(c) {
      var c :| c in configs && Sensitive(env)(c);
      var i :| 0 <= i < |configs| && configs[i] == c;
      assert HandOver(input, configs)[i] == HandedOver(input, c);
    }
  }

  /** What the n-th directive of a text gets handed to the inline executor. */
  function DirectiveHands(env: Env, d: IW.Directive, n: nat, tools: ToolRun): seq<WE.Record> {
    IW.Handed(env.engine, env.workflows, tools.followUps.hasExecutor, tools.directed(n), IW.DirectiveTarget(d.name),
              d.params)
  }

  /** What the n-th call of a reply does, if it starts a workflow. */
  function CallHands(env: Env, c: Call, n: nat, tools: ToolRun): seq<WE.Record> {
    if IW.EXECUTE <= c.name then
      IW.Handed(env.engine, env.workflows, tools.followUps.hasExecutor, tools.started(n),
                c.name[|IW.EXECUTE|..], map["args" := tools.arguments(n)])
    else []
  }

  ghost predicate SomeSensitive(env: Env, configs: seq<WE.Record>) {
    exists c :: c in configs && Sensitive(env)(c)
  }

  lemma {:induction false} DirectivesSlipIff(env: Env, input: string, ds: seq<IW.Directive>, tools: ToolRun)
    ensures Slips(env, DirectiveRuns(env, input, ds, tools)) <==>
            !env.affirmative(input) && SomeDirective(env, ds, tools)
  {
    hide Slips, SomeSensitive, IW.Handed, HandOver, SomeDirective;
    NoDirective(env, tools);
    SlipsConcat(env, [], []);
    if |ds| > 0 {
      var n := |ds| - 1;
      DirectivesSlipIff(env, input, ds[..n], tools);
      SlipsConcat(env, DirectiveRuns(env, input, ds[..n], tools),
                  HandOver(input, DirectiveHands(env, ds[n], n, tools)));
      SensitiveSlips(env, input, DirectiveHands(env, ds[n], n, tools));
      LastDirective(env, ds, tools);
    }
  }

  ghost predicate SomeDirective(env: Env, ds: seq<IW.Directive>, tools: ToolRun) {
    exists i: nat :: i < |ds| && SomeSensitive(env, DirectiveHands(env, ds[i], i, tools))
  }

  lemma NoDirective(env: Env, tools: ToolRun)
    ensures !SomeDirective(env, [], tools)
  {
  }

  lemma LastDirective(env: Env, ds: seq<IW.Directive>, tools: ToolRun)
    requires |ds| > 0
    ensures var n: nat := |ds| - 1;
            SomeDirective(env, ds, tools) <==>
            SomeDirective(env, ds[..n], tools) || SomeSensitive(env, DirectiveHands(env, ds[n], n, tools))
  {
    hide SomeSensitive, DirectiveHands;
    var n: nat := |ds| - 1;
    if SomeDirective(env, ds, tools) {
      var i: nat :| i < |ds| && SomeSensitive(env, DirectiveHands(env, ds[i], i, tools));
      assert i < n ==> SomeSensitive(env, DirectiveHands(env, ds[..n][i], i, tools));
    }
    if SomeDirective(env, ds[..n], tools) {
      var i: nat :| i < n && SomeSensitive(env, DirectiveHands(env, ds[..n][i], i, tools));
      assert SomeSensitive(env, DirectiveHands(env, ds[i], i, tools));
    }
  }

  lemma SensitiveSlips(env: Env, input: string, configs: seq<WE.Record>)
    ensures Slips(env, HandOver(input, configs)) <==> !env.affirmative(input) && SomeSensitive(env, configs)
  {
    hide Slips;
    HandOverSlipsIff(env, input, configs);
  }

  lemma CallSlipsIff(env: Env, input: string, c: Call, n: nat, tools: ToolRun)
    ensures Slips(env, CallRuns(env, input, c, n, tools)) <==>
            !env.affirmative(input) && SomeSensitive(env, CallHands(env, c, n, tools))
  {
    hide IW.Handed, HandOver, IsPrimitive;
    SensitiveSlips(env, input, CallHands(env, c, n, tools));
  }

  lemma {:induction false} OwnRunsSlipIff(env: Env, input: string, calls: seq<Call>, tools: ToolRun)
    ensures Slips(env, OwnRuns(env, input, calls, tools)) <==>
            !env.affirmative(input) && SomeCall(env, calls, tools)
  {
    hide Slips, SomeSensitive, IW.Handed, CallRuns, CallHands, SomeCall;
    NoCall(env, tools);
    SlipsConcat(env, [], []);
    if |calls| > 0 {
      var n := |calls| - 1;
      OwnRunsSlipIff(env, input, calls[..n], tools);
      SlipsConcat(env, OwnRuns(env, input, calls[..n], tools), CallRuns(env, input, calls[n], n, tools));
      CallSlipsIff(env, input, calls[n], n, tools);
      LastCall(env, calls, tools);
    }
  }

  ghost predicate SomeCall(env: Env, calls: seq<Call>, tools: ToolRun) {
    exists i: nat :: i < |calls| && SomeSensitive(env, CallHands(env, calls[i], i, tools))
  }

  lemma NoCall(env: Env, tools: ToolRun)
    ensures !SomeCall(env, [], tools)
  {
  }

  lemma LastCall(env: Env, calls: seq<Call>, tools: ToolRun)
    requires |calls| > 0
    ensures var n: nat := |calls| - 1;
            SomeCall(env, calls, tools) <==> SomeCall(env, calls[..n], tools) || SomeSensitive(env,
                  CallHands(env, calls[n], n, tools))
  {
    hide SomeSensitive, CallHands;
    var n: nat := |calls| - 1;
    if SomeCall(env, calls, tools) {
      var i: nat :| i < |calls| && SomeSensitive(env, CallHands(env, calls[i], i, tools));
      assert i < n ==> SomeSensitive(env, CallHands(env, calls[..n][i], i, tools));
    }
    if SomeCall(env, calls[..n], tools) {
      var i: nat :| i < n && SomeSensitive(env, CallHands(env, calls[..n][i], i, tools));
      assert SomeSensitive(env, CallHands(env, calls[i], i, tools));
    }
  }

  // ---------------------------------------------------------------- one reply

  /** The same agents with another way of evaluating conditions. */
  ghost function Judged(env: Env, evaluate: (WE.Value, WE.Record, WE.Record) -> Option<bool>): Env {
    env.(engine := WP.Judging(env.engine, evaluate))
  }

  /** A directive of the text starts a workflow with a sensitive tool step in reach. */
  ghost predicate DirectiveInReach(env: Env, text: string) {
    exists i: nat :: i < |env.directives(text)|
      && IR.SensitiveInReach(env.engine, env.workflows, IW.DirectiveTarget(env.directives(text)[i].name),
                             Sensitive(env))
  }

  ghost predicate Reaches(env: Env, c: Call) {
    IW.EXECUTE <= c.name && IR.SensitiveInReach(env.engine, env.workflows, c.name[|IW.EXECUTE|..], Sensitive(env))
  }

  /** A call of the reply starts such a workflow. */
  ghost predicate CallInReach(env: Env, calls: seq<Call>) {
    exists i: nat :: i < |calls| && Reaches(env, calls[i])
  }

  /** Every registered workflow is well-formed, and no two conditions share an expression. */
  ghost predicate GoodWorkflows(env: Env) {
    WP.AllWellFormed(env.workflows) && WP.ConditionsDiffer(env.workflows)
  }

  /** Tools with these results of the own calls, in this configuration. */
  ghost predicate Fits(tools: ToolRun, results: nat -> F.Execution, hasRouter: bool, hasExecutor: bool) {
    tools.results == results && tools.followUps.hasRouter == hasRouter && tools.followUps.hasExecutor == hasExecutor
  }

  lemma HandedNeedsReach(env: Env, evaluate: (WE.Value, WE.Record, WE.Record) -> Option<bool>, hasExecutor: bool,
                         w: WI.World, id: string, context: WE.Record)
    requires GoodWorkflows(env)
    requires SomeSensitive(Judged(env, evaluate),
                           IW.Handed(Judged(env, evaluate).engine, env.workflows, hasExecutor, w, id, context))
    ensures hasExecutor && IR.SensitiveInReach(env.engine, env.workflows, id, Sensitive(env))
  {
    hide IW.InlineLoop, NamesSideEffect, WP.AllWellFormed, WP.ConditionsDiffer, IR.SensitiveInReach;
    var there := WP.Judging(env.engine, evaluate);
    var c :| c in IW.Handed(there, env.workflows, hasExecutor, w, id, context) && Sensitive(Judged(env, evaluate))(c);
    if hasExecutor {
      assert Sensitive(env)(c);
      IR.HandedIsInReach(env.engine, env.workflows, evaluate, w, id, context, Sensitive(env), c);
    } else {
      var start := WE.StartWorkflow(env.workflows, w(0).freshId, WE.Text(id), context);
      if start.Ok? { IW.WithoutExecutorNothingIsHanded(there, env.workflows, w, start.value, 1, WI.MAX_ITERATIONS); }
      assert false;
    }
  }

  lemma ReachGetsHanded(env: Env, id: string, context: WE.Record)
      returns (evaluate: (WE.Value, WE.Record, WE.Record) -> Option<bool>, w: WI.World)
    requires GoodWorkflows(env) && IR.SensitiveInReach(env.engine, env.workflows, id, Sensitive(env))
    ensures SomeSensitive(Judged(env, evaluate),
                          IW.Handed(Judged(env, evaluate).engine, env.workflows, true, w, id, context))
  {
    hide IW.Handed, NamesSideEffect, WP.AllWellFormed, WP.ConditionsDiffer, IR.SensitiveInReach;
    IR.CanHandIff(env.engine, env.workflows, id, context, Sensitive(env));
    var f, v, c :| IR.HandsSensitive(WP.Judging(env.engine, f), env.workflows, v, id, context, Sensitive(env), c);
    evaluate, w := f, v;
    assert Sensitive(Judged(env, evaluate))(c);
  }

  /** What directives get run unconfirmed is in reach of them. */
  lemma DirectivesNeedReach(env: Env, evaluate: (WE.Value, WE.Record, WE.Record) -> Option<bool>, input: string,
                            text: string, tools: ToolRun)
    requires GoodWorkflows(env) && Slips(Judged(env, evaluate),
                                         DirectiveRuns(Judged(env, evaluate), input, env.directives(text), tools))
    ensures !env.affirmative(input) && tools.followUps.hasExecutor && DirectiveInReach(env, text)
  {
    hide IW.Handed, Slips, SomeSensitive, DirectiveRuns, IR.SensitiveInReach, GoodWorkflows;
    var there, ds := Judged(env, evaluate), env.directives(text);
    DirectivesSlipIff(there, input, ds, tools);
    var i: nat :| i < |ds| && SomeSensitive(there, DirectiveHands(there, ds[i], i, tools));
    HandedNeedsReach(env, evaluate, tools.followUps.hasExecutor, tools.directed(i), IW.DirectiveTarget(ds[i].name),
                     ds[i].params);
  }

  /** And what is in reach some world gets run: all but the workflows of the directives is left open. */
  lemma DirectivesCanSlip(env: Env, input: string, text: string)
      returns (evaluate: (WE.Value, WE.Record, WE.Record) -> Option<bool>, directed: nat -> WI.World)
    requires GoodWorkflows(env) && !env.affirmative(input) && DirectiveInReach(env, text)
    ensures forall tools: ToolRun :: tools.directed == directed && tools.followUps.hasExecutor ==>
              Slips(Judged(env, evaluate), DirectiveRuns(Judged(env, evaluate), input, env.directives(text), tools))
  {
    hide IW.Handed, Slips, SomeSensitive, DirectiveRuns, IR.SensitiveInReach, GoodWorkflows;
    var ds := env.directives(text);
    var i: nat :| i < |ds| && IR.SensitiveInReach(env.engine, env.workflows, IW.DirectiveTarget(ds[i].name),
                                                  Sensitive(env));
    var w: WI.World;
    evaluate, w := ReachGetsHanded(env, IW.DirectiveTarget(ds[i].name), ds[i].params);
    directed := (j: nat) => w;
    forall tools: ToolRun | tools.directed == directed && tools.followUps.hasExecutor
      ensures Slips(Judged(env, evaluate), DirectiveRuns(Judged(env, evaluate), input, env.directives(text), tools)) {
      DirectivesSlipIff(Judged(env, evaluate), input, ds, tools);
      assert SomeSensitive(Judged(env, evaluate), DirectiveHands(Judged(env, evaluate), ds[i], i, tools));
    }
  }

  /** What the own calls and the follow-up rounds of a reply can get run unconfirmed. */
  ghost predicate PlanCanSlip(env: Env, input: string, calls: seq<Call>, results: nat -> F.Execution, hasRouter: bool,
                              hasExecutor: bool) {
    !env.affirmative(input) && hasExecutor && (CallInReach(env, calls) || (hasRouter && SomeResult(calls, results)))
  }

  lemma PlanNeedsReach(env: Env, evaluate: (WE.Value, WE.Record, WE.Record) -> Option<bool>, input: string,
                       calls: seq<Call>, tools: ToolRun)
    requires GoodWorkflows(env) && Slips(Judged(env, evaluate), PlanRuns(Judged(env, evaluate), input, calls, tools))
    ensures PlanCanSlip(env, input, calls, tools.results, tools.followUps.hasRouter, tools.followUps.hasExecutor)
  {
    hide IW.Handed, Slips, SomeSensitive, OwnRuns, FollowUps, FollowUpRuns, IR.SensitiveInReach, GoodWorkflows,
         SomeResult, RoundAsks;
    var there := Judged(env, evaluate);
    SlipsConcat(there, OwnRuns(there, input, calls, tools), FollowUps(input, calls, tools));
    if Slips(there, OwnRuns(there, input, calls, tools)) {
      OwnRunsSlipIff(there, input, calls, tools);
      var i: nat :| i < |calls| && SomeSensitive(there, CallHands(there, calls[i], i, tools));
      NothingIsSensitive(there);
      HandedNeedsReach(env, evaluate, tools.followUps.hasExecutor, tools.started(i), calls[i].name[|IW.EXECUTE|..],
                       map["args" := tools.arguments(i)]);
      assert Reaches(env, calls[i]);
    } else {
      FollowUpsNeedAResult(there, input, calls, tools);
    }
  }

  lemma NothingIsSensitive(env: Env)
    ensures !SomeSensitive(env, [])
  {
  }

  lemma FollowUpsNeedAResult(env: Env, input: string, calls: seq<Call>, tools: ToolRun)
    requires Slips(env, FollowUps(input, calls, tools))
    ensures !env.affirmative(input) && tools.followUps.hasRouter && tools.followUps.hasExecutor
            && SomeResult(calls, tools.results)
  {
    hide Slips, FollowUpRuns, FirstExecuted, F.Iterations, SomeResult, AsksForSideEffect;
    var executed := FirstExecuted(calls, tools);
    FollowUpsSlipIff(env, input, tools.followUps, executed, tools.rounds);
    var m: nat :| m < tools.rounds && RoundAsks(tools.followUps, executed, m);
    RoundsNeedAStart(tools.followUps, executed, m + 1);
    FirstExecutedIff(calls, tools);
  }

  lemma SenderSlips(env: Env, input: string, calls: seq<Call>, tools: ToolRun)
    requires tools.followUps == Sender(true, true) && tools.rounds == 1 && !env.affirmative(input)
             && SomeResult(calls, tools.results)
    ensures Slips(env, FollowUps(input, calls, tools))
  {
    hide Slips, FollowUpRuns, FirstExecuted, F.Iterations, SomeResult, AsksForSideEffect;
    FirstExecutedIff(calls, tools);
    var executed := FirstExecuted(calls, tools);
    SenderAsks(executed);
    FollowUpsSlipIff(env, input, tools.followUps, executed, 1);
  }

  function Tools(results: nat -> F.Execution, hasRouter: bool, hasExecutor: bool, started: nat -> WI.World,
                 directed: nat -> WI.World): ToolRun {
    ToolRun(results, Sender(hasRouter, hasExecutor), 1, j => WE.Null, started, directed)
  }

  lemma PlanCan(env: Env, input: string, calls: seq<Call>, results: nat -> F.Execution, hasRouter: bool,
                hasExecutor: bool)
      returns (evaluate: (WE.Value, WE.Record, WE.Record) -> Option<bool>, tools: ToolRun)
    requires GoodWorkflows(env) && PlanCanSlip(env, input, calls, results, hasRouter, hasExecutor)
    ensures Fits(tools, results, hasRouter, hasExecutor)
    ensures Slips(Judged(env, evaluate), PlanRuns(Judged(env, evaluate), input, calls, tools))
  {
    hide IW.Handed, Slips, SomeSensitive, OwnRuns, FollowUps, IR.SensitiveInReach, GoodWorkflows, SomeResult;
    if CallInReach(env, calls) {
      var i: nat :| i < |calls| && Reaches(env, calls[i]);
      var w: WI.World;
      evaluate, w := ReachGetsHanded(env, calls[i].name[|IW.EXECUTE|..], map["args" := WE.Null]);
      tools := Tools(results, hasRouter, hasExecutor, (j: nat) => w, j => Mute());
      var there := Judged(env, evaluate);
      assert SomeSensitive(there, CallHands(there, calls[i], i, tools));
      OwnRunsSlipIff(there, input, calls, tools);
      SlipsConcat(there, OwnRuns(there, input, calls, tools), FollowUps(input, calls, tools));
    } else {
      evaluate := env.engine.evaluate;
      tools := Tools(results, hasRouter, hasExecutor, j => Mute(), j => Mute());
      var there := Judged(env, evaluate);
      SenderSlips(there, input, calls, tools);
      SlipsConcat(there, OwnRuns(there, input, calls, tools), FollowUps(input, calls, tools));
    }
  }
}
