/** Exactly when an agent step can get a side effect run that nobody confirmed: by its own reply, or by
    that of an agent it defers to. */
module StepBypass {
  import opened Wrappers
  import opened AgentStates
  import opened Supervisor
  import opened SupervisorRuns
  import opened SupervisorProtocol
  import opened GateBypass
  import F = FollowUpLoop
  import WE = WorkflowEngine
  import WI = WorkflowInvoker
  import IW = InlineWorkflows
  import WP = WorkflowPlaces
  import WR = WorkflowReach
  import IR = InlineReach

  predicate GateOpens(env: Env, input: string, calls: seq<Call>) {
    !NeedsConfirmation(calls) || env.affirmative(input)
  }

  /** What a step whose message reaches the LLM gets run unconfirmed comes from its directives, or, past
      the gate, from its deferrals, or, if these all return, from its own calls and follow-up rounds. */
  lemma StepSlipsIff(env: Env, w: World, path: seq<nat>, chain: seq<string>, s: AgentState, message: Option<string>,
                     text: string, calls: seq<Call>, tools: ToolRun)
    requires s.lifecycle.Activated? || IsActive(s.lifecycle)
    requires s.message.Some? && s.meta.pending.None? && w(path).route == ToRuntime(Replied(text, calls, tools))
    ensures var input := Text(s, message);
            var deferred := DeferAll(env, w, path, chain, With(s, Running, Now(env, s)), Deferrals(calls));
            Slips(env, Done(RunStep(env, w, path, chain, s, message))) <==>
            || Slips(env, DirectiveRuns(env, input, env.directives(text), tools))
            || (GateOpens(env, input, calls)
                && (Slips(env, Done(deferred)) || (deferred.Ok? && Slips(env, PlanRuns(env, input, calls, tools)))))
  {
    hide Slips, DirectiveRuns, PlanRuns, NeedsConfirmation, DeferAll, Deferrals, Stamp;
    var input := Text(s, message);
    var directed := DirectiveRuns(env, input, env.directives(text), tools);
    var deferred := DeferAll(env, w, path, chain, With(s, Running, Now(env, s)), Deferrals(calls));
    ParkingDoesNotSlip(env, calls);
    SlipsConcat(env, directed, [Parked(calls)]);
    SlipsConcat(env, directed, Done(deferred));
    SlipsConcat(env, directed + Done(deferred), PlanRuns(env, input, calls, tools));
  }

  lemma ParkingDoesNotSlip(env: Env, calls: seq<Call>)
    ensures !Slips(env, [Parked(calls)])
  {
  }

  // ---------------------------------------------------------------- one deferral

  /** A state a step of a delegate can start from. */
  ghost predicate Ready(s: AgentState) {
    s.lifecycle.Activated? && s.message.Some? && s.meta.pending.None?
  }

  lemma DelegatedIsReady(env: Env, w: World, path: seq<nat>, s: AgentState, target: string, prompt: string, depth: nat)
    requires s.message.Some?
    ensures var ready := Delegated(env, w, path, s, target, prompt, depth);
            && (ready.Ok? <==> target != "" && target in env.defers && w(path).activates)
            && (ready.Ok? ==>
                  && Ready(ready.value) && AgentStates.Sound(ready.value) && ready.value.agentId == target
                  && ready.value.meta.depth == depth
                  && ready.value.message == Some(env.delegatePrompt(s.agentId, s.message.value, prompt)))
  {
    hide AgentStates.Sound, Stamp;
    if Delegated(env, w, path, s, target, prompt, depth).Ok? {
      DelegatedIsFresh(env, w, path, s, target, prompt, depth);
    }
  }

  /** A deferral gets run what the delegate's step gets run. */
  lemma DelegateSlipsIff(env: Env, w: World, path: seq<nat>, chain: seq<string>, s: AgentState, target: string,
                         prompt: string, depth: nat)
    requires s.lifecycle.Running? && |chain| >= 1
    ensures var ready := Delegated(env, w, path, s, target, prompt, depth);
            Slips(env, Done(Delegate(env, w, path, chain, s, target, prompt, depth))) <==>
            ready.Ok? && Slips(env, Done(RunStep(env, w, path, chain + [target], ready.value, None)))
  {
    hide AgentStates.Sound, Slips, RunStep, Settle, GateLog, EffectsFine, Stamp;
    var delegated := Delegated(env, w, path, s, target, prompt, depth);
    SlipsConcat(env, [], []);
    if delegated.Ok? {
      DelegatedIsFresh(env, w, path, s, target, prompt, depth);
      StepProof(env, w, path, env.defers, chain + [target], DEFAULT_MAX_DEPTH, delegated.value, None);
      var first := RunStep(env, w, path, chain + [target], delegated.value, None);
      HopDoesNotSlip(env, chain + [target]);
      SlipsConcat(env, [Hop(chain + [target])], Done(first));
      if first.Ok? {
        FreshStep(env, env.defers, chain + [target], DEFAULT_MAX_DEPTH, delegated.value, first.value);
        SettleNeedsTerminal(env, w, path, chain + [target], first.value);
      }
    }
  }

  lemma HopDoesNotSlip(env: Env, chain: seq<string>)
    ensures !Slips(env, [Hop(chain)])
  {
  }

  // ---------------------------------------------------------------- all deferrals of a reply

  /** An agent may defer to the target of `c` from where it stands. */
  predicate Allowed(env: Env, s: AgentState, c: Call) {
    Resolve(env, s.agentId, c.target).Ok? && s.meta.depth + 1 < DEFAULT_MAX_DEPTH
  }

  ghost predicate AllAllowed(env: Env, s: AgentState, calls: seq<Call>) {
    forall j :: 0 <= j < |calls| ==> Allowed(env, s, calls[j])
  }

  /** The delegator between two deferrals. */
  predicate SameDelegator(s: AgentState, t: AgentState) {
    t.lifecycle.Running? && t.agentId == s.agentId && t.message == s.message && t.meta.depth == s.meta.depth
  }

  lemma DelegatorStays(env: Env, w: World, path: seq<nat>, chain: seq<string>, s: AgentState, target: string,
                       prompt: string, depth: nat)
    requires Delegate(env, w, path, chain, s, target, prompt, depth).Ok?
    ensures SameDelegator(s, Delegate(env, w, path, chain, s, target, prompt, depth).value.state)
  {
    hide RunStep, Settle, Stamp;
  }

  lemma AuthorisedIffAllowed(env: Env, s: AgentState, t: AgentState, c: Call)
    requires SameDelegator(s, t)
    ensures Authorise(env, t, c.target, DEFAULT_MAX_DEPTH, false).Ok? <==> Allowed(env, s, c)
    ensures Allowed(env, s, c) ==> Authorise(env, t, c.target, DEFAULT_MAX_DEPTH, false).value == s.meta.depth + 1
  {
  }

  /** The deferral loop, one call longer. */
  lemma DeferAllSnoc(env: Env, w: World, path: seq<nat>, chain: seq<string>, s: AgentState, calls: seq<Call>)
    requires s.lifecycle.Running? && |calls| > 0
    ensures var n := |calls| - 1;
            var prior := DeferAll(env, w, path, chain, s, calls[..n]);
            prior.Ok? ==> SameDelegator(s, prior.value.state)
    ensures var n := |calls| - 1;
            var prior := DeferAll(env, w, path, chain, s, calls[..n]);
            var r := DeferAll(env, w, path, chain, s, calls);
            var go := prior.Ok? && Allowed(env, s, calls[n]);
            var one := if go then Delegate(env, w, path + [n], chain, prior.value.state, calls[n].target,
                                           calls[n].prompt, s.meta.depth + 1)
                       else Err(Failure(UnknownAgent, []));
            && (r.Ok? <==> go && one.Ok?)
            && (r.Ok? ==> r.value.state == one.value.state)
            && (Slips(env, Done(r)) <==> Slips(env, Done(prior)) || (go && Slips(env, Done(one))))
  {
    hide Delegate, Slips, Authorise, Resolve;
    var n := |calls| - 1;
    DelegatorStaysThroughout(env, w, path, chain, s, calls[..n]);
    var prior := DeferAll(env, w, path, chain, s, calls[..n]);
    SlipsConcat(env, [], []);
    if prior.Ok? {
      AuthorisedIffAllowed(env, s, prior.value.state, calls[n]);
      if Allowed(env, s, calls[n]) {
        var one := Delegate(env, w, path + [n], chain, prior.value.state, calls[n].target, calls[n].prompt,
                            s.meta.depth + 1);
        SlipsConcat(env, Done(prior), Done(one));
      }
    }
  }

  lemma {:induction false} DelegatorStaysThroughout(env: Env, w: World, path: seq<nat>, chain: seq<string>,
                                                    s: AgentState, calls: seq<Call>)
    requires s.lifecycle.Running?
    ensures var r := DeferAll(env, w, path, chain, s, calls); r.Ok? ==>
            SameDelegator(s, r.value.state) && AllAllowed(env, s, calls)
    decreases |calls|
  {
    hide Delegate, Authorise, Resolve;
    if |calls| > 0 {
      var n := |calls| - 1;
      DelegatorStaysThroughout(env, w, path, chain, s, calls[..n]);
      var prior := DeferAll(env, w, path, chain, s, calls[..n]);
      if DeferAll(env, w, path, chain, s, calls).Ok? {
        AuthorisedIffAllowed(env, s, prior.value.state, calls[n]);
        DelegatorStays(env, w, path + [n], chain, prior.value.state, calls[n].target, calls[n].prompt,
                       s.meta.depth + 1);
        assert forall j :: 0 <= j < n ==> Allowed(env, s, calls[..n][j]);
      }
    }
  }

  // ---------------------------------------------------------------- what it takes

  /** Deferrals, each allowed to the agent before it, that lead from an agent asked `ask` to one that is asked
      something not affirmative. */
  ghost predicate HopsToSlip(env: Env, agent: string, ask: string, depth: nat, hops: seq<Call>)
    decreases |hops|
  {
    if hops == [] then !env.affirmative(ask)
    else
      && hops[0].name == "defer_to" && hops[0].target != "" && hops[0].prompt != ""
      && Resolve(env, agent, hops[0].target).Ok? && depth + 1 < DEFAULT_MAX_DEPTH
      && HopsToSlip(env, hops[0].target, env.delegatePrompt(agent, ask, hops[0].prompt), depth + 1, hops[1..])
  }

  ghost predicate CanSlip(env: Env, agent: string, ask: string, depth: nat) {
    exists hops :: HopsToSlip(env, agent, ask, depth, hops)
  }

  /** The delegate of `c`, or one further down, can be asked something not affirmative. */
  ghost predicate DelegateCanSlip(env: Env, s: AgentState, c: Call)
    requires s.message.Some?
  {
    CanSlip(env, c.target, env.delegatePrompt(s.agentId, s.message.value, c.prompt), s.meta.depth + 1)
  }

  ghost predicate SomeDelegateCanSlip(env: Env, s: AgentState, calls: seq<Call>)
    requires s.message.Some?
  {
    exists i :: 0 <= i < |calls| && AllAllowed(env, s, calls[..i + 1]) && DelegateCanSlip(env, s, calls[i])
  }

  lemma {:induction false} DeferralsAreNamed(calls: seq<Call>)
    ensures forall c :: c in Deferrals(calls) ==> c.name == "defer_to" && c.target != "" && c.prompt != ""
  {
    if |calls| > 0 { DeferralsAreNamed(calls[..|calls| - 1]); }
  }

  /** The router and the executor are the supervisor's: every reply has the same. */
  ghost predicate Configured(w: World, hasRouter: bool, hasExecutor: bool) {
    forall path :: w(path).route.ToRuntime? && w(path).route.reply.Replied? ==>
      var followUps := w(path).route.reply.tools.followUps;
      followUps.hasRouter == hasRouter && followUps.hasExecutor == hasExecutor
  }

  ghost predicate SomeHands(env: Env) {
    exists w, id, context :: SomeSensitive(env, IW.Handed(env.engine, env.workflows, true, w, id, context))
  }

  /** Some reply could get a sensitive tool run: there is an executor, and either a router or a workflow
      that leads to such a tool. */
  ghost predicate Armed(env: Env, hasRouter: bool, hasExecutor: bool) {
    hasExecutor && (hasRouter || SomeHands(env))
  }

  lemma NothingWithoutExecutor(env: Env, hasExecutor: bool, w: WI.World, id: string, context: WE.Record)
    requires SomeSensitive(env, IW.Handed(env.engine, env.workflows, hasExecutor, w, id, context))
    ensures hasExecutor && SomeHands(env)
  {
    hide IW.InlineLoop, NamesSideEffect;
    if !hasExecutor {
      var start := WE.StartWorkflow(env.workflows, w(0).freshId, WE.Text(id), context);
      if start.Ok? {
        IW.WithoutExecutorNothingIsHanded(env.engine, env.workflows, w, start.value, 1, WI.MAX_ITERATIONS);
      }
      assert false;
    }
  }

  lemma DirectivesNeedArms(env: Env, input: string, text: string, tools: ToolRun)
    requires Slips(env, DirectiveRuns(env, input, env.directives(text), tools))
    ensures !env.affirmative(input) && Armed(env, tools.followUps.hasRouter, tools.followUps.hasExecutor)
  {
    hide Slips, DirectiveRuns, SomeSensitive, SomeHands, IW.Handed;
    var ds := env.directives(text);
    DirectivesSlipIff(env, input, ds, tools);
    var i: nat :| i < |ds| && SomeSensitive(env, DirectiveHands(env, ds[i], i, tools));
    NothingWithoutExecutor(env, tools.followUps.hasExecutor, tools.directed(i), IW.DirectiveTarget(ds[i].name),
                           ds[i].params);
  }

  lemma PlanNeedsArms(env: Env, input: string, calls: seq<Call>, tools: ToolRun)
    requires Slips(env, PlanRuns(env, input, calls, tools))
    ensures !env.affirmative(input) && Armed(env, tools.followUps.hasRouter, tools.followUps.hasExecutor)
  {
    hide Slips, OwnRuns, FollowUps, SomeSensitive, SomeHands, IW.Handed;
    SlipsConcat(env, OwnRuns(env, input, calls, tools), FollowUps(input, calls, tools));
    if Slips(env, OwnRuns(env, input, calls, tools)) {
      OwnRunsSlipIff(env, input, calls, tools);
      var i: nat :| i < |calls| && SomeSensitive(env, CallHands(env, calls[i], i, tools));
      NothingIsSensitive(env);
      NothingWithoutExecutor(env, tools.followUps.hasExecutor, tools.started(i), calls[i].name[|IW.EXECUTE|..],
                             map["args" := tools.arguments(i)]);
    } else {
      FollowUpsNeedAResult(env, input, calls, tools);
    }
  }

  lemma OtherRoutesDoNotSlip(env: Env, w: World, path: seq<nat>, chain: seq<string>, s: AgentState)
    requires Ready(s) && !(w(path).route.ToRuntime? && w(path).route.reply.Replied?)
    ensures !Slips(env, Done(RunStep(env, w, path, chain, s, None)))
  {
    hide Stamp, DeferAll, NamesSideEffect;
  }

  /** A delegate's step gets something run only if it, or an agent it can hand on to, is asked something
      that is not affirmative, and some reply could get a sensitive tool run at all. */
  lemma {:induction false} StepNeedsHops(env: Env, w: World, path: seq<nat>, chain: seq<string>, s: AgentState,
                                         hasRouter: bool, hasExecutor: bool) returns (hops: seq<Call>)
    requires Configured(w, hasRouter, hasExecutor)
    requires Ready(s) && |chain| >= 1 && Slips(env, Done(RunStep(env, w, path, chain, s, None)))
    ensures HopsToSlip(env, s.agentId, s.message.value, s.meta.depth, hops) && Armed(env, hasRouter, hasExecutor)
    decreases Headroom(s.meta.depth), 1, 0
  {
    hide Slips, RunStep, DeferAll, Deferrals, DirectiveRuns, PlanRuns, NeedsConfirmation, Stamp, Armed;
    if !(w(path).route.ToRuntime? && w(path).route.reply.Replied?) { OtherRoutesDoNotSlip(env, w, path, chain, s); }
    var reply := w(path).route.reply;
    var started := With(s, Running, Now(env, s));
    StepSlipsIff(env, w, path, chain, s, None, reply.text, reply.calls, reply.tools);
    if Slips(env, DirectiveRuns(env, s.message.value, env.directives(reply.text), reply.tools)) {
      DirectivesNeedArms(env, s.message.value, reply.text, reply.tools);
      hops := [];
    } else if Slips(env, Done(DeferAll(env, w, path, chain, started, Deferrals(reply.calls)))) {
      DeferralsAreNamed(reply.calls);
      var i := DeferralsNeedHops(env, w, path, chain, started, Deferrals(reply.calls), hasRouter, hasExecutor);
      var c := Deferrals(reply.calls)[i];
      var rest :| HopsToSlip(env, c.target, env.delegatePrompt(s.agentId, s.message.value, c.prompt),
                             s.meta.depth + 1, rest);
      assert Allowed(env, started, Deferrals(reply.calls)[..i + 1][i]);
      hops := [c] + rest;
      assert hops[1..] == rest;
    } else {
      PlanNeedsArms(env, s.message.value, reply.calls, reply.tools);
      hops := [];
    }
  }

  lemma {:induction false} DeferralsNeedHops(env: Env, w: World, path: seq<nat>, chain: seq<string>, s: AgentState,
                                             calls: seq<Call>, hasRouter: bool, hasExecutor: bool)
      returns (i: nat)
    requires Configured(w, hasRouter, hasExecutor)
    requires s.lifecycle.Running? && s.message.Some? && |chain| >= 1
             && Slips(env, Done(DeferAll(env, w, path, chain, s, calls)))
    ensures i < |calls| && AllAllowed(env, s, calls[..i + 1]) && DelegateCanSlip(env, s, calls[i])
    ensures Armed(env, hasRouter, hasExecutor)
    decreases Headroom(s.meta.depth), 0, |calls|
  {
    hide Slips, RunStep, DeferAll, Delegate, Resolve, Delegated, Armed, Configured;
    if |calls| == 0 {
      NoDeferralsNoSlip(env, w, path, chain, s);
      assert false;
    } else {
      var n: nat := |calls| - 1;
      DeferAllSnoc(env, w, path, chain, s, calls);
      var prior := DeferAll(env, w, path, chain, s, calls[..n]);
      if Slips(env, Done(prior)) {
        i := DeferralsNeedHops(env, w, path, chain, s, calls[..n], hasRouter, hasExecutor);
        assert calls[..n][..i + 1] == calls[..i + 1] && calls[..n][i] == calls[i];
      } else {
        i := n;
        var c, at := calls[n], prior.value.state;
        DelegatorStaysThroughout(env, w, path, chain, s, calls[..n]);
        AllButLast(env, s, calls);
        DelegateSlipsIff(env, w, path + [n], chain, at, c.target, c.prompt, s.meta.depth + 1);
        DelegatedIsReady(env, w, path + [n], at, c.target, c.prompt, s.meta.depth + 1);
        var hops := StepNeedsHops(env, w, path + [n], chain + [c.target],
                                  Delegated(env, w, path + [n], at, c.target, c.prompt, s.meta.depth + 1).value,
                                  hasRouter, hasExecutor);
        assert DelegateCanSlip(env, s, c);
        assert calls[..i + 1] == calls;
      }
    }
  }

  lemma AllButLast(env: Env, s: AgentState, calls: seq<Call>)
    requires |calls| > 0
    ensures AllAllowed(env, s, calls)
            <==> AllAllowed(env, s, calls[..|calls| - 1]) && Allowed(env, s, calls[|calls| - 1])
  {
    hide Allowed;
    var n := |calls| - 1;
    assert forall j :: 0 <= j < n ==> calls[..n][j] == calls[j];
    if AllAllowed(env, s, calls[..n]) && Allowed(env, s, calls[n]) {
      forall j | 0 <= j < |calls| ensures Allowed(env, s, calls[j]) { assert j < n ==> Allowed(env, s, calls[..n][j]); }
    }
  }

  lemma NoDeferralsNoSlip(env: Env, w: World, path: seq<nat>, chain: seq<string>, s: AgentState)
    ensures !Slips(env, Done(DeferAll(env, w, path, chain, s, [])))
  {
  }

  // ---------------------------------------------------------------- an outside world that does it

  /** Tools that are never used, in this configuration. */
  function Idle(hasRouter: bool, hasExecutor: bool): ToolRun {
    Tools(j => F.NoResult, hasRouter, hasExecutor, j => Mute(), j => Mute())
  }

  /** An agent that answers at once. */
  function Quiet(idle: ToolRun): Script {
    Script(ToRuntime(Replied("", [], idle)), true, false)
  }

  const HARMLESS := Call("primitive.t", "", "")

  /** The `m`-th agent down the chain defers to the next, and the last one gets the reply `last`. */
  function ReplyAt(hops: seq<Call>, m: nat, last: LlmReply, idle: ToolRun): LlmReply {
    if m < |hops| then Replied("", [hops[m]], idle) else last
  }

  /** The top reply is given; its `i`-th deferral leads down `hops` to `last`, all others are answered at once. */
  function Bypassing(top: LlmReply, i: nat, hops: seq<Call>, last: LlmReply, idle: ToolRun): World {
    path =>
      if path == [] then Script(ToRuntime(top), true, false)
      else if path[0] == i then Script(ToRuntime(ReplyAt(hops, |path| - 1, last, idle)), true, false)
      else Quiet(idle)
  }

  predicate ConfiguredReply(reply: LlmReply, hasRouter: bool, hasExecutor: bool) {
    reply.Replied? && reply.tools.followUps.hasRouter == hasRouter && reply.tools.followUps.hasExecutor == hasExecutor
  }

  lemma BypassingIsConfigured(top: LlmReply, i: nat, hops: seq<Call>, last: LlmReply, hasRouter: bool,
                              hasExecutor: bool)
    requires ConfiguredReply(top, hasRouter, hasExecutor) && ConfiguredReply(last, hasRouter, hasExecutor)
    ensures Configured(Bypassing(top, i, hops, last, Idle(hasRouter, hasExecutor)), hasRouter, hasExecutor)
  {
  }

  /** A reply that passes the gate, defers to nobody, and slips unless the input is affirmative. */
  ghost predicate Sly(env: Env, reply: LlmReply) {
    && reply.Replied? && !NeedsConfirmation(reply.calls) && Deferrals(reply.calls) == []
    && forall ask :: !env.affirmative(ask) ==> Slips(env, PlanRuns(env, ask, reply.calls, reply.tools))
  }

  lemma HarmlessPasses()
    ensures !NeedsConfirmation([HARMLESS]) && Deferrals([HARMLESS]) == [] && IsPrimitive(HARMLESS)
  {
    assert [HARMLESS][..0] == [];
    var name := "primitive.t";
    assert PRIMITIVE <= name && name[|PRIMITIVE|..] == "t";
    assert "primitive.t"[0] == 'p' && "defer_to"[0] == 'd';
    NoDot("t");
    assert |Lower("t")| == 1;
    forall i | 0 <= i < |SIDE_EFFECTS| ensures !(SIDE_EFFECTS[i] <= Lower("t")) { SideEffectsAreLong(i); }
  }

  lemma SideEffectsAreLong(i: nat)
    requires i < |SIDE_EFFECTS|
    ensures |SIDE_EFFECTS[i]| > 1
  {
  }

  /** With a router: ask for a harmless primitive, and for a side effect once that has given a result. */
  lemma HarmlessIsSly(env: Env) returns (reply: LlmReply)
    ensures Sly(env, reply) && ConfiguredReply(reply, true, true)
  {
    hide Slips, FollowUps, OwnRuns, NeedsConfirmation, Deferrals, NamesSideEffect;
    var tools := Tools(j => F.Result(false), true, true, j => Mute(), j => Mute());
    reply := Replied("", [HARMLESS], tools);
    HarmlessPasses();
    assert SomeResult([HARMLESS], tools.results) by { assert IsPrimitive([HARMLESS][0]); }
    forall ask | !env.affirmative(ask) ensures Slips(env, PlanRuns(env, ask, [HARMLESS], tools)) {
      SenderSlips(env, ask, [HARMLESS], tools);
      SlipsConcat(env, OwnRuns(env, ask, [HARMLESS], tools), FollowUps(ask, [HARMLESS], tools));
    }
  }

  /** Without one: start a workflow that leads to a sensitive tool. */
  lemma WorkflowIsSly(env: Env, hasRouter: bool, w: WI.World, id: string) returns (reply: LlmReply)
    requires SomeSensitive(env, IW.Handed(env.engine, env.workflows, true, w, id, map["args" := WE.Null]))
    ensures Sly(env, reply) && ConfiguredReply(reply, hasRouter, true)
  {
    hide Slips, FollowUps, OwnRuns, NeedsConfirmation, Deferrals, SomeSensitive, IW.Handed;
    var c := Call(IW.EXECUTE + id, "", "");
    var tools := Tools(j => F.NoResult, hasRouter, true, (j: nat) => w, j => Mute());
    reply := Replied("", [c], tools);
    OneWorkflowCall(c);
    assert c.name[|IW.EXECUTE|..] == id;
    forall ask | !env.affirmative(ask) ensures Slips(env, PlanRuns(env, ask, [c], tools)) {
      assert SomeSensitive(env, CallHands(env, [c][0], 0, tools));
      OwnRunsSlipIff(env, ask, [c], tools);
      SlipsConcat(env, OwnRuns(env, ask, [c], tools), FollowUps(ask, [c], tools));
    }
  }

  lemma OneWorkflowCall(c: Call)
    requires IW.EXECUTE <= c.name
    ensures !NeedsConfirmation([c]) && Deferrals([c]) == []
  {
    assert [c][..0] == [];
    assert IW.EXECUTE[0] == 'w' && PRIMITIVE[0] == 'p' && "defer_to"[0] == 'd';
  }

  lemma SlySlips(env: Env, w: World, path: seq<nat>, chain: seq<string>, s: AgentState, reply: LlmReply)
    requires Ready(s) && !env.affirmative(s.message.value) && Sly(env, reply)
             && w(path) == Script(ToRuntime(reply), true, false)
    ensures Slips(env, Done(RunStep(env, w, path, chain, s, None)))
  {
    hide Slips, RunStep, DirectiveRuns, PlanRuns, NeedsConfirmation, Deferrals, Stamp;
    NothingToDefer(env, w, path, chain, With(s, Running, Now(env, s)));
    StepSlipsIff(env, w, path, chain, s, None, reply.text, reply.calls, reply.tools);
  }

  lemma OneNamedDeferral(c: Call)
    requires c.name == "defer_to" && c.target != "" && c.prompt != ""
    ensures Deferrals([c]) == [c] && !NeedsConfirmation([c])
  {
    assert [c][..0] == [];
    assert "defer_to"[0] == 'd' && "primitive."[0] == 'p';
  }

  /** One allowed deferral slips if the delegate's step does. */
  lemma OneDeferralSlips(env: Env, w: World, path: seq<nat>, chain: seq<string>, s: AgentState, c: Call)
    requires s.lifecycle.Running? && s.message.Some? && |chain| >= 1 && c.target != "" && Allowed(env, s, c)
             && w(path + [0]).activates
    requires var ready := Delegated(env, w, path + [0], s, c.target, c.prompt, s.meta.depth + 1);
             ready.Ok? ==> Slips(env, Done(RunStep(env, w, path + [0], chain + [c.target], ready.value, None)))
    ensures Slips(env, Done(DeferAll(env, w, path, chain, s, [c])))
  {
    hide Slips, RunStep, DeferAll, Delegate, Delegated, Allowed;
    AllowedIsRegistered(env, s, c);
    assert [c][..0] == [];
    NothingToDefer(env, w, path, chain, s);
    DeferAllSnoc(env, w, path, chain, s, [c]);
    DelegatedIsReady(env, w, path + [0], s, c.target, c.prompt, s.meta.depth + 1);
    DelegateSlipsIff(env, w, path + [0], chain, s, c.target, c.prompt, s.meta.depth + 1);
  }

  /** So does a step whose reply is that deferral. */
  lemma OneHopSlips(env: Env, w: World, path: seq<nat>, chain: seq<string>, s: AgentState, c: Call, idle: ToolRun)
    requires Ready(s) && |chain| >= 1 && c.name == "defer_to" && c.target != "" && c.prompt != ""
    requires w(path).route == ToRuntime(Replied("", [c], idle))
    requires Allowed(env, s, c) && w(path + [0]).activates
    requires var ready := Delegated(env, w, path + [0], With(s, Running, Now(env, s)), c.target, c.prompt,
                                    s.meta.depth + 1);
             ready.Ok? ==> Slips(env, Done(RunStep(env, w, path + [0], chain + [c.target], ready.value, None)))
    ensures Slips(env, Done(RunStep(env, w, path, chain, s, None)))
  {
    hide Slips, RunStep, DeferAll, DirectiveRuns, PlanRuns, NeedsConfirmation, Deferrals, Delegated, Stamp, Allowed;
    OneNamedDeferral(c);
    AllowedIsRegistered(env, s, c);
    OneDeferralSlips(env, w, path, chain, With(s, Running, Now(env, s)), c);
    StepSlipsIff(env, w, path, chain, s, None, "", [c], idle);
  }

  lemma AllowedIsRegistered(env: Env, s: AgentState, c: Call)
    requires Allowed(env, s, c)
    ensures c.target in env.defers
    ensures Allowed(env, With(s, Running, Now(env, s)), c)
  {
  }

  lemma NothingToDefer(env: Env, w: World, path: seq<nat>, chain: seq<string>, s: AgentState)
    ensures DeferAll(env, w, path, chain, s, []) == Ok(Stepped(s, []))
  {
  }

  lemma {:induction false} HopsSlip(env: Env, top: LlmReply, i: nat, hops: seq<Call>, last: LlmReply, idle: ToolRun,
                                    path: seq<nat>, chain: seq<string>, s: AgentState)
    requires Ready(s) && |chain| >= 1 && 1 <= |path| <= |hops| + 1 && path[0] == i && Sly(env, last)
    requires HopsToSlip(env, s.agentId, s.message.value, s.meta.depth, hops[|path| - 1..])
    ensures Slips(env, Done(RunStep(env, Bypassing(top, i, hops, last, idle), path, chain, s, None)))
    decreases |hops| - |path| + 1
  {
    hide Slips, RunStep, Delegated, Stamp, HopsToSlip, Allowed, Ready, Sly;
    var w, m := Bypassing(top, i, hops, last, idle), |path| - 1;
    ReadyDelegator(env, s);
    FirstHop(env, s, hops[m..]);
    if m == |hops| {
      SlySlips(env, w, path, chain, s, last);
    } else {
      var c, started, next := hops[m], With(s, Running, Now(env, s)), path + [0];
      assert hops[m..][0] == c && hops[m..][1..] == hops[m + 1..];
      DelegatedIsReady(env, w, next, started, c.target, c.prompt, s.meta.depth + 1);
      var ready := Delegated(env, w, next, started, c.target, c.prompt, s.meta.depth + 1);
      if ready.Ok? { HopsSlip(env, top, i, hops, last, idle, next, chain + [c.target], ready.value); }
      OneHopSlips(env, w, path, chain, s, c, idle);
    }
  }

  lemma FirstHop(env: Env, s: AgentState, hops: seq<Call>)
    requires s.message.Some? && HopsToSlip(env, s.agentId, s.message.value, s.meta.depth, hops)
    ensures hops == [] ==> !env.affirmative(s.message.value)
    ensures hops != [] ==>
              && hops[0].name == "defer_to" && hops[0].target != "" && hops[0].prompt != "" && Allowed(env, s, hops[0])
              && HopsToSlip(env, hops[0].target, env.delegatePrompt(s.agentId, s.message.value, hops[0].prompt),
                            s.meta.depth + 1, hops[1..])
  {
  }

  lemma ReadyDelegator(env: Env, s: AgentState)
    requires Ready(s)
    ensures var started := With(s, Running, Now(env, s));
            started.message == s.message && started.message.Some? && started.agentId == s.agentId
  {
    hide Stamp;
  }

  /** Delegates that answer at once let all allowed deferrals return. */
  lemma {:induction false} QuietDelegatesReturn(env: Env, w: World, chain: seq<string>, s: AgentState, calls: seq<Call>,
                                                idle: ToolRun)
    requires AgentStates.Sound(s) && s.lifecycle.Running? && s.message.Some? && |chain| >= 1
             && chain[|chain| - 1] == s.agentId && AllAllowed(env, s, calls)
    requires forall c :: c in calls ==> c.target != ""
    requires forall j: nat :: j < |calls| ==> w([j]) == Quiet(idle)
    ensures DeferAll(env, w, [], chain, s, calls).Ok?
    decreases |calls|
  {
    hide AgentStates.Sound, DeferAll, Delegate, Delegated, RunStep, Slips, Resolve, Stamp, Quiet;
    if |calls| == 0 {
      NothingToDefer(env, w, [], chain, s);
    } else {
      var n: nat := |calls| - 1;
      AllButLast(env, s, calls);
      QuietDelegatesReturn(env, w, chain, s, calls[..n], idle);
      DeferAllSnoc(env, w, [], chain, s, calls);
      assert [] + [n] == [n];
      QuietDeferralReturns(env, w, n, chain, s, calls, idle);
    }
  }

  lemma QuietDeferralReturns(env: Env, w: World, n: nat, chain: seq<string>, s: AgentState, calls: seq<Call>,
                             idle: ToolRun)
    requires AgentStates.Sound(s) && s.lifecycle.Running? && s.message.Some? && |chain| >= 1
             && chain[|chain| - 1] == s.agentId && n + 1 == |calls| && AllAllowed(env, s, calls)
    requires calls[n].target != "" && w([n]) == Quiet(idle) && DeferAll(env, w, [], chain, s, calls[..n]).Ok?
    ensures var at := DeferAll(env, w, [], chain, s, calls[..n]).value.state;
            Delegate(env, w, [n], chain, at, calls[n].target, calls[n].prompt, s.meta.depth + 1).Ok?
  {
    hide AgentStates.Sound, DeferAll, Delegate, Delegated, RunStep, GateLog, EffectsFine, Stamp;
    var at, c := DeferAll(env, w, [], chain, s, calls[..n]).value.state, calls[n];
    DelegatorStaysThroughout(env, w, [], chain, s, calls[..n]);
    assert Allowed(env, s, calls[n]);
    AllowedIsRegistered(env, s, c);
    assert [] + [n] == [n];
    DelegatorStaysSound(env, w, chain, s, calls[..n]);
    DelegatedIsReady(env, w, [n], at, c.target, c.prompt, s.meta.depth + 1);
    var ready := Delegated(env, w, [n], at, c.target, c.prompt, s.meta.depth + 1).value;
    AnswersAtOnce(env, w, [n], chain + [c.target], ready, idle);
    DeferralReturnsIffDelegateEnds(env, w, [n], chain, at, c.target, c.prompt, s.meta.depth + 1);
  }

  lemma DelegatorStaysSound(env: Env, w: World, chain: seq<string>, s: AgentState, calls: seq<Call>)
    requires AgentStates.Sound(s) && s.lifecycle.Running? && |chain| >= 1 && chain[|chain| - 1] == s.agentId
    requires DeferAll(env, w, [], chain, s, calls).Ok?
    ensures AgentStates.Sound(DeferAll(env, w, [], chain, s, calls).value.state)
  {
    hide AgentStates.Sound, GateLog, EffectsFine;
    DeferAllProof(env, w, [], env.defers, chain, DEFAULT_MAX_DEPTH, s, calls);
  }

  lemma {:induction false} LaterDeferralsKeepSlips(env: Env, w: World, path: seq<nat>, chain: seq<string>,
                                                   s: AgentState, calls: seq<Call>, n: nat)
    requires s.lifecycle.Running? && n <= |calls| && Slips(env, Done(DeferAll(env, w, path, chain, s, calls[..n])))
    ensures Slips(env, Done(DeferAll(env, w, path, chain, s, calls)))
    decreases |calls|
  {
    hide DeferAll, Slips, Delegate;
    if n == |calls| {
      assert calls[..n] == calls;
    } else {
      assert calls[..|calls| - 1][..n] == calls[..n];
      LaterDeferralsKeepSlips(env, w, path, chain, s, calls[..|calls| - 1], n);
      DeferAllSnoc(env, w, path, chain, s, calls);
    }
  }

  lemma BypassingElsewhere(top: LlmReply, i: nat, hops: seq<Call>, last: LlmReply, idle: ToolRun)
    ensures forall j: nat :: j != i ==> Bypassing(top, i, hops, last, idle)([j]) == Quiet(idle)
    ensures Bypassing(top, i, hops, last, idle)([i]).activates
  {
  }

  /** The `i`-th deferral of the top reply slips, those before it being answered at once. */
  lemma DeferralSlips(env: Env, top: LlmReply, i: nat, hops: seq<Call>, last: LlmReply, idle: ToolRun, s: AgentState,
                      calls: seq<Call>)
    requires Sly(env, last)
    requires AgentStates.Sound(s) && s.lifecycle.Running? && s.message.Some? && i < |calls|
             && AllAllowed(env, s, calls[..i + 1])
    requires forall c :: c in calls ==> c.target != ""
    requires HopsToSlip(env, calls[i].target, env.delegatePrompt(s.agentId, s.message.value, calls[i].prompt),
                        s.meta.depth + 1, hops)
    ensures Slips(env, Done(DeferAll(env, Bypassing(top, i, hops, last, idle), [], [s.agentId], s, calls)))
  {
    hide AgentStates.Sound, DeferAll, Delegate, Delegated, RunStep, Slips, Resolve, HopsToSlip, Sly, Bypassing, Ready,
         Allowed;
    BypassingElsewhere(top, i, hops, last, idle);
    var w, chain, c, before := Bypassing(top, i, hops, last, idle), [s.agentId], calls[i], calls[..i + 1];
    assert before[..i] == calls[..i] && before[i] == c;
    AllButLast(env, s, before);
    AllowedIsRegistered(env, s, c);
    QuietDelegatesReturn(env, w, chain, s, calls[..i], idle);
    DeferAllSnoc(env, w, [], chain, s, before);
    assert [] + [i] == [i] && hops[0..] == hops;
    var at := DeferAll(env, w, [], chain, s, calls[..i]).value.state;
    DelegatedIsReady(env, w, [i], at, c.target, c.prompt, s.meta.depth + 1);
    assert w([i]).activates && c in calls;
    DelegateSlipsIff(env, w, [i], chain, at, c.target, c.prompt, s.meta.depth + 1);
    HopsSlip(env, top, i, hops, last, idle, [i], chain + [c.target],
             Delegated(env, w, [i], at, c.target, c.prompt, s.meta.depth + 1).value);
    LaterDeferralsKeepSlips(env, w, [], chain, s, calls, i + 1);
  }

  // ---------------------------------------------------------------- the condition

  /** Some registered workflow has a sensitive tool in reach. */
  ghost predicate SomeInReach(env: Env) {
    exists id :: IR.SensitiveInReach(env.engine, env.workflows, id, Sensitive(env))
  }

  /** Whatever an agent is asked, some reply of its LLM gets a sensitive tool run. */
  ghost predicate Arms(env: Env, hasRouter: bool, hasExecutor: bool) {
    hasExecutor && (hasRouter || SomeInReach(env))
  }

  lemma ArmedNeedsReach(env: Env, evaluate: (WE.Value, WE.Record, WE.Record) -> Option<bool>, hasRouter: bool,
                        hasExecutor: bool)
    requires GoodWorkflows(env) && Armed(Judged(env, evaluate), hasRouter, hasExecutor)
    ensures Arms(env, hasRouter, hasExecutor)
  {
    hide GoodWorkflows, SomeSensitive, IW.Handed, IR.SensitiveInReach;
    if !hasRouter {
      var there := Judged(env, evaluate);
      var w, id, context :| SomeSensitive(there, IW.Handed(there.engine, there.workflows, true, w, id, context));
      HandedNeedsReach(env, evaluate, true, w, id, context);
    }
  }

  lemma ArmsGiveSlyReply(env: Env, hasRouter: bool, hasExecutor: bool)
      returns (evaluate: (WE.Value, WE.Record, WE.Record) -> Option<bool>, reply: LlmReply)
    requires GoodWorkflows(env) && Arms(env, hasRouter, hasExecutor)
    ensures Sly(Judged(env, evaluate), reply) && ConfiguredReply(reply, hasRouter, hasExecutor)
  {
    hide GoodWorkflows, SomeSensitive, IW.Handed, IR.SensitiveInReach, Sly;
    if hasRouter {
      evaluate := env.engine.evaluate;
      reply := HarmlessIsSly(Judged(env, evaluate));
    } else {
      var id :| IR.SensitiveInReach(env.engine, env.workflows, id, Sensitive(env));
      var w: WI.World;
      evaluate, w := ReachGetsHanded(env, id, map["args" := WE.Null]);
      reply := WorkflowIsSly(Judged(env, evaluate), hasRouter, w, id);
    }
  }

  /** A step that gets `calls` and `text` from the LLM can get a side effect run that nobody confirmed:
      by a directive, or, past the gate, by a delegate, if some reply could get a sensitive tool run at
      all, or, once all deferrals have returned, by a workflow call or a follow-up round. */
  ghost predicate StepCanSlip(env: Env, s: AgentState, input: string, text: string, calls: seq<Call>,
                              results: nat -> F.Execution, hasRouter: bool, hasExecutor: bool)
    requires s.message.Some?
  {
    || (!env.affirmative(input) && hasExecutor && DirectiveInReach(env, text))
    || (GateOpens(env, input, calls)
        && ((Arms(env, hasRouter, hasExecutor) && SomeDelegateCanSlip(env, s, Deferrals(calls)))
            || (AllAllowed(env, s, Deferrals(calls))
                && PlanCanSlip(env, input, calls, results, hasRouter, hasExecutor))))
  }

  /** The LLM answers the step with `text` and `calls`, the own calls have `results`, and the supervisor is
      configured like that throughout. */
  ghost predicate Answers(w: World, text: string, calls: seq<Call>, results: nat -> F.Execution, hasRouter: bool,
                          hasExecutor: bool) {
    && Configured(w, hasRouter, hasExecutor)
    && exists tools: ToolRun ::
         Fits(tools, results, hasRouter, hasExecutor) && w([]).route == ToRuntime(Replied(text, calls, tools))
  }

  ghost predicate StepSlips(env: Env, w: World, s: AgentState, message: Option<string>) {
    Slips(env, Done(RunStep(env, w, [], [s.agentId], s, message)))
  }

  lemma {:induction false} HopsIgnoreTheEvaluator(env: Env, evaluate: (WE.Value, WE.Record, WE.Record) -> Option<bool>,
                                                  agent: string, ask: string, depth: nat, hops: seq<Call>)
    ensures HopsToSlip(Judged(env, evaluate), agent, ask, depth, hops) <==> HopsToSlip(env, agent, ask, depth, hops)
    decreases |hops|
  {
    if hops != [] {
      HopsIgnoreTheEvaluator(env, evaluate, hops[0].target, env.delegatePrompt(agent, ask, hops[0].prompt), depth + 1,
                             hops[1..]);
    }
  }

  lemma StepNeedsTheCondition(env: Env, evaluate: (WE.Value, WE.Record, WE.Record) -> Option<bool>, w: World,
                              s: AgentState, message: Option<string>, text: string, calls: seq<Call>, tools: ToolRun)
    requires s.lifecycle.Activated? || IsActive(s.lifecycle)
    requires s.message.Some? && s.meta.pending.None? && GoodWorkflows(env)
    requires w([]).route == ToRuntime(Replied(text, calls, tools)) && StepSlips(Judged(env, evaluate), w, s, message)
    requires Configured(w, tools.followUps.hasRouter, tools.followUps.hasExecutor)
    ensures StepCanSlip(env, s, Text(s, message), text, calls, tools.results, tools.followUps.hasRouter,
                        tools.followUps.hasExecutor)
  {
    hide Slips, RunStep, DeferAll, DirectiveRuns, PlanRuns, NeedsConfirmation, Deferrals, GoodWorkflows,
         DirectiveInReach, PlanCanSlip, HopsToSlip, Resolve, Stamp, Configured, Arms, Armed;
    var there, input, named := Judged(env, evaluate), Text(s, message), Deferrals(calls);
    var started := With(s, Running, Now(there, s));
    StepSlipsIff(there, w, [], [s.agentId], s, message, text, calls, tools);
    var deferred := DeferAll(there, w, [], [s.agentId], started, named);
    if Slips(there, DirectiveRuns(there, input, env.directives(text), tools)) {
      DirectivesNeedReach(env, evaluate, input, text, tools);
    } else if Slips(there, Done(deferred)) {
      var i := DeferralsNeedHops(there, w, [], [s.agentId], started, named, tools.followUps.hasRouter,
                                 tools.followUps.hasExecutor);
      ArmedNeedsReach(env, evaluate, tools.followUps.hasRouter, tools.followUps.hasExecutor);
      var c := named[i];
      var ask := env.delegatePrompt(s.agentId, s.message.value, c.prompt);
      var hops :| HopsToSlip(there, c.target, ask, s.meta.depth + 1, hops);
      HopsIgnoreTheEvaluator(env, evaluate, c.target, ask, s.meta.depth + 1, hops);
      AllowedAnyway(env, evaluate, s, named[..i + 1]);
      assert DelegateCanSlip(env, s, c);
    } else {
      DelegatorStaysThroughout(there, w, [], [s.agentId], started, named);
      AllowedAnyway(env, evaluate, s, named);
      PlanNeedsReach(env, evaluate, input, calls, tools);
    }
  }

  lemma AllowedAnyway(env: Env, evaluate: (WE.Value, WE.Record, WE.Record) -> Option<bool>, s: AgentState,
                      calls: seq<Call>)
    ensures AllAllowed(Judged(env, evaluate), With(s, Running, Now(env, s)), calls) <==> AllAllowed(env, s, calls)
  {
    forall j | 0 <= j < |calls|
      ensures Allowed(Judged(env, evaluate), With(s, Running, Now(env, s)), calls[j]) <==> Allowed(env, s, calls[j]) {}
  }

  lemma JudgedAsBefore(env: Env)
    ensures Judged(env, env.engine.evaluate) == env
  {
  }

  /** A directive is enough. */
  lemma DirectiveSuffices(env: Env, s: AgentState, message: Option<string>, text: string, calls: seq<Call>,
                          results: nat -> F.Execution, hasRouter: bool)
      returns (evaluate: (WE.Value, WE.Record, WE.Record) -> Option<bool>, w: World)
    requires s.lifecycle.Activated? || IsActive(s.lifecycle)
    requires s.message.Some? && s.meta.pending.None? && GoodWorkflows(env)
    requires !env.affirmative(Text(s, message)) && DirectiveInReach(env, text)
    ensures Answers(w, text, calls, results, hasRouter, true) && StepSlips(Judged(env, evaluate), w, s, message)
  {
    hide Slips, RunStep, DeferAll, DirectiveRuns, PlanRuns, NeedsConfirmation, Deferrals, GoodWorkflows,
         DirectiveInReach, Stamp;
    var directed: nat -> WI.World;
    evaluate, directed := DirectivesCanSlip(env, Text(s, message), text);
    var tools := Tools(results, hasRouter, true, j => Mute(), directed);
    w := Bypassing(Replied(text, calls, tools), 0, [], Replied(text, calls, tools), Idle(hasRouter, true));
    BypassingIsConfigured(Replied(text, calls, tools), 0, [], Replied(text, calls, tools), hasRouter, true);
    assert Fits(tools, results, hasRouter, true) && w([]).route == ToRuntime(Replied(text, calls, tools));
    StepSlipsIff(Judged(env, evaluate), w, [], [s.agentId], s, message, text, calls, tools);
  }

  /** A delegate that can slip makes the step slip. */
  lemma DelegateSlipsInStep(env: Env, s: AgentState, message: Option<string>, text: string, calls: seq<Call>,
                            tools: ToolRun, i: nat, hops: seq<Call>, last: LlmReply, idle: ToolRun)
    requires s.lifecycle.Activated? || IsActive(s.lifecycle)
    requires AgentStates.Sound(s) && s.message.Some? && s.meta.pending.None? && GateOpens(env, Text(s, message), calls)
    requires i < |Deferrals(calls)| && AllAllowed(env, s, Deferrals(calls)[..i + 1]) && Sly(env, last)
    requires HopsToSlip(env, Deferrals(calls)[i].target,
                        env.delegatePrompt(s.agentId, s.message.value, Deferrals(calls)[i].prompt),
                        s.meta.depth + 1, hops)
    ensures StepSlips(env, Bypassing(Replied(text, calls, tools), i, hops, last, idle), s, message)
  {
    hide Slips, RunStep, DeferAll, DirectiveRuns, PlanRuns, NeedsConfirmation, Deferrals, HopsToSlip, Resolve, Stamp,
         AgentStates.Sound, AllAllowed, Sly;
    var named, started := Deferrals(calls), With(s, Running, Now(env, s));
    WithKeepsSound(s, Running, Now(env, s));
    DeferralsAreNamed(calls);
    JudgedAsBefore(env);
    AllowedAnyway(env, env.engine.evaluate, s, named[..i + 1]);
    DeferralSlips(env, Replied(text, calls, tools), i, hops, last, idle, started, named);
    StepSlipsIff(env, Bypassing(Replied(text, calls, tools), i, hops, last, idle), [], [s.agentId], s, message,
                 text, calls, tools);
  }

  /** So is a delegate. */
  lemma DelegateSuffices(env: Env, s: AgentState, message: Option<string>, text: string, calls: seq<Call>,
                         results: nat -> F.Execution, hasRouter: bool, hasExecutor: bool)
      returns (evaluate: (WE.Value, WE.Record, WE.Record) -> Option<bool>, w: World)
    requires s.lifecycle.Activated? || IsActive(s.lifecycle)
    requires AgentStates.Sound(s) && s.message.Some? && s.meta.pending.None? && GoodWorkflows(env)
    requires GateOpens(env, Text(s, message), calls) && SomeDelegateCanSlip(env, s, Deferrals(calls))
    requires Arms(env, hasRouter, hasExecutor)
    ensures Answers(w, text, calls, results, hasRouter, hasExecutor) && StepSlips(Judged(env, evaluate), w, s, message)
  {
    hide StepSlips, NeedsConfirmation, Deferrals, HopsToSlip, AllAllowed, AgentStates.Sound, Sly, Arms, GoodWorkflows,
         Configured, Idle;
    var named, last := Deferrals(calls), Replied("", [], NoTools());
    var i :| 0 <= i < |named| && AllAllowed(env, s, named[..i + 1]) && DelegateCanSlip(env, s, named[i]);
    var ask := env.delegatePrompt(s.agentId, s.message.value, named[i].prompt);
    var hops :| HopsToSlip(env, named[i].target, ask, s.meta.depth + 1, hops);
    evaluate, last := ArmsGiveSlyReply(env, hasRouter, hasExecutor);
    var tools, idle := Tools(results, hasRouter, hasExecutor, j => Mute(), j => Mute()), Idle(hasRouter, hasExecutor);
    w := Bypassing(Replied(text, calls, tools), i, hops, last, idle);
    BypassingIsConfigured(Replied(text, calls, tools), i, hops, last, hasRouter, hasExecutor);
    assert Fits(tools, results, hasRouter, hasExecutor) && w([]).route == ToRuntime(Replied(text, calls, tools));
    AllowedInEither(env, evaluate, s, named[..i + 1]);
    HopsIgnoreTheEvaluator(env, evaluate, named[i].target, ask, s.meta.depth + 1, hops);
    DelegateSlipsInStep(Judged(env, evaluate), s, message, text, calls, tools, i, hops, last, idle);
  }

  /** Once the delegates have answered, a plan that slips makes the step slip. */
  lemma PlanSlipsInStep(env: Env, s: AgentState, message: Option<string>, text: string, calls: seq<Call>,
                        tools: ToolRun, last: LlmReply, idle: ToolRun)
    requires s.lifecycle.Activated? || IsActive(s.lifecycle)
    requires AgentStates.Sound(s) && s.message.Some? && s.meta.pending.None?
    requires GateOpens(env, Text(s, message), calls) && AllAllowed(env, s, Deferrals(calls))
    requires Slips(env, PlanRuns(env, Text(s, message), calls, tools))
    ensures StepSlips(env, Bypassing(Replied(text, calls, tools), |Deferrals(calls)|, [], last, idle), s, message)
  {
    hide Slips, RunStep, DeferAll, DirectiveRuns, PlanRuns, NeedsConfirmation, Deferrals, Resolve, Stamp,
         AgentStates.Sound, AllAllowed;
    var named := Deferrals(calls);
    var w := Bypassing(Replied(text, calls, tools), |named|, [], last, idle);
    var started := With(s, Running, Now(env, s));
    WithKeepsSound(s, Running, Now(env, s));
    DeferralsAreNamed(calls);
    JudgedAsBefore(env);
    AllowedAnyway(env, env.engine.evaluate, s, named);
    QuietDelegatesReturn(env, w, [s.agentId], started, named, idle);
    StepSlipsIff(env, w, [], [s.agentId], s, message, text, calls, tools);
  }

  /** And so are the own calls. */
  lemma PlanSuffices(env: Env, s: AgentState, message: Option<string>, text: string, calls: seq<Call>,
                     results: nat -> F.Execution, hasRouter: bool, hasExecutor: bool)
      returns (evaluate: (WE.Value, WE.Record, WE.Record) -> Option<bool>, w: World)
    requires s.lifecycle.Activated? || IsActive(s.lifecycle)
    requires AgentStates.Sound(s) && s.message.Some? && s.meta.pending.None? && GoodWorkflows(env)
    requires GateOpens(env, Text(s, message), calls) && AllAllowed(env, s, Deferrals(calls))
    requires PlanCanSlip(env, Text(s, message), calls, results, hasRouter, hasExecutor)
    ensures Answers(w, text, calls, results, hasRouter, hasExecutor) && StepSlips(Judged(env, evaluate), w, s, message)
  {
    hide Slips, StepSlips, PlanRuns, PlanCanSlip, NeedsConfirmation, Deferrals, GoodWorkflows, AgentStates.Sound;
    var tools: ToolRun;
    evaluate, tools := PlanCan(env, Text(s, message), calls, results, hasRouter, hasExecutor);
    var top, idle := Replied(text, calls, tools), Idle(hasRouter, hasExecutor);
    w := Bypassing(top, |Deferrals(calls)|, [], top, idle);
    BypassingIsConfigured(top, |Deferrals(calls)|, [], top, hasRouter, hasExecutor);
    assert w([]).route == ToRuntime(Replied(text, calls, tools));
    AllowedInEither(env, evaluate, s, Deferrals(calls));
    PlanSlipsInStep(Judged(env, evaluate), s, message, text, calls, tools, top, idle);
  }

  lemma AllowedInEither(env: Env, evaluate: (WE.Value, WE.Record, WE.Record) -> Option<bool>, s: AgentState,
                        calls: seq<Call>)
    ensures AllAllowed(Judged(env, evaluate), s, calls) <==> AllAllowed(env, s, calls)
  {
    forall j | 0 <= j < |calls| ensures Allowed(Judged(env, evaluate), s, calls[j]) <==> Allowed(env, s, calls[j]) {}
  }

  /** For every reply: some outside world, and some way of evaluating the conditions of workflows, makes
      the step get a side effect run that nobody confirmed if and only if `StepCanSlip`. */
  lemma StepBypassIff(env: Env, s: AgentState, message: Option<string>, text: string, calls: seq<Call>,
                      results: nat -> F.Execution, hasRouter: bool, hasExecutor: bool)
    requires s.lifecycle.Activated? || IsActive(s.lifecycle)
    requires AgentStates.Sound(s) && s.message.Some? && s.meta.pending.None? && GoodWorkflows(env)
    ensures (exists evaluate, w: World ::
             Answers(w, text, calls, results, hasRouter, hasExecutor)
                 && StepSlips(Judged(env, evaluate), w, s, message))
            <==> StepCanSlip(env, s, Text(s, message), text, calls, results, hasRouter, hasExecutor)
  {
    hide StepSlips, DirectiveInReach, PlanCanSlip, SomeDelegateCanSlip, AllAllowed, NeedsConfirmation, Deferrals,
         GoodWorkflows, AgentStates.Sound;
    if exists evaluate, w: World ::
        Answers(w, text, calls, results, hasRouter, hasExecutor) && StepSlips(Judged(env, evaluate), w, s, message) {
      var evaluate, w: World :| Answers(w, text, calls, results, hasRouter, hasExecutor)
          && StepSlips(Judged(env, evaluate), w, s, message);
      var tools: ToolRun :| Fits(tools, results, hasRouter, hasExecutor)
          && w([]).route == ToRuntime(Replied(text, calls, tools));
      StepNeedsTheCondition(env, evaluate, w, s, message, text, calls, tools);
    }
    if !env.affirmative(Text(s, message)) && hasExecutor && DirectiveInReach(env, text) {
      var evaluate, w := DirectiveSuffices(env, s, message, text, calls, results, hasRouter);
    }
    if GateOpens(env, Text(s, message), calls) && Arms(env, hasRouter, hasExecutor)
       && SomeDelegateCanSlip(env, s, Deferrals(calls)) {
      var evaluate, w := DelegateSuffices(env, s, message, text, calls, results, hasRouter, hasExecutor);
    }
    if GateOpens(env, Text(s, message), calls) && AllAllowed(env, s, Deferrals(calls))
       && PlanCanSlip(env, Text(s, message), calls, results, hasRouter, hasExecutor) {
      var evaluate, w := PlanSuffices(env, s, message, text, calls, results, hasRouter, hasExecutor);
    }
  }

  // ---------------------------------------------------------------- the two ways through a workflow

  /** A workflow of one tool step. */
  function OneTool(config: WE.Record): WE.Definition {
    WE.Definition(map["a" := WE.Step("a", WE.ToolStep, config, map["on_success" := WE.END_TARGET])], "a")
  }

  lemma OneToolIsInReach(env: Env, config: WE.Record)
    requires env.workflows == map["w" := OneTool(config)] && Sensitive(env)(config)
    ensures GoodWorkflows(env) && IR.SensitiveInReach(env.engine, env.workflows, "w", Sensitive(env))
  {
    hide NamesSideEffect;
    var a := WP.Place("w", "a");
    assert WP.Trail(WP.Inline(true), env.engine, env.workflows, [a]);
    assert IR.ToolAt(env.workflows, a, config);
    assert WR.ShortTrail(WP.Inline(true), env.engine, env.workflows, a, a, WI.MAX_ITERATIONS, [a]);
    assert IR.SensitiveOnTrail(env.engine, env.workflows, "w", Sensitive(env), a, config, [a]);
    assert WE.WellFormed(OneTool(config));
  }

  /** A reply whose only call starts that workflow passes the gate and can get its tool run, without a
      router and without a primitive of its own. */
  lemma WorkflowCallBypasses(env: Env, s: AgentState, message: Option<string>, text: string, config: WE.Record,
                             results: nat -> F.Execution)
    requires s.lifecycle.Activated? || IsActive(s.lifecycle)
    requires AgentStates.Sound(s) && s.message.Some? && s.meta.pending.None? && !env.affirmative(Text(s, message))
    requires env.workflows == map["w" := OneTool(config)] && Sensitive(env)(config)
    ensures exists evaluate, w: World ::
              Answers(w, text, [Call(IW.EXECUTE + "w", "", "")], results, false, true)
                  && StepSlips(Judged(env, evaluate), w, s, message)
  {
    hide StepSlips, GoodWorkflows, AgentStates.Sound, DirectiveInReach, SomeDelegateCanSlip, IR.SensitiveInReach,
         OneTool, NamesSideEffect;
    var c := Call(IW.EXECUTE + "w", "", "");
    OneToolIsInReach(env, config);
    OneWorkflowCall(c);
    assert c.name[|IW.EXECUTE|..] == "w";
    assert Reaches(env, [c][0]);
    StepBypassIff(env, s, message, text, [c], results, false, true);
  }

  /** A reply whose text starts that workflow can get its tool run even while its calls are parked. */
  lemma DirectiveBypassesParking(env: Env, s: AgentState, message: Option<string>, text: string, calls: seq<Call>,
                                 params: WE.Record, config: WE.Record, results: nat -> F.Execution)
    requires s.lifecycle.Activated? || IsActive(s.lifecycle)
    requires AgentStates.Sound(s) && s.message.Some? && s.meta.pending.None? && !env.affirmative(Text(s, message))
    requires NeedsConfirmation(calls) && env.directives(text) == [IW.Directive("w", params)]
    requires env.workflows == map["w" := OneTool(config)] && Sensitive(env)(config)
    ensures exists evaluate, w: World ::
            Answers(w, text, calls, results, false, true) && StepSlips(Judged(env, evaluate), w, s, message)
  {
    hide StepSlips, GoodWorkflows, AgentStates.Sound, PlanCanSlip, SomeDelegateCanSlip, IR.SensitiveInReach, OneTool,
         NamesSideEffect, NeedsConfirmation, Deferrals;
    OneToolIsInReach(env, config);
    assert IW.DirectiveTarget(env.directives(text)[0].name) == "w";
    StepBypassIff(env, s, message, text, calls, results, false, true);
  }
}
