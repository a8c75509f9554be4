/** What every supervisor call and every run of calls keeps: the lifecycle log, the deferral
    chain's bounds, and the confirmation gate. */
module SupervisorRuns {
  import opened Wrappers
  import opened Digraph
  import opened AgentStates
  import opened Supervisor
  import F = FollowUpLoop
  import WE = WorkflowEngine
  import IW = InlineWorkflows

  // ---------------------------------------------------------------- effects of a call

  /** A hop goes further down an existing chain, along edges of `g`, fewer than `room` of them. */
  ghost predicate HopFine(g: Graph, chain: seq<string>, room: int, hop: seq<string>) {
    && |chain| >= 1 && |chain| < |hop| && hop[..|chain|] == chain
    && Walk(g, hop[|chain| - 1..])
    && |hop| - |chain| < room
  }

  /** `g` has at least the deferrals agents are allowed. */
  ghost predicate Allows(env: Env, g: Graph) {
    forall a, b :: Edge(env.defers, a, b) ==> Edge(g, a, b)
  }

  ghost predicate EffectFine(env: Env, g: Graph, chain: seq<string>, room: int, e: Effect) {
    match e
    case Ran(input, call) => HasSideEffect(call) ==> env.affirmative(input)
    case Hop(hop) => HopFine(g, chain, room, hop)
    case _ => true
  }

  ghost predicate EffectsFine(env: Env, g: Graph, chain: seq<string>, room: int, effects: seq<Effect>) {
    forall i :: 0 <= i < |effects| ==> EffectFine(env, g, chain, room, effects[i])
  }

  /** The events of the confirmation gate among the effects. */
  function GateLog(effects: seq<Effect>): seq<Effect> {
    if |effects| == 0 then []
    else
      var last := effects[|effects| - 1];
      GateLog(effects[..|effects| - 1]) + (if last.Parked? || last.Consumed? then [last] else [])
  }

  lemma {:induction false} GateLogConcat(a: seq<Effect>, b: seq<Effect>)
    ensures GateLog(a + b) == GateLog(a) + GateLog(b)
  {
    if |b| == 0 {
      assert a + b == a;
    } else {
      var init := b[..|b| - 1];
      assert (a + b)[..|a + b| - 1] == a + init;
      GateLogConcat(a, init);
    }
  }

  /** One step of the gate: nothing, a batch parked, or the parked batch consumed as the input says. */
  ghost predicate GateStep(env: Env, before: Option<seq<Call>>, log: seq<Effect>, after: Option<seq<Call>>) {
    || (log == [] && after == before)
    || (|log| == 1 && log[0].Parked? && before.None? && after == Some(log[0].batch))
    || (|log| == 1 && log[0].Consumed? && before == Some(log[0].batch) && after.None?
        && log[0].executed == env.affirmative(log[0].input))
  }

  lemma {:induction false} ExecutionsAreRuns(input: string, calls: seq<Call>)
    ensures GateLog(Executions(input, calls)) == []
    ensures forall i :: 0 <= i < |Executions(input, calls)| ==>
              Executions(input, calls)[i].Ran? && Executions(input, calls)[i].input == input
              && Executions(input, calls)[i].call in calls
  {
    if |calls| > 0 {
      var last, before := calls[|calls| - 1], Executions(input, calls[..|calls| - 1]);
      var more := if IsPrimitive(last) then [Ran(input, last)] else [];
      ExecutionsAreRuns(input, calls[..|calls| - 1]);
      GateLogConcat(before, more);
      RunIsNoGateEvent(input, last);
      assert Executions(input, calls) == before + more;
    } else {
      assert GateLog([]) == [];
    }
  }

  lemma RunIsNoGateEvent(input: string, call: Call)
    ensures GateLog([Ran(input, call)]) == [] && GateLog([]) == []
  {
    assert [Ran(input, call)][..0] == [];
  }

  /** A batch executed on an affirmative input, or one without side effects, passes the gate. */
  lemma ExecutionsAreFine(env: Env, g: Graph, chain: seq<string>, room: int, input: string, calls: seq<Call>)
    requires env.affirmative(input) || !NeedsConfirmation(calls)
    ensures EffectsFine(env, g, chain, room, Executions(input, calls)) && GateLog(Executions(input, calls)) == []
  {
    ExecutionsAreRuns(input, calls);
    forall i | 0 <= i < |Executions(input, calls)|
        ensures EffectFine(env, g, chain, room, Executions(input, calls)[i]) {
      SideEffectNeedsConfirmation(calls, Executions(input, calls)[i].call);
    }
  }

  lemma SideEffectNeedsConfirmation(calls: seq<Call>, c: Call)
    requires c in calls
    ensures HasSideEffect(c) ==> NeedsConfirmation(calls)
  {
  }

  lemma EffectsConcat(env: Env, g: Graph, chain: seq<string>, room: int, a: seq<Effect>, b: seq<Effect>)
    requires EffectsFine(env, g, chain, room, a) && EffectsFine(env, g, chain, room, b)
    ensures EffectsFine(env, g, chain, room, a + b)
    ensures GateLog(a + b) == GateLog(a) + GateLog(b)
  {
    GateLogConcat(a, b);
  }

  /** Effects of the delegate are effects of the delegator, one link further up. */
  lemma EffectsLift(env: Env, g: Graph, chain: seq<string>, target: string, room: int, effects: seq<Effect>)
    requires |chain| >= 1 && Edge(g, chain[|chain| - 1], target)
    requires EffectsFine(env, g, chain + [target], room - 1, effects)
    ensures EffectsFine(env, g, chain, room, effects)
  {
    forall i | 0 <= i < |effects| ensures EffectFine(env, g, chain, room, effects[i]) {
      assert EffectFine(env, g, chain + [target], room - 1, effects[i]);
      if effects[i].Hop? { HopLift(env, g, chain, target, room, effects[i].chain); }
    }
  }

  lemma HopLift(env: Env, g: Graph, chain: seq<string>, target: string, room: int, hop: seq<string>)
    requires |chain| >= 1 && Edge(g, chain[|chain| - 1], target)
    requires HopFine(g, chain + [target], room - 1, hop)
    ensures HopFine(g, chain, room, hop)
  {
    var n := |chain|;
    assert hop[..n] == hop[..n + 1][..n] == chain;
    assert hop[n] == hop[..n + 1][n] == target && hop[n - 1] == hop[..n][n - 1] == chain[n - 1];
    var p, q := hop[n - 1..], hop[n..];
    forall i | 0 <= i < |p| - 1 ensures Edge(g, p[i], p[i + 1]) {
      if i > 0 { assert q[i - 1] == p[i] && q[i - 1 + 1] == p[i + 1]; }
    }
  }

  // ---------------------------------------------------------------- one step

  /** What a step leaves: a sound, longer log, no RUNNING or SUSPENDED state, and ACTIVATED only
      after a confirmation. */
  ghost predicate StepKeeps(s: AgentState, r: AgentState) {
    && Sound(r) && r.agentId == s.agentId && s.history <= r.history && s.version < r.version
    && (r.lifecycle.Completed? || r.lifecycle.Failed? || r.lifecycle.Waiting? || r.lifecycle.Activated?)
    && (r.lifecycle.Activated? ==> s.meta.pending.Some?)
    && r.meta.deferral == s.meta.deferral
  }

  /** What a deferral leaves: the delegator RUNNING again, its pending batch untouched. */
  ghost predicate DeferKeeps(s: AgentState, r: AgentState) {
    && Sound(r) && r.agentId == s.agentId && s.history <= r.history && s.version <= r.version
    && r.lifecycle.Running? && r.meta.pending == s.meta.pending
  }

  /** A call that raised: its effects passed the gate, and it consumed no parked batch. */
  ghost predicate FailureFine(env: Env, g: Graph, chain: seq<string>, room: int, effects: seq<Effect>) {
    && EffectsFine(env, g, chain, room, effects)
    && forall i :: 0 <= i < |GateLog(effects)| ==> GateLog(effects)[i].Parked?
  }

  ghost predicate StepOutcome(env: Env, g: Graph, chain: seq<string>, room: int, s: AgentState,
                              r: Result<Stepped, Failure>) {
    match r
    case Ok(v) =>
      && StepKeeps(s, v.state)
      && EffectsFine(env, g, chain, room, v.effects)
      && GateStep(env, s.meta.pending, GateLog(v.effects), v.state.meta.pending)
      && (GateLog(v.effects) != [] && GateLog(v.effects)[0].Parked? ==> v.state.lifecycle.Waiting?)
    case Err(f) => FailureFine(env, g, chain, room, f.effects)
  }

  ghost predicate DeferOutcome(env: Env, g: Graph, chain: seq<string>, room: int, s: AgentState,
                               r: Result<Stepped, Failure>) {
    match r
    case Ok(v) =>
      && DeferKeeps(s, v.state)
      && EffectsFine(env, g, chain, room, v.effects)
      && GateLog(v.effects) == []
    case Err(f) => FailureFine(env, g, chain, room, f.effects)
  }

  lemma EndKeeps(env: Env, s: AgentState, started: AgentState, to: Lifecycle, meta: Meta, response: Option<string>,
                 effects: seq<Effect>)
    requires Sound(started) && started.lifecycle.Running? && started.agentId == s.agentId
    requires s.history <= started.history && s.version < started.version
    requires to.Completed? || to.Failed? || to.Waiting? || (to.Activated? && s.meta.pending.Some?)
    requires meta.deferral == s.meta.deferral
    ensures End(env, started, to, meta, response, effects).Ok?
    ensures StepKeeps(s, End(env, started, to, meta, response, effects).value.state)
    ensures End(env, started, to, meta, response, effects).value.state.meta == meta
    ensures End(env, started, to, meta, response, effects).value.state.lifecycle == to
    ensures End(env, started, to, meta, response, effects).value.effects == effects
  {
    WithKeepsSound(started, to, Now(env, started));
    SoundIgnoresTheRest(With(started, to, Now(env, started)),
                        End(env, started, to, meta, response, effects).value.state);
  }

  /** Soundness looks at the log, the state, the timestamps and the version only. */
  lemma SoundIgnoresTheRest(a: AgentState, b: AgentState)
    requires a.history == b.history && a.lifecycle == b.lifecycle && a.timestamps == b.timestamps
             && a.version == b.version
    ensures Sound(a) <==> Sound(b)
  {
  }

  lemma NoEffects(env: Env, g: Graph, chain: seq<string>, room: int)
    ensures EffectsFine(env, g, chain, room, []) && GateLog([]) == []
  {
  }

  lemma OneGateEvent(env: Env, g: Graph, chain: seq<string>, room: int, e: Effect)
    requires e.Parked? || e.Consumed?
    ensures EffectsFine(env, g, chain, room, [e]) && GateLog([e]) == [e]
  {
    assert [e][..0] == [];
  }

  /** The delegate's first step decides: `Settle` returns only what is terminal already, because
      `ResumeAgent` refuses every other state a step can return. */
  lemma SettleNeedsTerminal(env: Env, w: World, path: seq<nat>, chain: seq<string>, d: Stepped)
    requires !d.state.lifecycle.Suspended?
    ensures Settle(env, w, path, chain, d, 0) ==
            if IsTerminal(d.state.lifecycle) then Ok(d) else Err(Failure(NotSuspended, d.effects))
  {
  }

  /** A step under way: RUNNING, with the log so far and the metadata it will end with. */
  ghost predicate Begun(s: AgentState, started: AgentState, meta: Meta) {
    && Sound(started) && started.lifecycle.Running? && started.agentId == s.agentId
    && s.history <= started.history && s.version < started.version
    && meta.deferral == s.meta.deferral && meta.pending == s.meta.pending
  }

  lemma EarlyErrorIsFine(env: Env, g: Graph, chain: seq<string>, room: int, s: AgentState, e: Error)
    ensures StepOutcome(env, g, chain, room, s, Err(Failure(e, [])))
    ensures DeferOutcome(env, g, chain, room, s, Err(Failure(e, [])))
  {
  }

  /** What happened before a failure comes first among its effects. */
  lemma FailureAfter(env: Env, g: Graph, chain: seq<string>, room: int, before: seq<Effect>, effects: seq<Effect>)
    requires EffectsFine(env, g, chain, room, before) && GateLog(before) == []
             && FailureFine(env, g, chain, room, effects)
    ensures FailureFine(env, g, chain, room, before + effects)
  {
    GateLogConcat(before, effects);
  }

  /** A step that ends without effects. */
  lemma QuietEnd(env: Env, g: Graph, chain: seq<string>, room: int, s: AgentState, started: AgentState, to: Lifecycle,
                 meta: Meta, response: Option<string>)
    requires Begun(s, started, meta) && (to.Completed? || to.Failed? || to.Waiting?)
    ensures StepOutcome(env, g, chain, room, s, End(env, started, to, meta, response, []))
  {
    hide Sound, End, StepKeeps;
    EndKeeps(env, s, started, to, meta, response, []);
  }

  lemma ParkedEnd(env: Env, g: Graph, chain: seq<string>, room: int, s: AgentState, started: AgentState, meta: Meta,
                  text: string, calls: seq<Call>, directed: seq<Effect>)
    requires Begun(s, started, meta) && meta.pending.None?
    requires EffectsFine(env, g, chain, room, directed) && GateLog(directed) == []
    ensures StepOutcome(env, g, chain, room, s,
                        End(env, started, Waiting, meta.(pending := Some(calls)), Some(text),
                            directed + [Parked(calls)]))
  {
    hide Sound, End, StepKeeps, GateLog, EffectsFine;
    EndKeeps(env, s, started, Waiting, meta.(pending := Some(calls)), Some(text), directed + [Parked(calls)]);
    OneGateEvent(env, g, chain, room, Parked(calls));
    EffectsConcat(env, g, chain, room, directed, [Parked(calls)]);
    assert [] + [Parked(calls)] == [Parked(calls)];
  }

  lemma ConfirmProof(env: Env, g: Graph, chain: seq<string>, room: int, s: AgentState, started: AgentState,
                     meta: Meta, input: string, interrupted: bool)
    requires Begun(s, started, meta) && meta.pending.Some?
    ensures StepOutcome(env, g, chain, room, s, Confirm(env, started, meta, input, interrupted))
  {
    hide Sound, End, StepKeeps, GateLog, EffectsFine, Executions;
    var batch, cleared := meta.pending.value, meta.(pending := None);
    var yes := Consumed(input, batch, true);
    OneGateEvent(env, g, chain, room, yes);
    OneGateEvent(env, g, chain, room, Consumed(input, batch, false));
    EndKeeps(env, s, started, Activated, cleared, Some("confirmed"), [yes] + Executions(input, batch));
    EndKeeps(env, s, started, Activated, cleared, Some("The action was cancelled based on your response."),
             [Consumed(input, batch, false)]);
    if env.affirmative(input) {
      ExecutionsAreFine(env, g, chain, room, input, batch);
      EffectsConcat(env, g, chain, room, [yes], Executions(input, batch));
    }
  }

  /** Follow-up rounds are no events of the gate, and nothing the gate vouches for. */
  lemma {:induction false} RoundRunsAreFollowUps(env: Env, g: Graph, chain: seq<string>, room: int, input: string,
                                                 w: F.World, calls: seq<F.ToolCall>)
    ensures EffectsFine(env, g, chain, room, RoundRuns(input, w, calls)) && GateLog(RoundRuns(input, w, calls)) == []
  {
    hide EffectsFine, GateLog;
    NoEffects(env, g, chain, room);
    if |calls| > 0 {
      var last := calls[|calls| - 1];
      RoundRunsAreFollowUps(env, g, chain, room, input, w, calls[..|calls| - 1]);
      if F.IsPrimitive(last) && w.hasExecutor {
        OneFollowUp(env, g, chain, room, input, last.name);
        EffectsConcat(env, g, chain, room, RoundRuns(input, w, calls[..|calls| - 1]), [FollowedUp(input, last.name)]);
      } else {
        assert RoundRuns(input, w, calls) == RoundRuns(input, w, calls[..|calls| - 1]);
      }
    }
  }

  lemma OneFollowUp(env: Env, g: Graph, chain: seq<string>, room: int, input: string, name: string)
    ensures EffectsFine(env, g, chain, room, [FollowedUp(input, name)]) && GateLog([FollowedUp(input, name)]) == []
  {
    assert [FollowedUp(input, name)][..0] == [];
  }

  lemma {:induction false} FollowUpsAreFine(env: Env, g: Graph, chain: seq<string>, room: int, input: string,
                                            w: F.World, executed: seq<string>, n: nat)
    ensures EffectsFine(env, g, chain, room, FollowUpRuns(input, w, executed, n))
            && GateLog(FollowUpRuns(input, w, executed, n)) == []
  {
    hide EffectsFine, GateLog, RoundRuns;
    NoEffects(env, g, chain, room);
    if n > 0 {
      FollowUpsAreFine(env, g, chain, room, input, w, executed, n - 1);
      RoundRunsAreFollowUps(env, g, chain, room, input, w, w.reply(n - 1));
      var before := FollowUpRuns(input, w, executed, n - 1);
      EffectsConcat(env, g, chain, room, before, RoundRuns(input, w, w.reply(n - 1)));
      EffectsConcat(env, g, chain, room, before, []);
    }
  }

  /** Tool steps of workflows are no events of the gate either. */
  lemma {:induction false} HandOverIsFine(env: Env, g: Graph, chain: seq<string>, room: int, input: string,
                                          configs: seq<WE.Record>)
    ensures EffectsFine(env, g, chain, room, HandOver(input, configs)) && GateLog(HandOver(input, configs)) == []
  {
    if |configs| > 0 {
      var all := HandOver(input, configs);
      assert all[..|all| - 1] == HandOver(input, configs[..|configs| - 1]);
      HandOverIsFine(env, g, chain, room, input, configs[..|configs| - 1]);
    }
  }

  lemma {:induction false} DirectivesAreFine(env: Env, g: Graph, chain: seq<string>, room: int, input: string,
                                             ds: seq<IW.Directive>, tools: ToolRun)
    ensures EffectsFine(env, g, chain, room, DirectiveRuns(env, input, ds, tools))
            && GateLog(DirectiveRuns(env, input, ds, tools)) == []
  {
    hide EffectsFine, GateLog, HandOver;
    NoEffects(env, g, chain, room);
    if |ds| > 0 {
      var n := |ds| - 1;
      var configs := IW.Handed(env.engine, env.workflows, tools.followUps.hasExecutor, tools.directed(n),
                               IW.DirectiveTarget(ds[n].name), ds[n].params);
      DirectivesAreFine(env, g, chain, room, input, ds[..n], tools);
      HandOverIsFine(env, g, chain, room, input, configs);
      EffectsConcat(env, g, chain, room, DirectiveRuns(env, input, ds[..n], tools), HandOver(input, configs));
    }
  }

  /** One call of a reply passes the gate on an affirmative input, or if it has no side effect. */
  lemma CallIsFine(env: Env, g: Graph, chain: seq<string>, room: int, input: string, c: Call, n: nat, tools: ToolRun)
    requires env.affirmative(input) || !HasSideEffect(c)
    ensures EffectsFine(env, g, chain, room, CallRuns(env, input, c, n, tools))
            && GateLog(CallRuns(env, input, c, n, tools)) == []
  {
    hide HandOver, HasSideEffect;
    NoEffects(env, g, chain, room);
    RunIsNoGateEvent(input, c);
    HandOverIsFine(env, g, chain, room, input,
                   IW.Handed(env.engine, env.workflows, tools.followUps.hasExecutor, tools.started(n),
                             if IW.EXECUTE <= c.name then c.name[|IW.EXECUTE|..] else "",
                                 map["args" := tools.arguments(n)]));
  }

  lemma {:induction false} OwnRunsAreFine(env: Env, g: Graph, chain: seq<string>, room: int, input: string,
                                          calls: seq<Call>, tools: ToolRun)
    requires env.affirmative(input) || !NeedsConfirmation(calls)
    ensures EffectsFine(env, g, chain, room, OwnRuns(env, input, calls, tools))
            && GateLog(OwnRuns(env, input, calls, tools)) == []
  {
    hide EffectsFine, GateLog, HasSideEffect, CallRuns;
    NoEffects(env, g, chain, room);
    if |calls| > 0 {
      var n := |calls| - 1;
      FewerNeedNoMore(calls, n);
      OwnRunsAreFine(env, g, chain, room, input, calls[..n], tools);
      CallIsFine(env, g, chain, room, input, calls[n], n, tools);
      EffectsConcat(env, g, chain, room, OwnRuns(env, input, calls[..n], tools),
                    CallRuns(env, input, calls[n], n, tools));
    }
  }

  lemma FewerNeedNoMore(calls: seq<Call>, n: nat)
    requires n < |calls|
    ensures NeedsConfirmation(calls[..n]) || HasSideEffect(calls[n]) ==> NeedsConfirmation(calls)
  {
    hide HasSideEffect;
    if NeedsConfirmation(calls[..n]) {
      var i :| 0 <= i < n && HasSideEffect(calls[..n][i]);
      assert HasSideEffect(calls[i]);
    }
  }

  /** What a reply that may run does after its directives and its deferrals passes the gate. */
  lemma ExecutedFine(env: Env, g: Graph, chain: seq<string>, room: int, input: string, calls: seq<Call>,
                     tools: ToolRun, before: seq<Effect>)
    requires env.affirmative(input) || !NeedsConfirmation(calls)
    requires EffectsFine(env, g, chain, room, before) && GateLog(before) == []
    ensures var effects := before + PlanRuns(env, input, calls, tools);
            EffectsFine(env, g, chain, room, effects) && GateLog(effects) == []
  {
    hide GateLog, EffectsFine, OwnRuns, NeedsConfirmation, FollowUpRuns;
    OwnRunsAreFine(env, g, chain, room, input, calls, tools);
    FollowUpsAreFine(env, g, chain, room, input, tools.followUps, FirstExecuted(calls, tools), tools.rounds);
    EffectsConcat(env, g, chain, room, OwnRuns(env, input, calls, tools), FollowUps(input, calls, tools));
    EffectsConcat(env, g, chain, room, before, PlanRuns(env, input, calls, tools));
  }

  /** A reply whose own calls may run ends the step, or raises afterwards. */
  lemma ExecutedEnd(env: Env, g: Graph, chain: seq<string>, room: int, s: AgentState, started: AgentState, meta: Meta,
                    input: string, text: string, calls: seq<Call>, tools: ToolRun, directed: seq<Effect>, d: Stepped)
    requires Begun(s, started, meta) && meta.pending.None?
    requires env.affirmative(input) || !NeedsConfirmation(calls)
    requires EffectsFine(env, g, chain, room, directed) && GateLog(directed) == []
    requires DeferOutcome(env, g, chain, room, started, Ok(d))
    ensures var effects := directed + d.effects + PlanRuns(env, input, calls, tools);
            && StepOutcome(env, g, chain, room, s, End(env, d.state, Completed, meta, Some(text), effects))
            && StepOutcome(env, g, chain, room, s, Err(Failure(Interrupted, effects)))
  {
    hide Sound, End, StepKeeps, GateLog, EffectsFine, NeedsConfirmation, PlanRuns;
    EffectsConcat(env, g, chain, room, directed, d.effects);
    ExecutedFine(env, g, chain, room, input, calls, tools, directed + d.effects);
    EndKeeps(env, s, d.state, Completed, meta, Some(text), directed + d.effects + PlanRuns(env, input, calls, tools));
  }

  lemma FailedStep(env: Env, g: Graph, chain: seq<string>, room: int, s: AgentState, started: AgentState,
                   directed: seq<Effect>, f: Failure)
    requires DeferOutcome(env, g, chain, room, started, Err(f))
    requires EffectsFine(env, g, chain, room, directed) && GateLog(directed) == []
    ensures StepOutcome(env, g, chain, room, s, Err(Failure(f.error, directed + f.effects)))
  {
    hide FailureFine, EffectsFine, GateLog;
    FailureAfter(env, g, chain, room, directed, f.effects);
  }

  /** A step that never reaches a reply raises before anything of a reply runs. */
  lemma EarlyErrors(env: Env, w: World, path: seq<nat>, chain: seq<string>, s: AgentState, message: Option<string>)
    requires RunStep(env, w, path, chain, s, message).Err?
    requires IsTerminal(s.lifecycle) || !(s.lifecycle.Activated? || IsActive(s.lifecycle))
             || !w(path).route.ToRuntime? || s.message.None?
    ensures RunStep(env, w, path, chain, s, message).error.effects == []
  {
    hide Stamp, DeferAll, Confirm;
  }

  /** A step not routed to the runtime ends without an event of the gate, and none of a reply's calls
      runs. What the workflow or the jobs it is routed to run is no effect of the model. */
  lemma RouteEnds(env: Env, w: World, path: seq<nat>, chain: seq<string>, s: AgentState, message: Option<string>)
      returns (to: Lifecycle, response: Option<string>)
    requires RunStep(env, w, path, chain, s, message).Ok? && s.message.Some? && !w(path).route.ToRuntime?
    ensures to.Completed? || to.Failed? || to.Waiting?
    ensures var started := With(s, Running, Now(env, s));
            RunStep(env, w, path, chain, s, message)
            == End(env, started, to, started.meta.(totalRoutes := started.meta.totalRoutes + 1), response, [])
  {
    hide Stamp, DeferAll, Confirm;
    var route := w(path).route;
    response := None;
    match route {
      case ToJobs(dispatched) =>
        to := if dispatched then Waiting else Completed;
        response := if dispatched then None else Some("Agent completed without producing output.");
      case ToWorkflow(end) =>
        to := if end.WorkflowMissing? || end.WorkflowFailed? then Failed else if end.WorkflowWaiting? then Waiting
            else Completed;
        response := if end.WorkflowCompleted? then Some(end.reply) else None;
      case ToCouncil(council) =>
        to := if council.CouncilFailed? then Failed else Completed;
        response := if council.CouncilDecided? then Some(council.reply) else None;
      case ToNothing =>
        to := Completed;
        response := Some("Agent completed without producing output.");
    }
  }

  /** Every step, whatever the reply, the workflow or the delegates do, keeps `StepOutcome`. */
  lemma {:induction false} StepProof(env: Env, w: World, path: seq<nat>, g: Graph, chain: seq<string>, room: int,
                                     s: AgentState, message: Option<string>)
    requires Sound(s) && |chain| >= 1 && chain[|chain| - 1] == s.agentId
    requires room >= DEFAULT_MAX_DEPTH - s.meta.depth && Allows(env, g)
    ensures StepOutcome(env, g, chain, room, s, RunStep(env, w, path, chain, s, message))
    decreases Headroom(s.meta.depth), 3, 0
  {
    hide Sound, EffectsFine, GateLog, GateStep, Executions, NeedsConfirmation, Deferrals, StepKeeps, End, Authorise,
         DeferAll, PlanRuns, DirectiveRuns, Confirm, StepOutcome, DeferOutcome, Stamp;
    var r := RunStep(env, w, path, chain, s, message);
    var entered := !IsTerminal(s.lifecycle) && (s.lifecycle.Activated? || IsActive(s.lifecycle));
    if r.Err? && !(entered && w(path).route.ToRuntime? && s.message.Some?) {
      EarlyErrors(env, w, path, chain, s, message);
      EarlyErrorIsFine(env, g, chain, room, s, r.error.error);
    } else {
      var started := With(s, Running, Now(env, s));
      WithKeepsSound(s, Running, Now(env, s));
      var meta := started.meta.(totalRoutes := started.meta.totalRoutes + 1);
      if started.message.None? {
        QuietEnd(env, g, chain, room, s, started, Failed, started.meta, None);
      } else if !w(path).route.ToRuntime? {
        var to, response := RouteEnds(env, w, path, chain, s, message);
        QuietEnd(env, g, chain, room, s, started, to, meta, response);
      } else {
        var input, reply := Text(started, message), w(path).route.reply;
        if meta.pending.Some? {
          ConfirmProof(env, g, chain, room, s, started, meta, input, w(path).interrupted);
        } else if reply.Unavailable? {
          QuietEnd(env, g, chain, room, s, started, Completed, meta, Some("[Runtime unavailable]"));
        } else {
          var calls := reply.calls;
          var directed := DirectiveRuns(env, input, env.directives(reply.text), reply.tools);
          DirectivesAreFine(env, g, chain, room, input, env.directives(reply.text), reply.tools);
          if NeedsConfirmation(calls) && !env.affirmative(input) {
            ParkedEnd(env, g, chain, room, s, started, meta, reply.text, calls, directed);
          } else {
            DeferAllProof(env, w, path, g, chain, room, started, Deferrals(calls));
            match DeferAll(env, w, path, chain, started, Deferrals(calls)) {
              case Ok(d) => ExecutedEnd(env, g, chain, room, s, started, meta, input, reply.text, calls, reply.tools,
                                        directed, d);
              case Err(f) => FailedStep(env, g, chain, room, s, started, directed, f);
            }
          }
        }
      }
    }
  }

  lemma NoDeferrals(env: Env, g: Graph, chain: seq<string>, room: int, s: AgentState)
    requires Sound(s) && s.lifecycle.Running?
    ensures DeferOutcome(env, g, chain, room, s, Ok(Stepped(s, [])))
  {
  }

  lemma DeferOutcomesCompose(env: Env, g: Graph, chain: seq<string>, room: int, s: AgentState, before: Stepped,
                             r: Result<Stepped, Failure>)
    requires DeferOutcome(env, g, chain, room, s, Ok(before)) && DeferOutcome(env, g, chain, room, before.state, r)
    ensures r.Ok? ==> DeferOutcome(env, g, chain, room, s, Ok(Stepped(r.value.state, before.effects + r.value.effects)))
    ensures r.Err? ==> DeferOutcome(env, g, chain, room, s,
                                    Err(Failure(r.error.error, before.effects + r.error.effects)))
  {
    hide Sound, GateLog, EffectsFine;
    match r {
      case Ok(after) => EffectsConcat(env, g, chain, room, before.effects, after.effects);
      case Err(f) => FailureAfter(env, g, chain, room, before.effects, f.effects);
    }
  }

  lemma {:induction false} DeferAllProof(env: Env, w: World, path: seq<nat>, g: Graph, chain: seq<string>, room: int,
                                         s: AgentState, calls: seq<Call>)
    requires Sound(s) && s.lifecycle.Running? && |chain| >= 1 && chain[|chain| - 1] == s.agentId
    requires room >= DEFAULT_MAX_DEPTH - s.meta.depth && Allows(env, g)
    ensures DeferOutcome(env, g, chain, room, s, DeferAll(env, w, path, chain, s, calls))
    decreases Headroom(s.meta.depth), 2, |calls|
  {
    hide Sound, GateLog, EffectsFine, Delegate, DeferOutcome;
    if |calls| == 0 {
      NoDeferrals(env, g, chain, room, s);
    } else {
      var n := |calls| - 1;
      DeferAllProof(env, w, path, g, chain, room, s, calls[..n]);
      var prior := DeferAll(env, w, path, chain, s, calls[..n]);
      if prior.Ok? {
        var before := prior.value;
        OutcomeState(env, g, chain, room, s, before);
        var allowed := Authorise(env, before.state, calls[n].target, DEFAULT_MAX_DEPTH, false);
        if allowed.Ok? {
          DelegateProof(env, w, path + [n], g, chain, room, before.state, calls[n].target, calls[n].prompt,
                        allowed.value);
          var r := Delegate(env, w, path + [n], chain, before.state, calls[n].target, calls[n].prompt, allowed.value);
          DeferOutcomesCompose(env, g, chain, room, s, before, r);
        } else {
          EarlyErrorIsFine(env, g, chain, room, before.state, allowed.error);
          DeferOutcomesCompose(env, g, chain, room, s, before, Err(Failure(allowed.error, [])));
          assert before.effects + [] == before.effects;
        }
      } else {
        FailedDeferral(env, g, chain, room, s, prior.error);
      }
    }
  }

  lemma FailedDeferral(env: Env, g: Graph, chain: seq<string>, room: int, s: AgentState, f: Failure)
    requires DeferOutcome(env, g, chain, room, s, Err(f))
    ensures DeferOutcome(env, g, chain, room, s, Err(Failure(f.error, f.effects)))
  {
  }

  lemma OutcomeState(env: Env, g: Graph, chain: seq<string>, room: int, s: AgentState, d: Stepped)
    requires DeferOutcome(env, g, chain, room, s, Ok(d))
    ensures Sound(d.state) && d.state.lifecycle.Running? && d.state.agentId == s.agentId
  {
  }

  /** The state a delegate starts its only step in. */
  function Delegated(env: Env, w: World, path: seq<nat>, s: AgentState, target: string, prompt: string,
                     depth: nat): Result<AgentState, Error> {
    match CreateAgent(env, target)
    case Err(e) => Err(e)
    case Ok(created) =>
      var ask := env.delegatePrompt(s.agentId, if s.message.Some? then s.message.value else prompt, prompt);
      match ActivateAgent(env, created, ask, w(path).activates)
      case Err(e) => Err(e)
      case Ok(activated) =>
        Ok(With(activated, activated.lifecycle, Now(env, activated)).(meta := activated.meta.(depth := depth)))
  }

  lemma DelegatedIsFresh(env: Env, w: World, path: seq<nat>, s: AgentState, target: string, prompt: string, depth: nat)
    requires Delegated(env, w, path, s, target, prompt, depth).Ok?
    ensures var ready := Delegated(env, w, path, s, target, prompt, depth).value;
            Sound(ready) && ready.agentId == target && ready.meta == Meta(0, None, depth, None, None)
            && ready.lifecycle.Activated? && ready.message.Some?
  {
    hide Sound, Chained, Stamped;
    var created := CreateAgent(env, target).value;
    NewIsSound(target, env.clock(0));
    var now := Now(env, created);
    WithKeepsSound(created, Activated, now);
    var activated := ActivateAgent(env, created,
                                   env.delegatePrompt(s.agentId, if s.message.Some? then s.message.value else prompt,
                                                      prompt), w(path).activates).value;
    SoundIgnoresTheRest(With(created, Activated, now), activated);
    WithKeepsSound(activated, Activated, Now(env, activated));
    SoundIgnoresTheRest(With(activated, Activated, Now(env, activated)),
                        Delegated(env, w, path, s, target, prompt, depth).value);
  }

  /** A step of a fresh delegate either ends it, or leaves a state no resume accepts. */
  lemma FreshStep(env: Env, g: Graph, chain: seq<string>, room: int, ready: AgentState, first: Stepped)
    requires StepOutcome(env, g, chain, room, ready, Ok(first)) && ready.meta.pending.None?
    ensures EffectsFine(env, g, chain, room, first.effects) && !first.state.lifecycle.Suspended?
    ensures IsTerminal(first.state.lifecycle) || first.state.lifecycle.Waiting?
    ensures IsTerminal(first.state.lifecycle) ==> GateLog(first.effects) == []
    ensures FailureFine(env, g, chain, room, first.effects)
  {
    hide Sound, GateLog, EffectsFine;
  }

  lemma HopIsFine(env: Env, g: Graph, chain: seq<string>, room: int, target: string)
    requires |chain| >= 1 && Edge(g, chain[|chain| - 1], target) && room >= 2
    ensures EffectsFine(env, g, chain, room, [Hop(chain + [target])]) && GateLog([Hop(chain + [target])]) == []
  {
    var hop := chain + [target];
    assert hop[..|chain|] == chain;
    assert hop[|chain| - 1..] == [chain[|chain| - 1], target];
    assert [Hop(hop)][..0] == [];
  }

  lemma {:induction false} DelegateProof(env: Env, w: World, path: seq<nat>, g: Graph, chain: seq<string>, room: int,
                                         s: AgentState, target: string, prompt: string, depth: nat)
    requires Sound(s) && IsActive(s.lifecycle) && |chain| >= 1 && chain[|chain| - 1] == s.agentId
    requires Edge(g, s.agentId, target) && depth == s.meta.depth + 1
    requires room >= DEFAULT_MAX_DEPTH - s.meta.depth && room >= 2 && Allows(env, g)
    ensures DeferOutcome(env, g, chain, room, s, Delegate(env, w, path, chain, s, target, prompt, depth))
    decreases Headroom(depth), 5, 0
  {
    hide Sound, GateLog, EffectsFine, DeferOutcome, StepOutcome, RunStep, Settle;
    var delegated := Delegated(env, w, path, s, target, prompt, depth);
    if delegated.Err? {
      EarlyErrorIsFine(env, g, chain, room, s, delegated.error);
    } else {
      var ready := delegated.value;
      DelegatedIsFresh(env, w, path, s, target, prompt, depth);
      var inner := chain + [target];
      StepProof(env, w, path, g, inner, room - 1, ready, None);
      HopIsFine(env, g, chain, room, target);
      match RunStep(env, w, path, inner, ready, None) {
        case Ok(first) =>
          FreshStep(env, g, inner, room - 1, ready, first);
          SettleNeedsTerminal(env, w, path, inner, first);
          EffectsLift(env, g, chain, target, room, first.effects);
          if IsTerminal(first.state.lifecycle) {
            EffectsConcat(env, g, chain, room, [Hop(inner)], first.effects);
            DelegatorReturns(env, g, chain, room, s, target,
                             Delegate(env, w, path, chain, s, target, prompt, depth).value);
          } else {
            FailedHop(env, g, chain, room, s, target, Failure(NotSuspended, first.effects));
          }
        case Err(f) =>
          FreshFailure(env, g, inner, room - 1, ready, f);
          EffectsLift(env, g, chain, target, room, f.effects);
          FailedHop(env, g, chain, room, s, target, f);
      }
    }
  }

  lemma FreshFailure(env: Env, g: Graph, chain: seq<string>, room: int, ready: AgentState, f: Failure)
    requires StepOutcome(env, g, chain, room, ready, Err(f))
    ensures FailureFine(env, g, chain, room, f.effects)
  {
  }

  lemma FailedHop(env: Env, g: Graph, chain: seq<string>, room: int, s: AgentState, target: string, f: Failure)
    requires EffectsFine(env, g, chain, room, [Hop(chain + [target])]) && GateLog([Hop(chain + [target])]) == []
    requires FailureFine(env, g, chain, room, f.effects)
    ensures DeferOutcome(env, g, chain, room, s, Err(Failure(f.error, [Hop(chain + [target])] + f.effects)))
  {
    hide FailureFine, EffectsFine, GateLog;
    FailureAfter(env, g, chain, room, [Hop(chain + [target])], f.effects);
  }

  /** The delegator's own part of a deferral: SUSPENDED, then RUNNING with the result noted. */
  lemma DelegatorReturns(env: Env, g: Graph, chain: seq<string>, room: int, s: AgentState, target: string, r: Stepped)
    requires Sound(s) && IsActive(s.lifecycle)
    requires EffectsFine(env, g, chain, room, r.effects) && GateLog(r.effects) == []
    requires exists result: DeferralResult ::
               var suspended := With(s, Suspended, Now(env, s));
               var resumed := With(suspended, Running, Now(env, suspended));
               r.state == With(resumed, Running, Now(env, resumed)).(meta := resumed.meta.(deferral := Some(result)))
    ensures DeferOutcome(env, g, chain, room, s, Ok(r))
  {
    hide Sound, GateLog, EffectsFine, Stamp;
    var suspended := With(s, Suspended, Now(env, s));
    var resumed := With(suspended, Running, Now(env, suspended));
    WithKeepsSound(s, Suspended, Now(env, s));
    WithKeepsSound(suspended, Running, Now(env, suspended));
    WithKeepsSound(resumed, Running, Now(env, resumed));
    SoundIgnoresTheRest(With(resumed, Running, Now(env, resumed)), r.state);
  }
}
