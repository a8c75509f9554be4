/** The protocol over whole runs: what any sequence of supervisor calls on one agent keeps, how far
    deferral reaches, and what the confirmation gate lets through. */
module SupervisorProtocol {
  import opened Wrappers
  import opened Digraph
  import opened AgentStates
  import opened Supervisor
  import opened ExecutedCalls
  import opened SupervisorRuns
  import F = FollowUpLoop
  import WE = WorkflowEngine
  import WI = WorkflowInvoker
  import IW = InlineWorkflows

  // ---------------------------------------------------------------- deferral

  /** Deferrals started by replies make a chain of at most `DEFAULT_MAX_DEPTH - 1` hops from an agent
      at depth 0, along allowed deferrals only, and visiting no agent twice in an accepted graph. */
  lemma LlmChainIsShort(env: Env, w: World, s: AgentState, message: Option<string>, i: nat)
    requires Sound(s)
    requires var done := Done(RunStep(env, w, [], [s.agentId], s, message)); i < |done| && done[i].Hop?
    ensures var hop := Done(RunStep(env, w, [], [s.agentId], s, message))[i].chain;
            && |hop| >= 2 && hop[0] == s.agentId
            && s.meta.depth + |hop| - 1 <= DEFAULT_MAX_DEPTH - 1
            && Walk(env.defers, hop)
            && (Acyclic(env.defers) ==> Distinct(hop))
  {
    hide Sound, RunStep, GateLog, GateStep, StepKeeps;
    var chain, room := [s.agentId], DEFAULT_MAX_DEPTH - s.meta.depth;
    StepProof(env, w, [], env.defers, chain, room, s, message);
    var done := Done(RunStep(env, w, [], chain, s, message));
    assert EffectsFine(env, env.defers, chain, room, done);
    assert EffectFine(env, env.defers, chain, room, done[i]);
    var hop := done[i].chain;
    assert hop[..1] == chain && hop[0..] == hop;
    if Acyclic(env.defers) { AcyclicWalksAreDistinct(env.defers, hop); }
  }

  /** At the last depth no deferral of a reply succeeds: a batch with one raises, and one without
      any is untouched. */
  lemma {:induction false} DeepDeferralsRaise(env: Env, w: World, path: seq<nat>, chain: seq<string>, s: AgentState,
                                              calls: seq<Call>)
    requires s.meta.depth + 1 >= DEFAULT_MAX_DEPTH
    ensures DeferAll(env, w, path, chain, s, calls).Ok? <==> calls == []
  {
    if |calls| > 0 {
      DeepDeferralsRaise(env, w, path, chain, s, calls[..|calls| - 1]);
    }
  }

  /** A deferral returns exactly when its delegate can be created and activated and its first step
      ends it: the loop that would resume an unfinished delegate raises instead. The delegator gets
      the delegate's response and whether it completed. */
  lemma DeferralReturnsIffDelegateEnds(env: Env, w: World, path: seq<nat>, chain: seq<string>, s: AgentState,
                                       target: string, prompt: string, depth: nat)
    requires Sound(s) && |chain| >= 1 && IsActive(s.lifecycle)
    ensures var r := Delegate(env, w, path, chain, s, target, prompt, depth);
            var ready := Delegated(env, w, path, s, target, prompt, depth);
            var first := if ready.Ok? then RunStep(env, w, path, chain + [target], ready.value, None)
                else Err(Failure(UnknownAgent, []));
            && (r.Ok? <==> first.Ok? && IsTerminal(first.value.state.lifecycle))
            && (r.Ok? ==>
                  && r.value.effects == [Hop(chain + [target])] + first.value.effects
                  && r.value.state.lifecycle.Running?
                  && r.value.state.meta == s.meta.(deferral := Some(DeferralResult(
                       target, first.value.state.lifecycle.Completed?,
                       if first.value.state.response.Some? then first.value.state.response.value
                           else "No response from delegate"))))
  {
    hide Sound, RunStep, GateLog, EffectsFine, Settle, Stamp;
    var delegated := Delegated(env, w, path, s, target, prompt, depth);
    if delegated.Ok? {
      DelegatedIsFresh(env, w, path, s, target, prompt, depth);
      StepProof(env, w, path, env.defers, chain + [target], DEFAULT_MAX_DEPTH, delegated.value, None);
      var first := RunStep(env, w, path, chain + [target], delegated.value, None);
      if first.Ok? {
        FreshStep(env, env.defers, chain + [target], DEFAULT_MAX_DEPTH, delegated.value, first.value);
        SettleNeedsTerminal(env, w, path, chain + [target], first.value);
      }
    }
  }

  // ---------------------------------------------------------------- the deferral bound is reached

  function Deferral(target: string): Call {
    Call("defer_to", target, "p")
  }

  /** An outside world that answers nothing of use. */
  function Mute(): WI.World {
    k => WI.Answer(WI.ReplyError(""), None, WI.Rejected(""), WE.Null, WI.ReplyError(""), "")
  }

  function NoTools(): ToolRun {
    ToolRun(j => F.NoResult, F.World(k => [], (k, j) => F.NoResult, false, false), 0,
            j => WE.Null, j => Mute(), j => Mute())
  }

  /** An agent that answers, two hops down, a message its delegators hand on. */
  function HandOn(): World {
    path => Script(ToRuntime(Replied("", if path == [] then [Deferral("b")] else if path == [0] then [Deferral("c")]
                                     else [], NoTools())), true, false)
  }

  /** Without an executor no directive gets a tool step run. */
  lemma {:induction false} NoToolsNoDirectives(env: Env, input: string, ds: seq<IW.Directive>)
    ensures DirectiveRuns(env, input, ds, NoTools()) == []
  {
    if |ds| > 0 {
      var n := |ds| - 1;
      NoToolsNoDirectives(env, input, ds[..n]);
      var id := IW.DirectiveTarget(ds[n].name);
      var start := WE.StartWorkflow(env.workflows, Mute()(0).freshId, WE.Text(id), ds[n].params);
      if start.Ok? {
        IW.WithoutExecutorNothingIsHanded(env.engine, env.workflows, Mute(), start.value, 1, WI.MAX_ITERATIONS);
      }
    }
  }

  lemma OneDeferral(target: string)
    requires target != ""
    ensures Deferrals([Deferral(target)]) == [Deferral(target)] && !NeedsConfirmation([Deferral(target)])
    ensures !IsPrimitive(Deferral(target)) && !(IW.EXECUTE <= Deferral(target).name)
  {
    assert [Deferral(target)][..0] == [];
    assert "defer_to"[0] == 'd' && "primitive."[0] == 'p' && IW.EXECUTE[0] == 'w';
  }

  lemma OneDeferralRunsNothing(env: Env, input: string, target: string)
    requires target != ""
    ensures PlanRuns(env, input, [Deferral(target)], NoTools()) == []
  {
    hide IW.Handed, Deferrals, NeedsConfirmation, IsPrimitive, IW.EXECUTE, Mute;
    OneDeferral(target);
    var calls := [Deferral(target)];
    assert calls[..0] == [];
    assert OwnRuns(env, input, calls[..0], NoTools()) == [];
    assert CallRuns(env, input, calls[0], 0, NoTools()) == [];
  }

  /** A step whose reply is one permitted deferral does what that deferral does, and completes. */
  lemma OneDeferralStep(env: Env, w: World, path: seq<nat>, chain: seq<string>, s: AgentState, target: string)
    requires s.lifecycle.Activated? && s.message.Some? && s.meta.pending.None? && target != ""
    requires w(path).route == ToRuntime(Replied("", [Deferral(target)], NoTools())) && !w(path).interrupted
    requires Resolve(env, s.agentId, target).Ok? && s.meta.depth + 1 < DEFAULT_MAX_DEPTH
    ensures var d := Delegate(env, w, path + [0], chain, With(s, Running, Now(env, s)), target, "p", s.meta.depth + 1);
            var r := RunStep(env, w, path, chain, s, None);
            && (r.Ok? <==> d.Ok?)
            && (r.Ok? ==> r.value.state.lifecycle.Completed? && r.value.effects == d.value.effects)
  {
    hide Stamp, Delegate, NeedsConfirmation, Deferrals, PlanRuns, DirectiveRuns, DeferAll, Resolve, NoTools;
    var calls, started := [Deferral(target)], With(s, Running, Now(env, s));
    OneDeferral(target);
    OneDeferralRunsNothing(env, Text(started, None), target);
    NoToolsNoDirectives(env, Text(started, None), env.directives(""));
    FirstCall(env, w, path, chain, started, target);
  }

  lemma FirstCall(env: Env, w: World, path: seq<nat>, chain: seq<string>, s: AgentState, target: string)
    requires s.lifecycle.Running? && Resolve(env, s.agentId, target).Ok? && s.meta.depth + 1 < DEFAULT_MAX_DEPTH
    ensures var d := Delegate(env, w, path + [0], chain, s, target, "p", s.meta.depth + 1);
            var r := DeferAll(env, w, path, chain, s, [Deferral(target)]);
            && (r.Ok? <==> d.Ok?) && (r.Ok? ==> r.value == d.value)
  {
    hide Delegate, Resolve;
    var calls := [Deferral(target)];
    assert calls[..0] == [];
    assert DeferAll(env, w, path, chain, s, calls[..0]) == Ok(Stepped(s, []));
    var d := Delegate(env, w, path + [0], chain, s, target, "p", s.meta.depth + 1);
    if d.Ok? { assert [] + d.value.effects == d.value.effects; }
  }

  lemma AnswersAtOnce(env: Env, w: World, path: seq<nat>, chain: seq<string>, s: AgentState, tools: ToolRun)
    requires s.lifecycle.Activated? && s.message.Some? && s.meta.pending.None?
    requires w(path).route == ToRuntime(Replied("", [], tools)) && !w(path).interrupted
    ensures RunStep(env, w, path, chain, s, None).Ok?
    ensures RunStep(env, w, path, chain, s, None).value.state.lifecycle.Completed?
  {
    hide Stamp;
  }

  /** One hop further: the delegate `target` completes, so the agent at `path` does, with the hop among its effects. */
  lemma HopsOn(env: Env, path: seq<nat>, chain: seq<string>, s: AgentState, target: string)
    requires Sound(s) && |chain| >= 1
    requires s.lifecycle.Activated? && s.message.Some? && s.meta.pending.None? && target != ""
    requires HandOn()(path).route == ToRuntime(Replied("", [Deferral(target)], NoTools()))
    requires Resolve(env, s.agentId, target).Ok? && s.meta.depth + 1 < DEFAULT_MAX_DEPTH
    requires Delegated(env, HandOn(), path + [0], With(s, Running, Now(env, s)), target, "p", s.meta.depth + 1).Ok?
    requires var ready := Delegated(env, HandOn(), path + [0], With(s, Running, Now(env, s)), target, "p",
                                    s.meta.depth + 1).value;
             var first := RunStep(env, HandOn(), path + [0], chain + [target], ready, None);
             first.Ok? && first.value.state.lifecycle.Completed?
    ensures var ready := Delegated(env, HandOn(), path + [0], With(s, Running, Now(env, s)), target, "p",
                                   s.meta.depth + 1).value;
            var r := RunStep(env, HandOn(), path, chain, s, None);
            && r.Ok? && r.value.state.lifecycle.Completed?
            && r.value.effects == [Hop(chain + [target])]
                + RunStep(env, HandOn(), path + [0], chain + [target], ready, None).value.effects
  {
    hide Sound, Stamp, RunStep, Delegate, Delegated, Resolve, NoTools;
    WithKeepsSound(s, Running, Now(env, s));
    OneDeferralStep(env, HandOn(), path, chain, s, target);
    DeferralReturnsIffDelegateEnds(env, HandOn(), path + [0], chain, With(s, Running, Now(env, s)), target, "p",
                                   s.meta.depth + 1);
  }

  /** The bound on a chain is attained: over `a -> b -> c` two hops happen and every agent completes. */
  lemma LongestChainHappens(env: Env, s: AgentState)
    requires env.defers == map["a" := ["b"], "b" := ["c"], "c" := []]
    requires Sound(s) && s.lifecycle.Activated? && s.message.Some? && s.meta.pending.None? && s.meta.depth == 0
             && s.agentId == "a"
    ensures var r := RunStep(env, HandOn(), [], ["a"], s, None);
            && r.Ok? && r.value.state.lifecycle.Completed?
            && |["a", "b", "c"]| - 1 == DEFAULT_MAX_DEPTH - 1
            && Hop(["a", "b", "c"]) in r.value.effects
  {
    hide Sound, RunStep, Stamp;
    Namings();
    var w, asks := HandOn(), With(s, Running, Now(env, s));
    assert [] + [0] == [0] && [0] + [0] == [0, 0] && ["a"] + ["b"] == ["a", "b"]
           && ["a", "b"] + ["c"] == ["a", "b", "c"];
    var b := Delegated(env, w, [0], asks, "b", "p", 1).value;
    DelegatedIsFresh(env, w, [0], asks, "b", "p", 1);
    var asksAgain := With(b, Running, Now(env, b));
    DelegatedIsFresh(env, w, [0, 0], asksAgain, "c", "p", 2);
    AnswersAtOnce(env, w, [0, 0], ["a", "b", "c"], Delegated(env, w, [0, 0], asksAgain, "c", "p", 2).value, NoTools());
    HopsOn(env, [0], ["a", "b"], b, "c");
    HopsOn(env, [], ["a"], s, "b");
    var inner := RunStep(env, w, [0], ["a", "b"], b, None).value.effects;
    assert inner[0] == Hop(["a", "b", "c"]);
    assert ([Hop(["a", "b"])] + inner)[1] == inner[0];
  }

  lemma Namings()
    ensures "a" != "b" && "b" != "c" && "a" != "c" && "a" != "" && "b" != "" && "c" != ""
  {
    assert "a"[0] == 'a' && "b"[0] == 'b' && "c"[0] == 'c';
  }

  // ---------------------------------------------------------------- calls

  datatype Op =
    | Activate(message: string, activates: bool)
    | Step(world: World, input: Option<string>)
    | Suspend(reason: string)
    | Resume
    | Cancel(reason: string)
    | Complete(reply: string)
    | ToolResult(result: string)
    | Decompose(join: Option<Join>)
    | Defer(world: World, target: string, prompt: string, maxDepth: nat, skip: bool)

  function Quiet(r: Result<AgentState, Error>): Result<Stepped, Failure> {
    match r
    case Ok(s) => Ok(Stepped(s, []))
    case Err(e) => Err(Failure(e, []))
  }

  function Apply(env: Env, s: AgentState, op: Op): Result<Stepped, Failure> {
    match op
    case Activate(message, activates) => Quiet(ActivateAgent(env, s, message, activates))
    case Step(world, input) => RunStep(env, world, [], [s.agentId], s, input)
    case Suspend(reason) => Quiet(SuspendAgent(env, s, reason))
    case Resume => Quiet(ResumeAgent(env, s))
    case Cancel(reason) => Quiet(CancelAgent(env, s, reason))
    case Complete(reply) => Quiet(CompleteAgent(env, s, reply))
    case ToolResult(result) => Ok(Stepped(SetToolResult(env, s, result), []))
    case Decompose(join) => Quiet(DecomposeTask(env, s, join))
    case Defer(world, target, prompt, maxDepth, skip) => DeferToAgent(env, world, s, target, prompt, maxDepth, skip)
  }

  /** Every side effect among the primitive calls of replies was run on an affirmative input. What
      follow-up rounds and workflows run is not covered: see `GateBypass`. */
  ghost predicate GatePassed(env: Env, effects: seq<Effect>) {
    forall i :: 0 <= i < |effects| && effects[i].Ran? && HasSideEffect(effects[i].call) ==>
        env.affirmative(effects[i].input)
  }

  /** What a state may become in one call or many: the same agent, a sound log that only grows, and
      nothing but a tool result added once it is terminal. */
  ghost predicate Follows(s: AgentState, r: AgentState) {
    && Sound(r) && r.agentId == s.agentId && s.history <= r.history && s.version <= r.version
    && (IsTerminal(s.lifecycle) ==>
          s == r.(version := s.version, timestamps := s.timestamps, meta := r.meta.(toolResult := s.meta.toolResult)))
  }

  /** What one call promises about the state it returns and about what it did. */
  ghost predicate CallOutcome(env: Env, s: AgentState, r: Result<Stepped, Failure>) {
    && GatePassed(env, Done(r))
    && match r
       case Ok(v) =>
         && Follows(s, v.state) && (v.state == s || s.version < v.state.version)
         && GateStep(env, s.meta.pending, GateLog(v.effects), v.state.meta.pending)
       case Err(f) => forall i :: 0 <= i < |GateLog(f.effects)| ==> GateLog(f.effects)[i].Parked?
  }

  lemma FineEffectsPass(env: Env, g: Graph, chain: seq<string>, room: int, effects: seq<Effect>)
    requires EffectsFine(env, g, chain, room, effects)
    ensures GatePassed(env, effects)
  {
    forall i | 0 <= i < |effects| && effects[i].Ran? && HasSideEffect(effects[i].call)
        ensures env.affirmative(effects[i].input) {
      assert EffectFine(env, g, chain, room, effects[i]);
    }
  }

  /** A call whose state is one `With` along a permitted transition, and that does nothing else. */
  lemma QuietKeeps(env: Env, s: AgentState, r: AgentState, to: Lifecycle, now: Time)
    requires Sound(s) && (to == s.lifecycle || Permitted(s.lifecycle, to))
    requires IsTerminal(s.lifecycle) ==>
             r == With(s, to, now).(meta := r.meta) && r.meta == s.meta.(toolResult := r.meta.toolResult)
    requires var m := With(s, to, now);
             r.agentId == m.agentId && r.lifecycle == to && r.history == m.history && r.timestamps == m.timestamps
             && r.version == m.version && r.meta.pending == s.meta.pending
    ensures CallOutcome(env, s, Ok(Stepped(r, [])))
  {
    hide Sound;
    WithKeepsSound(s, to, now);
    SoundIgnoresTheRest(With(s, to, now), r);
  }

  lemma DecomposeKeeps(env: Env, s: AgentState, join: Option<Join>)
    requires Sound(s)
    ensures CallOutcome(env, s, Quiet(DecomposeTask(env, s, join)))
  {
    hide Sound, Stamp;
    if IsActive(s.lifecycle) && join.Some? {
      var waiting := With(s, AwaitingChildren, Now(env, s));
      var noted := With(waiting, AwaitingChildren, Now(env, waiting));
      WithKeepsSound(s, AwaitingChildren, Now(env, s));
      WithKeepsSound(waiting, AwaitingChildren, Now(env, waiting));
      WithKeepsSound(noted, if join.value.JoinCompleted? then Running else Failed, Now(env, noted));
    }
  }

  lemma StepKeepsProtocol(env: Env, w: World, s: AgentState, input: Option<string>)
    requires Sound(s)
    ensures CallOutcome(env, s, RunStep(env, w, [], [s.agentId], s, input))
  {
    hide Sound, RunStep, GateLog, GateStep, EffectsFine, GatePassed;
    var r := RunStep(env, w, [], [s.agentId], s, input);
    StepProof(env, w, [], env.defers, [s.agentId], DEFAULT_MAX_DEPTH, s, input);
    FineEffectsPass(env, env.defers, [s.agentId], DEFAULT_MAX_DEPTH, Done(r));
    if IsTerminal(s.lifecycle) { TerminalTakesNoStep(env, w, s, input); }
  }

  lemma TerminalTakesNoStep(env: Env, w: World, s: AgentState, input: Option<string>)
    requires IsTerminal(s.lifecycle)
    ensures RunStep(env, w, [], [s.agentId], s, input) == Err(Failure(InTerminalState, []))
  {
  }

  /** The allowed deferrals, and the one a caller makes without authorisation. */
  function WithHop(defers: Graph, caller: string, target: string): Graph {
    defers[caller := (if caller in defers then defers[caller] else []) + [target]]
  }

  lemma DeferKeepsProtocol(env: Env, w: World, s: AgentState, target: string, prompt: string, maxDepth: nat, skip: bool)
    requires Sound(s)
    ensures CallOutcome(env, s, DeferToAgent(env, w, s, target, prompt, maxDepth, skip))
  {
    hide Sound, Delegate, GateLog, EffectsFine, GatePassed, CallOutcome;
    var r := DeferToAgent(env, w, s, target, prompt, maxDepth, skip);
    match Authorise(env, s, target, maxDepth, skip) {
      case Err(e) => RefusalKeeps(env, s, e);
      case Ok(depth) =>
        var g := WithHop(env.defers, s.agentId, target);
        assert Allows(env, g) && Edge(g, s.agentId, target);
        DelegateProof(env, w, [], g, [s.agentId], DEFAULT_MAX_DEPTH, s, target, prompt, depth);
        FineEffectsPass(env, g, [s.agentId], DEFAULT_MAX_DEPTH, Done(r));
        if r.Ok? { DelegateAdvances(env, w, s, target, prompt, depth); }
        DeferralIsACall(env, g, [s.agentId], s, r);
    }
  }

  lemma DeferralIsACall(env: Env, g: Graph, chain: seq<string>, s: AgentState, r: Result<Stepped, Failure>)
    requires DeferOutcome(env, g, chain, DEFAULT_MAX_DEPTH, s, r) && GatePassed(env, Done(r))
             && !IsTerminal(s.lifecycle)
    requires r.Ok? ==> s.version < r.value.state.version
    ensures CallOutcome(env, s, r)
  {
    hide Sound, GateLog, EffectsFine, GatePassed;
  }

  lemma DelegateAdvances(env: Env, w: World, s: AgentState, target: string, prompt: string, depth: nat)
    requires Delegate(env, w, [], [s.agentId], s, target, prompt, depth).Ok?
    ensures s.version < Delegate(env, w, [], [s.agentId], s, target, prompt, depth).value.state.version
    ensures !IsTerminal(s.lifecycle)
  {
    hide Settle, RunStep, Stamp;
  }

  /** Every call, whatever it is and however it ends, keeps its outcome's promises. */
  lemma ApplyKeeps(env: Env, s: AgentState, op: Op)
    requires Sound(s)
    ensures CallOutcome(env, s, Apply(env, s, op))
  {
    hide Sound, CallOutcome, RunStep, DeferToAgent, DecomposeTask, Stamp;
    var r := Apply(env, s, op);
    match op {
      case Step(world, input) => StepKeepsProtocol(env, world, s, input);
      case Decompose(join) => DecomposeKeeps(env, s, join);
      case Defer(world, target, prompt, maxDepth, skip) => DeferKeepsProtocol(env, world, s, target, prompt, maxDepth,
            skip);
      case ToolResult(result) => QuietKeeps(env, s, r.value.state, s.lifecycle, Now(env, s));
      case _ =>
        if r.Ok? {
          QuietKeeps(env, s, r.value.state, r.value.state.lifecycle, Now(env, s));
        } else {
          RefusalKeeps(env, s, r.error.error);
        }
    }
  }

  lemma RefusalKeeps(env: Env, s: AgentState, e: Error)
    ensures CallOutcome(env, s, Err(Failure(e, [])))
  {
  }

  // ---------------------------------------------------------------- the transitions that happen

  /** The call logs the transition from `a` to `b` as entry `i`. */
  predicate Logs(env: Env, s: AgentState, op: Op, i: nat, a: Lifecycle, b: Lifecycle) {
    var r := Apply(env, s, op);
    && r.Ok? && |s.history| <= i < |r.value.state.history|
    && r.value.state.history[i].source == Some(a) && r.value.state.history[i].target == b
  }

  /** The permitted transitions are exactly those that some call logs, from some sound state. */
  lemma PermittedIffLogged(env: Env, a: Lifecycle, b: Lifecycle)
    ensures Permitted(a, b) <==> exists s, op, i :: Sound(s) && Logs(env, s, op, i, a, b)
  {
    hide Apply;
    if Permitted(a, b) {
      var s := SoundStateIn(if a.AwaitingChildren? then Running else a);
      if a.AwaitingChildren? && !b.Running? { s := SoundStateIn(AwaitingChildren); }
      var op, i := SomeCallLogs(env, s, a, b);
      assert Logs(env, s, op, i, a, b);
    }
    forall s, op, i | Sound(s) && Logs(env, s, op, i, a, b) ensures Permitted(a, b) {
      ApplyKeeps(env, s, op);
      LoggedIsPermitted(s, Apply(env, s, op).value.state, i);
    }
  }

  lemma LoggedIsPermitted(s: AgentState, r: AgentState, i: nat)
    requires Sound(s) && Sound(r) && |s.history| <= i < |r.history| && r.history[i].source.Some?
    ensures Permitted(r.history[i].source.value, r.history[i].target)
  {
    hide Permitted;
    assert r.history[i].source == Some(r.history[i - 1].target);
    assert Permitted(r.history[i - 1].target, r.history[i].target);
  }

  lemma SoundStateIn(l: Lifecycle) returns (s: AgentState)
    requires !IsTerminal(l)
    ensures Sound(s) && s.lifecycle == l && s.message.Some? && s.meta.pending.None?
  {
    hide Stamp, Sound;
    NewIsSound("", 0);
    s := NewState("", 0).(message := Some(""));
    SameLog(NewState("", 0), s);
    if !l.Created? {
      WithKeepsSound(s, Activated, 0);
      s := With(s, Activated, 0);
      if !l.Activated? {
        WithKeepsSound(s, Running, 0);
        s := With(s, Running, 0);
        if !l.Running? {
          WithKeepsSound(s, l, 0);
          s := With(s, l, 0);
        }
      }
    }
  }

  lemma SameLog(s: AgentState, t: AgentState)
    requires Sound(s) && t == s.(message := t.message)
    ensures Sound(t)
  {
  }

  lemma SomeCallLogs(env: Env, s: AgentState, a: Lifecycle, b: Lifecycle) returns (op: Op, i: nat)
    requires Permitted(a, b) && s.message.Some?
    requires s.lifecycle == if a.AwaitingChildren? && b.Running? then Running else a
    ensures Logs(env, s, op, i, a, b)
  {
    hide Stamp, DeferAll, DirectiveRuns, PlanRuns, NeedsConfirmation, Deferrals, Confirm, DeferToAgent;
    i := |s.history|;
    match b {
      case Activated => op := Activate("", true);
      case Completed => op := Complete("");
      case Failed => op := Cancel("stopped");
      case Suspended => op := Suspend("paused");
      case AwaitingChildren => op := Decompose(Some(JoinCompleted));
      case Waiting => op := Step(path => Script(ToJobs(true), true, false), None);
      case Running =>
        if a.Suspended? {
          op := Resume;
        } else if a.AwaitingChildren? {
          op, i := Decompose(Some(JoinCompleted)), |s.history| + 1;
        } else {
          op := Step(path => Script(ToNothing, true, false), None);
        }
    }
  }

  // ---------------------------------------------------------------- runs

  /** The state after some calls, everything they did, and the agent's own gate events. A call that
      raises leaves the agent as it was. */
  datatype History = History(state: AgentState, effects: seq<Effect>, gate: seq<Effect>)

  function Run(env: Env, s: AgentState, ops: seq<Op>): History {
    if |ops| == 0 then History(s, [], [])
    else
      var h := Run(env, s, ops[..|ops| - 1]);
      match Apply(env, h.state, ops[|ops| - 1])
      case Ok(v) => History(v.state, h.effects + v.effects, h.gate + GateLog(v.effects))
      case Err(f) => History(h.state, h.effects + f.effects, h.gate)
  }

  lemma FollowsTransitive(a: AgentState, b: AgentState, c: AgentState)
    requires Follows(a, b) && Follows(b, c)
    ensures Follows(a, c)
  {
    hide Sound;
  }

  lemma {:induction false} RunFollows(env: Env, s: AgentState, ops: seq<Op>)
    requires Sound(s)
    ensures Follows(s, Run(env, s, ops).state) && GatePassed(env, Run(env, s, ops).effects)
  {
    hide Sound, Apply, GateLog, GateStep;
    if |ops| > 0 {
      var h := Run(env, s, ops[..|ops| - 1]);
      RunFollows(env, s, ops[..|ops| - 1]);
      ApplyKeeps(env, h.state, ops[|ops| - 1]);
      if Apply(env, h.state, ops[|ops| - 1]).Ok? {
        FollowsTransitive(s, h.state, Run(env, s, ops).state);
      }
    }
  }

  /** Whatever sequence of calls an agent goes through from its creation, its log is a chain of
      permitted transitions ending in the current state, with the timestamps that state needs. */
  lemma ReachableStatesAreSound(env: Env, agentId: string, now: Time, ops: seq<Op>)
    ensures Sound(Run(env, NewState(agentId, now), ops).state)
    ensures GatePassed(env, Run(env, NewState(agentId, now), ops).effects)
  {
    RunFollows(env, NewState(agentId, now), ops);
  }

  /** Once terminal, an agent's state changes only by tool results, which stamp it again. */
  lemma TerminalIsForever(env: Env, s: AgentState, ops: seq<Op>)
    requires Sound(s) && IsTerminal(s.lifecycle)
    ensures var r := Run(env, s, ops).state;
            && r.lifecycle == s.lifecycle && r.history == s.history && r.response == s.response
            && r.meta.pending == s.meta.pending && s.version <= r.version
  {
    hide Run, Sound;
    RunFollows(env, s, ops);
  }

  /** Gate events alternate: each batch parked is consumed once, by the next event, and executed
      exactly when the answer is affirmative; a batch parked last is the one pending. */
  ghost predicate Alternating(env: Env, gate: seq<Effect>, pending: Option<seq<Call>>) {
    && (forall k :: 0 <= k < |gate| && k % 2 == 0 ==> gate[k].Parked?)
    && (forall k :: 0 <= k < |gate| && k % 2 == 1 ==>
          && gate[k].Consumed? && gate[k - 1].Parked? && gate[k].batch == gate[k - 1].batch
          && gate[k].executed == env.affirmative(gate[k].input))
    && pending == if |gate| % 2 == 1 && gate[|gate| - 1].Parked? then Some(gate[|gate| - 1].batch) else None
  }

  lemma AlternatingStep(env: Env, gate: seq<Effect>, before: Option<seq<Call>>, log: seq<Effect>,
                        after: Option<seq<Call>>)
    requires Alternating(env, gate, before) && GateStep(env, before, log, after)
    ensures Alternating(env, gate + log, after)
  {
    var all := gate + log;
    assert |log| == 0 ==> all == gate;
    if |log| == 1 {
      assert forall k :: 0 <= k < |gate| ==> all[k] == gate[k];
      assert all[|gate|] == log[0];
      assert before.None? <==> |gate| % 2 == 0;
    }
  }

  /** At most one batch is ever pending, and each is consumed at most once: in every run from
      creation the agent's gate events alternate. */
  lemma {:induction false} GateAlternates(env: Env, agentId: string, now: Time, ops: seq<Op>)
    ensures var h := Run(env, NewState(agentId, now), ops); Alternating(env, h.gate, h.state.meta.pending)
  {
    hide Sound, Apply, GateLog, GateStep, GatePassed, Alternating, Follows;
    var s := NewState(agentId, now);
    if |ops| > 0 {
      var init := ops[..|ops| - 1];
      GateAlternates(env, agentId, now, init);
      ReachableStatesAreSound(env, agentId, now, init);
      var h := Run(env, s, init);
      ApplyKeeps(env, h.state, ops[|ops| - 1]);
      if Apply(env, h.state, ops[|ops| - 1]).Ok? {
        var v := Apply(env, h.state, ops[|ops| - 1]).value;
        AlternatingStep(env, h.gate, h.state.meta.pending, GateLog(v.effects), v.state.meta.pending);
      }
    } else {
      NothingAlternates(env);
    }
  }

  lemma NothingAlternates(env: Env)
    ensures Alternating(env, [], None)
  {
  }

  lemma AnswerIsConfirm(env: Env, w: World, s: AgentState, message: Option<string>)
    requires !IsTerminal(s.lifecycle) && (s.lifecycle.Activated? || IsActive(s.lifecycle))
    requires s.message.Some? && w([]).route.ToRuntime? && s.meta.pending.Some?
    ensures var started := With(s, Running, Now(env, s));
            RunStep(env, w, [], [s.agentId], s, message) ==
            Confirm(env, started, started.meta.(totalRoutes := started.meta.totalRoutes + 1), Text(s, message),
                    w([]).interrupted)
  {
    hide Confirm, Stamp, NeedsConfirmation, DeferAll, DirectiveRuns, PlanRuns;
  }

  /** What an answer does to a pending batch: an affirmative one runs its primitive calls in order,
      any other runs none of them. A call that raises after the run keeps the batch pending. */
  lemma AnswerDecides(env: Env, w: World, s: AgentState, message: Option<string>)
    requires !IsTerminal(s.lifecycle) && (s.lifecycle.Activated? || IsActive(s.lifecycle))
    requires s.message.Some? && w([]).route.ToRuntime? && s.meta.pending.Some?
    ensures var input, batch := Text(s, message), s.meta.pending.value;
            var r := RunStep(env, w, [], [s.agentId], s, message);
            && (r.Ok? <==> !(env.affirmative(input) && w([]).interrupted))
            && (r.Ok? ==>
                  && r.value.state.lifecycle.Activated? && r.value.state.meta.pending.None?
                  && r.value.effects == if env.affirmative(input) then
                      [Consumed(input, batch, true)] + Executions(input, batch)
                                        else [Consumed(input, batch, false)])
            && (r.Err? ==> r.error.effects == Executions(input, batch))
            && (env.affirmative(input) ==> RunsEach(input, batch, Done(r)) && InOrder(input, batch, Done(r)))
  {
    hide Executions, Stamp, RunStep, RunsEach, Placed;
    AnswerIsConfirm(env, w, s, message);
    var input, batch := Text(s, message), s.meta.pending.value;
    var at := BatchRuns(input, batch);
    ConsumedFirst(input, batch, Executions(input, batch), at);
  }

  /** A confirming call that raises and one that returns run the batch twice. */
  lemma InterruptedAnswerRunsAgain(env: Env, s: AgentState, raised: World, returned: World, message: Option<string>)
    requires !IsTerminal(s.lifecycle) && (s.lifecycle.Activated? || IsActive(s.lifecycle))
    requires s.message.Some? && s.meta.pending.Some? && env.affirmative(Text(s, message))
    requires raised([]).route.ToRuntime? && raised([]).interrupted && returned([]).route.ToRuntime?
             && !returned([]).interrupted
    ensures var input, batch := Text(s, message), s.meta.pending.value;
            Run(env, s, [Step(raised, message), Step(returned, message)]).effects
            == Executions(input, batch) + [Consumed(input, batch, true)] + Executions(input, batch)
  {
    hide Executions, RunStep, GateLog, Run;
    AnswerDecides(env, raised, s, message);
    AnswerDecides(env, returned, s, message);
    var input, batch := Text(s, message), s.meta.pending.value;
    var ran, yes := Executions(input, batch), [Consumed(input, batch, true)];
    RaisedThenReturned(env, s, Step(raised, message), Step(returned, message));
    assert ran + (yes + ran) == ran + yes + ran;
  }

  lemma RaisedThenReturned(env: Env, s: AgentState, a: Op, b: Op)
    requires Apply(env, s, a).Err? && Apply(env, s, b).Ok?
    ensures Run(env, s, [a, b]).effects == Apply(env, s, a).error.effects + Apply(env, s, b).value.effects
  {
    hide Apply, GateLog;
    var ops := [a, b];
    assert ops[..1][..0] == [] && ops[..1][0] == a && ops[..|ops| - 1] == ops[..1];
    assert Run(env, s, ops[..1]) == History(s, [] + Apply(env, s, a).error.effects, []);
    assert [] + Apply(env, s, a).error.effects == Apply(env, s, a).error.effects;
  }

  // ---------------------------------------------------------------- how often a batch runs

  /** A call that finds a batch pending and answers it with an affirmative input. */
  predicate Confirms(env: Env, s: AgentState, op: Op) {
    && op.Step? && (s.lifecycle.Activated? || IsActive(s.lifecycle)) && s.message.Some? && s.meta.pending.Some?
    && op.world([]).route.ToRuntime? && env.affirmative(Text(s, op.input))
  }

  /** While a batch is pending only confirming calls run it, whether they return or raise; a step that is
      none runs nothing at all. */
  lemma ConfirmingCallsRun(env: Env, s: AgentState, op: Op)
    requires op.Step? && s.meta.pending.Some?
    ensures var r, batch := Apply(env, s, op), s.meta.pending.value;
            if Confirms(env, s, op) then
              var ran := Executions(Text(s, op.input), batch);
              && Done(r) == (if r.Err? then ran else [Consumed(Text(s, op.input), batch, true)] + ran)
              && RunsEach(Text(s, op.input), batch, Done(r)) && InOrder(Text(s, op.input), batch, Done(r))
            else
              Done(r) == [] || (s.message.Some? && Done(r) == [Consumed(Text(s, op.input), batch, false)])
  {
    hide Executions, Stamp, NeedsConfirmation, DeferAll, DirectiveRuns, PlanRuns, RunsEach, Placed;
    if Confirms(env, s, op) {
      var input, batch := Text(s, op.input), s.meta.pending.value;
      var at := BatchRuns(input, batch);
      ConsumedFirst(input, batch, Executions(input, batch), at);
    }
  }

  /** How many calls of a run confirm, and how many of them raise. */
  function Confirmations(env: Env, s: AgentState, ops: seq<Op>): nat {
    if |ops| == 0 then 0
    else
      var n := |ops| - 1;
      Confirmations(env, s, ops[..n]) + (if Confirms(env, Run(env, s, ops[..n]).state, ops[n]) then 1 else 0)
  }

  function RaisedConfirmations(env: Env, s: AgentState, ops: seq<Op>): nat {
    if |ops| == 0 then 0
    else
      var n := |ops| - 1;
      var before := Run(env, s, ops[..n]).state;
      RaisedConfirmations(env, s, ops[..n])
      + (if Confirms(env, before, ops[n]) && Apply(env, before, ops[n]).Err? then 1 else 0)
  }

  /** No event of a log is a consumption as confirmed. */
  ghost predicate NoneConfirmed(log: seq<Effect>) {
    forall i :: 0 <= i < |log| ==> !(log[i].Consumed? && log[i].executed)
  }

  lemma StepConsumesIffConfirms(env: Env, s: AgentState, op: Op)
    requires op.Step? && s.meta.pending.Some? && Apply(env, s, op).Ok?
    ensures var log := GateLog(Apply(env, s, op).value.effects);
            if Confirms(env, s, op) then log == [Consumed(Text(s, op.input), s.meta.pending.value, true)]
                else NoneConfirmed(log)
  {
    hide Apply, Executions, Confirms, EffectsFine, GateLog;
    ConfirmingCallsRun(env, s, op);
    NoEffects(env, env.defers, [s.agentId], 0);
    if Confirms(env, s, op) {
      ConfirmsIsAnswer(env, s, op);
      var input, batch := Text(s, op.input), s.meta.pending.value;
      ExecutionsAreRuns(input, batch);
      OneGateEvent(env, env.defers, [s.agentId], 0, Consumed(input, batch, true));
      GateLogConcat([Consumed(input, batch, true)], Executions(input, batch));
      assert [Consumed(input, batch, true)] + [] == [Consumed(input, batch, true)];
    } else if s.message.Some? {
      OneGateEvent(env, env.defers, [s.agentId], 0, Consumed(Text(s, op.input), s.meta.pending.value, false));
    }
  }

  lemma ConfirmsIsAnswer(env: Env, s: AgentState, op: Op)
    requires Confirms(env, s, op)
    ensures op.Step? && s.message.Some? && s.meta.pending.Some?
  {
  }

  /** A call that returns consumes the batch as confirmed exactly when it confirms. */
  lemma ConsumedIffConfirms(env: Env, s: AgentState, op: Op)
    requires Sound(s) && s.meta.pending.Some? && Apply(env, s, op).Ok?
    ensures var log := GateLog(Apply(env, s, op).value.effects);
            if Confirms(env, s, op) then
              op.Step? && s.message.Some? && log == [Consumed(Text(s, op.input), s.meta.pending.value, true)]
            else NoneConfirmed(log)
  {
    hide Sound, RunStep, GateLog, DeferToAgent, Stamp;
    NoEffects(env, env.defers, [s.agentId], 0);
    match op {
      case Step(world, input) => StepConsumesIffConfirms(env, s, op);
      case Defer(world, target, prompt, maxDepth, skip) => DeferralsConsumeNothing(env, world, s, target, prompt,
            maxDepth, skip);
      case _ =>
    }
  }

  lemma DeferralsConsumeNothing(env: Env, w: World, s: AgentState, target: string, prompt: string, maxDepth: nat,
                                skip: bool)
    requires Sound(s) && DeferToAgent(env, w, s, target, prompt, maxDepth, skip).Ok?
    ensures GateLog(DeferToAgent(env, w, s, target, prompt, maxDepth, skip).value.effects) == []
  {
    hide Sound, Delegate, GateLog, EffectsFine;
    var depth := Authorise(env, s, target, maxDepth, skip).value;
    var g := WithHop(env.defers, s.agentId, target);
    assert Allows(env, g) && Edge(g, s.agentId, target);
    DelegateProof(env, w, [], g, [s.agentId], DEFAULT_MAX_DEPTH, s, target, prompt, depth);
  }

  /** A pending batch stays pending until it is consumed. */
  lemma {:induction false} PendingUntilConsumed(env: Env, s: AgentState, ops: seq<Op>)
    requires Sound(s) && s.meta.pending.Some? && |Run(env, s, ops).gate| <= 1
    ensures var h := Run(env, s, ops);
            && Sound(h.state)
            && (h.gate == [] ==> h.state.meta.pending == s.meta.pending)
            && (h.gate != [] ==>
                  && h.gate[0].Consumed? && h.gate[0].batch == s.meta.pending.value
                  && h.state.meta.pending.None?)
  {
    hide Sound, Apply, GateLog, GatePassed;
    if |ops| > 0 {
      var n := |ops| - 1;
      PendingUntilConsumed(env, s, ops[..n]);
      RunFollows(env, s, ops);
      ApplyKeeps(env, Run(env, s, ops[..n]).state, ops[n]);
    }
  }

  /** As long as a batch is pending, and up to its consumption, it is run once for every confirming call
      that raises, and once more if it is consumed as confirmed. So it runs at most once if and only if at
      most one of these happens. */
  lemma {:induction false} BatchRunsPerConfirmation(env: Env, s: AgentState, ops: seq<Op>)
    requires Sound(s) && s.meta.pending.Some? && |Run(env, s, ops).gate| <= 1
    ensures Confirmations(env, s, ops) == RaisedConfirmations(env, s, ops) + EndsConfirmed(Run(env, s, ops).gate)
  {
    hide Sound, Apply, GateLog, GatePassed, Confirms;
    if |ops| > 0 {
      var n := |ops| - 1;
      var h := Run(env, s, ops[..n]);
      PendingUntilConsumed(env, s, ops);
      PendingUntilConsumed(env, s, ops[..n]);
      BatchRunsPerConfirmation(env, s, ops[..n]);
      NothingPendingNothingConfirmed(env, h.state, ops[n]);
      if h.state.meta.pending.Some? && Apply(env, h.state, ops[n]).Ok? { ConsumedIffConfirms(env, h.state, ops[n]); }
    }
  }

  function EndsConfirmed(gate: seq<Effect>): nat {
    if gate != [] && gate[0].Consumed? && gate[0].executed then 1 else 0
  }

  /** It is always that batch that a confirming call runs. */
  lemma SameBatchConfirmed(env: Env, s: AgentState, ops: seq<Op>, i: nat)
    requires Sound(s) && s.meta.pending.Some? && |Run(env, s, ops).gate| <= 1
    requires i < |ops| && Confirms(env, Run(env, s, ops[..i]).state, ops[i])
    ensures Run(env, s, ops[..i]).state.meta.pending == s.meta.pending
  {
    hide Sound, Apply, Confirms;
    GateGrows(env, s, ops, i);
    PendingUntilConsumed(env, s, ops[..i]);
    NothingPendingNothingConfirmed(env, Run(env, s, ops[..i]).state, ops[i]);
  }

  lemma {:induction false} GateGrows(env: Env, s: AgentState, ops: seq<Op>, i: nat)
    requires i <= |ops|
    ensures |Run(env, s, ops[..i]).gate| <= |Run(env, s, ops).gate|
  {
    hide Apply, GateLog;
    if i == |ops| {
      assert ops[..i] == ops;
    } else {
      GateGrows(env, s, ops[..|ops| - 1], i);
      assert ops[..|ops| - 1][..i] == ops[..i];
    }
  }

  lemma NothingPendingNothingConfirmed(env: Env, s: AgentState, op: Op)
    ensures Confirms(env, s, op) ==> s.meta.pending.Some?
  {
  }

  /** A reply with a side-effect call, on an input that is not affirmative: the whole batch of calls is
      parked, and none of it runs, not even its deferrals. What ran is what the directive lines in its
      text started, which no gate looks at. */
  lemma SideEffectsAreParked(env: Env, w: World, s: AgentState, message: Option<string>, text: string,
                             calls: seq<Call>, tools: ToolRun)
    requires !IsTerminal(s.lifecycle) && (s.lifecycle.Activated? || IsActive(s.lifecycle))
    requires s.message.Some? && s.meta.pending.None? && w([]).route == ToRuntime(Replied(text, calls, tools))
    ensures var r := RunStep(env, w, [], [s.agentId], s, message);
            NeedsConfirmation(calls) && !env.affirmative(Text(s, message)) <==>
            && r.Ok? && r.value.state.lifecycle.Waiting?
            && r.value.effects == DirectiveRuns(env, Text(s, message), env.directives(text), tools) + [Parked(calls)]
  {
    hide DirectiveRuns, PlanRuns, Stamp, NeedsConfirmation, DeferAll, Deferrals;
  }
}
