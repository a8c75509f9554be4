/** The agent step, its loops and the deferral it recurses through, as the program runs them: each
    proved against the function the protocol reasons about. */
module SupervisorLoops {
  import opened Wrappers
  import opened AgentStates
  import opened Supervisor
  import opened ExecutedCalls
  import F = FollowUpLoop
  import WE = WorkflowEngine
  import WI = WorkflowInvoker
  import IW = InlineWorkflows

  function SideEffects(calls: seq<Call>): seq<Call> {
    if |calls| == 0 then []
    else
      var last := calls[|calls| - 1];
      SideEffects(calls[..|calls| - 1]) + (if HasSideEffect(last) then [last] else [])
  }

  /** The gate closes exactly when there is a call to confirm, and the confirmation lists exactly
      the calls with side effects, each as often as the reply makes it. */
  lemma {:induction false} SideEffectsAreConfirmed(calls: seq<Call>, c: Call)
    ensures SideEffects(calls) != [] <==> NeedsConfirmation(calls)
    ensures multiset(SideEffects(calls))[c] == if HasSideEffect(c) then multiset(calls)[c] else 0
  {
    hide HasSideEffect;
    if |calls| > 0 {
      hide NeedsConfirmation;
      var n := |calls| - 1;
      SideEffectsAreConfirmed(calls[..n], c);
      LastNeedsConfirmation(calls);
      assert calls == calls[..n] + [calls[n]];
    }
  }

  lemma LastNeedsConfirmation(calls: seq<Call>)
    requires |calls| > 0
    ensures NeedsConfirmation(calls) <==> NeedsConfirmation(calls[..|calls| - 1]) || HasSideEffect(calls[|calls| - 1])
    ensures !NeedsConfirmation([])
  {
    hide HasSideEffect;
    var n := |calls| - 1;
    if NeedsConfirmation(calls[..n]) {
      var i :| 0 <= i < n && HasSideEffect(calls[..n][i]);
      assert HasSideEffect(calls[i]);
    }
    if NeedsConfirmation(calls) && !HasSideEffect(calls[n]) {
      var i :| 0 <= i < |calls| && HasSideEffect(calls[i]);
      assert HasSideEffect(calls[..n][i]);
    }
  }

  /** The calls of a batch that need a confirmation, in order. */
  method SideEffectCalls(calls: seq<Call>) returns (found: seq<Call>)
    ensures found == SideEffects(calls)
  {
    hide Lower, LastSegment;
    found := [];
    for i := 0 to |calls|
      invariant found == SideEffects(calls[..i])
    {
      var c := calls[i];
      assert calls[..i + 1][..i] == calls[..i];
      if IsPrimitive(c) && !(SAFE_PREFIX <= c.name[|PRIMITIVE|..]) {
        var named := NamesAction(Lower(LastSegment(c.name[|PRIMITIVE|..])));
        if named { found := found + [c]; }
      }
    }
    assert calls[..|calls|] == calls;
  }

  method NamesAction(segment: string) returns (named: bool)
    ensures named <==> exists i :: 0 <= i < |SIDE_EFFECTS| && SIDE_EFFECTS[i] <= segment
  {
    hide SIDE_EFFECTS;
    for k := 0 to |SIDE_EFFECTS|
      invariant forall j :: 0 <= j < k ==> !(SIDE_EFFECTS[j] <= segment)
    {
      if SIDE_EFFECTS[k] <= segment { return true; }
    }
    return false;
  }

  /** The loop that executes a confirmed batch: its primitives only. */
  method RunConfirmed(input: string, calls: seq<Call>) returns (log: seq<Effect>)
    ensures log == Executions(input, calls)
    ensures RunsEach(input, calls, log) && InOrder(input, calls, log)
  {
    hide RunsEach, Placed;
    log := [];
    for i := 0 to |calls|
      invariant log == Executions(input, calls[..i])
    {
      assert calls[..i + 1][..i] == calls[..i];
      if IsPrimitive(calls[i]) {
        log := log + [Ran(input, calls[i])];
      }
    }
    assert calls[..|calls|] == calls;
    ghost var at := BatchRuns(input, calls);
  }

  /** The step as the program runs it: early returns, and metadata updated on the way. */
  method RunAgentStep(env: Env, w: World, path: seq<nat>, chain: seq<string>, s: AgentState, message: Option<string>)
      returns (r: Result<Stepped, Failure>)
    ensures r == RunStep(env, w, path, chain, s, message)
    decreases Headroom(s.meta.depth), 3, 0
  {
    hide Stamp, HasSideEffect, Executions, Deferrals, End, Elsewhere, PlanRuns, DirectiveRuns, NeedsConfirmation,
         SideEffects, Confirm, DeferAll;
    if IsTerminal(s.lifecycle) { return Err(Failure(InTerminalState, [])); }
    if !(s.lifecycle.Activated? || s.lifecycle.Running? || s.lifecycle.Waiting?) { return Err(Failure(NotActive, [])); }
    var state := With(s, Running, Now(env, s));
    if state.message.None? { return End(env, state, Failed, state.meta, None, []); }
    var input := if message.Some? && message.value != "" then message.value else state.message.value;
    var meta := state.meta.(totalRoutes := state.meta.totalRoutes + 1);
    var route := w(path).route;
    if route.ToRuntime? {
      var pending := meta.pending;
      meta := meta.(pending := None);
      if pending.Some? {
        r := RunConfirmedSkills(env, state, pending.value, input, meta, w(path).interrupted);
        return;
      }
      if route.reply.Unavailable? { return End(env, state, Completed, meta, Some("[Runtime unavailable]"), []); }
      var calls := route.reply.calls;
      var directed := RunDirectives(env, input, env.directives(route.reply.text), route.reply.tools);
      var sideEffects := SideEffectCalls(calls);
      SideEffectsAreConfirmed(calls, Call("", "", ""));
      if sideEffects != [] && !env.affirmative(input) {
        meta := meta.(pending := Some(calls));
        return End(env, state, Waiting, meta, Some(route.reply.text), directed + [Parked(calls)]);
      }
      var deferred := HandleDeferrals(env, w, path, chain, state, Deferrals(calls));
      if deferred.Err? { return Err(Failure(deferred.error.error, directed + deferred.error.effects)); }
      var executed := RunToolPlan(env, input, calls, route.reply.tools);
      var effects := directed + deferred.value.effects + executed;
      if w(path).interrupted { return Err(Failure(Interrupted, effects)); }
      r := End(env, deferred.value.state, Completed, meta, Some(route.reply.text), effects);
    } else {
      r := FinishElsewhere(env, state, meta, route);
    }
  }

  /** The branches of a step that do not reach the LLM, by how they end: what the workflow or the jobs
      run on the way is no effect of the model. */
  method FinishElsewhere(env: Env, s: AgentState, meta: Meta, route: Route) returns (r: Result<Stepped, Failure>)
    requires !route.ToRuntime?
    ensures r == Elsewhere(env, s, meta, route)
    ensures r.Err? <==> route.ToCouncil? && route.council == CouncilFailed("")
    ensures r.Err? ==> r.error.effects == []
    ensures r.Ok? ==>
              var after := r.value.state;
              && r.value.effects == [] && after.meta == meta && after.version == s.version + 1
              && after.agentId == s.agentId
              && (after.lifecycle.Waiting? <==> route == ToJobs(true) || route == ToWorkflow(WorkflowWaiting))
              && (after.lifecycle.Failed? <==> (route.ToWorkflow?
                                                && (route.end.WorkflowMissing? || route.end.WorkflowFailed?))
                                               || (route.ToCouncil? && route.council.CouncilFailed?))
              && (after.lifecycle.Waiting? || after.lifecycle.Failed? || after.lifecycle.Completed?)
  {
    hide Stamp;
    var to, response := Completed, None;
    match route {
      case ToJobs(dispatched) =>
        if dispatched { to := Waiting; } else { response := Some("Agent completed without producing output."); }
      case ToWorkflow(end) =>
        if end.WorkflowMissing? || end.WorkflowFailed? { to := Failed; }
        if end.WorkflowWaiting? { to := Waiting; }
        if end.WorkflowCompleted? { response := Some(end.reply); }
      case ToCouncil(council) =>
        if council.CouncilFailed? {
          if council.message == "" { return Err(Failure(EmptyReason, [])); }
          to := Failed;
        }
        if council.CouncilDecided? { response := Some(council.reply); }
      case ToNothing =>
        response := Some("Agent completed without producing output.");
    }
    r := End(env, s, to, meta, response, []);
  }

  /** The answer to a confirmation: `meta` no longer holds the batch. */
  method RunConfirmedSkills(env: Env, s: AgentState, batch: seq<Call>, input: string, meta: Meta, interrupted: bool)
      returns (r: Result<Stepped, Failure>)
    requires meta.pending.None?
    ensures r == Confirm(env, s, meta.(pending := Some(batch)), input, interrupted)
    ensures r.Err? <==> env.affirmative(input) && interrupted
    ensures r.Err? ==> r.error.effects == Executions(input, batch)
    ensures if env.affirmative(input) then RunsEach(input, batch, Done(r)) && InOrder(input, batch, Done(r))
            else Done(r) == [Consumed(input, batch, false)]
    ensures r.Ok? ==>
              && r.value.state.lifecycle.Activated? && r.value.state.meta == meta
              && r.value.state.version == s.version + 1
              && |r.value.effects| > 0 && r.value.effects[0] == Consumed(input, batch, env.affirmative(input))
              && r.value.effects[1..] == if env.affirmative(input) then Executions(input, batch) else []
  {
    hide Executions, Stamp, RunsEach, Placed;
    if env.affirmative(input) {
      var executed := RunConfirmed(input, batch);
      ghost var at :| Placed(input, batch, executed, at);
      ConsumedFirst(input, batch, executed, at);
      if interrupted { return Err(Failure(Interrupted, executed)); }
      return End(env, s, Activated, meta, Some("confirmed"), [Consumed(input, batch, true)] + executed);
    }
    r := End(env, s, Activated, meta, Some("The action was cancelled based on your response."),
             [Consumed(input, batch, false)]);
  }

  /** A workflow started on the way: it runs to its end, its limit, or the first answer that is missing. */
  method StartInline(env: Env, input: string, hasExecutor: bool, w: WI.World, id: string,
                     context: WE.Record) returns (log: seq<Effect>)
    ensures log == HandOver(input, IW.Handed(env.engine, env.workflows, hasExecutor, w, id, context))
  {
    hide WE.StepOnce, IW.InlineLoop;
    var start := WE.StartWorkflow(env.workflows, w(0).freshId, WE.Text(id), context);
    if start.Err? { return []; }
    var run := IW.RunInline(env.engine, env.workflows, hasExecutor, w, start.value);
    log := HandOver(input, run.handed);
  }

  /** The directive lines of a reply, before any gate. */
  method RunDirectives(env: Env, input: string, ds: seq<IW.Directive>, tools: ToolRun) returns (log: seq<Effect>)
    ensures log == DirectiveRuns(env, input, ds, tools)
  {
    hide IW.Handed, HandOver;
    log := [];
    for n := 0 to |ds|
      invariant log == DirectiveRuns(env, input, ds[..n], tools)
    {
      assert ds[..n + 1][..n] == ds[..n];
      var more := StartInline(env, input, tools.followUps.hasExecutor, tools.directed(n),
                              IW.DirectiveTarget(ds[n].name), ds[n].params);
      log := log + more;
    }
    assert ds[..|ds|] == ds;
  }

  /** The tool plan: the own calls in order, then the follow-up rounds for the primitives that gave a result. */
  method RunToolPlan(env: Env, input: string, calls: seq<Call>, tools: ToolRun) returns (log: seq<Effect>)
    ensures log == PlanRuns(env, input, calls, tools)
    ensures RunsEach(input, calls, log) && InOrder(input, calls, log)
  {
    hide IW.Handed, HandOver, FollowUpRuns, RunsEach, InOrder;
    PlanRunsEach(env, input, calls, tools);
    var executed: seq<string> := [];
    log := [];
    for n := 0 to |calls|
      invariant executed == FirstExecuted(calls[..n], tools)
      invariant log == OwnRuns(env, input, calls[..n], tools)
    {
      var c := calls[n];
      assert calls[..n + 1][..n] == calls[..n];
      StartedIsNoPrimitive(c);
      if IW.EXECUTE <= c.name {
        var more := StartInline(env, input, tools.followUps.hasExecutor, tools.started(n), c.name[|IW.EXECUTE|..],
                                map["args" := tools.arguments(n)]);
        log := log + more;
      } else if IsPrimitive(c) {
        log := log + [Ran(input, c)];
        if tools.followUps.hasExecutor && tools.results(n).Result? { executed := executed + [c.name]; }
      }
    }
    assert calls[..|calls|] == calls;
    var rounds := RunRounds(input, tools.followUps, executed, tools.rounds);
    log := log + rounds;
  }

  lemma StartedIsNoPrimitive(c: Call)
    ensures IW.EXECUTE <= c.name ==> !IsPrimitive(c)
  {
    assert IW.EXECUTE[0] == 'w' && PRIMITIVE[0] == 'p';
  }

  method RunRounds(input: string, w: F.World, executed: seq<string>, n: nat) returns (log: seq<Effect>)
    ensures log == FollowUpRuns(input, w, executed, n)
  {
    hide F.Iterate, RoundRuns;
    log := [];
    var at := F.Continue(F.Start(executed));
    for m := 0 to n
      invariant log == FollowUpRuns(input, w, executed, m) && at == F.Iterations(w, executed, m)
    {
      if at.Continue? { at := F.Iterate(w, at.st); }
      if at.Continue? {
        var round := RunRoundCalls(input, w, w.reply(m));
        log := log + round;
      }
    }
  }

  method RunRoundCalls(input: string, w: F.World, calls: seq<F.ToolCall>) returns (log: seq<Effect>)
    ensures log == RoundRuns(input, w, calls)
  {
    log := [];
    for j := 0 to |calls|
      invariant log == RoundRuns(input, w, calls[..j])
    {
      assert calls[..j + 1][..j] == calls[..j];
      if F.IsPrimitive(calls[j]) && w.hasExecutor { log := log + [FollowedUp(input, calls[j].name)]; }
    }
    assert calls[..|calls|] == calls;
  }

  /** The loop over a reply's deferrals: the delegator's state is threaded through, and the first
      one that raises ends the step. */
  method HandleDeferrals(env: Env, w: World, path: seq<nat>, chain: seq<string>, s: AgentState, calls: seq<Call>)
      returns (r: Result<Stepped, Failure>)
    ensures r == DeferAll(env, w, path, chain, s, calls)
    decreases Headroom(s.meta.depth), 2, |calls|
  {
    hide Delegate, DeferAll;
    NoCalls(env, w, path, chain, s);
    var state, effects := s, [];
    for i := 0 to |calls|
      invariant state.meta.depth == s.meta.depth
      invariant DeferAll(env, w, path, chain, s, calls[..i]) == Ok(Stepped(state, effects))
    {
      OneMoreCall(env, w, path, chain, s, calls, i);
      var allowed := Authorise(env, state, calls[i].target, DEFAULT_MAX_DEPTH, false);
      if allowed.Err? {
        r := Err(Failure(allowed.error, effects));
        ErrorsPersist(env, w, path, chain, s, calls, i + 1);
        return;
      }
      var one := DeferTo(env, w, path + [i], chain, state, calls[i].target, calls[i].prompt, allowed.value);
      if one.Err? {
        r := Err(Failure(one.error.error, effects + one.error.effects));
        ErrorsPersist(env, w, path, chain, s, calls, i + 1);
        return;
      }
      state, effects := one.value.state, effects + one.value.effects;
    }
    assert calls[..|calls|] == calls;
    r := Ok(Stepped(state, effects));
  }

  lemma NoCalls(env: Env, w: World, path: seq<nat>, chain: seq<string>, s: AgentState)
    ensures DeferAll(env, w, path, chain, s, []) == Ok(Stepped(s, []))
  {
  }

  lemma OneMoreCall(env: Env, w: World, path: seq<nat>, chain: seq<string>, s: AgentState, calls: seq<Call>, i: nat)
    requires i < |calls| && DeferAll(env, w, path, chain, s, calls[..i]).Ok?
    ensures var before := DeferAll(env, w, path, chain, s, calls[..i]).value;
            var allowed := Authorise(env, before.state, calls[i].target, DEFAULT_MAX_DEPTH, false);
            && before.state.meta.depth == s.meta.depth
            && DeferAll(env, w, path, chain, s, calls[..i + 1]) ==
               if allowed.Err? then Err(Failure(allowed.error, before.effects))
               else
                 var one := Delegate(env, w, path + [i], chain, before.state, calls[i].target, calls[i].prompt,
                                     allowed.value);
                 if one.Err? then Err(Failure(one.error.error, before.effects + one.error.effects))
                 else Ok(Stepped(one.value.state, before.effects + one.value.effects))
  {
    hide Delegate, Authorise;
    var prefix := calls[..i + 1];
    assert prefix[..i] == calls[..i] && prefix[i] == calls[i];
  }

  /** One deferral as the program runs it. */
  method DeferTo(env: Env, w: World, path: seq<nat>, chain: seq<string>, s: AgentState, target: string,
                 prompt: string, depth: nat)
      returns (r: Result<Stepped, Failure>)
    ensures r == Delegate(env, w, path, chain, s, target, prompt, depth)
    ensures r.Ok? ==>
              var after := r.value.state;
              && after.lifecycle.Running? && after.agentId == s.agentId && after.version == s.version + 3
              && |after.history| == |s.history| + 2 && s.history <= after.history
              && after.history[|s.history|].target == Suspended && after.history[|s.history| + 1].target == Running
              && after.meta.deferral.Some? && after.meta.deferral.value.delegate == target
              && after.meta == s.meta.(deferral := after.meta.deferral) && after.response == s.response
    ensures Done(r) != [] ==> Done(r)[0] == Hop(chain + [target])
    ensures r.Ok? ==> Done(r) != []
    decreases Headroom(depth), 5, 0
  {
    hide Stamp, RunStep, Settle;
    var suspended := SuspendAgent(env, s, "Deferring");
    if suspended.Err? { return Err(Failure(suspended.error, [])); }
    var ask := env.delegatePrompt(s.agentId, if s.message.Some? then s.message.value else prompt, prompt);
    var created := CreateAgent(env, target);
    if created.Err? { return Err(Failure(created.error, [])); }
    var activated := ActivateAgent(env, created.value, ask, w(path).activates);
    if activated.Err? { return Err(Failure(activated.error, [])); }
    var delegate := activated.value;
    delegate := With(delegate, delegate.lifecycle, Now(env, delegate)).(meta := delegate.meta.(depth := depth));
    var hop := [Hop(chain + [target])];
    var first := RunAgentStep(env, w, path, chain + [target], delegate, None);
    if first.Err? { return Err(Failure(first.error.error, hop + first.error.effects)); }
    var settled := SettleDelegate(env, w, path, chain + [target], first.value);
    if settled.Err? { return Err(Failure(settled.error.error, hop + settled.error.effects)); }
    var resumed := ResumeAgent(env, suspended.value);
    if resumed.Err? { return Err(Failure(resumed.error, hop + settled.value.effects)); }
    var ended := settled.value.state;
    var text := if ended.response.Some? then ended.response.value else "No response from delegate";
    var state := resumed.value;
    state := With(state, state.lifecycle,
                  Now(env, state)).(meta := state.meta.(deferral :=
                                                        Some(DeferralResult(target, ended.lifecycle.Completed?,
                                                              text))));
    r := Ok(Stepped(state, hop + settled.value.effects));
  }

  lemma {:induction false} ErrorsPersist(env: Env, w: World, path: seq<nat>, chain: seq<string>, s: AgentState,
                                         calls: seq<Call>, n: nat)
    requires n <= |calls| && DeferAll(env, w, path, chain, s, calls[..n]).Err?
    ensures DeferAll(env, w, path, chain, s, calls) == DeferAll(env, w, path, chain, s, calls[..n])
  {
    hide Authorise, Delegate;
    if n == |calls| {
      assert calls[..n] == calls;
    } else {
      assert calls[..|calls| - 1][..n] == calls[..n];
      ErrorsPersist(env, w, path, chain, s, calls[..|calls| - 1], n);
    }
  }

  /** The loop that would bring an unfinished delegate to its end. */
  method SettleDelegate(env: Env, w: World, path: seq<nat>, chain: seq<string>, first: Stepped)
      returns (r: Result<Stepped, Failure>)
    ensures r == Settle(env, w, path, chain, first, 0)
    decreases Headroom(first.state.meta.depth), 4, 0
  {
    hide RunStep;
    var d, iterations := first, 0;
    while !IsTerminal(d.state.lifecycle) && iterations < MAX_SETTLE_ITERATIONS
      invariant 0 <= iterations <= MAX_SETTLE_ITERATIONS
      invariant d.state.meta.depth == first.state.meta.depth
      invariant Settle(env, w, path, chain, d, iterations) == Settle(env, w, path, chain, first, 0)
      decreases MAX_SETTLE_ITERATIONS - iterations
    {
      var resumed := ResumeAgent(env, d.state);
      if resumed.Err? {
        return Err(Failure(resumed.error, d.effects));
      }
      var again := RunAgentStep(env, w, path, chain, resumed.value, None);
      if again.Err? {
        return Err(Failure(again.error.error, d.effects + again.error.effects));
      }
      d, iterations := Stepped(again.value.state, d.effects + again.value.effects), iterations + 1;
    }
    r := Ok(d);
  }
}
