/** What one agent step does and leaves, call by call: the answer to a pending batch, a parked reply, a
    reply that may run. */
module StepEffects {
  import opened Wrappers
  import opened AgentStates
  import opened Supervisor
  import opened ExecutedCalls
  import F = FollowUpLoop
  import IW = InlineWorkflows

  /** The input of a step: the message it is given, or else the one its agent was activated with. */
  predicate Hears(s: AgentState, message: Option<string>, input: string) {
    if message.Some? && message.value != "" then input == message.value else s.message == Some(input)
  }

  /** A step that can take place: of an agent that is activated, running or waiting, with a message. */
  predicate CanStep(s: AgentState) {
    (s.lifecycle.Activated? || s.lifecycle.Running? || s.lifecycle.Waiting?) && s.message.Some?
  }

  /** The state of the step under way. */
  function Begun(env: Env, s: AgentState): AgentState {
    With(s, Running, Now(env, s))
  }

  /** What a step that returns leaves of its agent: two versions on, the log extended to `to`, one more
      route counted, the pending batch and the response as given, and nothing else changed. */
  ghost predicate Left(s: AgentState, t: AgentState, to: Lifecycle, pending: Option<seq<Call>>,
                       response: Option<string>) {
    && t.agentId == s.agentId && t.message == s.message && t.lifecycle == to && t.version == s.version + 2
    && t.response == response && s.history < t.history && t.history[|t.history| - 1].target == to
    && t.meta.totalRoutes == s.meta.totalRoutes + 1 && t.meta.pending == pending
    && t.meta.depth == s.meta.depth && t.meta.deferral == s.meta.deferral && t.meta.toolResult == s.meta.toolResult
  }

  // ---------------------------------------------------------------- confirmed and declined batches

  /** An affirmative answer runs the pending batch: every primitive call, side effects and all, as often and
      in the order the batch holds it, and nothing besides; also when the call then raises. */
  lemma ConfirmedBatchRuns(env: Env, w: World, path: seq<nat>, chain: seq<string>, s: AgentState,
                           message: Option<string>, input: string)
    requires CanStep(s) && Hears(s, message, input) && w(path).route.ToRuntime? && s.meta.pending.Some?
    requires env.affirmative(input)
    ensures var r, batch := RunStep(env, w, path, chain, s, message), s.meta.pending.value;
            && RunsEach(input, batch, Done(r)) && InOrder(input, batch, Done(r))
            && (r.Ok? <==> !w(path).interrupted)
            && (forall e :: e in Done(r) && !e.Ran? ==> r.Ok? && e == Consumed(input, batch, true))
            && (r.Ok? ==> Left(s, r.value.state, Activated, None, Some("confirmed")))
  {
    hide RunsEach, Stamp, DeferAll, DirectiveRuns, PlanRuns, NeedsConfirmation, Executions, Placed;
    var batch := s.meta.pending.value;
    var at := BatchRuns(input, batch);
    assert InOrder(input, batch, Executions(input, batch));
    ConsumedFirst(input, batch, Executions(input, batch), at);
  }

  /** Any other answer runs nothing and drops the batch. */
  lemma DeclinedBatchIsDropped(env: Env, w: World, path: seq<nat>, chain: seq<string>, s: AgentState,
                               message: Option<string>, input: string)
    requires CanStep(s) && Hears(s, message, input) && w(path).route.ToRuntime? && s.meta.pending.Some?
    requires !env.affirmative(input)
    ensures var r := RunStep(env, w, path, chain, s, message);
            && r.Ok? && r.value.effects == [Consumed(input, s.meta.pending.value, false)]
            && Left(s, r.value.state, Activated, None, Some("The action was cancelled based on your response."))
  {
    hide Stamp, DeferAll, DirectiveRuns, PlanRuns, NeedsConfirmation, Executions;
  }

  // ---------------------------------------------------------------- replies

  /** The own part of a reply that may run: its directives' workflows, its calls, its follow-up rounds. */
  datatype Account = Account(directed: seq<Effect>, own: seq<Effect>, followed: seq<Effect>)

  /** `a` accounts for the reply: the own calls are run as often and in the order the reply holds them, and
      everything is there part by part. */
  ghost predicate Accounts(env: Env, input: string, text: string, calls: seq<Call>, tools: ToolRun, a: Account) {
    && (exists parts :: DirectivesDid(env, input, env.directives(text), tools, parts) && a.directed == Flat(parts))
    && RunsEach(input, calls, a.own) && InOrder(input, calls, a.own)
    && (exists parts :: CallsDid(env, input, calls, tools, parts) && a.own == Flat(parts))
    && (exists at, names, parts ::
          && Selects(at, |calls|, GaveResult(calls, tools)) && NamesAt(calls, at, names)
          && |parts| == tools.rounds && RoundsDid(input, tools.followUps, names, parts) && a.followed == Flat(parts))
  }

  lemma AccountOf(env: Env, input: string, text: string, calls: seq<Call>, tools: ToolRun)
    ensures Accounts(env, input, text, calls, tools,
                     Account(DirectiveRuns(env, input, env.directives(text), tools), OwnRuns(env, input, calls, tools),
                             FollowUps(input, calls, tools)))
  {
    hide RunsEach, Placed, Selects, NamesAt, RoundsDid, CallsDid, DirectivesDid, Flat, DirectiveRuns, OwnRuns,
         FollowUpRuns, FirstExecuted;
    var lines := DirectiveRunsByLine(env, input, env.directives(text), tools);
    var at := OwnCallsRun(env, input, calls, tools);
    assert InOrder(input, calls, OwnRuns(env, input, calls, tools));
    var own := OwnRunsByCall(env, input, calls, tools);
    var names := FirstExecuted(calls, tools);
    var with := FirstExecutedAre(calls, tools);
    var rounds := FollowUpRunsByRound(input, tools.followUps, names, tools.rounds);
  }

  /** Past the gate, once all deferrals have returned: the step did what the reply asks for, call by call,
      whether it then returns or raises. */
  lemma ReplyRuns(env: Env, w: World, path: seq<nat>, chain: seq<string>, s: AgentState, message: Option<string>,
                  input: string, text: string, calls: seq<Call>, tools: ToolRun) returns (a: Account)
    requires CanStep(s) && Hears(s, message, input) && s.meta.pending.None?
    requires w(path).route == ToRuntime(Replied(text, calls, tools))
             && (env.affirmative(input) || !NeedsConfirmation(calls))
    requires DeferAll(env, w, path, chain, Begun(env, s), Deferrals(calls)).Ok?
    ensures Accounts(env, input, text, calls, tools, a)
    ensures var r := RunStep(env, w, path, chain, s, message);
            var deferred := DeferAll(env, w, path, chain, Begun(env, s), Deferrals(calls)).value;
            && Done(r) == a.directed + deferred.effects + a.own + a.followed
            && (r.Ok? <==> !w(path).interrupted)
            && (r.Ok? ==>
                  && r.value.state.lifecycle.Completed? && r.value.state.response == Some(text)
                  && r.value.state.meta == s.meta.(totalRoutes := s.meta.totalRoutes + 1)
                  && r.value.state.agentId == deferred.state.agentId
                  && r.value.state.version == deferred.state.version + 1)
  {
    hide Accounts, Stamp, DeferAll, DirectiveRuns, OwnRuns, FollowUps, NeedsConfirmation, Executions, Deferrals;
    a := Account(DirectiveRuns(env, input, env.directives(text), tools), OwnRuns(env, input, calls, tools),
                 FollowUps(input, calls, tools));
    AccountOf(env, input, text, calls, tools);
    var before := a.directed + DeferAll(env, w, path, chain, Begun(env, s), Deferrals(calls)).value.effects;
    assert before + (a.own + a.followed) == before + a.own + a.followed;
  }

  /** So without deferrals every primitive call of the reply is run exactly as often as the reply makes it. */
  lemma OwnPrimitivesRun(env: Env, w: World, path: seq<nat>, chain: seq<string>, s: AgentState, message: Option<string>,
                         input: string, text: string, calls: seq<Call>, tools: ToolRun)
    requires CanStep(s) && Hears(s, message, input) && s.meta.pending.None?
    requires w(path).route == ToRuntime(Replied(text, calls, tools))
             && (env.affirmative(input) || !NeedsConfirmation(calls))
    requires forall c :: c in calls ==> c.name != "defer_to"
    ensures RunsEach(input, calls, Done(RunStep(env, w, path, chain, s, message)))
  {
    hide RunsEach, RunStep, Stamp, NeedsConfirmation, Deferrals, DirectivesDid, RoundsDid, CallsDid, InOrder, Selects,
         NamesAt, Flat;
    NoDeferrals(calls);
    var a := ReplyRuns(env, w, path, chain, s, message, input, text, calls, tools);
    var lines :| DirectivesDid(env, input, env.directives(text), tools, lines) && a.directed == Flat(lines);
    HandOversAreNoRuns(env, input, env.directives(text), tools, lines);
    var at, names, rounds :|
      && Selects(at, |calls|, GaveResult(calls, tools)) && NamesAt(calls, at, names)
      && |rounds| == tools.rounds && RoundsDid(input, tools.followUps, names, rounds) && a.followed == Flat(rounds);
    RoundsAreNoRuns(input, tools.followUps, names, rounds);
    Surrounded(input, calls, a.directed, a.own, a.followed);
    assert a.directed + [] == a.directed;
  }

  lemma {:induction false} NoDeferrals(calls: seq<Call>)
    requires forall c :: c in calls ==> c.name != "defer_to"
    ensures Deferrals(calls) == []
  {
    if |calls| > 0 { NoDeferrals(calls[..|calls| - 1]); }
  }

  lemma Surrounded(input: string, calls: seq<Call>, a: seq<Effect>, b: seq<Effect>, c: seq<Effect>)
    requires RunsEach(input, calls, b) && (forall e :: e in a ==> !e.Ran?) && (forall e :: e in c ==> !e.Ran?)
    ensures RunsEach(input, calls, a + b + c)
  {
    forall d ensures multiset(a + b + c)[Ran(input, d)] == multiset(b)[Ran(input, d)] {
      assert multiset(a + b + c)[Ran(input, d)]
          == multiset(a)[Ran(input, d)] + multiset(b)[Ran(input, d)] + multiset(c)[Ran(input, d)];
      assert Ran(input, d) !in a && Ran(input, d) !in c;
    }
  }

  lemma HandOversAreNoRuns(env: Env, input: string, ds: seq<IW.Directive>, tools: ToolRun, parts: seq<seq<Effect>>)
    requires DirectivesDid(env, input, ds, tools, parts)
    ensures forall e :: e in Flat(parts) ==> !e.Ran?
  {
    hide IW.Handed;
    NoneInFlat(parts);
  }

  /** A reply with a side effect, on an input that is not affirmative: its calls are kept for an answer, its
      text is the response, and only what its directives started has run. */
  lemma ParkedReplyWaits(env: Env, w: World, path: seq<nat>, chain: seq<string>, s: AgentState, message: Option<string>,
                         input: string, text: string, calls: seq<Call>,
                             tools: ToolRun) returns (parts: seq<seq<Effect>>)
    requires CanStep(s) && Hears(s, message, input) && s.meta.pending.None?
    requires w(path).route == ToRuntime(Replied(text, calls, tools)) && !env.affirmative(input)
             && NeedsConfirmation(calls)
    ensures DirectivesDid(env, input, env.directives(text), tools, parts)
    ensures var r := RunStep(env, w, path, chain, s, message);
            && r.Ok? && r.value.effects == Flat(parts) + [Parked(calls)]
            && Left(s, r.value.state, Waiting, Some(calls), Some(text))
  {
    hide DirectivesDid, Flat, Stamp, DeferAll, DirectiveRuns, PlanRuns, NeedsConfirmation, Deferrals;
    parts := DirectiveRunsByLine(env, input, env.directives(text), tools);
  }

  /** A reply whose deferral raises does nothing more. */
  lemma FailedDeferralStops(env: Env, w: World, path: seq<nat>, chain: seq<string>, s: AgentState,
                            message: Option<string>, input: string, text: string, calls: seq<Call>, tools: ToolRun)
      returns (parts: seq<seq<Effect>>)
    requires CanStep(s) && Hears(s, message, input) && s.meta.pending.None?
    requires w(path).route == ToRuntime(Replied(text, calls, tools))
             && (env.affirmative(input) || !NeedsConfirmation(calls))
    requires DeferAll(env, w, path, chain, Begun(env, s), Deferrals(calls)).Err?
    ensures DirectivesDid(env, input, env.directives(text), tools, parts)
    ensures var f := DeferAll(env, w, path, chain, Begun(env, s), Deferrals(calls)).error;
            RunStep(env, w, path, chain, s, message) == Err(Failure(f.error, Flat(parts) + f.effects))
  {
    hide DirectivesDid, Flat, Stamp, DeferAll, DirectiveRuns, PlanRuns, NeedsConfirmation, Deferrals;
    parts := DirectiveRunsByLine(env, input, env.directives(text), tools);
  }

  /** Without an answer from the LLM the step completes and does nothing. */
  lemma UnavailableCompletes(env: Env, w: World, path: seq<nat>, chain: seq<string>, s: AgentState,
                             message: Option<string>)
    requires CanStep(s) && s.meta.pending.None? && w(path).route == ToRuntime(Unavailable)
    ensures var r := RunStep(env, w, path, chain, s, message);
            r.Ok? && r.value.effects == [] && Left(s, r.value.state, Completed, None, Some("[Runtime unavailable]"))
  {
    hide Stamp;
  }

  /** Anywhere but to the LLM: what the step ends in and answers with. An answer given earlier stays where
      the step gives none. */
  lemma RoutedStepAnswers(env: Env, w: World, path: seq<nat>, chain: seq<string>, s: AgentState,
                          message: Option<string>)
    requires CanStep(s) && !w(path).route.ToRuntime? && w(path).route != ToCouncil(CouncilFailed(""))
    ensures var r, route := RunStep(env, w, path, chain, s, message), w(path).route;
            && r.Ok? && r.value.effects == []
            && var (to, answer) :=
                 match route {
                   case ToJobs(true) => (Waiting, s.response)
                   case ToWorkflow(WorkflowWaiting) => (Waiting, s.response)
                   case ToWorkflow(WorkflowCompleted(reply)) => (Completed, Some(reply))
                   case ToWorkflow(WorkflowUnconfigured) => (Completed, s.response)
                   case ToWorkflow(_) => (Failed, s.response)
                   case ToCouncil(CouncilDecided(reply)) => (Completed, Some(reply))
                   case ToCouncil(CouncilMissing) => (Completed, s.response)
                   case ToCouncil(CouncilFailed(_)) => (Failed, s.response)
                   case _ => (Completed, Some("Agent completed without producing output."))
                 };
               Left(s, r.value.state, to, s.meta.pending, answer)
  {
    hide Stamp, DeferAll, DirectiveRuns, PlanRuns, NeedsConfirmation, Deferrals, Confirm;
  }

  /** Which steps are refused, with which error, and that an agent never activated fails. */
  lemma StepsRefused(env: Env, w: World, path: seq<nat>, chain: seq<string>, s: AgentState, message: Option<string>)
    ensures var r := RunStep(env, w, path, chain, s, message);
            && (s.lifecycle.Completed? || s.lifecycle.Failed? ==> r == Err(Failure(InTerminalState, [])))
            && (s.lifecycle.Created? || s.lifecycle.Suspended? || s.lifecycle.AwaitingChildren? ==>
                  r == Err(Failure(NotActive, [])))
            && (s.lifecycle.Activated? || s.lifecycle.Running? || s.lifecycle.Waiting? ==>
                  s.message.None? ==>
                    && r.Ok? && r.value.effects == [] && r.value.state.lifecycle.Failed? && r.value.state.meta == s.meta
                    && r.value.state.response == s.response && r.value.state.version == s.version + 2)
  {
    hide Stamp, DeferAll, DirectiveRuns, PlanRuns, NeedsConfirmation, Deferrals, Confirm;
  }
}
