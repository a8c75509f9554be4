/** The supervisor's lifecycle operations, one agent step, and deferral from agent to agent. */
module Supervisor {
  import opened Wrappers
  import opened AgentStates
  import F = FollowUpLoop
  import WE = WorkflowEngine
  import WI = WorkflowInvoker
  import IW = InlineWorkflows

  const DEFAULT_MAX_DEPTH: nat := 3
  const MAX_SETTLE_ITERATIONS: nat := 20

  datatype Error =
    | UnknownAgent | EmptyAgentId | ActivationFailed
    | InTerminalState | NotActive | NotSuspended | EmptyReason
    | SelfReferential | NotAllowed | DepthExceeded | Interrupted

  // ---------------------------------------------------------------- the outside world

  /** What the tools of a reply do: the result of its j-th own call, and the follow-up rounds, of
      which `rounds` bounds the number. `started` and `directed` answer the workflow that the j-th own
      call or the j-th directive line starts; `arguments` are those of the j-th own call. */
  datatype ToolRun = ToolRun(
    results: nat -> F.Execution, followUps: F.World, rounds: nat,
    arguments: nat -> WE.Value, started: nat -> WI.World, directed: nat -> WI.World)

  /** What an LLM reply holds, when the backend answers. */
  datatype LlmReply = Unavailable | Replied(text: string, calls: seq<Call>, tools: ToolRun)

  /** How the workflow branch of a step ends. */
  datatype WorkflowEnd = WorkflowUnconfigured | WorkflowMissing | WorkflowCompleted(reply: string) | WorkflowFailed |
      WorkflowWaiting

  datatype CouncilEnd = CouncilMissing | CouncilDecided(reply: string) | CouncilFailed(message: string)

  /** Where a message is routed, and how that destination behaves. */
  datatype Route =
    | ToRuntime(reply: LlmReply)
    | ToJobs(dispatched: bool)
    | ToWorkflow(end: WorkflowEnd)
    | ToCouncil(council: CouncilEnd)
    | ToNothing

  /** The behaviour of one step: its route, whether the agent of the step could be activated, and
      whether the step raises after its tools have run. */
  datatype Script = Script(route: Route, activates: bool, interrupted: bool)

  /** One script for every step that a call can lead to: nested steps are addressed by the
      positions of the deferrals that lead to them. */
  type World = seq<nat> -> Script

  /** `defers[a]` are the agents `a` may defer to; its keys are the registered agents. `directives` lists
      the `/invoke-workflow` lines of a text, and `toolName` is the tool that the inline executor takes a
      workflow step's configuration to mean. */
  datatype Env = Env(
    defers: map<string, seq<string>>,
    affirmative: string -> bool,
    delegatePrompt: (string, string, string) -> string,
    clock: nat -> Time,
    workflows: WE.Registry,
    engine: WE.Env,
    directives: string -> seq<IW.Directive>,
    toolName: WE.Record -> string)

  /** What a call does besides returning a state: a primitive of a reply or of a follow-up round
      executed, a workflow's tool step handed to the inline executor, a batch parked or consumed, a hop
      to a delegate. */
  datatype Effect =
    | Ran(input: string, call: Call)
    | FollowedUp(input: string, name: string)
    | HandedOver(input: string, config: WE.Record)
    | Parked(batch: seq<Call>)
    | Consumed(input: string, batch: seq<Call>, executed: bool)
    | Hop(chain: seq<string>)

  datatype Stepped = Stepped(state: AgentState, effects: seq<Effect>)

  /** A call that raises returns no state, but what it did before raising stays done. */
  datatype Failure = Failure(error: Error, effects: seq<Effect>)

  /** What a call did, whether it returned or raised. */
  function Done(r: Result<Stepped, Failure>): seq<Effect> {
    match r
    case Ok(v) => v.effects
    case Err(f) => f.effects
  }

  // ---------------------------------------------------------------- simple operations

  function Now(env: Env, s: AgentState): Time {
    env.clock(s.version)
  }

  function CreateAgent(env: Env, agentId: string): Result<AgentState, Error> {
    if agentId == "" then Err(EmptyAgentId)
    else if agentId !in env.defers then Err(UnknownAgent)
    else Ok(NewState(agentId, env.clock(0)))
  }

  /** Guards only against terminal states, not for CREATED as its description says. */
  function ActivateAgent(env: Env, s: AgentState, message: string, activates: bool): Result<AgentState, Error> {
    if IsTerminal(s.lifecycle) then Err(InTerminalState)
    else if !activates then Err(ActivationFailed)
    else Ok(With(s, Activated, Now(env, s)).(message := Some(message)))
  }

  function SuspendAgent(env: Env, s: AgentState, reason: string): Result<AgentState, Error> {
    if IsTerminal(s.lifecycle) then Err(InTerminalState)
    else if !IsActive(s.lifecycle) then Err(NotActive)
    else if reason == "" then Err(EmptyReason)
    else Ok(With(s, Suspended, Now(env, s)))
  }

  function ResumeAgent(env: Env, s: AgentState): Result<AgentState, Error> {
    if IsTerminal(s.lifecycle) then Err(InTerminalState)
    else if !s.lifecycle.Suspended? then Err(NotSuspended)
    else Ok(With(s, Running, Now(env, s)))
  }

  function CancelAgent(env: Env, s: AgentState, reason: string): Result<AgentState, Error> {
    if IsTerminal(s.lifecycle) then Err(InTerminalState)
    else if reason == "" then Err(EmptyReason)
    else Ok(With(s, Failed, Now(env, s)))
  }

  function CompleteAgent(env: Env, s: AgentState, reply: string): Result<AgentState, Error> {
    if IsTerminal(s.lifecycle) then Err(InTerminalState)
    else Ok(With(s, Completed, Now(env, s)).(response := Some(reply)))
  }

  /** Has no guard at all: it rewrites the metadata of a terminal agent too. */
  function SetToolResult(env: Env, s: AgentState, result: string): AgentState {
    With(s, s.lifecycle, Now(env, s)).(meta := s.meta.(toolResult := Some(result)))
  }

  /** How waiting for the children of a decomposition ends; `None` is a task judged atomic. */
  datatype Join = JoinCompleted | JoinFailedOrTimedOut

  function DecomposeTask(env: Env, s: AgentState, join: Option<Join>): Result<AgentState, Error> {
    if IsTerminal(s.lifecycle) then Err(InTerminalState)
    else if !IsActive(s.lifecycle) then Err(NotActive)
    else if join.None? then Ok(s)
    else
      var waiting := With(s, AwaitingChildren, Now(env, s));
      var noted := With(waiting, AwaitingChildren, Now(env, waiting));
      Ok(With(noted, if join.value.JoinCompleted? then Running else Failed, Now(env, noted)))
  }

  // ---------------------------------------------------------------- tool calls

  const PRIMITIVE := "primitive."
  const SAFE_PREFIX := "stdlib.todo."
  const SIDE_EFFECTS := ["send", "delete", "forward", "draft", "create", "cancel", "archive", "move",
                         "mark", "trash", "untrash", "modify", "update", "remove"]

  predicate IsPrimitive(c: Call) {
    PRIMITIVE <= c.name
  }

  function Lower(s: string): string {
    seq(|s|, i requires 0 <= i < |s| => if 'A' <= s[i] <= 'Z' then s[i] - 'A' + 'a' else s[i])
  }

  /** The part after the last dot. */
  function LastSegment(s: string): string {
    if '.' !in s then s else LastSegment(s[1..])
  }

  predicate NamesSideEffect(name: string) {
    && PRIMITIVE <= name
    && !(SAFE_PREFIX <= name[|PRIMITIVE|..])
    && exists i :: 0 <= i < |SIDE_EFFECTS| && SIDE_EFFECTS[i] <= Lower(LastSegment(name[|PRIMITIVE|..]))
  }

  predicate HasSideEffect(c: Call) {
    NamesSideEffect(c.name)
  }

  predicate NeedsConfirmation(calls: seq<Call>) {
    exists i :: 0 <= i < |calls| && HasSideEffect(calls[i])
  }

  /** The primitive calls of a confirmed batch, in order, as executions on input `input`. */
  function Executions(input: string, calls: seq<Call>): seq<Effect> {
    if |calls| == 0 then []
    else
      var last := calls[|calls| - 1];
      Executions(input, calls[..|calls| - 1]) + (if IsPrimitive(last) then [Ran(input, last)] else [])
  }

  /** The names of the own calls that ran and gave a result: what the follow-up loop starts from. */
  function FirstExecuted(calls: seq<Call>, tools: ToolRun): seq<string> {
    if |calls| == 0 then []
    else
      var n := |calls| - 1;
      FirstExecuted(calls[..n], tools)
      + (if IsPrimitive(calls[n]) && tools.followUps.hasExecutor
         && tools.results(n).Result? then [calls[n].name] else [])
  }

  /** The executions of the first `n` calls of a follow-up reply. No gate looks at them. */
  function RoundRuns(input: string, w: F.World, calls: seq<F.ToolCall>): seq<Effect> {
    if |calls| == 0 then []
    else
      var last := calls[|calls| - 1];
      RoundRuns(input, w, calls[..|calls| - 1])
          + (if F.IsPrimitive(last) && w.hasExecutor then [FollowedUp(input, last.name)] else [])
  }

  /** The executions of the first `n` follow-up rounds. */
  function FollowUpRuns(input: string, w: F.World, executed: seq<string>, n: nat): seq<Effect> {
    if n == 0 then []
    else
      FollowUpRuns(input, w, executed, n - 1)
      + (match F.Iterations(w, executed, n)
         case Continue(st) => RoundRuns(input, w, w.reply(n - 1))
         case Exit(_, _) => [])
  }

  function FollowUps(input: string, calls: seq<Call>, tools: ToolRun): seq<Effect> {
    FollowUpRuns(input, tools.followUps, FirstExecuted(calls, tools), tools.rounds)
  }

  // ---------------------------------------------------------------- workflows started by a reply

  function HandOver(input: string, configs: seq<WE.Record>): seq<Effect> {
    seq(|configs|, i requires 0 <= i < |configs| => HandedOver(input, configs[i]))
  }

  /** The workflows that the first directives of a text start, one after the other. No gate looks at them. */
  function DirectiveRuns(env: Env, input: string, ds: seq<IW.Directive>, tools: ToolRun): seq<Effect> {
    if |ds| == 0 then []
    else
      var n := |ds| - 1;
      DirectiveRuns(env, input, ds[..n], tools)
      + HandOver(input, IW.Handed(env.engine, env.workflows, tools.followUps.hasExecutor, tools.directed(n),
                                  IW.DirectiveTarget(ds[n].name), ds[n].params))
  }

  /** The n-th call of a reply: a workflow, a primitive, or neither. */
  function CallRuns(env: Env, input: string, c: Call, n: nat, tools: ToolRun): seq<Effect> {
    if IW.EXECUTE <= c.name then
      HandOver(input, IW.Handed(env.engine, env.workflows, tools.followUps.hasExecutor, tools.started(n),
                                c.name[|IW.EXECUTE|..], map["args" := tools.arguments(n)]))
    else if IsPrimitive(c) then [Ran(input, c)]
    else []
  }

  /** The own calls of a reply, in order. */
  function OwnRuns(env: Env, input: string, calls: seq<Call>, tools: ToolRun): seq<Effect> {
    if |calls| == 0 then []
    else
      var n := |calls| - 1;
      OwnRuns(env, input, calls[..n], tools) + CallRuns(env, input, calls[n], n, tools)
  }

  /** What a reply does that passes the gate, besides its deferrals: its own calls and the follow-up rounds. */
  function PlanRuns(env: Env, input: string, calls: seq<Call>, tools: ToolRun): seq<Effect> {
    OwnRuns(env, input, calls, tools) + FollowUps(input, calls, tools)
  }

  /** The deferrals of a batch that name a target and a prompt. */
  function Deferrals(calls: seq<Call>): seq<Call> {
    if |calls| == 0 then []
    else
      var last := calls[|calls| - 1];
      Deferrals(calls[..|calls| - 1])
      + (if last.name == "defer_to" && last.target != "" && last.prompt != "" then [last] else [])
  }

  // ---------------------------------------------------------------- depth guard and authorisation

  function CheckDepth(maxDepth: nat, depth: nat): Result<(), Error> {
    if depth >= maxDepth then Err(DepthExceeded) else Ok(())
  }

  function NextDepth(maxDepth: nat, depth: nat): Result<nat, Error> {
    match CheckDepth(maxDepth, depth + 1)
    case Err(e) => Err(e)
    case Ok(_) => Ok(depth + 1)
  }

  function Resolve(env: Env, caller: string, target: string): Result<(), Error> {
    if caller == target then Err(SelfReferential)
    else if caller !in env.defers || target !in env.defers then Err(UnknownAgent)
    else if target !in env.defers[caller] then Err(NotAllowed)
    else Ok(())
  }

  /** Without the authorisation check the target need only be registered. */
  function Lookup(env: Env, caller: string, target: string, skip: bool): Result<(), Error> {
    if !skip then Resolve(env, caller, target)
    else if target in env.defers then Ok(()) else Err(UnknownAgent)
  }

  /** Everything `defer_to_agent` checks before it touches a state: the depth of the delegate. */
  function Authorise(env: Env, s: AgentState, target: string, maxDepth: nat, skip: bool): Result<nat, Error> {
    if IsTerminal(s.lifecycle) then Err(InTerminalState)
    else if !IsActive(s.lifecycle) then Err(NotActive)
    else
      match Lookup(env, s.agentId, target, skip)
      case Err(e) => Err(e)
      case Ok(_) => NextDepth(maxDepth, s.meta.depth)
  }

  /** The measure of the recursion between steps and deferrals. */
  function Headroom(depth: nat): nat {
    if depth < DEFAULT_MAX_DEPTH then DEFAULT_MAX_DEPTH - depth else 0
  }

  // ---------------------------------------------------------------- one step

  function Text(s: AgentState, message: Option<string>): string
    requires s.message.Some?
  {
    if message.Some? && message.value != "" then message.value else s.message.value
  }

  /** A step that ends by moving to `to`, with metadata `meta`, effects `effects`. */
  function End(env: Env, s: AgentState, to: Lifecycle, meta: Meta, response: Option<string>,
               effects: seq<Effect>): Result<Stepped, Failure> {
    var moved := With(s, to, Now(env, s)).(meta := meta);
    Ok(Stepped(if response.Some? then moved.(response := response) else moved, effects))
  }

  /** The end of a step whose message goes anywhere but to the LLM. */
  function Elsewhere(env: Env, s: AgentState, meta: Meta, route: Route): (r: Result<Stepped, Failure>)
    requires !route.ToRuntime?
    ensures r.Ok? ==> r.value.state.meta.depth == meta.depth
  {
    match route
    case ToJobs(dispatched) =>
      if dispatched then End(env, s, Waiting, meta, None, [])
      else End(env, s, Completed, meta, Some("Agent completed without producing output."), [])
    case ToWorkflow(end) =>
      (match end
       case WorkflowUnconfigured => End(env, s, Completed, meta, None, [])
       case WorkflowMissing => End(env, s, Failed, meta, None, [])
       case WorkflowCompleted(reply) => End(env, s, Completed, meta, Some(reply), [])
       case WorkflowFailed => End(env, s, Failed, meta, None, [])
       case WorkflowWaiting => End(env, s, Waiting, meta, None, []))
    case ToCouncil(council) =>
      (match council
       case CouncilMissing => End(env, s, Completed, meta, None, [])
       case CouncilDecided(reply) => End(env, s, Completed, meta, Some(reply), [])
       case CouncilFailed(e) => if e == "" then Err(Failure(EmptyReason, [])) else End(env, s, Failed, meta, None, []))
    case ToNothing => End(env, s, Completed, meta, Some("Agent completed without producing output."), [])
  }

  /** One agent iteration: to RUNNING, route, dispatch. `chain` lists the agents from the first
      delegator down to this one; `path` addresses this step's script. */
  function RunStep(env: Env, w: World, path: seq<nat>, chain: seq<string>, s: AgentState, message: Option<string>)
    : (r: Result<Stepped, Failure>)
    ensures r.Ok? ==> r.value.state.meta.depth == s.meta.depth
    decreases Headroom(s.meta.depth), 3, 0
  {
    if IsTerminal(s.lifecycle) then Err(Failure(InTerminalState, []))
    else if !(s.lifecycle.Activated? || IsActive(s.lifecycle)) then Err(Failure(NotActive, []))
    else
      var started := With(s, Running, Now(env, s));
      var meta := started.meta.(totalRoutes := started.meta.totalRoutes + 1);
      if started.message.None? then End(env, started, Failed, started.meta, None, [])
      else
        var input := Text(started, message);
        match w(path).route
        case ToRuntime(reply) =>
          if meta.pending.Some? then Confirm(env, started, meta, input, w(path).interrupted)
          else
            (match reply
             case Unavailable => End(env, started, Completed, meta, Some("[Runtime unavailable]"), [])
             case Replied(text, calls, tools) =>
               var directed := DirectiveRuns(env, input, env.directives(text), tools);
               if NeedsConfirmation(calls) && !env.affirmative(input) then
                 End(env, started, Waiting, meta.(pending := Some(calls)), Some(text), directed + [Parked(calls)])
               else
                 match DeferAll(env, w, path, chain, started, Deferrals(calls))
                 case Err(f) => Err(Failure(f.error, directed + f.effects))
                 case Ok(d) =>
                   var effects := directed + d.effects + PlanRuns(env, input, calls, tools);
                   if w(path).interrupted then Err(Failure(Interrupted, effects))
                   else End(env, d.state, Completed, meta, Some(text), effects))
        case elsewhere => Elsewhere(env, started, meta, elsewhere)
  }

  /** A pending batch is taken out of the metadata, then executed or cancelled. If the call raises
      after the execution the metadata is not stored. */
  function Confirm(env: Env, s: AgentState, meta: Meta, input: string, interrupted: bool): (r: Result<Stepped, Failure>)
    requires meta.pending.Some?
    ensures r.Ok? ==> r.value.state.meta.depth == meta.depth
  {
    var batch := meta.pending.value;
    var cleared := meta.(pending := None);
    if env.affirmative(input) && interrupted then Err(Failure(Interrupted, Executions(input, batch)))
    else if env.affirmative(input) then
      End(env, s, Activated, cleared, Some("confirmed"), [Consumed(input, batch, true)] + Executions(input, batch))
    else
      End(env, s, Activated, cleared, Some("The action was cancelled based on your response."),
          [Consumed(input, batch, false)])
  }

  /** The loop over a reply's deferrals: each continues from the state the one before left. */
  function DeferAll(env: Env, w: World, path: seq<nat>, chain: seq<string>, s: AgentState, calls: seq<Call>)
    : (r: Result<Stepped, Failure>)
    ensures r.Ok? ==> r.value.state.meta.depth == s.meta.depth
    decreases Headroom(s.meta.depth), 2, |calls|
  {
    if |calls| == 0 then Ok(Stepped(s, []))
    else
      var n := |calls| - 1;
      match DeferAll(env, w, path, chain, s, calls[..n])
      case Err(e) => Err(e)
      case Ok(before) =>
        match Authorise(env, before.state, calls[n].target, DEFAULT_MAX_DEPTH, false)
        case Err(e) => Err(Failure(e, before.effects))
        case Ok(depth) =>
          match Delegate(env, w, path + [n], chain, before.state, calls[n].target, calls[n].prompt, depth)
          case Err(f) => Err(Failure(f.error, before.effects + f.effects))
          case Ok(after) => Ok(Stepped(after.state, before.effects + after.effects))
  }

  /** Suspend the delegator, create, activate and run the delegate, resume the delegator. */
  function Delegate(env: Env, w: World, path: seq<nat>, chain: seq<string>, s: AgentState,
                    target: string, prompt: string, depth: nat): (r: Result<Stepped, Failure>)
    ensures r.Ok? ==> r.value.state.meta.depth == s.meta.depth
    decreases Headroom(depth), 5, 0
  {
    match SuspendAgent(env, s, "Deferring")
    case Err(e) => Err(Failure(e, []))
    case Ok(suspended) =>
      var ask := env.delegatePrompt(s.agentId, if s.message.Some? then s.message.value else prompt, prompt);
      match CreateAgent(env, target)
      case Err(e) => Err(Failure(e, []))
      case Ok(created) =>
        match ActivateAgent(env, created, ask, w(path).activates)
        case Err(e) => Err(Failure(e, []))
        case Ok(activated) =>
          var ready := With(activated, activated.lifecycle,
                            Now(env, activated)).(meta := activated.meta.(depth := depth));
          var hop := [Hop(chain + [target])];
          match RunStep(env, w, path, chain + [target], ready, None)
          case Err(f) => Err(Failure(f.error, hop + f.effects))
          case Ok(first) =>
            match Settle(env, w, path, chain + [target], first, 0)
            case Err(f) => Err(Failure(f.error, hop + f.effects))
            case Ok(settled) =>
              match ResumeAgent(env, suspended)
              case Err(e) => Err(Failure(e, hop + settled.effects))
              case Ok(resumed) =>
                var result := DeferralResult(target, settled.state.lifecycle.Completed?,
                                             if settled.state.response.Some? then settled.state.response.value
                                             else "No response from delegate");
                Ok(Stepped(With(resumed, resumed.lifecycle,
                                Now(env, resumed)).(meta := resumed.meta.(deferral := Some(result))),
                                    hop + settled.effects))
  }

  /** The loop that would resume and re-run a delegate until it is terminal. */
  function Settle(env: Env, w: World, path: seq<nat>, chain: seq<string>, d: Stepped, iterations: nat)
    : (r: Result<Stepped, Failure>)
    requires iterations <= MAX_SETTLE_ITERATIONS
    ensures r.Ok? ==> r.value.state.meta.depth == d.state.meta.depth
    decreases Headroom(d.state.meta.depth), 4, MAX_SETTLE_ITERATIONS - iterations
  {
    if IsTerminal(d.state.lifecycle) || iterations == MAX_SETTLE_ITERATIONS then Ok(d)
    else
      match ResumeAgent(env, d.state)
      case Err(e) => Err(Failure(e, d.effects))
      case Ok(resumed) =>
        match RunStep(env, w, path, chain, resumed, None)
        case Err(f) => Err(Failure(f.error, d.effects + f.effects))
        case Ok(again) => Settle(env, w, path, chain, Stepped(again.state, d.effects + again.effects), iterations + 1)
  }

  /** `defer_to_agent` as callers use it directly. */
  function DeferToAgent(env: Env, w: World, s: AgentState, target: string, prompt: string, maxDepth: nat,
                        skip: bool): Result<Stepped, Failure> {
    match Authorise(env, s, target, maxDepth, skip)
    case Err(e) => Err(Failure(e, []))
    case Ok(depth) => Delegate(env, w, [], [s.agentId], s, target, prompt, depth)
  }
}
