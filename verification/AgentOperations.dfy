/** The supervisor's life-cycle operations: what each accepts and refuses, what it leaves, and what two of
    them do to one another; who may defer to whom; and which tool names need a confirmation. */
module AgentOperations {
  import opened Wrappers
  import opened AgentStates
  import opened Supervisor

  // ---------------------------------------------------------------- one transition

  /** The timestamps after a move from `a` to `b` at time `now`. */
  ghost predicate Stamps(before: map<string, Time>, after: map<string, Time>, a: Lifecycle, b: Lifecycle, now: Time) {
    && (a.Created? && b.Activated? ==> "activated_at" in after && after["activated_at"] == now)
    && (b.Running? ==>
          && "last_run_at" in after && after["last_run_at"] == now && "first_run_at" in after
          && after["first_run_at"] == if "first_run_at" in before then before["first_run_at"] else now)
    && (b.Completed? ==> "completed_at" in after && after["completed_at"] == now)
    && (b.Failed? ==> "failed_at" in after && after["failed_at"] == now)
    && (b.Suspended? ==> "suspended_at" in after && after["suspended_at"] == now)
    && (forall key :: !Touched(a, b, key) ==>
        (key in after <==> key in before) && (key in before ==> after[key] == before[key]))
  }

  predicate Touched(a: Lifecycle, b: Lifecycle, key: string) {
    || (a.Created? && b.Activated? && key == "activated_at")
    || (b.Running? && (key == "first_run_at" || key == "last_run_at"))
    || (b.Completed? && key == "completed_at") || (b.Failed? && key == "failed_at")
    || (b.Suspended? && key == "suspended_at")
  }

  /** `t` is `s` moved to `to`: one version on, the move logged at its time if it is one, and stamped. */
  ghost predicate Moved(env: Env, s: AgentState, t: AgentState, to: Lifecycle) {
    && t.agentId == s.agentId && t.lifecycle == to && t.version == s.version + 1
    && (to == s.lifecycle ==> t.history == s.history)
    && (to != s.lifecycle ==> t.history == s.history + [LifecycleEvent(Some(s.lifecycle), to, env.clock(s.version))])
    && Stamps(s.timestamps, t.timestamps, s.lifecycle, to, env.clock(s.version))
  }

  lemma WithMoves(env: Env, s: AgentState, to: Lifecycle)
    ensures Moved(env, s, With(s, to, Now(env, s)), to)
  {
    StampStamps(s.timestamps, s.lifecycle, to, Now(env, s));
  }

  lemma StampStamps(t: map<string, Time>, a: Lifecycle, b: Lifecycle, now: Time)
    ensures Stamps(t, Stamp(t, a, b, now), a, b, now)
  {
    assert "first_run_at" != "last_run_at" by { assert "first_run_at"[0] == 'f' && "last_run_at"[0] == 'l'; }
  }

  lemma MovedAnyway(env: Env, s: AgentState, t: AgentState, u: AgentState, to: Lifecycle)
    requires Moved(env, s, t, to) && u == t.(message := u.message, response := u.response, meta := u.meta)
    ensures Moved(env, s, u, to)
  {
    hide Stamps;
  }

  // ---------------------------------------------------------------- operations

  /** A suspended agent keeps everything but its state; only active agents can be suspended, with a reason. */
  lemma Suspending(env: Env, s: AgentState, reason: string)
    ensures var r := SuspendAgent(env, s, reason);
            && (r.Ok? <==> (s.lifecycle.Running? || s.lifecycle.Waiting?) && reason != "")
            && (r.Ok? ==>
                  && Moved(env, s, r.value, Suspended)
                  && r.value.message == s.message && r.value.response == s.response && r.value.meta == s.meta)
            && (r.Err? ==> r.error == if s.lifecycle.Completed? || s.lifecycle.Failed? then InTerminalState
                                      else if s.lifecycle.Running? || s.lifecycle.Waiting? then EmptyReason
                                      else NotActive)
  {
    hide Moved, Stamp;
    WithMoves(env, s, Suspended);
  }

  lemma Resuming(env: Env, s: AgentState)
    ensures var r := ResumeAgent(env, s);
            && (r.Ok? <==> s.lifecycle.Suspended?)
            && (r.Ok? ==>
                  && Moved(env, s, r.value, Running)
                  && r.value.message == s.message && r.value.response == s.response && r.value.meta == s.meta)
            && (r.Err? ==> r.error == if s.lifecycle.Completed? || s.lifecycle.Failed? then InTerminalState
                                      else NotSuspended)
  {
    hide Moved, Stamp;
    WithMoves(env, s, Running);
  }

  /** Cancelling fails the agent, from any state that is not terminal. */
  lemma Cancelling(env: Env, s: AgentState, reason: string)
    ensures var r := CancelAgent(env, s, reason);
            && (r.Ok? <==> !s.lifecycle.Completed? && !s.lifecycle.Failed? && reason != "")
            && (r.Ok? ==>
                  && Moved(env, s, r.value, Failed)
                  && r.value.message == s.message && r.value.response == s.response && r.value.meta == s.meta)
            && (r.Err? ==> r.error == if s.lifecycle.Completed? || s.lifecycle.Failed? then InTerminalState
                                      else EmptyReason)
  {
    hide Moved, Stamp;
    WithMoves(env, s, Failed);
  }

  lemma Completing(env: Env, s: AgentState, reply: string)
    ensures var r := CompleteAgent(env, s, reply);
            && (r.Ok? <==> !s.lifecycle.Completed? && !s.lifecycle.Failed?)
            && (r.Ok? ==>
                  && Moved(env, s, r.value, Completed)
                  && r.value.message == s.message && r.value.response == Some(reply) && r.value.meta == s.meta)
            && (r.Err? ==> r.error == InTerminalState)
  {
    hide Moved, Stamp;
    WithMoves(env, s, Completed);
    if CompleteAgent(env, s, reply).Ok? {
      MovedAnyway(env, s, With(s, Completed, Now(env, s)), CompleteAgent(env, s, reply).value, Completed);
    }
  }

  /** Activation is documented for CREATED agents, and accepted from every state that is not terminal. */
  lemma Activating(env: Env, s: AgentState, message: string, activates: bool)
    ensures var r := ActivateAgent(env, s, message, activates);
            && (r.Ok? <==> !s.lifecycle.Completed? && !s.lifecycle.Failed? && activates)
            && (r.Ok? ==>
                  && Moved(env, s, r.value, Activated)
                  && r.value.message == Some(message) && r.value.response == s.response && r.value.meta == s.meta)
            && (r.Err? ==> r.error == if s.lifecycle.Completed? || s.lifecycle.Failed? then InTerminalState
                                      else ActivationFailed)
  {
    hide Moved, Stamp;
    WithMoves(env, s, Activated);
    if ActivateAgent(env, s, message, activates).Ok? {
      MovedAnyway(env, s, With(s, Activated, Now(env, s)), ActivateAgent(env, s, message, activates).value, Activated);
    }
  }

  lemma Creating(env: Env, agentId: string)
    ensures var r := CreateAgent(env, agentId);
            && (r.Ok? <==> agentId != "" && agentId in env.defers)
            && (r.Err? ==> r.error == if agentId == "" then EmptyAgentId else UnknownAgent)
            && (r.Ok? ==>
                  && r.value.agentId == agentId && r.value.lifecycle.Created? && r.value.version == 1
                  && r.value.message.None? && r.value.response.None?
                  && r.value.timestamps == map["created_at" := env.clock(0)]
                  && r.value.history == [LifecycleEvent(None, Created, env.clock(0))]
                  && r.value.meta == Meta(0, None, 0, None, None))
  {
  }

  /** A tool result is noted on any agent, terminal or not, and changes nothing else but version and stamps. */
  lemma NotingToolResult(env: Env, s: AgentState, result: string)
    ensures var t := SetToolResult(env, s, result);
            && Moved(env, s, t, s.lifecycle) && t.message == s.message && t.response == s.response
            && t.meta.toolResult == Some(result) && t.meta.(toolResult := s.meta.toolResult) == s.meta
  {
    hide Moved, Stamp;
    WithMoves(env, s, s.lifecycle);
    MovedAnyway(env, s, With(s, s.lifecycle, Now(env, s)), SetToolResult(env, s, result), s.lifecycle);
  }

  /** A decomposed task brings its agent back RUNNING if all children completed, and fails it otherwise; an
      atomic one changes nothing. */
  lemma Decomposing(env: Env, s: AgentState, join: Option<Join>)
    ensures var r := DecomposeTask(env, s, join);
            && (r.Ok? <==> s.lifecycle.Running? || s.lifecycle.Waiting?)
            && (r.Err? ==> r.error == if s.lifecycle.Completed? || s.lifecycle.Failed? then InTerminalState
                else NotActive)
            && (r.Ok? && join.None? ==> r.value == s)
            && (r.Ok? && join.Some? ==>
                  var t := r.value;
                  && t.version == s.version + 3 && |t.history| == |s.history| + 2 && s.history <= t.history
                  && t.history[|s.history|].target == AwaitingChildren
                  && (join.value.JoinCompleted? ==> t.lifecycle.Running?)
                  && (join.value.JoinFailedOrTimedOut? ==> t.lifecycle.Failed?)
                  && t.meta == s.meta && t.message == s.message && t.response == s.response)
  {
    hide Stamp;
  }

  // ---------------------------------------------------------------- two operations

  /** Suspending an active agent and resuming it brings it back RUNNING, with nothing lost but its place
      in the log: two more entries, and everything else as it was. */
  lemma ResumeUndoesSuspend(env: Env, s: AgentState, reason: string)
    requires (s.lifecycle.Running? || s.lifecycle.Waiting?) && reason != ""
    ensures var suspended := SuspendAgent(env, s, reason);
            && suspended.Ok?
            && var resumed := ResumeAgent(env, suspended.value);
               && resumed.Ok?
               && var t := resumed.value;
                  && t.lifecycle.Running? && t.version == s.version + 2 && t.agentId == s.agentId
                  && t.meta == s.meta && t.message == s.message && t.response == s.response
                  && t.history == s.history + [LifecycleEvent(Some(s.lifecycle), Suspended, env.clock(s.version)),
                                               LifecycleEvent(Some(Lifecycle.Suspended), Running,
                                                              env.clock(s.version + 1))]
  {
    hide Stamps, Stamp;
    Suspending(env, s, reason);
    Resuming(env, SuspendAgent(env, s, reason).value);
  }

  /** A cancelled or completed agent refuses whatever follows. */
  lemma EndedAgentsRefuse(env: Env, s: AgentState, reason: string, message: string, reply: string, join: Option<Join>)
    requires s.lifecycle.Completed? || s.lifecycle.Failed?
    ensures SuspendAgent(env, s, reason) == Err(InTerminalState) && ResumeAgent(env, s) == Err(InTerminalState)
    ensures CancelAgent(env, s, reason) == Err(InTerminalState) && CompleteAgent(env, s, reply) == Err(InTerminalState)
    ensures ActivateAgent(env, s, message, true) == Err(InTerminalState)
    ensures DecomposeTask(env, s, join) == Err(InTerminalState)
  {
    Suspending(env, s, reason);
    Resuming(env, s);
    Cancelling(env, s, reason);
    Completing(env, s, reply);
    Activating(env, s, message, true);
    Decomposing(env, s, join);
  }

  // ---------------------------------------------------------------- who may defer to whom

  /** A deferral is authorised exactly when the agent is active, the target is another registered agent it
      may defer to, and the delegate stays below the maximal depth; each refusal says which is missing. */
  lemma Authorising(env: Env, s: AgentState, target: string, maxDepth: nat)
    ensures var r := Authorise(env, s, target, maxDepth, false);
            var known := s.agentId in env.defers && target in env.defers;
            && (r.Ok? <==>
                  && (s.lifecycle.Running? || s.lifecycle.Waiting?) && target != s.agentId && known
                  && target in env.defers[s.agentId] && s.meta.depth + 1 < maxDepth)
            && (r.Ok? ==> r.value == s.meta.depth + 1)
            && (r.Err? ==>
                  r.error == if s.lifecycle.Completed? || s.lifecycle.Failed? then InTerminalState
                             else if !s.lifecycle.Running? && !s.lifecycle.Waiting? then NotActive
                             else if target == s.agentId then SelfReferential
                             else if !known then UnknownAgent
                             else if target !in env.defers[s.agentId] then NotAllowed
                             else DepthExceeded)
  {
  }

  /** Without the authorisation check any registered target will do, within the same depth. */
  lemma AuthorisingUnchecked(env: Env, s: AgentState, target: string, maxDepth: nat)
    ensures var r := Authorise(env, s, target, maxDepth, true);
            && (r.Ok? <==> (s.lifecycle.Running? || s.lifecycle.Waiting?) && target in env.defers
                           && s.meta.depth + 1 < maxDepth)
            && (r.Ok? ==> r.value == s.meta.depth + 1)
  {
  }

  // ---------------------------------------------------------------- which tools need a confirmation

  /** The words that make a tool a side effect. */
  predicate IsActionWord(w: string) {
    || w == "send" || w == "delete" || w == "forward" || w == "draft" || w == "create" || w == "cancel"
    || w == "archive"
    || w == "move" || w == "mark" || w == "trash" || w == "untrash" || w == "modify" || w == "update" || w == "remove"
  }

  lemma WordsAreListed(w: string)
    ensures w in SIDE_EFFECTS <==> IsActionWord(w)
  {
    assert SIDE_EFFECTS == ["send", "delete", "forward", "draft", "create", "cancel", "archive", "move",
                            "mark", "trash", "untrash", "modify", "update", "remove"];
  }

  lemma {:induction false} AfterTheLastDot(a: string, b: string)
    requires '.' !in b
    ensures LastSegment(a + "." + b) == b && LastSegment(b) == b
  {
    var s := a + "." + b;
    assert s[|a|] == '.';
    if a == "" {
      assert s[1..] == b;
    } else {
      assert s[1..] == a[1..] + "." + b;
      AfterTheLastDot(a[1..], b);
    }
  }

  /** Lower case, letter by letter. */
  predicate LowerCased(s: string, t: string) {
    |t| == |s| && forall i :: 0 <= i < |s| ==> LowerOf(s[i], t[i])
  }

  predicate LowerOf(c: char, d: char) {
    if 'A' <= c <= 'Z' then 'a' <= d <= 'z' && d as int - 'a' as int == c as int - 'A' as int else d == c
  }

  lemma LoweringLowers(s: string, t: string)
    ensures Lower(s) == t <==> LowerCased(s, t)
  {
    if LowerCased(s, t) {
      forall i | 0 <= i < |s| ensures Lower(s)[i] == t[i] { assert LowerOf(s[i], t[i]); }
    }
  }

  /** A tool `primitive.<path>.<action>` needs a confirmation exactly when its action, in any case, begins with
      one of the words, unless it is one of the local todo tools. */
  lemma ConfirmedNames(path: string, action: string, lowered: string)
    requires '.' !in action && LowerCased(action, lowered) && path != ""
    ensures NamesSideEffect("primitive." + path + "." + action) <==>
            && !("stdlib.todo." <= path + "." + action)
            && exists w: string :: IsActionWord(w) && w <= lowered
  {
    hide IsActionWord, SIDE_EFFECTS;
    var rest := path + "." + action;
    var name := "primitive." + path + "." + action;
    assert name == PRIMITIVE + rest && name[|PRIMITIVE|..] == rest;
    AfterTheLastDot(path, action);
    LoweringLowers(action, lowered);
    forall w: string ensures w in SIDE_EFFECTS <==> IsActionWord(w) { WordsAreListed(w); }
    if exists w: string :: IsActionWord(w) && w <= lowered {
      var w: string :| IsActionWord(w) && w <= lowered;
      var i :| 0 <= i < |SIDE_EFFECTS| && SIDE_EFFECTS[i] == w;
    }
    if exists i :: 0 <= i < |SIDE_EFFECTS| && SIDE_EFFECTS[i] <= lowered {
      var i :| 0 <= i < |SIDE_EFFECTS| && SIDE_EFFECTS[i] <= lowered;
      assert SIDE_EFFECTS[i] in SIDE_EFFECTS;
    }
  }
}
