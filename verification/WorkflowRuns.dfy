/** Whole runs of the capped loop: how long they can be, and that suspending them changes nothing. */
module WorkflowRuns {
  import opened Wrappers
  import opened Digraph
  import opened WorkflowEngine
  import opened WorkflowInvoker

  // ---------------------------------------------------------------- length of a run

  /** `s` stands in a well-formed definition without sub-workflows, ranked by `rank`. */
  ghost predicate Ready(reg: Registry, rank: map<string, nat>, s: WfState) {
    Standing(reg, rank, s) && NoSubWorkflows(reg[s.workflowId])
  }

  /** Whatever the outside world answers to a dispatched step, the run stands lower afterwards. */
  lemma ReactionDescends(cfg: Config, reg: Registry, rank: map<string, nat>, a: Answer, before: WfState, s: WfState,
                         id: string, o: Outcome)
    requires Ready(reg, rank, s) && Dispatching(o.kind) && before.workflowId == s.workflowId
             && DispatchedAt(reg, before, id, o)
    requires id in rank && Below(reg, rank, s, id)
    ensures React(cfg, reg, a, s, o).Proceed? ==> Landed(reg, rank, s, id, React(cfg, reg, a, s, o).wf)
    ensures React(cfg, reg, a, s, o).Stop? ==>
              React(cfg, reg, a, s, o).reason.ToolPending? || React(cfg, reg, a, s, o).reason.InputPending?
  {
    hide Landed, Standing, Below, FailStep, ResumeWithResult;
    assert !o.kind.SubWorkflow? by { assert !reg[s.workflowId].steps[id].stepType.SubWorkflowStep?; }
    if !o.kind.Continue? {
      forall e ensures Landed(reg, rank, s, id, FailStep(reg, s, o.stepId, e).0) { FailureLands(reg, rank, s, id, e); }
    }
    forall v ensures Landed(reg, rank, s, id, ResumeWithResult(cfg.env, s, o.stepId, v)) {
      ResumeLands(cfg.env, reg, rank, s, id, o.stepId, v);
    }
    StayingLands(reg, rank, s, id);
  }

  /** The dispatching calls come first, and the ranks of the places they are made at strictly fall. */
  ghost predicate Falling(rank: map<string, nat>, calls: seq<StepCall>) {
    && (forall i :: 0 <= i < |calls| && Dispatching(calls[i].outcome.kind) ==>
        calls[i].at.Some? && calls[i].at.value in rank)
    && (forall i :: 0 <= i < |calls| - 1 ==> Dispatching(calls[i].outcome.kind))
    && (forall i, j :: 0 <= i < j < |calls| && Dispatching(calls[j].outcome.kind) ==>
          && calls[i].at.Some? && calls[i].at.value in rank && calls[j].at.Some? && calls[j].at.value in rank
          && rank[calls[j].at.value] < rank[calls[i].at.value])
  }

  ghost predicate AllBelow(rank: map<string, nat>, calls: seq<StepCall>, bound: nat) {
    forall i :: 0 <= i < |calls| && Dispatching(calls[i].outcome.kind) ==>
      calls[i].at.Some? && calls[i].at.value in rank && rank[calls[i].at.value] < bound
  }

  lemma FallingCons(rank: map<string, nat>, id: string, o: Outcome, rest: seq<StepCall>)
    requires Dispatching(o.kind) && id in rank && Falling(rank, rest) && AllBelow(rank, rest, rank[id])
    ensures Falling(rank, [StepCall(Some(id), o)] + rest)
            && AllBelow(rank, [StepCall(Some(id), o)] + rest, rank[id] + 1)
  {
  }

  lemma {:induction false} LoopDescends(cfg: Config, reg: Registry, rank: map<string, nat>, w: World,
                                        s: WfState, meta: Record, k: nat, budget: nat)
    requires Ready(reg, rank, s)
    ensures var r := Loop(cfg, reg, w, s, meta, k, budget);
            && Falling(rank, r.calls) && AllBelow(rank, r.calls, StepsLeft(rank, s))
            && |r.calls| <= StepsLeft(rank, s) + 1
            && (budget > StepsLeft(rank, s) ==> r.reason != IterationLimit)
            && (r.reason == ToolPending ==>
                  && r.wf.workflowId == s.workflowId && Ready(reg, rank, r.wf) && !IsTerminal(r.wf)
                  && StepsLeft(rank, r.wf) + |r.calls| <= StepsLeft(rank, s))
    decreases budget
  {
    hide StepOnce, React, Ranked, WellFormed, NoSubWorkflows, StepGraph, ExitMeta, Falling, AllBelow;
    if budget == 0 {
      EmptyFalls(rank, StepsLeft(rank, s));
    } else {
      var (s', o) := StepOnce(cfg.env, reg, s);
      StepDescends(cfg.env, reg, rank, s);
      OneFalls(rank, StepCall(s.currentStepId, o), StepsLeft(rank, s));
      if Dispatching(o.kind) {
        var id := s.currentStepId.value;
        NoSubHere(reg, s, id);
        RankedHere(reg, rank, s, id);
        BelowLeavesLess(reg, rank, s', id);
        ReactionDescends(cfg, reg, rank, w(k), s, s', id, o);
        var reaction := React(cfg, reg, w(k), s', o);
        if reaction.Proceed? {
          assert Ready(reg, rank, reaction.wf);
          LoopDescends(cfg, reg, rank, w, reaction.wf, meta, k + 1, budget - 1);
          var rest := Loop(cfg, reg, w, reaction.wf, meta, k + 1, budget - 1);
          AllBelowWeakens(rank, rest.calls, StepsLeft(rank, reaction.wf), rank[id]);
          FallingCons(rank, id, o, rest.calls);
          assert StepsLeft(rank, s) == rank[id] + 1;
        }
      } else {
        TerminalReaction(cfg, reg, w(k), s', o);
      }
    }
  }

  lemma TerminalReaction(cfg: Config, reg: Registry, a: Answer, s: WfState, o: Outcome)
    requires !Dispatching(o.kind)
    ensures React(cfg, reg, a, s, o) == Stop(if o.kind.Done? then Finished else StepFailed)
  {
  }

  lemma NoSubHere(reg: Registry, s: WfState, id: string)
    requires Located(reg, s) && NoSubWorkflows(reg[s.workflowId]) && s.currentStepId == Some(id)
    ensures !reg[s.workflowId].steps[id].stepType.SubWorkflowStep?
  {
  }

  lemma RankedHere(reg: Registry, rank: map<string, nat>, s: WfState, id: string)
    requires Located(reg, s) && Ranked(StepGraph(reg[s.workflowId]), rank) && s.currentStepId == Some(id)
    ensures id in rank
  {
    assert id in StepGraph(reg[s.workflowId]);
  }

  lemma EmptyFalls(rank: map<string, nat>, bound: nat)
    ensures Falling(rank, []) && AllBelow(rank, [], bound)
  {
  }

  lemma OneFalls(rank: map<string, nat>, c: StepCall, bound: nat)
    ensures !Dispatching(c.outcome.kind) || (c.at.Some? && c.at.value in rank) ==> Falling(rank, [c])
    ensures !Dispatching(c.outcome.kind) || (c.at.Some? && c.at.value in rank && rank[c.at.value] < bound) ==>
            AllBelow(rank, [c], bound)
  {
  }

  lemma AllBelowWeakens(rank: map<string, nat>, calls: seq<StepCall>, small: nat, big: nat)
    requires AllBelow(rank, calls, small) && small <= big
    ensures AllBelow(rank, calls, big)
  {
  }

  /** A well-formed definition without sub-workflows, acyclic along every edge the engine can follow. */
  ghost predicate Simple(d: Definition) {
    WellFormed(d) && NoSubWorkflows(d) && Acyclic(StepGraph(d))
  }

  lemma SimpleIsRanked(reg: Registry, s: WfState) returns (rank: map<string, nat>)
    requires Located(reg, s) && Simple(reg[s.workflowId])
    ensures Ready(reg, rank, s) && StepsLeft(rank, s) <= |reg[s.workflowId].steps|
  {
    var g := StepGraph(reg[s.workflowId]);
    rank := TightRank(g);
    assert g.Keys == reg[s.workflowId].steps.Keys;
    assert |g| == |g.Keys| == |reg[s.workflowId].steps.Keys|;
  }

  /** A simple workflow of at most 49 steps, started or resumed anywhere, never meets the
      iteration limit whatever the LLM, tools and councils answer: it completes, fails or waits,
      dispatches no step twice, and makes at most one `step()` call more than it has steps. */
  lemma SmallWorkflowsEnd(cfg: Config, reg: Registry, w: World, s: WfState, meta: Record, k: nat)
    requires Located(reg, s) && Simple(reg[s.workflowId]) && |reg[s.workflowId].steps| < MAX_ITERATIONS
    ensures var r := Loop(cfg, reg, w, s, meta, k, MAX_ITERATIONS);
            && r.reason != IterationLimit
            && |r.calls| <= |reg[s.workflowId].steps| + 1
            && (forall i, j :: 0 <= i < j < |r.calls| && Dispatching(r.calls[j].outcome.kind) ==>
                  Dispatching(r.calls[i].outcome.kind) && r.calls[i].at != r.calls[j].at)
  {
    hide Loop, Simple;
    var rank := SimpleIsRanked(reg, s);
    LoopDescends(cfg, reg, rank, w, s, meta, k, MAX_ITERATIONS);
  }

  // ---------------------------------------------------------------- suspension is transparent

  /** The same world, except that a tool the original defers to a job is executed inline
      with the result the job will report. */
  function Inlined(w: World): World {
    (k: nat) =>
      if w(k).inline.None? && w(k).dispatch.Submitted? then w(k).(inline := Some(w(k).jobResult)) else w(k)
  }

  function LastStep(r: LoopResult): string {
    if |r.calls| == 0 then "" else r.calls[|r.calls| - 1].outcome.stepId
  }

  /** The result that the job submitted by the last step of `r` reports. */
  function JobResult(w: World, r: LoopResult): Value {
    w(if r.next == 0 then 0 else r.next - 1).jobResult
  }

  /** Keys that only carry a suspension across calls. */
  function Lasting(meta: Record): Record {
    meta - {"workflow_last_step_id", "workflow_last_result"}
  }

  function Untouched(meta: Record): Record {
    meta - {"workflow_state", "workflow_waiting_for", "workflow_last_step_id", "workflow_last_result"}
  }

  /** Equal up to what a suspension leaves in the metadata. */
  ghost predicate Agree(a: LoopResult, b: LoopResult) {
    && a.reason == b.reason && a.wf == b.wf && a.newErrors == b.newErrors
    && a.calls == b.calls && a.next == b.next && Lasting(a.meta) == Lasting(b.meta)
  }

  lemma ExitMetaAgrees(cfg: Config, m1: Record, m2: Record, reason: Reason, s: WfState, o: Outcome)
    requires Untouched(m1) == Untouched(m2)
    ensures Lasting(ExitMeta(cfg, m1, reason, s, o)) == Lasting(ExitMeta(cfg, m2, reason, s, o))
  {
    hide Freeze;
    var x1, x2 := ExitMeta(cfg, m1, reason, s, o), ExitMeta(cfg, m2, reason, s, o);
    assert forall key :: key in Untouched(m1) <==> key in Untouched(m2);
    forall key ensures (key in Lasting(x1) <==> key in Lasting(x2)) && (key in Lasting(x1) ==> x1[key] == x2[key]) {
      if key in Untouched(m1) { assert Untouched(m1)[key] == Untouched(m2)[key]; }
    }
  }

  lemma {:induction false} MetadataIsPassive(cfg: Config, reg: Registry, w: World, s: WfState,
                                             m1: Record, m2: Record, k: nat, budget: nat)
    requires Untouched(m1) == Untouched(m2)
    ensures Agree(Loop(cfg, reg, w, s, m1, k, budget), Loop(cfg, reg, w, s, m2, k, budget))
    decreases budget
  {
    hide StepOnce, React, ExitMeta, Lasting, Untouched;
    if budget == 0 {
      LimitMetaAgrees(m1, m2);
    } else {
      var (s', o) := StepOnce(cfg.env, reg, s);
      match React(cfg, reg, w(k), s', o)
      case Stop(reason) => ExitMetaAgrees(cfg, m1, m2, reason, s', o);
      case Proceed(wf, _) => MetadataIsPassive(cfg, reg, w, wf, m1, m2, k + 1, budget - 1);
    }
  }

  lemma LimitMetaAgrees(m1: Record, m2: Record)
    requires Untouched(m1) == Untouched(m2)
    ensures Lasting(m1 - {"workflow_state", "workflow_waiting_for"}) ==
            Lasting(m2 - {"workflow_state", "workflow_waiting_for"})
  {
    assert forall m: Record :: Lasting(m - {"workflow_state", "workflow_waiting_for"}) == Untouched(m);
  }

  /** How one iteration changes when deferred tools are executed inline instead. */
  lemma InlinedReaction(cfg: Config, reg: Registry, w: World, k: nat, s: WfState, o: Outcome)
    ensures React(cfg, reg, Inlined(w)(k), s, o) ==
            if React(cfg, reg, w(k), s, o) == Stop(ToolPending)
            then Proceed(ResumeWithResult(cfg.env, s, o.stepId, w(k).jobResult), [])
            else React(cfg, reg, w(k), s, o)
  {
    hide ResumeWithResult, FailStep, StartWorkflow;
  }

  /** One call of the loop against the inline run of any sufficient budget: equal, except that
      where the call suspends, the inline run goes on with the job's result. */
  lemma {:induction false} SuspensionSplices(cfg: Config, reg: Registry, w: World, s: WfState, meta: Record,
                                             k: nat, budget: nat, enough: nat)
    requires Loop(cfg, reg, w, s, meta, k, budget).reason != IterationLimit
    requires enough >= |Loop(cfg, reg, w, s, meta, k, budget).calls|
    ensures var r := Loop(cfg, reg, w, s, meta, k, budget);
            && r.next == k + |r.calls| && |r.calls| > 0
            && Loop(cfg, reg, Inlined(w), s, meta, k, enough) ==
               if r.reason != ToolPending then r
               else Prepend(r.calls, r.newErrors,
                            Loop(cfg, reg, Inlined(w), ResumeWithResult(cfg.env, r.wf, LastStep(r), JobResult(w, r)),
                                 meta, r.next, enough - |r.calls|))
    decreases budget
  {
    hide StepOnce, React, ExitMeta, ResumeWithResult, Inlined, LastStep, JobResult;
    var r := Loop(cfg, reg, w, s, meta, k, budget);
    var (s', o) := StepOnce(cfg.env, reg, s);
    InlinedReaction(cfg, reg, w, k, s', o);
    match React(cfg, reg, w(k), s', o)
    case Stop(reason) => OneStepEnd(w, r);
    case Proceed(wf, errors) =>
      var rest := Loop(cfg, reg, w, wf, meta, k + 1, budget - 1);
      SuspensionSplices(cfg, reg, w, wf, meta, k + 1, budget - 1, enough - 1);
      SameEnd(w, StepCall(s.currentStepId, o), errors, rest);
      if rest.reason == ToolPending {
        PrependTwice([StepCall(s.currentStepId, o)], errors, rest.calls, rest.newErrors,
                     Loop(cfg, reg, Inlined(w), ResumeWithResult(cfg.env, rest.wf, LastStep(rest), JobResult(w, rest)),
                          meta, rest.next, enough - 1 - |rest.calls|));
      }
  }

  lemma OneStepEnd(w: World, r: LoopResult)
    requires |r.calls| == 1 && r.next > 0
    ensures LastStep(r) == r.calls[0].outcome.stepId && JobResult(w, r) == w(r.next - 1).jobResult
  {
  }

  lemma SameEnd(w: World, call: StepCall, errors: seq<string>, rest: LoopResult)
    requires |rest.calls| > 0
    ensures LastStep(Prepend([call], errors, rest)) == LastStep(rest)
    ensures JobResult(w, Prepend([call], errors, rest)) == JobResult(w, rest)
  {
  }

  lemma PrependTwice(a: seq<StepCall>, e: seq<string>, b: seq<StepCall>, f: seq<string>, r: LoopResult)
    ensures Prepend(a, e, Prepend(b, f, r)) == Prepend(a + b, e + f, r)
  {
    assert a + (b + r.calls) == (a + b) + r.calls;
    assert e + (f + r.newErrors) == (e + f) + r.newErrors;
  }

  /** Calls of the loop, each resumed through the agent's metadata once its job has reported,
      until one does not end on a submitted tool or `calls` more have been spent. */
  function Segments(cfg: Config, reg: Registry, w: World, s: WfState, meta: Record, k: nat, calls: nat): LoopResult
    decreases calls
  {
    var r := Loop(cfg, reg, w, s, meta, k, MAX_ITERATIONS);
    if calls == 0 || r.reason != ToolPending then r
    else
      var meta' := SetToolResult(r.meta, JobResult(w, r));
      match Resume(cfg, reg, meta', "", Refused)
      case GoOn(wf) => Prepend(r.calls, r.newErrors, Segments(cfg, reg, w, wf, meta', r.next, calls - 1))
      case _ => r
  }

  lemma {:induction false} PendingMeta(cfg: Config, reg: Registry, w: World, s: WfState, meta: Record, k: nat,
                                       budget: nat)
    requires Loop(cfg, reg, w, s, meta, k, budget).reason == ToolPending
    ensures var r := Loop(cfg, reg, w, s, meta, k, budget);
            |r.calls| > 0 && r.meta == ExitMeta(cfg, meta, ToolPending, r.wf, r.calls[|r.calls| - 1].outcome)
    decreases budget
  {
    hide StepOnce, React, ExitMeta;
    var (s', o) := StepOnce(cfg.env, reg, s);
    match React(cfg, reg, w(k), s', o)
    case Stop(_) =>
    case Proceed(wf, _) => PendingMeta(cfg, reg, w, wf, meta, k + 1, budget - 1);
  }

  lemma SuspensionTouchesOnlyItsKeys(cfg: Config, meta: Record, s: WfState, o: Outcome, result: Value)
    ensures Untouched(SetToolResult(ExitMeta(cfg, meta, ToolPending, s, o), result)) == Untouched(meta)
  {
    hide Freeze;
  }

  /** The resume path, fed with the metadata of a suspended call, picks up the inline state. */
  lemma ResumesWhereSuspended(cfg: Config, reg: Registry, w: World, s: WfState, meta: Record, k: nat)
    ensures var r := Loop(cfg, reg, w, s, meta, k, MAX_ITERATIONS);
            var meta' := SetToolResult(r.meta, JobResult(w, r));
            r.reason == ToolPending ==>
            && Resume(cfg, reg, meta', "", Refused) ==
                GoOn(ResumeWithResult(cfg.env, r.wf, LastStep(r), JobResult(w, r)))
            && Untouched(meta') == Untouched(meta)
  {
    hide Loop, ExitMeta, Resume, SetToolResult, ResumeWithResult, Untouched;
    var r := Loop(cfg, reg, w, s, meta, k, MAX_ITERATIONS);
    if r.reason == ToolPending {
      PendingMeta(cfg, reg, w, s, meta, k, MAX_ITERATIONS);
      var o := r.calls[|r.calls| - 1].outcome;
      ToolResumeIsInline(cfg, reg, meta, r.wf, o, JobResult(w, r), "", Refused);
      SuspensionTouchesOnlyItsKeys(cfg, meta, r.wf, o, JobResult(w, r));
    }
  }

  /** Suspending any number of tool steps, with each job's result injected before resuming, ends
      like never suspending: same exit, same workflow state, same calls in the same order,
      given an inline run that is not cut short by its own iteration budget. */
  lemma {:induction false} SuspensionIsTransparent(cfg: Config, reg: Registry, w: World, s: WfState,
                                                   meta: Record, k: nat, calls: nat, enough: nat)
    ensures var seg := Segments(cfg, reg, w, s, meta, k, calls);
            seg.reason != IterationLimit && seg.reason != ToolPending && enough >= |seg.calls| ==>
              Agree(seg, Loop(cfg, reg, Inlined(w), s, meta, k, enough))
    decreases calls
  {
    hide Loop, Resume, SetToolResult, ResumeWithResult, Inlined, Lasting, Untouched, JobResult, LastStep;
    var seg := Segments(cfg, reg, w, s, meta, k, calls);
    if seg.reason == IterationLimit || seg.reason == ToolPending || enough < |seg.calls| { return; }
    var r := Loop(cfg, reg, w, s, meta, k, MAX_ITERATIONS);
    if r.reason == ToolPending {
      ResumesWhereSuspended(cfg, reg, w, s, meta, k);
      var meta' := SetToolResult(r.meta, JobResult(w, r));
      var wf := ResumeWithResult(cfg.env, r.wf, LastStep(r), JobResult(w, r));
      SuspensionSplices(cfg, reg, w, s, meta, k, MAX_ITERATIONS, enough);
      SuspensionIsTransparent(cfg, reg, w, wf, meta', r.next, calls - 1, enough - |r.calls|);
      MetadataIsPassive(cfg, reg, Inlined(w), wf, meta', meta, r.next, enough - |r.calls|);
    } else {
      SuspensionSplices(cfg, reg, w, s, meta, k, MAX_ITERATIONS, enough);
    }
  }

  lemma {:induction false} SegmentsEnd(cfg: Config, reg: Registry, rank: map<string, nat>, w: World, s: WfState,
                                       meta: Record, k: nat, calls: nat)
    requires Ready(reg, rank, s) && StepsLeft(rank, s) < MAX_ITERATIONS && StepsLeft(rank, s) <= calls
    ensures var seg := Segments(cfg, reg, w, s, meta, k, calls);
            && seg.reason != IterationLimit && seg.reason != ToolPending
            && |seg.calls| <= StepsLeft(rank, s) + 1
    decreases calls
  {
    hide Loop, Resume, SetToolResult, ResumeWithResult, JobResult, LastStep, Falling, AllBelow, Ready, Untouched;
    var r := Loop(cfg, reg, w, s, meta, k, MAX_ITERATIONS);
    LoopDescends(cfg, reg, rank, w, s, meta, k, MAX_ITERATIONS);
    if r.reason == ToolPending {
      ResumesWhereSuspended(cfg, reg, w, s, meta, k);
      PendingMeta(cfg, reg, w, s, meta, k, MAX_ITERATIONS);
      var wf := ResumeWithResult(cfg.env, r.wf, LastStep(r), JobResult(w, r));
      ResumeKeepsPlace(cfg.env, reg, rank, r.wf, LastStep(r), JobResult(w, r));
      SegmentsEnd(cfg, reg, rank, w, wf, SetToolResult(r.meta, JobResult(w, r)), r.next, calls - 1);
    }
  }

  lemma ResumeKeepsPlace(env: Env, reg: Registry, rank: map<string, nat>, s: WfState, id: string, v: Value)
    requires Ready(reg, rank, s) && !IsTerminal(s)
    ensures Ready(reg, rank, ResumeWithResult(env, s, id, v))
    ensures StepsLeft(rank, ResumeWithResult(env, s, id, v)) == StepsLeft(rank, s)
  {
  }

  /** For small simple workflows no condition on budgets or on the number of suspensions is left. */
  lemma SmallWorkflowsSuspendFreely(cfg: Config, reg: Registry, w: World, s: WfState, meta: Record, k: nat)
    requires Located(reg, s) && Simple(reg[s.workflowId]) && |reg[s.workflowId].steps| < MAX_ITERATIONS
    ensures Agree(Segments(cfg, reg, w, s, meta, k, |reg[s.workflowId].steps|),
                  Loop(cfg, reg, Inlined(w), s, meta, k, MAX_ITERATIONS))
  {
    hide Loop, Segments, Agree, Simple;
    var rank := SimpleIsRanked(reg, s);
    SegmentsEnd(cfg, reg, rank, w, s, meta, k, |reg[s.workflowId].steps|);
    SuspensionIsTransparent(cfg, reg, w, s, meta, k, |reg[s.workflowId].steps|, MAX_ITERATIONS);
  }

  // ---------------------------------------------------------------- the boundary of the limit

  function ChainId(i: nat): string {
    seq(i + 1, _ => 'x')
  }

  /** The i-th of `n` LLM steps in a row. */
  function ChainStep(n: nat, i: nat): Step {
    Step(ChainId(i), LlmStep, map[], map["on_success" := if i + 1 < n then ChainId(i + 1) else END_TARGET])
  }

  function Chain(n: nat): Registry {
    map["chain" := Definition(map id | id in (set i | 0 <= i < n :: ChainId(i)) :: ChainStep(n, |id| - 1), ChainId(0))]
  }

  function AgreeableWorld(): World {
    (k: nat) => Answer(Output(Null), None, Rejected(""), Null, Output(Null), "")
  }

  ghost predicate AtChainStep(n: nat, s: WfState, i: nat) {
    && s.workflowId == "chain" && !IsTerminal(s)
    && s.currentStepId == if i < n then Some(ChainId(i)) else None
  }

  lemma ChainAdvances(cfg: Config, n: nat, s: WfState, i: nat, k: nat)
    requires i < n && AtChainStep(n, s, i)
    ensures var (s', o) := StepOnce(cfg.env, Chain(n), s);
            && React(cfg, Chain(n), AgreeableWorld()(k), s', o).Proceed?
            && AtChainStep(n, React(cfg, Chain(n), AgreeableWorld()(k), s', o).wf, i + 1)
  {
    hide Chain, ChainStep, Target, ResumeWithResult;
    ChainHere(n, i);
    ResumeStands(cfg.env, n, s.(currentStepId := if i + 1 < n then Some(ChainId(i + 1)) else None), ChainId(i), i + 1);
    assert StepOnce(cfg.env, Chain(n), s) ==
           Advance(s, ChainStep(n, i), "on_success", Plain(LlmCall, ChainId(i)).(config := map[]));
  }

  lemma ResumeStands(env: Env, n: nat, s: WfState, id: string, i: nat)
    requires AtChainStep(n, s, i)
    ensures AtChainStep(n, ResumeWithResult(env, s, id, Null), i)
  {
  }

  lemma ChainHere(n: nat, i: nat)
    requires i < n
    ensures "chain" in Chain(n) && ChainId(i) in Chain(n)["chain"].steps
    ensures Chain(n)["chain"].steps[ChainId(i)] == ChainStep(n, i)
    ensures ChainStep(n, i).stepType == LlmStep && ChainStep(n, i).stepId == ChainId(i)
            && ChainStep(n, i).config == map[]
    ensures Target(ChainStep(n, i), "on_success") == if i + 1 < n then Some(ChainId(i + 1)) else None
  {
    assert |ChainId(i)| == i + 1;
    assert ChainId(i + 1)[0] == 'x' && END_TARGET[0] == '_';
    assert ChainId(i + 1) != END_TARGET;
  }

  lemma {:induction false} ChainNeedsOneCallMore(cfg: Config, n: nat, s: WfState, i: nat, meta: Record, k: nat,
                                                 budget: nat)
    requires i <= n && AtChainStep(n, s, i)
    ensures Loop(cfg, Chain(n), AgreeableWorld(), s, meta, k, budget).reason ==
            if budget >= n - i + 1 then Finished else IterationLimit
    decreases budget
  {
    hide Chain, ExitMeta, ChainStep, AgreeableWorld, StepOnce, React, AtChainStep;
    if budget > 0 {
      var (s', o) := StepOnce(cfg.env, Chain(n), s);
      if i < n {
        ChainAdvances(cfg, n, s, i, k);
        ChainNeedsOneCallMore(cfg, n, React(cfg, Chain(n), AgreeableWorld()(k), s', o).wf, i + 1, meta, k + 1,
                              budget - 1);
      } else {
        ChainFinishes(cfg, n, s, k);
      }
    }
  }

  lemma ChainFinishes(cfg: Config, n: nat, s: WfState, k: nat)
    requires AtChainStep(n, s, n)
    ensures var (s', o) := StepOnce(cfg.env, Chain(n), s);
            React(cfg, Chain(n), AgreeableWorld()(k), s', o) == Stop(Finished)
  {
    hide Dispatch;
    assert StepOnce(cfg.env, Chain(n), s) == Complete(s);
  }

  /** The bound of 49 steps is exact: a chain of LLM steps that all succeed completes if and only if it
      has fewer than 50 steps; with 50 every step runs and the agent is failed for exceeding the limit. */
  lemma ChainCompletesIffShort(cfg: Config, n: nat, executionId: string, context: Record, meta: Record, k: nat)
    requires n >= 1
    ensures var started := StartWorkflow(Chain(n), executionId, Text("chain"), context);
            && started.Ok?
            && (Loop(cfg, Chain(n), AgreeableWorld(), started.value, meta, k, MAX_ITERATIONS).reason == Finished
                <==> n < MAX_ITERATIONS)
  {
    hide Loop;
    var started := StartWorkflow(Chain(n), executionId, Text("chain"), context);
    ChainNeedsOneCallMore(cfg, n, started.value, 0, meta, k, MAX_ITERATIONS);
  }
}
