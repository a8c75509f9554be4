/** Which calls of a batch or a reply are run, how often, and in which order: stated of the effects. */
module ExecutedCalls {
  import opened Wrappers
  import opened AgentStates
  import opened Supervisor
  import F = FollowUpLoop
  import WE = WorkflowEngine
  import WI = WorkflowInvoker
  import IW = InlineWorkflows

  /** Each primitive call was run as often as `calls` holds it, on this input, and no other call was. */
  ghost predicate RunsEach(input: string, calls: seq<Call>, effects: seq<Effect>) {
    && (forall c :: multiset(effects)[Ran(input, c)] == if IsPrimitive(c) then multiset(calls)[c] else 0)
    && (forall e :: e in effects && e.Ran? ==> e.input == input)
  }

  /** The run of call `i` is at position `at[i]`; these positions rise, and there is no other run. */
  ghost predicate Placed(input: string, calls: seq<Call>, effects: seq<Effect>, at: seq<nat>) {
    && |at| == |calls|
    && (forall i :: 0 <= i < |calls| && IsPrimitive(calls[i]) ==>
          at[i] < |effects| && effects[at[i]] == Ran(input, calls[i]))
    && (forall i, j :: 0 <= i < j < |calls| && IsPrimitive(calls[i]) && IsPrimitive(calls[j]) ==> at[i] < at[j])
    && (forall p :: 0 <= p < |effects| && effects[p].Ran? ==> PlacedAt(calls, at, p))
  }

  ghost predicate PlacedAt(calls: seq<Call>, at: seq<nat>, p: int) {
    exists i :: 0 <= i < |calls| && i < |at| && IsPrimitive(calls[i]) && at[i] == p
  }

  ghost predicate InOrder(input: string, calls: seq<Call>, effects: seq<Effect>) {
    exists at :: Placed(input, calls, effects, at)
  }

  // ---------------------------------------------------------------- adding one call

  /** What one call adds: its run if it is a primitive, and no run otherwise. */
  ghost predicate Adds(input: string, c: Call, part: seq<Effect>) {
    if IsPrimitive(c) then part == [Ran(input, c)] else forall e :: e in part ==> !e.Ran?
  }

  lemma OneMoreRuns(input: string, calls: seq<Call>, c: Call, effects: seq<Effect>, part: seq<Effect>)
    requires RunsEach(input, calls, effects) && Adds(input, c, part)
    ensures RunsEach(input, calls + [c], effects + part)
  {
    hide IsPrimitive;
    forall d ensures multiset(effects + part)[Ran(input, d)] ==
                     if IsPrimitive(d) then multiset(calls + [c])[d] else 0 {
      assert multiset(effects + part)[Ran(input, d)]
          == multiset(effects)[Ran(input, d)] + multiset(part)[Ran(input, d)];
      assert multiset(calls + [c])[d] == multiset(calls)[d] + multiset([c])[d];
      if !IsPrimitive(c) { assert Ran(input, d) !in part; }
    }
  }

  lemma OneMorePlaced(input: string, calls: seq<Call>, c: Call, effects: seq<Effect>, part: seq<Effect>, at: seq<nat>)
    requires Placed(input, calls, effects, at) && Adds(input, c, part)
    ensures Placed(input, calls + [c], effects + part, at + [|effects|])
  {
    hide IsPrimitive;
    var all, more, places := calls + [c], effects + part, at + [|effects|];
    forall p | 0 <= p < |more| && more[p].Ran? ensures PlacedAt(all, places, p) {
      if p < |effects| {
        assert PlacedAt(calls, at, p);
        var i :| 0 <= i < |calls| && i < |at| && IsPrimitive(calls[i]) && at[i] == p;
        assert all[i] == calls[i] && places[i] == p;
      } else {
        assert more[p] == part[p - |effects|] && more[p] in part;
        assert all[|calls|] == c && places[|calls|] == p;
      }
    }
    forall i, j | 0 <= i < j < |all| && IsPrimitive(all[i]) && IsPrimitive(all[j]) ensures places[i] < places[j] {
      assert all[i] == calls[i];
      if j < |calls| { assert all[j] == calls[j]; }
    }
    forall i | 0 <= i < |all| && IsPrimitive(all[i])
      ensures places[i] < |more| && more[places[i]] == Ran(input, all[i]) {
      if i < |calls| { assert all[i] == calls[i]; }
    }
  }

  lemma NothingRuns(input: string)
    ensures RunsEach(input, [], []) && Placed(input, [], [], [])
  {
  }

  // ---------------------------------------------------------------- batches and replies

  /** Executing a batch runs its primitive calls, side effects and all, as often and in the order it holds them. */
  lemma {:induction false} BatchRuns(input: string, calls: seq<Call>) returns (at: seq<nat>)
    ensures RunsEach(input, calls, Executions(input, calls)) && Placed(input, calls, Executions(input, calls), at)
    ensures forall e :: e in Executions(input, calls) ==> e.Ran?
  {
    hide RunsEach, Placed, IsPrimitive;
    if |calls| == 0 {
      NothingRuns(input);
      assert calls == [];
      at := [];
    } else {
      var n := |calls| - 1;
      var part := if IsPrimitive(calls[n]) then [Ran(input, calls[n])] else [];
      at := BatchRuns(input, calls[..n]);
      OneMoreRuns(input, calls[..n], calls[n], Executions(input, calls[..n]), part);
      OneMorePlaced(input, calls[..n], calls[n], Executions(input, calls[..n]), part, at);
      assert calls[..n] + [calls[n]] == calls;
      at := at + [|Executions(input, calls[..n])|];
    }
  }

  /** A call that starts a workflow hands over that workflow's tool steps; no run is among them. */
  lemma CallAdds(env: Env, input: string, c: Call, n: nat, tools: ToolRun)
    ensures Adds(input, c, CallRuns(env, input, c, n, tools))
    ensures forall e :: e in CallRuns(env, input, c, n, tools) ==> e.Ran? || e.HandedOver?
  {
    hide IW.Handed;
    assert IW.EXECUTE[0] == 'w' && PRIMITIVE[0] == 'p';
  }

  lemma {:induction false} OwnCallsRun(env: Env, input: string, calls: seq<Call>, tools: ToolRun) returns (at: seq<nat>)
    ensures RunsEach(input, calls, OwnRuns(env, input, calls, tools))
    ensures Placed(input, calls, OwnRuns(env, input, calls, tools), at)
    ensures forall e :: e in OwnRuns(env, input, calls, tools) ==> e.Ran? || e.HandedOver?
  {
    hide RunsEach, Placed, IsPrimitive, CallRuns, Adds;
    if |calls| == 0 {
      NothingRuns(input);
      assert calls == [];
      at := [];
    } else {
      var n := |calls| - 1;
      var before, part := OwnRuns(env, input, calls[..n], tools), CallRuns(env, input, calls[n], n, tools);
      at := OwnCallsRun(env, input, calls[..n], tools);
      CallAdds(env, input, calls[n], n, tools);
      OneMoreRuns(input, calls[..n], calls[n], before, part);
      OneMorePlaced(input, calls[..n], calls[n], before, part, at);
      assert calls[..n] + [calls[n]] == calls;
      at := at + [|before|];
    }
  }

  // ---------------------------------------------------------------- part by part

  function Flat(parts: seq<seq<Effect>>): seq<Effect> {
    if |parts| == 0 then [] else Flat(parts[..|parts| - 1]) + parts[|parts| - 1]
  }

  lemma FlatSnoc(parts: seq<seq<Effect>>, last: seq<Effect>)
    ensures Flat(parts + [last]) == Flat(parts) + last && Flat([]) == []
  {
    assert (parts + [last])[..|parts|] == parts;
  }

  /** `part` hands `configs` over, one after the other. */
  ghost predicate HandsEach(input: string, configs: seq<WE.Record>, part: seq<Effect>) {
    |part| == |configs| && forall i :: 0 <= i < |part| ==> part[i] == HandedOver(input, configs[i])
  }

  /** What one call of a reply gets done: its own run, the tool steps of the workflow it starts with its
      arguments, or nothing. */
  ghost predicate CallDid(env: Env, input: string, c: Call, n: nat, tools: ToolRun, part: seq<Effect>) {
    && (IsPrimitive(c) ==> part == [Ran(input, c)])
    && (forall id: string :: c.name == IW.EXECUTE + id ==>
          HandsEach(input, IW.Handed(env.engine, env.workflows, tools.followUps.hasExecutor, tools.started(n), id,
                                     map["args" := tools.arguments(n)]), part))
    && (!IsPrimitive(c) && !(IW.EXECUTE <= c.name) ==> part == [])
  }

  lemma CallDoes(env: Env, input: string, c: Call, n: nat, tools: ToolRun)
    ensures CallDid(env, input, c, n, tools, CallRuns(env, input, c, n, tools))
  {
    hide IW.Handed;
    assert IW.EXECUTE[0] == 'w' && PRIMITIVE[0] == 'p';
    forall id: string | c.name == IW.EXECUTE + id ensures c.name[|IW.EXECUTE|..] == id && IW.EXECUTE <= c.name {}
  }

  /** The calls of a reply, one part each, in order. */
  ghost predicate CallsDid(env: Env, input: string, calls: seq<Call>, tools: ToolRun, parts: seq<seq<Effect>>) {
    |parts| == |calls| && forall n :: 0 <= n < |calls| ==> CallDid(env, input, calls[n], n, tools, parts[n])
  }

  lemma {:induction false} OwnRunsByCall(env: Env, input: string, calls: seq<Call>, tools: ToolRun)
      returns (parts: seq<seq<Effect>>)
    ensures OwnRuns(env, input, calls, tools) == Flat(parts) && CallsDid(env, input, calls, tools, parts)
  {
    hide CallDid, CallRuns, Flat;
    FlatSnoc([], []);
    if |calls| == 0 {
      parts := [];
    } else {
      var n := |calls| - 1;
      parts := OwnRunsByCall(env, input, calls[..n], tools);
      CallDoes(env, input, calls[n], n, tools);
      FlatSnoc(parts, CallRuns(env, input, calls[n], n, tools));
      parts := parts + [CallRuns(env, input, calls[n], n, tools)];
    }
  }

  /** The directives of a text, one part each: the tool steps of the workflow each names, with its parameters. */
  ghost predicate DirectivesDid(env: Env, input: string, ds: seq<IW.Directive>, tools: ToolRun,
                                parts: seq<seq<Effect>>) {
    && |parts| == |ds|
    && forall n :: 0 <= n < |ds| ==>
         HandsEach(input, IW.Handed(env.engine, env.workflows, tools.followUps.hasExecutor, tools.directed(n),
                                    IW.DirectiveTarget(ds[n].name), ds[n].params), parts[n])
  }

  lemma {:induction false} DirectiveRunsByLine(env: Env, input: string, ds: seq<IW.Directive>, tools: ToolRun)
      returns (parts: seq<seq<Effect>>)
    ensures DirectiveRuns(env, input, ds, tools) == Flat(parts) && DirectivesDid(env, input, ds, tools, parts)
  {
    hide IW.Handed, Flat;
    FlatSnoc([], []);
    if |ds| == 0 {
      parts := [];
    } else {
      var n := |ds| - 1;
      var last := HandOver(input, IW.Handed(env.engine, env.workflows, tools.followUps.hasExecutor, tools.directed(n),
                                            IW.DirectiveTarget(ds[n].name), ds[n].params));
      parts := DirectiveRunsByLine(env, input, ds[..n], tools);
      FlatSnoc(parts, last);
      parts := parts + [last];
    }
  }

  /** One follow-up reply, one part a call: each primitive runs if there is an executor. */
  ghost predicate RoundDid(input: string, w: F.World, calls: seq<F.ToolCall>, parts: seq<seq<Effect>>) {
    && |parts| == |calls|
    && forall j :: 0 <= j < |calls| ==>
         parts[j] == if w.hasExecutor && calls[j].Call? && PRIMITIVE <= calls[j].name
                     then [FollowedUp(input, calls[j].name)] else []
  }

  lemma {:induction false} RoundRunsByCall(input: string, w: F.World, calls: seq<F.ToolCall>)
      returns (parts: seq<seq<Effect>>)
    ensures RoundRuns(input, w, calls) == Flat(parts) && RoundDid(input, w, calls, parts)
  {
    hide Flat;
    FlatSnoc([], []);
    if |calls| == 0 {
      parts := [];
    } else {
      var n := |calls| - 1;
      var last := if w.hasExecutor && calls[n].Call? && PRIMITIVE <= calls[n].name
                  then [FollowedUp(input, calls[n].name)] else [];
      parts := RoundRunsByCall(input, w, calls[..n]);
      FlatSnoc(parts, last);
      parts := parts + [last];
    }
  }

  /** The follow-up rounds, one part a round: exactly those the loop goes through run. */
  ghost predicate RoundsDid(input: string, w: F.World, executed: seq<string>, parts: seq<seq<Effect>>) {
    forall m: nat :: m < |parts| ==>
      if F.Iterations(w, executed, m + 1).Continue? then
        exists calls :: RoundDid(input, w, w.reply(m), calls) && parts[m] == Flat(calls)
      else parts[m] == []
  }

  lemma {:induction false} FollowUpRunsByRound(input: string, w: F.World, executed: seq<string>, n: nat)
      returns (parts: seq<seq<Effect>>)
    ensures FollowUpRuns(input, w, executed, n) == Flat(parts) && |parts| == n && RoundsDid(input, w, executed, parts)
  {
    hide Flat, RoundDid, F.Iterations, RoundRuns;
    FlatSnoc([], []);
    if n == 0 {
      parts := [];
    } else {
      parts := FollowUpRunsByRound(input, w, executed, n - 1);
      var calls := RoundRunsByCall(input, w, w.reply(n - 1));
      var last := if F.Iterations(w, executed, n).Continue? then Flat(calls) else [];
      FlatSnoc(parts, last);
      parts := parts + [last];
    }
  }

  lemma {:induction false} NoneInFlat(parts: seq<seq<Effect>>)
    requires forall i, e: Effect :: 0 <= i < |parts| && e in parts[i] ==> !e.Ran?
    ensures forall e :: e in Flat(parts) ==> !e.Ran?
  {
    if |parts| > 0 {
      var init := parts[..|parts| - 1];
      forall i, e: Effect | 0 <= i < |init| && e in init[i] ensures !e.Ran? { assert e in parts[i]; }
      NoneInFlat(init);
    }
  }

  lemma RoundsAreNoRuns(input: string, w: F.World, executed: seq<string>, parts: seq<seq<Effect>>)
    requires RoundsDid(input, w, executed, parts)
    ensures forall e :: e in Flat(parts) ==> !e.Ran?
  {
    hide RoundDid, F.Iterations;
    forall i, e: Effect | 0 <= i < |parts| && e in parts[i] ensures !e.Ran? {
      if F.Iterations(w, executed, i + 1).Continue? {
        var calls :| RoundDid(input, w, w.reply(i), calls) && parts[i] == Flat(calls);
        OneRoundIsNoRun(input, w, w.reply(i), calls);
      }
    }
    NoneInFlat(parts);
  }

  lemma OneRoundIsNoRun(input: string, w: F.World, reply: seq<F.ToolCall>, calls: seq<seq<Effect>>)
    requires RoundDid(input, w, reply, calls)
    ensures forall e :: e in Flat(calls) ==> !e.Ran?
  {
    NoneInFlat(calls);
  }

  lemma FollowUpsAreNoRuns(input: string, calls: seq<Call>, tools: ToolRun)
    ensures forall e :: e in FollowUps(input, calls, tools) ==> !e.Ran?
  {
    hide RoundsDid, Flat, FollowUpRuns, FirstExecuted;
    var names := FirstExecuted(calls, tools);
    var parts := FollowUpRunsByRound(input, tools.followUps, names, tools.rounds);
    RoundsAreNoRuns(input, tools.followUps, names, parts);
  }

  /** Effects that are no runs may follow. */
  lemma NoMoreRuns(input: string, calls: seq<Call>, effects: seq<Effect>, at: seq<nat>, more: seq<Effect>)
    requires RunsEach(input, calls, effects) && Placed(input, calls, effects, at) && forall e :: e in more ==> !e.Ran?
    ensures RunsEach(input, calls, effects + more) && InOrder(input, calls, effects + more)
  {
    hide IsPrimitive, PlacedAt;
    var all := effects + more;
    forall c ensures multiset(all)[Ran(input, c)] == multiset(effects)[Ran(input, c)] {
      assert multiset(all)[Ran(input, c)] == multiset(effects)[Ran(input, c)] + multiset(more)[Ran(input, c)];
      assert Ran(input, c) !in more;
    }
    forall p | |effects| <= p < |all| ensures !all[p].Ran? { assert all[p] == more[p - |effects|] && all[p] in more; }
    forall p | 0 <= p < |all| && all[p].Ran? ensures PlacedAt(calls, at, p) { assert all[p] == effects[p]; }
    assert Placed(input, calls, all, at);
  }

  /** The tool plan runs each primitive call of the reply as often and in the order the reply holds it. */
  lemma PlanRunsEach(env: Env, input: string, calls: seq<Call>, tools: ToolRun)
    ensures RunsEach(input, calls, PlanRuns(env, input, calls, tools))
    ensures InOrder(input, calls, PlanRuns(env, input, calls, tools))
  {
    hide RunsEach, Placed, OwnRuns, FollowUps;
    var at := OwnCallsRun(env, input, calls, tools);
    FollowUpsAreNoRuns(input, calls, tools);
    NoMoreRuns(input, calls, OwnRuns(env, input, calls, tools), at, FollowUps(input, calls, tools));
  }

  lemma ConsumedFirst(input: string, batch: seq<Call>, runs: seq<Effect>, at: seq<nat>)
    requires RunsEach(input, batch, runs) && Placed(input, batch, runs, at)
    ensures RunsEach(input, batch, [Consumed(input, batch, true)] + runs)
    ensures InOrder(input, batch, [Consumed(input, batch, true)] + runs)
  {
    var yes := [Consumed(input, batch, true)];
    var all := yes + runs;
    forall c ensures multiset(all)[Ran(input, c)] == multiset(runs)[Ran(input, c)] {
      assert multiset(all)[Ran(input, c)] == multiset(yes)[Ran(input, c)] + multiset(runs)[Ran(input, c)];
    }
    OnePlaceLater(input, batch, runs, at, Consumed(input, batch, true));
  }

  lemma OnePlaceLater(input: string, batch: seq<Call>, runs: seq<Effect>, at: seq<nat>, first: Effect)
    requires Placed(input, batch, runs, at) && !first.Ran?
    ensures InOrder(input, batch, [first] + runs)
  {
    hide IsPrimitive;
    var all := [first] + runs;
    var places := seq(|at|, i requires 0 <= i < |at| => at[i] + 1);
    forall p | 0 <= p < |all| && all[p].Ran? ensures PlacedAt(batch, places, p) {
      assert PlacedAt(batch, at, p - 1);
      var i :| 0 <= i < |batch| && i < |at| && IsPrimitive(batch[i]) && at[i] == p - 1;
      assert places[i] == p;
    }
    assert Placed(input, batch, all, places);
  }

  // ---------------------------------------------------------------- selections

  /** `at` lists, in order, exactly the positions below `size` that `keep` holds of. */
  ghost predicate Selects(at: seq<nat>, size: nat, keep: nat -> bool) {
    && (forall i :: 0 <= i < |at| ==> at[i] < size && keep(at[i]))
    && (forall i, j :: 0 <= i < j < |at| ==> at[i] < at[j])
    && (forall n: nat :: n < size && keep(n) ==> n in at)
  }

  lemma SelectsSnoc(at: seq<nat>, size: nat, keep: nat -> bool)
    requires Selects(at, size, keep)
    ensures Selects(if keep(size) then at + [size] else at, size + 1, keep)
  {
    if keep(size) {
      var more := at + [size];
      forall n: nat | n < size + 1 && keep(n) ensures n in more {
        if n < size { assert n in at; } else { assert more[|at|] == n; }
      }
    }
  }

  lemma SelectsAlike(at: seq<nat>, size: nat, keep: nat -> bool, same: nat -> bool)
    requires Selects(at, size, keep) && forall n: nat :: n < size ==> keep(n) == same(n)
    ensures Selects(at, size, same)
  {
  }

  function GaveResult(calls: seq<Call>, tools: ToolRun): nat -> bool {
    (n: nat) => n < |calls| && IsPrimitive(calls[n]) && tools.followUps.hasExecutor && tools.results(n).Result?
  }

  ghost predicate NamesAt(calls: seq<Call>, at: seq<nat>, names: seq<string>) {
    |names| == |at| && forall i :: 0 <= i < |at| ==> at[i] < |calls| && names[i] == calls[at[i]].name
  }

  /** The follow-up loop starts from the primitives of the reply that gave a result, in order. */
  lemma {:induction false} FirstExecutedAre(calls: seq<Call>, tools: ToolRun) returns (at: seq<nat>)
    ensures Selects(at, |calls|, GaveResult(calls, tools)) && NamesAt(calls, at, FirstExecuted(calls, tools))
  {
    hide IsPrimitive, Selects;
    if |calls| == 0 {
      at := [];
      NothingSelected(GaveResult(calls, tools));
    } else {
      var n: nat := |calls| - 1;
      at := FirstExecutedAre(calls[..n], tools);
      SelectsAlike(at, n, GaveResult(calls[..n], tools), GaveResult(calls, tools));
      SelectsSnoc(at, n, GaveResult(calls, tools));
      if GaveResult(calls, tools)(n) { at := at + [n]; }
    }
  }

  lemma NothingSelected(keep: nat -> bool)
    ensures Selects([], 0, keep)
  {
  }

  function Defers(calls: seq<Call>): nat -> bool {
    (n: nat) => n < |calls| && calls[n].name == "defer_to" && calls[n].target != "" && calls[n].prompt != ""
  }

  ghost predicate CallsAt(calls: seq<Call>, at: seq<nat>, picked: seq<Call>) {
    |picked| == |at| && forall i :: 0 <= i < |at| ==> at[i] < |calls| && picked[i] == calls[at[i]]
  }

  /** The deferrals of a reply are its complete `defer_to` calls, each as often as it occurs, in order. */
  lemma {:induction false} DeferralsAre(calls: seq<Call>) returns (at: seq<nat>)
    ensures Selects(at, |calls|, Defers(calls)) && CallsAt(calls, at, Deferrals(calls))
  {
    hide Selects;
    if |calls| == 0 {
      at := [];
      NothingSelected(Defers(calls));
    } else {
      var n: nat := |calls| - 1;
      at := DeferralsAre(calls[..n]);
      SelectsAlike(at, n, Defers(calls[..n]), Defers(calls));
      SelectsSnoc(at, n, Defers(calls));
      if Defers(calls)(n) { at := at + [n]; }
    }
  }
}
