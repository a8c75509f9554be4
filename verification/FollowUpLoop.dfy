/** Phase 2 of tool execution: the loop that feeds tool results back to the LLM and runs the
    calls it asks for next, stopped by two counters that both reset on progress. */
module FollowUpLoop {

  const MAX_TOTAL_ROUNDS: nat := 10
  const MAX_STALL_ROUNDS: nat := 3

  /** A call as the loop sees it: its name and its canonical argument text.
      `NotADict` is a reply entry of any other shape, which the loop skips. */
  datatype ToolCall = NotADict | Call(name: string, args: string)

  type Signature = (string, string)

  /** What the inline executor gave: an exception or no result, or a result and its status. */
  datatype Execution = NoResult | Result(isError: bool)

  /** Everything the loop cannot decide: the calls in the k-th follow-up reply, and how the
      j-th of them executes. `configured` says whether router and executor are present. */
  datatype World = World(reply: nat -> seq<ToolCall>, execute: (nat, nat) -> Execution,
                         hasRouter: bool, hasExecutor: bool)

  datatype LoopState = LoopState(
    followUp: nat, stall: nat, attempted: set<Signature>, executed: seq<string>, llmCalls: nat)

  datatype ExitReason = NothingExecuted | TextReply | DepthLimit | Stalled

  datatype Verdict = Continue(st: LoopState) | Exit(reason: ExitReason, st: LoopState)

  predicate IsPrimitive(c: ToolCall) {
    c.Call? && "primitive." <= c.name
  }

  // ---------------------------------------------------------------- one round

  datatype Round = Round(attempted: set<Signature>, executed: seq<string>, newSuccess: bool)

  function DoCall(w: World, k: nat, j: nat, c: ToolCall, r: Round): Round {
    if !IsPrimitive(c) then r
    else
      var sig := (c.name, c.args);
      var attempted := r.attempted + {sig};
      if !w.hasExecutor || w.execute(k, j).NoResult? then r.(attempted := attempted)
      else Round(attempted, r.executed + [c.name],
                 r.newSuccess || (sig !in r.attempted && !w.execute(k, j).isError))
  }

  function DoCalls(w: World, k: nat, calls: seq<ToolCall>, attempted: set<Signature>): Round {
    if |calls| == 0 then Round(attempted, [], false)
    else DoCall(w, k, |calls| - 1, calls[|calls| - 1], DoCalls(w, k, calls[..|calls| - 1], attempted))
  }

  function Iterate(w: World, st: LoopState): Verdict {
    if st.executed == [] || !w.hasRouter then Exit(NothingExecuted, st)
    else
      var calls := w.reply(st.llmCalls);
      var called := st.(llmCalls := st.llmCalls + 1);
      if calls == [] then Exit(TextReply, called)
      else
        var counted := called.(followUp := called.followUp + 1);
        if counted.followUp > MAX_TOTAL_ROUNDS then Exit(DepthLimit, counted)
        else if counted.stall >= MAX_STALL_ROUNDS then Exit(Stalled, counted)
        else
          var r := DoCalls(w, st.llmCalls, calls, st.attempted);
          var next := counted.(attempted := r.attempted, executed := r.executed);
          Continue(if r.newSuccess then next.(followUp := 0, stall := 0)
                   else next.(stall := next.stall + 1))
  }

  function Start(executed: seq<string>): LoopState {
    LoopState(0, 0, {}, executed, 0)
  }

  /** The loop after at most `n` iterations. */
  function Iterations(w: World, executed: seq<string>, n: nat): Verdict {
    if n == 0 then Continue(Start(executed))
    else
      match Iterations(w, executed, n - 1)
      case Continue(st) => Iterate(w, st)
      case stopped => stopped
  }

  // ---------------------------------------------------------------- bounds

  lemma {:induction false} RoundGrows(w: World, k: nat, calls: seq<ToolCall>, attempted: set<Signature>)
    ensures attempted <= DoCalls(w, k, calls, attempted).attempted
    ensures DoCalls(w, k, calls, attempted).newSuccess ==> attempted < DoCalls(w, k, calls, attempted).attempted
    ensures DoCalls(w, k, calls, attempted).executed != [] ==> DoCalls(w, k, calls, attempted).attempted != {}
  {
    if |calls| > 0 {
      RoundGrows(w, k, calls[..|calls| - 1], attempted);
    }
  }

  lemma ProperSubsetIsSmaller<T>(a: set<T>, b: set<T>)
    requires a <= b
    ensures |a| <= |b| && (a != b ==> |a| < |b|)
  {
    assert b == a + (b - a);
  }

  /** What holds whenever the loop comes round: both counters agree, so the ceiling of
      `MAX_TOTAL_ROUNDS` is out of reach, and every three calls have bought a new signature. */
  ghost predicate AtHead(st: LoopState) {
    && st.followUp == st.stall <= MAX_STALL_ROUNDS
    && (st.attempted == {} ==> st.llmCalls <= 1 && (st.llmCalls == 1 ==> st.executed == []))
    && (st.attempted != {} ==> st.llmCalls + 2 <= 3 * |st.attempted| + st.stall)
  }

  /** The number of follow-up LLM calls the loop can make with `d` signatures ever attempted. */
  function CallBound(d: nat): nat {
    if d == 0 then 1 else 3 * d + 2
  }

  lemma IterationKeepsBound(w: World, st: LoopState)
    requires AtHead(st)
    ensures Iterate(w, st).Continue? ==> AtHead(Iterate(w, st).st)
    ensures Iterate(w, st).Exit? ==>
              && Iterate(w, st).reason != DepthLimit
              && Iterate(w, st).st.llmCalls <= CallBound(|Iterate(w, st).st.attempted|)
  {
    var v := Iterate(w, st);
    if v.Continue? {
      var calls := w.reply(st.llmCalls);
      RoundGrows(w, st.llmCalls, calls, st.attempted);
      ProperSubsetIsSmaller(st.attempted, v.st.attempted);
      if v.st.attempted != {} {
        ProperSubsetIsSmaller({}, v.st.attempted);
      }
    } else if st.attempted != {} {
      ProperSubsetIsSmaller({}, st.attempted);
    }
  }

  /** For every LLM and every tool behaviour, and after any number of iterations: the depth
      exit is never taken, and the LLM has been called at most `CallBound` times. */
  lemma {:induction false} CallsAreBounded(w: World, executed: seq<string>, n: nat)
    ensures Iterations(w, executed, n).Continue? ==> AtHead(Iterations(w, executed, n).st)
    ensures Iterations(w, executed, n).Exit? ==> Iterations(w, executed, n).reason != DepthLimit
    ensures var st := Iterations(w, executed, n).st; st.llmCalls <= CallBound(|st.attempted|)
  {
    if n > 0 {
      CallsAreBounded(w, executed, n - 1);
      var before := Iterations(w, executed, n - 1);
      if before.Continue? {
        IterationKeepsBound(w, before.st);
      }
    }
    var st := Iterations(w, executed, n).st;
    if st.attempted != {} {
      ProperSubsetIsSmaller({}, st.attempted);
    }
  }

  /** Each signature attempted comes from some reply. */
  ghost predicate RepliesWithin(w: World, universe: set<Signature>) {
    forall k, j :: 0 <= j < |w.reply(k)| && IsPrimitive(w.reply(k)[j]) ==>
      (w.reply(k)[j].name, w.reply(k)[j].args) in universe
  }

  lemma {:induction false} RoundStaysWithin(w: World, k: nat, n: nat, attempted: set<Signature>,
                                            universe: set<Signature>)
    requires RepliesWithin(w, universe) && attempted <= universe && n <= |w.reply(k)|
    ensures DoCalls(w, k, w.reply(k)[..n], attempted).attempted <= universe
  {
    if n > 0 {
      RoundStaysWithin(w, k, n - 1, attempted, universe);
      assert w.reply(k)[..n][..n - 1] == w.reply(k)[..n - 1];
    }
  }

  lemma {:induction false} IterationsStayWithin(w: World, executed: seq<string>, n: nat, universe: set<Signature>)
    requires RepliesWithin(w, universe)
    ensures Iterations(w, executed, n).st.attempted <= universe
    ensures Iterations(w, executed, n).Continue? ==> Iterations(w, executed, n).st.llmCalls == n
  {
    if n > 0 {
      IterationsStayWithin(w, executed, n - 1, universe);
      var before := Iterations(w, executed, n - 1);
      if before.Continue? {
        var k := before.st.llmCalls;
        RoundStaysWithin(w, k, |w.reply(k)|, before.st.attempted, universe);
        assert w.reply(k)[..|w.reply(k)|] == w.reply(k);
      }
    }
  }

  /** If the LLM can only ever name finitely many calls, the loop stops. */
  lemma FiniteVocabularyStops(w: World, executed: seq<string>, universe: set<Signature>)
    requires RepliesWithin(w, universe)
    ensures Iterations(w, executed, CallBound(|universe|) + 1).Exit?
  {
    var n := CallBound(|universe|) + 1;
    CallsAreBounded(w, executed, n);
    IterationsStayWithin(w, executed, n, universe);
    ProperSubsetIsSmaller(Iterations(w, executed, n).st.attempted, universe);
  }

  // ---------------------------------------------------------------- tightness and divergence

  function Tool(i: nat): ToolCall {
    Call("primitive.t", seq(i, _ => 'x'))
  }

  function Sig(i: nat): Signature {
    (Tool(i).name, Tool(i).args)
  }

  lemma SigIsInjective(i: nat, j: nat)
    requires Sig(i) == Sig(j)
    ensures i == j
  {
    assert |Sig(i).1| == i && |Sig(j).1| == j;
  }

  function Sigs(d: nat): set<Signature> {
    if d == 0 then {} else Sigs(d - 1) + {Sig(d - 1)}
  }

  lemma {:induction false} SigsHold(d: nat, i: nat)
    ensures Sig(i) in Sigs(d) <==> i < d
  {
    if d > 0 {
      SigsHold(d - 1, i);
      if Sig(i) == Sig(d - 1) { SigIsInjective(i, d - 1); }
    }
  }

  lemma {:induction false} SigsCount(d: nat)
    ensures |Sigs(d)| == d
  {
    if d > 0 {
      SigsCount(d - 1);
      SigsHold(d - 1, d - 1);
    }
  }

  /** Asks for one new call every third reply until `d` have been made; all calls succeed. */
  function SlowWorld(d: nat): World {
    World((k: nat) => [Tool(SlowChoice(d, k))], (k, j) => Result(false), true, true)
  }

  function SlowChoice(d: nat, k: nat): nat {
    if k % 3 == 0 && k / 3 < d then k / 3 else 0
  }

  lemma SlowChoices(d: nat, j: nat, stalls: nat)
    requires 1 <= stalls <= 3 && (stalls == 3 ==> j + 1 >= d)
    ensures SlowChoice(d, 3 * j + stalls) == 0
    ensures j < d ==> SlowChoice(d, 3 * j) == j
  {
    assert (3 * j) / 3 == j && (3 * j) % 3 == 0;
    if stalls == 3 {
      assert 3 * j + 3 == 3 * (j + 1) && (3 * (j + 1)) / 3 == j + 1;
    } else {
      assert (3 * j + stalls) % 3 == stalls;
    }
  }

  lemma OneCallRound(w: World, k: nat, i: nat, attempted: set<Signature>)
    requires w.reply(k) == [Tool(i)] && w.hasExecutor && w.execute(k, 0) == Result(false)
    ensures DoCalls(w, k, w.reply(k), attempted) ==
            Round(attempted + {Sig(i)}, ["primitive.t"], Sig(i) !in attempted)
  {
    assert w.reply(k)[..0] == [];
    assert DoCalls(w, k, w.reply(k)[..0], attempted) == Round(attempted, [], false);
    assert [] + ["primitive.t"] == ["primitive.t"];
    assert "primitive." <= "primitive.t";
  }

  /** The state after `3 * j + stalls + 1` rounds: `j + 1` signatures, `stalls` rounds without progress. */
  function SlowState(j: nat, stalls: nat): LoopState {
    LoopState(stalls, stalls, Sigs(j + 1), ["primitive.t"], 3 * j + stalls + 1)
  }

  lemma SlowRound(d: nat, st: LoopState, i: nat)
    requires st.executed != [] && st.followUp < MAX_TOTAL_ROUNDS && st.stall < MAX_STALL_ROUNDS
    requires SlowWorld(d).reply(st.llmCalls) == [Tool(i)]
    ensures var isNew := Sig(i) !in st.attempted;
            Iterate(SlowWorld(d), st) == Continue(LoopState(
              if isNew then 0 else st.followUp + 1, if isNew then 0 else st.stall + 1,
              st.attempted + {Sig(i)}, ["primitive.t"], st.llmCalls + 1))
  {
    OneCallRound(SlowWorld(d), st.llmCalls, i, st.attempted);
  }

  /** The state after `n` rounds. */
  function SlowAt(d: nat, n: nat): LoopState
    requires d >= 1
  {
    if n == 0 then Start(["t"])
    else
      var j := if (n - 1) / 3 < d then (n - 1) / 3 else d - 1;
      SlowState(j, n - 1 - 3 * j)
  }

  lemma SlowStep(d: nat, n: nat)
    requires 1 <= d && n <= 3 * d
    ensures Iterate(SlowWorld(d), SlowAt(d, n)) == Continue(SlowAt(d, n + 1))
  {
    hide Iterate, SlowWorld, SlowState, Start;
    if n == 0 {
      SlowAtIs(d, 0, 0);
      SlowStart(d);
    } else {
      var j := if (n - 1) / 3 < d then (n - 1) / 3 else d - 1;
      if n - 1 - 3 * j < 2 || j == d - 1 {
        StepWithStall(d, j, n - 1 - 3 * j);
      } else {
        StepWithProgress(d, j);
      }
    }
  }

  lemma StepWithStall(d: nat, j: nat, stalls: nat)
    requires j < d && stalls <= 2 && (stalls < 2 || j == d - 1)
    ensures Iterate(SlowWorld(d), SlowState(j, stalls)) == Continue(SlowAt(d, 3 * j + stalls + 2))
  {
    SlowStall(d, j, stalls + 1);
    SlowAtIs(d, j, stalls + 1);
  }

  lemma StepWithProgress(d: nat, j: nat)
    requires j + 1 < d
    ensures Iterate(SlowWorld(d), SlowState(j, 2)) == Continue(SlowAt(d, 3 * j + 4))
  {
    SlowProgress(d, j + 1);
    SlowAtIs(d, j + 1, 0);
  }

  lemma SlowAtIs(d: nat, j: nat, stalls: nat)
    requires j < d && stalls <= (if j == d - 1 then 3 else 2)
    ensures SlowAt(d, 3 * j + stalls + 1) == SlowState(j, stalls)
  {
    if stalls == 3 {
      assert (3 * j + 3) / 3 == d;
    } else {
      assert (3 * j + stalls) / 3 == j;
    }
  }

  lemma {:induction false} ChainOfIterations(w: World, executed: seq<string>, at: nat -> LoopState, n: nat)
    requires at(0) == Start(executed)
    requires forall k: nat :: k < n ==> Iterate(w, at(k)) == Continue(at(k + 1))
    ensures Iterations(w, executed, n) == Continue(at(n))
  {
    if n > 0 {
      ChainOfIterations(w, executed, at, n - 1);
    }
  }

  lemma SlowStart(d: nat)
    requires d > 0
    ensures Iterate(SlowWorld(d), Start(["t"])) == Continue(SlowState(0, 0))
  {
    SlowChoices(d, 0, 1);
    SlowRound(d, Start(["t"]), 0);
    assert {} + {Sig(0)} == Sigs(0) + {Sig(0)} == Sigs(1);
  }

  lemma SlowStall(d: nat, j: nat, stalls: nat)
    requires j < d && 1 <= stalls <= (if j == d - 1 then 3 else 2)
    ensures Iterate(SlowWorld(d), SlowState(j, stalls - 1)) == Continue(SlowState(j, stalls))
  {
    SlowChoices(d, j, stalls);
    var st := SlowState(j, stalls - 1);
    assert SlowWorld(d).reply(st.llmCalls) == [Tool(0)];
    SigsHold(j + 1, 0);
    SlowRound(d, st, 0);
    assert st.attempted + {Sig(0)} == st.attempted;
  }

  lemma SlowProgress(d: nat, j: nat)
    requires 1 <= j < d
    ensures Iterate(SlowWorld(d), SlowState(j - 1, 2)) == Continue(SlowState(j, 0))
  {
    SlowChoices(d, j, 1);
    var st := SlowState(j - 1, 2);
    assert st.llmCalls == 3 * j;
    assert SlowWorld(d).reply(st.llmCalls) == [Tool(j)];
    SigsHold(j, j);
    SlowRound(d, st, j);
    assert Sigs(j + 1) == Sigs(j) + {Sig(j)};
  }

  /** The bound is attained for every number of attempted signatures. */
  lemma BoundIsTight(d: nat)
    requires d >= 1
    ensures exists w: World, n ::
              var v := Iterations(w, ["t"], n);
              v.Exit? && v.reason == Stalled && |v.st.attempted| == d && v.st.llmCalls == CallBound(d)
  {
    forall k: nat | k < 3 * d + 1 { SlowStep(d, k); }
    ChainOfIterations(SlowWorld(d), ["t"], (k: nat) => SlowAt(d, k), 3 * d + 1);
    assert SlowAt(d, 3 * d + 1) == SlowState(d - 1, 3);
    var v := Iterations(SlowWorld(d), ["t"], 3 * d + 2);
    assert v == Iterate(SlowWorld(d), SlowState(d - 1, 3));
    SigsCount(d);
    assert v.Exit? && v.reason == Stalled && |v.st.attempted| == d && v.st.llmCalls == CallBound(d);
  }

  // ---------------------------------------------------------------- what makes the loop stop

  /** Every primitive call a reply names comes from `vocabulary`. */
  ghost predicate NamesOnly(w: World, vocabulary: iset<Signature>) {
    forall k, j :: 0 <= j < |w.reply(k)| && IsPrimitive(w.reply(k)[j]) ==>
      (w.reply(k)[j].name, w.reply(k)[j].args) in vocabulary
  }

  /** The primitive calls of a vocabulary are finitely many: `covered` holds them all. */
  ghost predicate Covers(covered: set<Signature>, vocabulary: iset<Signature>) {
    forall s :: s in vocabulary && IsPrimitive(Call(s.0, s.1)) ==> s in covered
  }

  ghost predicate Finite(vocabulary: iset<Signature>) {
    exists covered: set<Signature> :: Covers(covered, vocabulary)
  }

  ghost predicate Stops(w: World, executed: seq<string>) {
    exists n :: Iterations(w, executed, n).Exit?
  }

  /** A primitive call of an infinite vocabulary that is not among `used`. */
  ghost function Draw(vocabulary: iset<Signature>, used: set<Signature>): (s: Signature)
    requires !Finite(vocabulary)
    ensures s in vocabulary && IsPrimitive(Call(s.0, s.1)) && s !in used
  {
    assert !Covers(used, vocabulary);
    var s :| s in vocabulary && IsPrimitive(Call(s.0, s.1)) && s !in used;
    s
  }

  ghost function Drawn(vocabulary: iset<Signature>, n: nat): set<Signature>
    requires !Finite(vocabulary)
  {
    if n == 0 then {} else Drawn(vocabulary, n - 1) + {Draw(vocabulary, Drawn(vocabulary, n - 1))}
  }

  /** The n-th reply asks for the n-th call drawn. */
  ghost predicate AsksAnew(w: World, vocabulary: iset<Signature>, n: nat)
    requires !Finite(vocabulary)
  {
    var s := Draw(vocabulary, Drawn(vocabulary, n));
    w.reply(n) == [Call(s.0, s.1)]
  }

  /** An LLM that names a call it has never named before in every reply, and tools that succeed. */
  lemma InventiveWorld(vocabulary: iset<Signature>) returns (w: World)
    requires !Finite(vocabulary)
    ensures NamesOnly(w, vocabulary) && w.hasRouter && w.hasExecutor && w.execute == ((k, j) => Result(false))
    ensures forall n: nat :: AsksAnew(w, vocabulary, n)
  {
    ghost var reply: nat -> seq<ToolCall> :=
      (n: nat) => var s := Draw(vocabulary, Drawn(vocabulary, n)); [Call(s.0, s.1)];
    w := World(reply, (k, j) => Result(false), true, true);
  }

  lemma FreshCallRound(w: World, k: nat, s: Signature, attempted: set<Signature>)
    requires w.reply(k) == [Call(s.0, s.1)] && IsPrimitive(Call(s.0, s.1)) && w.hasExecutor
             && w.execute(k, 0) == Result(false)
    requires s !in attempted
    ensures DoCalls(w, k, w.reply(k), attempted) == Round(attempted + {s}, [s.0], true)
  {
    assert w.reply(k)[..0] == [];
    assert DoCalls(w, k, w.reply(k)[..0], attempted) == Round(attempted, [], false);
    assert [] + [s.0] == [s.0] && (s.0, s.1) == s;
  }

  lemma {:induction false} InventionGoesOn(w: World, vocabulary: iset<Signature>, n: nat)
    requires !Finite(vocabulary) && w.hasRouter && w.hasExecutor && w.execute == ((k, j) => Result(false))
    requires forall n: nat :: AsksAnew(w, vocabulary, n)
    ensures Iterations(w, ["t"], n).Continue?
    ensures var st := Iterations(w, ["t"], n).st;
            st.llmCalls == n && st.attempted == Drawn(vocabulary, n) && st.followUp == st.stall == 0
                && st.executed != []
  {
    hide Finite, Iterate, IsPrimitive, Draw;
    if n > 0 {
      InventionGoesOn(w, vocabulary, n - 1);
      assert AsksAnew(w, vocabulary, n - 1);
      OneInvention(w, Iterations(w, ["t"], n - 1).st, Draw(vocabulary, Drawn(vocabulary, n - 1)));
    }
  }

  lemma OneInvention(w: World, st: LoopState, s: Signature)
    requires w.hasRouter && w.hasExecutor && w.execute(st.llmCalls, 0) == Result(false)
    requires w.reply(st.llmCalls) == [Call(s.0, s.1)] && IsPrimitive(Call(s.0, s.1)) && s !in st.attempted
    requires st.followUp == st.stall == 0 && st.executed != []
    ensures Iterate(w, st) == Continue(LoopState(0, 0, st.attempted + {s}, [s.0], st.llmCalls + 1))
  {
    hide DoCalls;
    FreshCallRound(w, st.llmCalls, s, st.attempted);
  }

  /** No ceiling stops an LLM that keeps making new successful calls: the "hard" limit of
      `MAX_TOTAL_ROUNDS` resets with the other counter. Any infinite vocabulary is enough for that. */
  lemma NewCallsNeverStop(vocabulary: iset<Signature>) returns (w: World)
    requires !Finite(vocabulary)
    ensures NamesOnly(w, vocabulary) && !Stops(w, ["t"])
    ensures forall n :: Iterations(w, ["t"], n).Continue? && Iterations(w, ["t"], n).st.llmCalls == n
  {
    hide Finite;
    w := InventiveWorld(vocabulary);
    forall n: nat ensures Iterations(w, ["t"], n).Continue? && Iterations(w, ["t"], n).st.llmCalls == n {
      InventionGoesOn(w, vocabulary, n);
    }
  }

  /** The loop stops for every LLM that names only calls of a vocabulary, and whatever the tools do, if
      and only if the primitive calls of that vocabulary are finitely many. */
  lemma StopsIffVocabularyIsFinite(vocabulary: iset<Signature>)
    ensures Finite(vocabulary) <==>
            forall w: World, executed :: NamesOnly(w, vocabulary) ==> Stops(w, executed)
  {
    hide Iterations;
    if Finite(vocabulary) {
      var covered: set<Signature> :| Covers(covered, vocabulary);
      forall w: World, executed | NamesOnly(w, vocabulary) ensures Stops(w, executed) {
        assert RepliesWithin(w, covered);
        FiniteVocabularyStops(w, executed, covered);
      }
    } else {
      var w := NewCallsNeverStop(vocabulary);
      assert NamesOnly(w, vocabulary) && !Stops(w, ["t"]);
    }
  }

  /** What an LLM can name in general is infinite: one tool with arguments of every length. */
  lemma AllCallsAreInfinite(vocabulary: iset<Signature>)
    requires forall s: Signature :: s in vocabulary
    ensures !Finite(vocabulary)
  {
    forall covered: set<Signature> ensures !Covers(covered, vocabulary) {
      var d := |covered| + 1;
      SigsCount(d);
      if Sigs(d) <= covered { ProperSubsetIsSmaller(Sigs(d), covered); }
      var s :| s in Sigs(d) && s !in covered;
      SigsArePrimitive(d, s);
    }
  }

  lemma {:induction false} SigsArePrimitive(d: nat, s: Signature)
    requires s in Sigs(d)
    ensures IsPrimitive(Call(s.0, s.1))
  {
    if s in Sigs(d - 1) { SigsArePrimitive(d - 1, s); } else { assert "primitive." <= "primitive.t"; }
  }

  // ---------------------------------------------------------------- what a round makes of a reply

  /** The j-th call of the reply is a primitive that gives a result. */
  predicate Executes(w: World, k: nat, calls: seq<ToolCall>, j: nat) {
    j < |calls| && IsPrimitive(calls[j]) && w.hasExecutor && w.execute(k, j).Result?
  }

  /** The j-th call succeeds, and neither an earlier round nor an earlier call of this one has attempted it. */
  ghost predicate SucceedsAnew(w: World, k: nat, calls: seq<ToolCall>, attempted: set<Signature>, j: nat) {
    && Executes(w, k, calls, j) && !w.execute(k, j).isError
    && (calls[j].name, calls[j].args) !in attempted
    && forall i :: 0 <= i < j ==> !Signs(calls, i, (calls[j].name, calls[j].args))
  }

  ghost predicate Progress(w: World, k: nat, calls: seq<ToolCall>, attempted: set<Signature>) {
    exists j: nat :: SucceedsAnew(w, k, calls, attempted, j)
  }

  predicate Signs(calls: seq<ToolCall>, j: nat, sig: Signature) {
    j < |calls| && IsPrimitive(calls[j]) && sig == (calls[j].name, calls[j].args)
  }

  /** `at` lists the calls that gave a result, in order, and `names` their names. */
  ghost predicate Names(w: World, k: nat, calls: seq<ToolCall>, names: seq<string>, at: seq<nat>) {
    && |names| == |at|
    && (forall i :: 0 <= i < |at| ==> Executes(w, k, calls, at[i]) && names[i] == calls[at[i]].name)
    && (forall i, j :: 0 <= i < j < |at| ==> at[i] < at[j])
    && (forall j: nat :: Executes(w, k, calls, j) ==> j in at)
  }

  lemma {:induction false} RoundAttempts(w: World, k: nat, calls: seq<ToolCall>, attempted: set<Signature>,
                                         sig: Signature)
    ensures sig in DoCalls(w, k, calls, attempted).attempted <==>
            sig in attempted || exists j: nat :: Signs(calls, j, sig)
  {
    if |calls| > 0 {
      var n: nat := |calls| - 1;
      RoundAttempts(w, k, calls[..n], attempted, sig);
      if exists j: nat :: Signs(calls, j, sig) {
        var j: nat :| Signs(calls, j, sig);
        assert j < n ==> Signs(calls[..n], j, sig);
      }
      if exists j: nat :: Signs(calls[..n], j, sig) {
        var j: nat :| Signs(calls[..n], j, sig);
        assert Signs(calls, j, sig);
      }
      assert IsPrimitive(calls[n]) ==> Signs(calls, n, (calls[n].name, calls[n].args));
    }
  }

  /** A round makes progress exactly when one of its calls succeeds that was never attempted before. */
  lemma {:induction false} RoundProgressesIff(w: World, k: nat, calls: seq<ToolCall>, attempted: set<Signature>)
    ensures DoCalls(w, k, calls, attempted).newSuccess <==> Progress(w, k, calls, attempted)
  {
    hide IsPrimitive, SucceedsAnew;
    if |calls| > 0 {
      var n: nat := |calls| - 1;
      RoundProgressesIff(w, k, calls[..n], attempted);
      forall j: nat | j < n
        ensures SucceedsAnew(w, k, calls[..n], attempted, j) <==> SucceedsAnew(w, k, calls, attempted, j) {
        SucceedsEarlier(w, k, calls, attempted, n, j);
      }
      forall j: nat | j >= n ensures !SucceedsAnew(w, k, calls[..n], attempted, j) {
        NothingSucceedsBeyond(w, k, calls[..n], attempted, j);
      }
      forall j: nat | j > n ensures !SucceedsAnew(w, k, calls, attempted, j) {
        NothingSucceedsBeyond(w, k, calls, attempted, j);
      }
      LastSucceedsIff(w, k, calls, attempted);
    } else {
      forall j: nat ensures !SucceedsAnew(w, k, calls, attempted, j) {
        NothingSucceedsBeyond(w, k, calls, attempted, j);
      }
    }
  }

  lemma NothingSucceedsBeyond(w: World, k: nat, calls: seq<ToolCall>, attempted: set<Signature>, j: nat)
    requires j >= |calls|
    ensures !SucceedsAnew(w, k, calls, attempted, j)
  {
  }

  lemma SucceedsEarlier(w: World, k: nat, calls: seq<ToolCall>, attempted: set<Signature>, n: nat, j: nat)
    requires j < n <= |calls|
    ensures SucceedsAnew(w, k, calls[..n], attempted, j) <==> SucceedsAnew(w, k, calls, attempted, j)
  {
    if calls[j].Call? {
      var sig := (calls[j].name, calls[j].args);
      forall i: nat | i < j ensures Signs(calls[..n], i, sig) <==> Signs(calls, i, sig) {}
    }
  }

  lemma LastSucceedsIff(w: World, k: nat, calls: seq<ToolCall>, attempted: set<Signature>)
    requires |calls| > 0
    ensures var n := |calls| - 1;
            var before := DoCalls(w, k, calls[..n], attempted);
            SucceedsAnew(w, k, calls, attempted, n) <==>
            && IsPrimitive(calls[n]) && w.hasExecutor && w.execute(k, n).Result? && !w.execute(k, n).isError
            && (calls[n].name, calls[n].args) !in before.attempted
  {
    var n: nat := |calls| - 1;
    if IsPrimitive(calls[n]) {
      var sig := (calls[n].name, calls[n].args);
      RoundAttempts(w, k, calls[..n], attempted, sig);
      forall i: nat | i < n ensures Signs(calls[..n], i, sig) <==> Signs(calls, i, sig) {}
    }
  }

  /** A round executes, in order, exactly its primitives that give a result. */
  lemma {:induction false} RoundExecutes(w: World, k: nat, calls: seq<ToolCall>, attempted: set<Signature>)
      returns (at: seq<nat>)
    ensures Names(w, k, calls, DoCalls(w, k, calls, attempted).executed, at)
  {
    hide IsPrimitive, Names;
    if |calls| == 0 {
      at := [];
      NothingNamed(w, k, attempted);
    } else {
      var n: nat := |calls| - 1;
      at := RoundExecutes(w, k, calls[..n], attempted);
      NamesSnoc(w, k, calls, DoCalls(w, k, calls[..n], attempted).executed, at);
      if Executes(w, k, calls, n) { at := at + [n]; }
    }
  }

  lemma NothingNamed(w: World, k: nat, attempted: set<Signature>)
    ensures Names(w, k, [], DoCalls(w, k, [], attempted).executed, [])
  {
  }

  lemma NamesSnoc(w: World, k: nat, calls: seq<ToolCall>, names: seq<string>, at: seq<nat>)
    requires |calls| > 0 && Names(w, k, calls[..|calls| - 1], names, at)
    ensures var n: nat := |calls| - 1;
            if Executes(w, k, calls, n) then Names(w, k, calls, names + [calls[n].name], at + [n])
            else Names(w, k, calls, names, at)
  {
    var n: nat := |calls| - 1;
    forall j: nat | j < n ensures Executes(w, k, calls[..n], j) <==> Executes(w, k, calls, j) {}
    forall i | 0 <= i < |at| ensures at[i] < n && Executes(w, k, calls, at[i]) && names[i] == calls[at[i]].name {
      assert Executes(w, k, calls[..n], at[i]);
    }
    if Executes(w, k, calls, n) {
      var more := at + [n];
      forall j: nat | Executes(w, k, calls, j) ensures j in more { assert j == n ==> more[|at|] == n; }
    }
  }

  /** What decides whether the loop goes on, and what its counters become: they start afresh after a round
      that made progress and rise by one after any other. */
  lemma ProgressDecides(w: World, st: LoopState)
    ensures var v, calls := Iterate(w, st), w.reply(st.llmCalls);
            && (v.Exit? && v.reason == NothingExecuted <==> st.executed == [] || !w.hasRouter)
            && (st.executed != [] && w.hasRouter ==>
                  && v.st.llmCalls == st.llmCalls + 1
                  && (v.Exit? && v.reason == TextReply <==> calls == [])
                  && (calls != [] && st.followUp == st.stall && st.stall <= MAX_STALL_ROUNDS ==>
                        && (v.Exit? <==> st.stall == 3)
                        && (v.Exit? ==> v.reason == Stalled)
                        && (v.Continue? ==>
                              if Progress(w, st.llmCalls, calls, st.attempted) then v.st.followUp == v.st.stall == 0
                              else v.st.followUp == v.st.stall == st.stall + 1)))
  {
    hide DoCalls, Progress;
    RoundProgressesIff(w, st.llmCalls, w.reply(st.llmCalls), st.attempted);
  }

  /** No execution ever gives a result that is not an error. */
  ghost predicate Erring(w: World) {
    forall k, j :: w.execute(k, j).NoResult? || w.execute(k, j).isError
  }

  /** If no execution ever gives a result that is not an error, the loop gives up within four LLM calls. */
  lemma ErringToolsStall(w: World, executed: seq<string>)
    requires Erring(w)
    ensures Iterations(w, executed, 5).Exit?
    ensures forall n: nat :: Iterations(w, executed, n).st.llmCalls <= 4
  {
    forall n: nat ensures Iterations(w, executed, n).st.llmCalls <= 4 && (n >= 5 ==> Iterations(w, executed, n).Exit?) {
      StallingCounts(w, executed, n);
    }
  }

  lemma {:induction false} StallingCounts(w: World, executed: seq<string>, n: nat)
    requires Erring(w)
    ensures var v := Iterations(w, executed, n);
            && v.st.llmCalls <= 4
            && (v.Continue? ==> v.st.followUp == v.st.stall == v.st.llmCalls == n <= 3)
  {
    hide Iterate;
    if n > 0 {
      StallingCounts(w, executed, n - 1);
      var before := Iterations(w, executed, n - 1);
      if before.Continue? {
        ProgressDecides(w, before.st);
        NoProgress(w, before.st.llmCalls, w.reply(before.st.llmCalls), before.st.attempted);
        ExitCallsOnce(w, before.st);
      }
    }
  }

  lemma NoProgress(w: World, k: nat, calls: seq<ToolCall>, attempted: set<Signature>)
    requires Erring(w)
    ensures !Progress(w, k, calls, attempted)
  {
  }

  lemma ExitCallsOnce(w: World, st: LoopState)
    ensures Iterate(w, st).st.llmCalls <= st.llmCalls + 1
  {
  }

  // ---------------------------------------------------------------- the loop itself

  method RunRound(w: World, k: nat, calls: seq<ToolCall>, attempted0: set<Signature>)
    returns (attempted: set<Signature>, executed: seq<string>, newSuccess: bool)
    ensures Round(attempted, executed, newSuccess) == DoCalls(w, k, calls, attempted0)
    ensures newSuccess <==> Progress(w, k, calls, attempted0)
    ensures forall sig :: sig in attempted <==> sig in attempted0 || exists j: nat :: Signs(calls, j, sig)
    ensures exists at :: Names(w, k, calls, executed, at)
  {
    hide Progress, Names, Signs;
    attempted, executed, newSuccess := attempted0, [], false;
    for j := 0 to |calls|
      invariant Round(attempted, executed, newSuccess) == DoCalls(w, k, calls[..j], attempted0)
    {
      assert calls[..j + 1][..j] == calls[..j];
      var c := calls[j];
      if IsPrimitive(c) {
        var isNew := (c.name, c.args) !in attempted;
        attempted := attempted + {(c.name, c.args)};
        if w.hasExecutor {
          var result := w.execute(k, j);
          if result.Result? {
            executed := executed + [c.name];
            if isNew && !result.isError {
              newSuccess := true;
            }
          }
        }
      }
    }
    assert calls[..|calls|] == calls;
    RoundProgressesIff(w, k, calls, attempted0);
    forall sig ensures sig in attempted <==> sig in attempted0 || exists j: nat :: Signs(calls, j, sig) {
      RoundAttempts(w, k, calls, attempted0, sig);
    }
    ghost var at := RoundExecutes(w, k, calls, attempted0);
  }

  /** The loop of the program, run against an LLM that only names calls in `universe`
      (a proof parameter: without it the loop need not terminate). */
  method ExecuteFollowUps(w: World, executed0: seq<string>, ghost universe: set<Signature>)
    returns (reason: ExitReason, attempted: set<Signature>, llmCalls: nat)
    requires RepliesWithin(w, universe)
    ensures reason != DepthLimit
    ensures llmCalls <= CallBound(|attempted|)
    ensures attempted <= universe
    ensures Erring(w) ==> llmCalls <= 4
    ensures exists n :: var v := Iterations(w, executed0, n);
              v.Exit? && v.reason == reason && v.st.attempted == attempted && v.st.llmCalls == llmCalls
  {
    hide Erring, DoCalls, RepliesWithin, Progress, Names, Signs, IsPrimitive, AtHead;
    if Erring(w) { ErringToolsStall(w, executed0); }
    var followUp, stall, executed := 0, 0, executed0;
    attempted, llmCalls := {}, 0;
    while executed != [] && w.hasRouter
      invariant Iterations(w, executed0, llmCalls) ==
                Continue(LoopState(followUp, stall, attempted, executed, llmCalls))
      invariant attempted <= universe
      decreases CallBound(|universe|) - llmCalls
    {
      NextIteration(w, executed0, llmCalls, universe);
      ghost var next := Iterations(w, executed0, llmCalls + 1);
      var calls := w.reply(llmCalls);
      llmCalls := llmCalls + 1;
      if calls == [] {
        assert next == Exit(TextReply, LoopState(followUp, stall, attempted, executed, llmCalls));
        return TextReply, attempted, llmCalls;
      }
      followUp := followUp + 1;
      if followUp > MAX_TOTAL_ROUNDS {
        assert false;
        return DepthLimit, attempted, llmCalls;
      }
      if stall >= MAX_STALL_ROUNDS {
        assert next == Exit(Stalled, LoopState(followUp, stall, attempted, executed, llmCalls));
        return Stalled, attempted, llmCalls;
      }
      var newSuccess;
      attempted, executed, newSuccess := RunRound(w, llmCalls - 1, calls, attempted);
      if newSuccess {
        followUp, stall := 0, 0;
      } else {
        stall := stall + 1;
      }
    }
    CallsAreBounded(w, executed0, llmCalls);
    assert Iterations(w, executed0, llmCalls + 1)
        == Exit(NothingExecuted, LoopState(followUp, stall, attempted, executed, llmCalls));
    return NothingExecuted, attempted, llmCalls;
  }

  /** The facts about the next iteration that the loop's invariants need. */
  lemma NextIteration(w: World, executed0: seq<string>, n: nat, universe: set<Signature>)
    requires RepliesWithin(w, universe) && Iterations(w, executed0, n).Continue?
    ensures AtHead(Iterations(w, executed0, n).st)
    ensures var v := Iterations(w, executed0, n + 1);
            && v.st.attempted <= universe
            && v.st.llmCalls <= CallBound(|v.st.attempted|) <= CallBound(|universe|)
  {
    CallsAreBounded(w, executed0, n);
    CallsAreBounded(w, executed0, n + 1);
    IterationsStayWithin(w, executed0, n + 1, universe);
    ProperSubsetIsSmaller(Iterations(w, executed0, n + 1).st.attempted, universe);
  }
}
