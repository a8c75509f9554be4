/** Definitions that load although a run of them need not end: what the cycle test does not look at. */
module LoadedLoops {
  import opened Wrappers
  import opened Digraph
  import opened WorkflowEngine
  import opened WorkflowDefinitions
  import opened PlainWorkflows

  lemma TwoVisits(g: Graph, a: string)
    requires Edge(g, a, a)
    ensures LoopFrom(g, a)
  {
    var p := [a, a];
    assert Walk(g, p) && p[0] == p[1];
  }

  lemma NoEdgesNoCycle(g: Graph)
    requires forall a :: a in g ==> g[a] == []
    ensures Acyclic(g)
  {
    forall p ensures !Cycle(g, p) {
      if |p| >= 2 { assert !Edge(g, p[0], p[0 + 1]); }
    }
  }

  lemma Names()
    ensures END_TARGET != "a" && END_TARGET != "b" && END_TARGET != "" && "a" != "" && "b" != "" && "a" != "b"
    ensures "on_success" != "on_failure"
  {
    assert |END_TARGET| == 7 && "a"[0] == 'a' && "b"[0] == 'b';
    assert "on_success"[3] == 's' && "on_failure"[3] == 'f';
  }

  function LlmStepWith(id: string, success: string, failure: string): Step {
    Step(id, LlmStep, map[], map["on_success" := success, "on_failure" := failure])
  }

  /** An LLM step that is tried again when it fails. */
  function Retry(): Definition {
    Definition(map["a" := LlmStepWith("a", END_TARGET, "a")], "a")
  }

  /** A step whose own id is another's key: its failure is looked up there. */
  function SharedId(): Definition {
    Definition(map["b" := LlmStepWith("b", END_TARGET, "a"),
                   "a" := Step("b", LlmStep, map[], map["on_success" := END_TARGET])], "b")
  }

  /** The graph of the transitions as they are written, each under its own step. */
  function WrittenGraph(d: Definition): Graph {
    map id | id in d.steps ::
      Listed(Target(d.steps[id], "on_success")) + Listed(Target(d.steps[id], "on_failure"))
  }

  lemma EndsLoad(d: Definition)
    requires WellFormed(d) && FieldsOk(d) && forall id :: id in d.steps ==> MainTarget(d, id) == None
    ensures Loads(d)
  {
    hide MainTarget, WellFormed;
    NoEdgesNoCycle(MainGraph(d));
  }

  /** A step accepted by the field validators. */
  predicate StepOk(step: Step) {
    step.stepId != "" && !step.stepType.OtherStep? && step.transitions.Keys <= TRANSITION_KEYS
  }

  lemma LlmStepOk(id: string, success: string, failure: string)
    requires id != ""
    ensures StepOk(LlmStepWith(id, success, failure))
    ensures "on_success" in LlmStepWith(id, success, failure).transitions
            && LlmStepWith(id, success, failure).transitions["on_success"] == success
    ensures "on_failure" in LlmStepWith(id, success, failure).transitions
            && LlmStepWith(id, success, failure).transitions["on_failure"] == failure
    ensures LlmStepWith(id, success, failure).transitions.Values == {success, failure}
  {
    Names();
    var m := map["on_success" := success, "on_failure" := failure];
    assert m["on_success"] == success && m["on_failure"] == failure;
    assert "on_success" in m.Keys && "on_failure" in m.Keys;
    assert success in m.Values && failure in m.Values;
  }

  /** A definition passes the field validators if each step does and leads to a step or the end. */
  lemma StepsCheck(d: Definition)
    requires d.startStep in d.steps && d.startStep != ""
    requires forall id :: id in d.steps ==>
             StepOk(d.steps[id]) && d.steps[id].transitions.Values <= d.steps.Keys + {END_TARGET}
    ensures WellFormed(d) && FieldsOk(d)
  {
    forall id, key | id in d.steps && key in d.steps[id].transitions
      ensures d.steps[id].transitions[key] == END_TARGET || d.steps[id].transitions[key] in d.steps {
      assert d.steps[id].transitions[key] in d.steps[id].transitions.Values;
    }
  }

  lemma RetryChecks()
    ensures WellFormed(Retry()) && FieldsOk(Retry()) && forall id :: id in Retry().steps ==>
            MainTarget(Retry(), id) == None
  {
    hide LlmStepWith, WellFormed, FieldsOk, StepOk;
    Names();
    LlmStepOk("a", END_TARGET, "a");
    StepsCheck(Retry());
  }

  lemma SharedChecks()
    ensures WellFormed(SharedId()) && FieldsOk(SharedId()) && forall id :: id in SharedId().steps ==>
            MainTarget(SharedId(), id) == None
  {
    hide LlmStepWith, WellFormed, FieldsOk;
    Names();
    LlmStepOk("b", END_TARGET, "a");
    var only := map["on_success" := END_TARGET];
    assert only.Values == {END_TARGET} by { assert only["on_success"] in only.Values; }
    assert only.Keys == {"on_success"};
    StepsCheck(SharedId());
  }

  /** The cycle test never looks at failure edges: a step tried again when it fails loads, without any condition. */
  lemma RetryLoads()
    ensures Loads(Retry()) && AllPlain(Retry()) && LoopFrom(StepGraph(Retry()), Retry().startStep)
  {
    hide Loads, LoopFrom;
    Names();
    var d := Retry();
    RetryChecks();
    EndsLoad(d);
    assert FailureTarget(d, "a") == Some("a");
    assert StepGraph(d)["a"] == ["a"];
    TwoVisits(StepGraph(d), "a");
  }

  /** Nor does it look at step ids: a definition that is acyclic along every transition as written, and
      loads, but whose second step fails as its first one, back to itself. */
  lemma SharedIdLoads()
    ensures Loads(SharedId()) && AllPlain(SharedId()) && Acyclic(WrittenGraph(SharedId()))
    ensures LoopFrom(StepGraph(SharedId()), SharedId().startStep)
  {
    hide Loads, LoopFrom, Acyclic, Edge, StepGraph, WrittenGraph, MainTarget, WellFormed, FieldsOk;
    SharedChecks();
    EndsLoad(SharedId());
    WrittenIsAcyclic();
    SharedEdges();
    ThereAndRound(StepGraph(SharedId()), "b", "a");
  }

  lemma ThereAndRound(g: Graph, a: string, b: string)
    requires Edge(g, a, b) && Edge(g, b, b)
    ensures LoopFrom(g, a)
  {
    hide Edge;
    var p := [a, b, b];
    assert p[1] == p[2];
    assert Walk(g, p);
  }

  lemma SharedEdges()
    ensures Edge(StepGraph(SharedId()), "b", "a") && Edge(StepGraph(SharedId()), "a", "a")
  {
    Names();
    var d := SharedId();
    assert FailureTarget(d, "b") == Some("a") && FailureTarget(d, "a") == Some("a");
    assert StepGraph(d)["b"] == ["a"] && StepGraph(d)["a"] == ["a"];
  }

  lemma WrittenIsAcyclic()
    ensures Acyclic(WrittenGraph(SharedId()))
  {
    Names();
    hide Acyclic;
    var g := WrittenGraph(SharedId());
    assert g["b"] == ["a"] && g["a"] == [];
    OtherTwoNodes(g);
  }

  lemma OtherTwoNodes(g: Graph)
    requires g == map["b" := ["a"], "a" := []]
    ensures Acyclic(g)
  {
    hide Acyclic;
    Names();
    RankedIsAcyclic(g, map["b" := 1, "a" := 0]);
  }

  lemma TwoNodes(g: Graph)
    requires g == map["a" := ["b"], "b" := []]
    ensures Acyclic(g)
  {
    hide Acyclic;
    Names();
    RankedIsAcyclic(g, map["a" := 1, "b" := 0]);
  }

  // ---------------------------------------------------------------- conditions

  /** A condition step whose success edge leads back to itself. */
  function ConditionLoop(): Definition {
    Definition(map["c" := Step("c", ConditionStep, map[], map["on_success" := "c"])], "c")
  }

  /** One condition on a cycle is enough for the cycle test, whatever other cycles there are. */
  lemma ConditionExempts(d: Definition, c: string)
    requires WellFormed(d) && FieldsOk(d) && c in d.steps && d.steps[c].stepType.ConditionStep?
             && MainTarget(d, c) == Some(c)
    ensures Loads(d)
  {
    hide MainTarget, WellFormed, FieldsOk;
    assert MainGraph(d)[c] == [c];
    assert Edge(MainGraph(d), c, c);
    assert Cycle(MainGraph(d), [c, c]);
  }

  lemma ConditionOk()
    ensures var step := Step("c", ConditionStep, map[], map["on_success" := "c"]);
            StepOk(step) && step.transitions.Values == {"c"} && "on_success" in step.transitions
                && step.transitions["on_success"] == "c"
    ensures "c" != "" && "c" != END_TARGET && "c" != "a"
  {
    assert |END_TARGET| == 7 && "c"[0] == 'c' && "a"[0] == 'a';
    var m := map["on_success" := "c"];
    assert m.Keys == {"on_success"} && m["on_success"] in m.Values;
  }

  lemma ConditionLoopLoads()
    ensures Loads(ConditionLoop())
  {
    hide Loads, StepOk, WellFormed, FieldsOk;
    ConditionOk();
    StepsCheck(ConditionLoop());
    ConditionExempts(ConditionLoop(), "c");
  }

  /** A plain cycle beside a condition's: it loads, and is there to be walked for ever. */
  function Exempted(): Definition {
    Definition(map["c" := Step("c", ConditionStep, map[], map["on_success" := "c"]),
                   "a" := LlmStepWith("a", "a", END_TARGET)], "a")
  }

  lemma ExemptedLoads()
    ensures Loads(Exempted()) && LoopFrom(StepGraph(Exempted()), Exempted().startStep)
  {
    hide Loads, StepOk, WellFormed, FieldsOk, LlmStepWith, LoopFrom;
    Names();
    ConditionOk();
    LlmStepOk("a", "a", END_TARGET);
    var d := Exempted();
    StepsCheck(d);
    ConditionExempts(d, "c");
    SelfEdge(d, "a");
    TwoVisits(StepGraph(d), "a");
  }

  lemma SelfEdge(d: Definition, a: string)
    requires a in d.steps && Target(d.steps[a], "on_success") == Some(a)
    ensures Edge(StepGraph(d), a, a)
  {
  }

  // ---------------------------------------------------------------- shared ids

  /** Two LLM steps in a row that share a step id. */
  function TwoOfOneId(): Definition {
    Definition(map["a" := Step("b", LlmStep, map[], map["on_success" := "b"]),
                   "b" := Step("b", LlmStep, map[], map["on_success" := END_TARGET])], "a")
  }

  lemma TwoOfOneIdIsAcyclic()
    ensures Acyclic(StepGraph(TwoOfOneId()))
  {
    hide Acyclic;
    Names();
    var d, g := TwoOfOneId(), StepGraph(TwoOfOneId());
    assert FailureTarget(d, "a") == None && FailureTarget(d, "b") == None;
    assert g["a"] == ["b"] && g["b"] == [];
    TwoNodes(g);
  }

  // ---------------------------------------------------------------- where the test suffices

  /** Where no failure is followed, the cycle test does what it is for: a plain definition that loads has
      no cycle to reach. */
  lemma LoadedWithoutFailureEdges(d: Definition)
    requires Loads(d) && AllPlain(d) && "" !in d.steps
    requires forall id :: id in d.steps ==> FailureTarget(d, id) == None
    ensures Acyclic(StepGraph(d)) && !LoopFrom(StepGraph(d), d.startStep)
  {
    forall a, b ensures Edge(StepGraph(d), a, b) <==> Edge(MainGraph(d), a, b) { SameEdges(d, a, b); }
    NoConditions(d);
    SameEdgesSameCycles(StepGraph(d), MainGraph(d));
    forall p | Walk(StepGraph(d), p) ensures Distinct(p) { AcyclicWalksAreDistinct(StepGraph(d), p); }
  }

  /** A step stored under the empty string, which the cycle test takes for no target. */
  function EmptyKey(): Definition {
    Definition(map["a" := Step("a", LlmStep, map[], map["on_success" := ""]),
                   "" := Step("b", LlmStep, map[], map["on_success" := ""])], "a")
  }

  /** So the empty string has to be no key: a definition with one can load and loop although no
      failure is followed. */
  lemma EmptyKeyLoads()
    ensures Loads(EmptyKey()) && AllPlain(EmptyKey()) && "" in EmptyKey().steps
    ensures forall id :: id in EmptyKey().steps ==> FailureTarget(EmptyKey(), id) == None
    ensures LoopFrom(StepGraph(EmptyKey()), EmptyKey().startStep)
  {
    hide Loads, LoopFrom, StepOk, WellFormed, FieldsOk, StepGraph, Edge;
    Names();
    var d := EmptyKey();
    EmptyKeyStepOk("a");
    EmptyKeyStepOk("b");
    StepsCheck(d);
    EndsLoad(d);
    EmptyKeyEdges();
    ThereAndRound(StepGraph(d), "a", "");
  }

  lemma EmptyKeyStepOk(id: string)
    requires id != ""
    ensures var step := Step(id, LlmStep, map[], map["on_success" := ""]);
            StepOk(step) && step.transitions.Values == {""} && step.transitions.Keys == {"on_success"}
  {
    var m := map["on_success" := ""];
    assert m.Keys == {"on_success"} && m["on_success"] in m.Values;
  }

  lemma EmptyKeyEdges()
    ensures Edge(StepGraph(EmptyKey()), "a", "") && Edge(StepGraph(EmptyKey()), "", "")
  {
    Names();
    var d := EmptyKey();
    assert Target(d.steps["a"], "on_success") == Some("") && Target(d.steps[""], "on_success") == Some("");
    assert StepGraph(d)["a"] == [""] + Listed(FailureTarget(d, "a"))
           && StepGraph(d)[""] == [""] + Listed(FailureTarget(d, ""));
  }

  lemma SameEdges(d: Definition, a: string, b: string)
    requires WellFormed(d) && AllPlain(d) && "" !in d.steps && (a in d.steps ==> FailureTarget(d, a) == None)
    ensures Edge(StepGraph(d), a, b) <==> Edge(MainGraph(d), a, b)
  {
  }

  lemma NoConditions(d: Definition)
    requires Loads(d) && AllPlain(d)
    ensures Acyclic(MainGraph(d))
  {
  }

  lemma SameEdgesSameCycles(g: Graph, h: Graph)
    requires (forall a, b :: Edge(g, a, b) <==> Edge(h, a, b)) && Acyclic(h)
    ensures Acyclic(g)
  {
    hide Edge;
    forall p ensures !Cycle(g, p) {
      if Walk(g, p) {
        forall i | 0 <= i < |p| - 1 ensures Edge(h, p[i], p[i + 1]) { assert Edge(g, p[i], p[i + 1]); }
        assert Walk(h, p) && !Cycle(h, p);
      }
    }
  }
}
