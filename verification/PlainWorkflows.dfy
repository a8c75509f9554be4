/** Workflows of LLM and tool steps only, whose places lead to one another as the step graph says. */
module PlainWorkflows {
  import opened Wrappers
  import opened Digraph
  import opened WorkflowEngine
  import opened WorkflowPlaces

  ghost predicate AllPlain(d: Definition) {
    forall id :: id in d.steps ==> d.steps[id].stepType.LlmStep? || d.steps[id].stepType.ToolStep?
  }

  /** Some walk from `a` comes back to where it has been: a cycle is reachable from `a`. */
  ghost predicate LoopFrom(g: Graph, a: string) {
    exists p :: Walk(g, p) && p[0] == a && !Distinct(p)
  }

  lemma EdgesLead(mode: Mode, env: Env, reg: Registry, wf: string, a: string, b: string)
    requires wf in reg && AllPlain(reg[wf]) && !mode.Inline?
    ensures Leads(mode, env, reg, Place(wf, a), Place(wf, b)) <==> Edge(StepGraph(reg[wf]), a, b)
  {
  }

  /** A walk of the step graph as a trail. */
  function PlacesOn(wf: string, p: seq<string>): seq<Place> {
    seq(|p|, i requires 0 <= i < |p| => Place(wf, p[i]))
  }

  lemma WalkIsTrail(mode: Mode, env: Env, reg: Registry, wf: string, p: seq<string>)
    requires wf in reg && AllPlain(reg[wf]) && !mode.Inline? && Walk(StepGraph(reg[wf]), p)
    ensures Trail(mode, env, reg, PlacesOn(wf, p))
  {
    hide Leads, Edge, StepGraph, AllPlain;
    var q := PlacesOn(wf, p);
    forall i | 0 <= i < |q| - 1 ensures Leads(mode, env, reg, q[i], q[i + 1]) {
      assert Edge(StepGraph(reg[wf]), p[i], p[i + 1]);
      EdgesLead(mode, env, reg, wf, p[i], p[i + 1]);
    }
  }

  /** Plain steps ask for no evaluation, so every evaluator will do. */
  lemma PlainAgrees(env: Env, reg: Registry, wf: string, p: seq<Place>)
    requires wf in reg && AllPlain(reg[wf]) && forall i :: 0 <= i < |p| ==> p[i].wf == wf
    ensures Agrees(env, reg, p)
  {
    hide Forward;
    forall i, e | 0 <= i < |p| ensures !Asks(reg, p[i], e) {}
  }
}
