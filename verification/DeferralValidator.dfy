/** Acyclicity check of the agent deferral graph, with the cycle path it reports. */
module DeferralValidator {
  import opened Wrappers
  import opened Digraph

  datatype Agent = Agent(id: string, deferTo: seq<string>)

  datatype DeferralError =
    | SelfDeferral(agent: string)
    | UnknownTarget(agent: string, target: string)
    | DeferralCycle(path: seq<string>)

  datatype Color = White | Grey | Black

  // ---------------------------------------------------------------- specification

  /** The dictionary the validator builds: a later registration of an id replaces an earlier one. */
  function DeferralGraph(agents: seq<Agent>): Graph {
    if |agents| == 0 then map[]
    else DeferralGraph(agents[..|agents| - 1])[agents[|agents| - 1].id := agents[|agents| - 1].deferTo]
  }

  lemma {:induction false} DeferralGraphKeys(agents: seq<Agent>)
    ensures forall n :: n in DeferralGraph(agents) <==> exists i :: 0 <= i < |agents| && agents[i].id == n
  {
    if |agents| > 0 {
      var init := agents[..|agents| - 1];
      DeferralGraphKeys(init);
      forall n ensures n in DeferralGraph(agents) <==> exists i :: 0 <= i < |agents| && agents[i].id == n {
        if n in DeferralGraph(init) {
          var i :| 0 <= i < |init| && init[i].id == n;
          assert agents[i].id == n;
        }
        if i :| 0 <= i < |agents| && agents[i].id == n {
          assert i == |agents| - 1 || init[i].id == n;
        }
      }
    }
  }

  lemma {:induction false} DeferralGraphIsOfLast(agents: seq<Agent>, i: nat)
    requires i < |agents| && forall j :: i < j < |agents| ==> agents[j].id != agents[i].id
    ensures agents[i].id in DeferralGraph(agents) && DeferralGraph(agents)[agents[i].id] == agents[i].deferTo
  {
    if i < |agents| - 1 { DeferralGraphIsOfLast(agents[..|agents| - 1], i); }
  }

  /** `parent` leads from the last element of `chain` back to its first, one element a step. */
  ghost predicate ParentChain(parent: map<string, string>, chain: seq<string>) {
    && |chain| >= 1 && Distinct(chain)
    && forall i :: 1 <= i < |chain| ==> chain[i] in parent && parent[chain[i]] == chain[i - 1]
  }

  function Reversed(s: seq<string>): (r: seq<string>)
    ensures |r| == |s| && forall i :: 0 <= i < |s| ==> r[i] == s[|s| - 1 - i]
  {
    seq(|s|, i requires 0 <= i < |s| => s[|s| - 1 - i])
  }

  // ---------------------------------------------------------------- cycle extraction

  /** Walks the parent pointers from `fromNode` to `toNode`; terminates because the pointers
      form the chain of the current search path, and returns that chain closed up. */
  method ExtractCycle(parent: map<string, string>, fromNode: string, toNode: string, ghost chain: seq<string>)
    returns (path: seq<string>)
    requires ParentChain(parent, chain) && chain[0] == toNode && chain[|chain| - 1] == fromNode
    ensures path == chain + [toNode]
  {
    path := [toNode];
    var current := Some(fromNode);
    ghost var k := |chain| - 1;
    while current.Some? && current.value != toNode
      invariant 0 <= k < |chain| && current == Some(chain[k])
      invariant path == [toNode] + Reversed(chain[k + 1..])
      decreases k
    {
      path := path + [current.value];
      assert Reversed(chain[k..]) == Reversed(chain[k + 1..]) + [chain[k]];
      current := if current.value in parent then Some(parent[current.value]) else None;
      k := k - 1;
    }
    path := path + [toNode];
    assert k == 0;
    path := Reversed(path);
    assert path == chain + [toNode];
  }

  // ---------------------------------------------------------------- search

  /** An unregistered target some agent really defers to, or a real cycle of the graph. */
  ghost predicate RealSearchError(g: Graph, e: DeferralError) {
    match e
    case SelfDeferral(_) => false
    case UnknownTarget(a, t) => Edge(g, a, t) && t !in g
    case DeferralCycle(path) => Cycle(g, path)
  }

  class DeferralSearch {
    const graph: Graph
    var color: map<string, Color>
    var parent: map<string, string>
    ghost var stack: seq<string>
    ghost var finished: seq<string>

    ghost predicate Valid()
      reads this
    {
      && color.Keys == graph.Keys
      && (forall n :: n in color && color[n] == Grey <==> n in stack)
      && (forall n :: n in color && color[n] == Black <==> n in finished)
      && (stack != [] ==> Walk(graph, stack) && ParentChain(parent, stack))
      && FinishOrder(graph, finished)
    }

    ghost function Remaining(): set<string>
      reads this
    {
      set n | n in graph && n !in stack && n !in finished
    }

    constructor (g: Graph)
      ensures Valid() && graph == g && stack == [] && finished == []
    {
      graph := g;
      color := map n | n in g :: White;
      parent := map[];
      stack, finished := [], [];
    }

    /** Explores `node`, already linked to its parent; any error it returns is real. */
    method Dfs(node: string) returns (error: Option<DeferralError>)
      requires Valid()
      requires node in color && color[node] == White
      requires stack != [] ==> Edge(graph, stack[|stack| - 1], node)
      requires stack != [] ==> node in parent && parent[node] == stack[|stack| - 1]
      modifies this
      ensures error.None? ==>
                && Valid() && stack == old(stack)
                && old(finished) <= finished && node in finished
      ensures error.Some? ==> RealSearchError(graph, error.value)
      decreases Remaining()
    {
      hide FinishOrder, ParentChain, Walk, Cycle;
      ghost var before := Remaining();
      Enter(node);
      ghost var here := stack;
      var neighbours := if node in graph then graph[node] else [];
      for i := 0 to |neighbours|
        invariant Valid() && stack == here
        invariant Remaining() <= before - {node}
        invariant old(finished) <= finished
        invariant forall k :: 0 <= k < i ==> neighbours[k] in finished
      {
        var neighbour := neighbours[i];
        assert Edge(graph, node, neighbour);
        if neighbour !in graph {
          return Some(UnknownTarget(node, neighbour));
        }
        if color[neighbour] == Grey {
          var path := CyclePath(node, neighbour);
          return Some(DeferralCycle(path));
        }
        if color[neighbour] == White {
          Link(neighbour, node);
          var inner := Dfs(neighbour);
          if inner.Some? {
            return inner;
          }
        }
      }
      Finish(node);
      return None;
    }

    method Enter(node: string)
      requires Valid()
      requires node in color && color[node] == White
      requires stack != [] ==> Edge(graph, stack[|stack| - 1], node)
      requires stack != [] ==> node in parent && parent[node] == stack[|stack| - 1]
      modifies this
      ensures Valid() && stack == old(stack) + [node] && finished == old(finished)
      ensures color == old(color)[node := Grey] && parent == old(parent)
    {
      color := color[node := Grey];
      stack := stack + [node];
    }

    /** Setting the parent pointer of an unexplored node leaves the current path's chain intact. */
    method Link(neighbour: string, node: string)
      requires Valid() && neighbour in color && color[neighbour] == White
      modifies this
      ensures Valid() && stack == old(stack) && finished == old(finished) && color == old(color)
      ensures parent == old(parent)[neighbour := node]
    {
      parent := parent[neighbour := node];
    }

    method CyclePath(node: string, neighbour: string) returns (path: seq<string>)
      requires Valid() && stack != [] && stack[|stack| - 1] == node
      requires Edge(graph, node, neighbour) && neighbour in stack
      ensures Cycle(graph, path)
    {
      ghost var at :| 0 <= at < |stack| && stack[at] == neighbour;
      path := ExtractCycle(parent, node, neighbour, stack[at..]);
      CycleFromStack(at);
    }

    lemma CycleFromStack(at: nat)
      requires Valid() && at < |stack| && Edge(graph, stack[|stack| - 1], stack[at])
      ensures Cycle(graph, stack[at..] + [stack[at]])
    {
      var p := stack[at..] + [stack[at]];
      forall k | 0 <= k < |p| - 1 ensures Edge(graph, p[k], p[k + 1]) {
        if k < |p| - 2 { assert Edge(graph, stack[at + k], stack[at + k + 1]); }
      }
    }

    method Finish(node: string)
      requires Valid() && stack != [] && stack[|stack| - 1] == node
      requires forall b :: Edge(graph, node, b) ==> b in finished
      modifies this
      ensures Valid() && stack == old(stack)[..|old(stack)| - 1]
      ensures finished == old(finished) + [node]
    {
      FinishOrderSnoc(graph, finished, node);
      color := color[node := Black];
      stack := stack[..|stack| - 1];
      finished := finished + [node];
    }
  }

  // ---------------------------------------------------------------- validation

  method BuildGraph(agents: seq<Agent>) returns (graph: Graph)
    ensures graph == DeferralGraph(agents)
  {
    graph := map[];
    for i := 0 to |agents|
      invariant graph == DeferralGraph(agents[..i])
    {
      assert agents[..i + 1][..i] == agents[..i];
      graph := graph[agents[i].id := agents[i].deferTo];
    }
    assert agents[..|agents|] == agents;
  }

  /** Each error the search can report shows that the graph must be refused. */
  lemma RefusedGraphs(g: Graph, e: DeferralError)
    requires RealSearchError(g, e) || (e.SelfDeferral? && Edge(g, e.agent, e.agent))
    ensures !(Closed(g) && Acyclic(g))
    ensures RealSearchError(g, e) ==> !e.SelfDeferral?
  {
    if e.SelfDeferral? {
      assert Cycle(g, [e.agent, e.agent]);
    }
  }

  /** The search from every agent not yet explored. */
  method SearchAll(agents: seq<Agent>, graph: Graph) returns (error: Option<DeferralError>)
    requires forall n :: n in graph <==> exists i :: 0 <= i < |agents| && agents[i].id == n
    ensures error.None? ==> Closed(graph) && Acyclic(graph)
    ensures error.Some? ==> RealSearchError(graph, error.value)
  {
    hide Acyclic, Closed, RealSearchError, Walk, Edge, FinishOrder, ParentChain, Distinct, DeferralSearch.Remaining;
    var search := new DeferralSearch(graph);
    for i := 0 to |agents|
      invariant fresh(search) && search.Valid() && search.stack == [] && search.graph == graph
      invariant forall k :: 0 <= k < i ==> agents[k].id in search.finished
    {
      if search.color[agents[i].id] == White {
        error := search.Dfs(agents[i].id);
        if error.Some? { return; }
      }
    }
    CompleteSearch(graph, search.finished);
    error := None;
  }

  /** Accepts exactly the graphs whose targets are all registered and that have no cycle.
      A self-deferral is always reported first; any other refusal names an edge to an
      unregistered agent or spells out a real cycle, start and end included. */
  method ValidateDeferralGraph(agents: seq<Agent>) returns (r: Result<(), DeferralError>)
    ensures r.Ok? <==> Closed(DeferralGraph(agents)) && Acyclic(DeferralGraph(agents))
    ensures (r.Err? && r.error.SelfDeferral?) <==> exists a :: Edge(DeferralGraph(agents), a, a)
    ensures r.Err? && r.error.SelfDeferral? ==> Edge(DeferralGraph(agents), r.error.agent, r.error.agent)
    ensures r.Err? && !r.error.SelfDeferral? ==> RealSearchError(DeferralGraph(agents), r.error)
  {
    hide Acyclic, Closed, RealSearchError, DeferralGraph, Walk;
    var graph := BuildGraph(agents);
    DeferralGraphKeys(agents);
    for i := 0 to |agents|
      invariant forall k :: 0 <= k < i ==> !Edge(graph, agents[k].id, agents[k].id)
    {
      var aid := agents[i].id;
      if aid in graph[aid] {
        RefusedGraphs(graph, SelfDeferral(aid));
        return Err(SelfDeferral(aid));
      }
    }
    var error := SearchAll(agents, graph);
    if error.Some? {
      RefusedGraphs(graph, error.value);
      return Err(error.value);
    }
    return Ok(());
  }
}
