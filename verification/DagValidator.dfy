/** Validation and ordering of a decomposition plan's subtask graph. */
module DagValidator {
  import opened Wrappers
  import opened Digraph

  datatype SubtaskSpec = SubtaskSpec(id: string, description: string, dependsOn: seq<string>)

  datatype DagError =
    | DuplicateIds
    | UnknownDependency(id: string, dep: string)
    | SelfDependency(id: string, dep: string)
    | CycleDetected(id: string, dep: string)

  datatype Mark = Unvisited | Visiting | Visited

  // ---------------------------------------------------------------- specification

  function Ids(subtasks: seq<SubtaskSpec>): set<string> {
    set s | s in subtasks :: s.id
  }

  ghost predicate UniqueIds(subtasks: seq<SubtaskSpec>) {
    forall i, j :: 0 <= i < j < |subtasks| ==> subtasks[i].id != subtasks[j].id
  }

  /** The dependency at position `d` of the `i`-th subtask names another subtask of the plan. */
  predicate GoodDependency(subtasks: seq<SubtaskSpec>, i: nat, d: nat)
    requires i < |subtasks| && d < |subtasks[i].dependsOn|
  {
    subtasks[i].dependsOn[d] in Ids(subtasks) && subtasks[i].dependsOn[d] != subtasks[i].id
  }

  ghost predicate GoodBefore(subtasks: seq<SubtaskSpec>, i: nat, d: nat)
    requires i <= |subtasks|
  {
    && (forall k, e :: 0 <= k < i && 0 <= e < |subtasks[k].dependsOn| ==> GoodDependency(subtasks, k, e))
    && (i < |subtasks| ==> forall e :: 0 <= e < d && e < |subtasks[i].dependsOn| ==> GoodDependency(subtasks, i, e))
  }

  /** The first bad dependency, in the order the validator looks, is at `(i, d)`. */
  ghost predicate FirstBad(subtasks: seq<SubtaskSpec>, i: nat, d: nat) {
    && i < |subtasks| && d < |subtasks[i].dependsOn|
    && GoodBefore(subtasks, i, d)
    && !GoodDependency(subtasks, i, d)
  }

  function Adjacency(subtasks: seq<SubtaskSpec>): Graph {
    if |subtasks| == 0 then map[]
    else
      var last := subtasks[|subtasks| - 1];
      Adjacency(subtasks[..|subtasks| - 1])[last.id := last.dependsOn]
  }

  /** The four rules the module enforces. */
  ghost predicate ValidPlan(subtasks: seq<SubtaskSpec>) {
    && UniqueIds(subtasks)
    && GoodBefore(subtasks, |subtasks|, 0)
    && Acyclic(Adjacency(subtasks))
  }

  /** The edge `u -> v` closes a directed cycle. */
  ghost predicate ClosesCycle(g: Graph, u: string, v: string) {
    exists p :: Cycle(g, p) && p[|p| - 2] == u && p[|p| - 1] == v
  }

  /** Every dependency of an entry occurs at an earlier position. */
  ghost predicate DependenciesFirst(order: seq<SubtaskSpec>) {
    forall i, dep :: 0 <= i < |order| && dep in order[i].dependsOn ==>
      exists j :: 0 <= j < i && order[j].id == dep
  }

  lemma {:induction false} AdjacencyKeys(subtasks: seq<SubtaskSpec>)
    ensures Adjacency(subtasks).Keys == Ids(subtasks)
  {
    if |subtasks| > 0 {
      var init := subtasks[..|subtasks| - 1];
      AdjacencyKeys(init);
      assert subtasks == init + [subtasks[|subtasks| - 1]];
    }
  }

  lemma {:induction false} AdjacencyAt(subtasks: seq<SubtaskSpec>, i: nat)
    requires UniqueIds(subtasks) && i < |subtasks|
    ensures subtasks[i].id in Adjacency(subtasks)
    ensures Adjacency(subtasks)[subtasks[i].id] == subtasks[i].dependsOn
  {
    if i < |subtasks| - 1 {
      AdjacencyAt(subtasks[..|subtasks| - 1], i);
    }
  }

  /** Where ids repeat, the dictionary keeps the dependencies of the last one. */
  lemma {:induction false} AdjacencyIsOfLast(subtasks: seq<SubtaskSpec>, i: nat)
    requires i < |subtasks| && forall j :: i < j < |subtasks| ==> subtasks[j].id != subtasks[i].id
    ensures subtasks[i].id in Adjacency(subtasks)
    ensures Adjacency(subtasks)[subtasks[i].id] == subtasks[i].dependsOn
  {
    if i < |subtasks| - 1 { AdjacencyIsOfLast(subtasks[..|subtasks| - 1], i); }
  }

  lemma GoodPlanIsClosed(subtasks: seq<SubtaskSpec>)
    requires UniqueIds(subtasks) && GoodBefore(subtasks, |subtasks|, 0)
    ensures Closed(Adjacency(subtasks))
  {
    var g := Adjacency(subtasks);
    AdjacencyKeys(subtasks);
    forall a, b | Edge(g, a, b) ensures b in g {
      var i :| 0 <= i < |subtasks| && subtasks[i].id == a;
      AdjacencyAt(subtasks, i);
      var d :| 0 <= d < |subtasks[i].dependsOn| && subtasks[i].dependsOn[d] == b;
      assert GoodDependency(subtasks, i, d);
    }
  }

  /** Counting distinct ids detects duplicates. */
  lemma {:induction false} IdCount(subtasks: seq<SubtaskSpec>)
    ensures |Ids(subtasks)| <= |subtasks|
    ensures |Ids(subtasks)| == |subtasks| <==> UniqueIds(subtasks)
  {
    if |subtasks| > 0 {
      var init, last := subtasks[..|subtasks| - 1], subtasks[|subtasks| - 1];
      IdCount(init);
      IdsSnoc(subtasks);
      if last.id in Ids(init) {
        var i :| 0 <= i < |init| && init[i].id == last.id;
        assert subtasks[i].id == subtasks[|subtasks| - 1].id;
      } else if UniqueIds(init) {
        UniqueSnoc(subtasks);
      } else {
        var i, j :| 0 <= i < j < |init| && init[i].id == init[j].id;
        assert subtasks[i].id == subtasks[j].id;
      }
    }
  }

  lemma IdsSnoc(subtasks: seq<SubtaskSpec>)
    requires |subtasks| > 0
    ensures Ids(subtasks) == Ids(subtasks[..|subtasks| - 1]) + {subtasks[|subtasks| - 1].id}
  {
    assert subtasks == subtasks[..|subtasks| - 1] + [subtasks[|subtasks| - 1]];
  }

  lemma UniqueSnoc(subtasks: seq<SubtaskSpec>)
    requires |subtasks| > 0 && UniqueIds(subtasks[..|subtasks| - 1])
    requires subtasks[|subtasks| - 1].id !in Ids(subtasks[..|subtasks| - 1])
    ensures UniqueIds(subtasks)
  {
    var init := subtasks[..|subtasks| - 1];
    forall i, j | 0 <= i < j < |subtasks| ensures subtasks[i].id != subtasks[j].id {
      assert subtasks[i] == init[i] && init[i] in init;
    }
  }

  // ---------------------------------------------------------------- cycle detection

  method BuildAdjacency(subtasks: seq<SubtaskSpec>) returns (adjacency: Graph)
    ensures adjacency == Adjacency(subtasks)
  {
    adjacency := map[];
    for i := 0 to |subtasks|
      invariant adjacency == Adjacency(subtasks[..i])
    {
      adjacency := adjacency[subtasks[i].id := subtasks[i].dependsOn];
      assert subtasks[..i + 1][..i] == subtasks[..i];
    }
    assert subtasks[..|subtasks|] == subtasks;
  }

  /** The depth-first search of `_check_cycles`; `path` and `finished` are proof state. */
  class CycleSearch {
    const adjacency: Graph
    var state: map<string, Mark>
    ghost var path: seq<string>
    ghost var finished: seq<string>

    ghost predicate Valid()
      reads this
    {
      && Closed(adjacency)
      && state.Keys == adjacency.Keys
      && (forall n :: n in state && state[n] == Visiting <==> n in path)
      && (forall n :: n in state && state[n] == Visited <==> n in finished)
      && (path != [] ==> Walk(adjacency, path))
      && FinishOrder(adjacency, finished)
    }

    ghost function Remaining(): set<string>
      reads this
    {
      set n | n in adjacency && n !in path && n !in finished
    }

    constructor (g: Graph)
      requires Closed(g)
      ensures Valid() && adjacency == g && path == [] && finished == []
      ensures forall n :: n in state ==> state[n] == Unvisited
    {
      adjacency := g;
      state := map n | n in g :: Unvisited;
      path, finished := [], [];
    }

    /** Explores `node`; a returned edge is a back-edge and closes a cycle. */
    method Dfs(node: string) returns (backEdge: Option<(string, string)>)
      requires Valid()
      requires node in state && state[node] == Unvisited
      requires path != [] ==> Edge(adjacency, path[|path| - 1], node)
      modifies this
      ensures backEdge.None? ==>
                && Valid() && path == old(path)
                && old(finished) <= finished && node in finished
      ensures backEdge.Some? ==> ClosesCycle(adjacency, backEdge.value.0, backEdge.value.1)
      decreases Remaining()
    {
      hide Walk, ClosesCycle, FinishOrder, Cycle, Acyclic, Distinct;
      ghost var before := Remaining();
      Enter(node);
      ghost var here := path;
      var deps := if node in adjacency then adjacency[node] else [];
      for i := 0 to |deps|
        invariant Valid() && path == here
        invariant Remaining() <= before - {node}
        invariant old(finished) <= finished
        invariant forall k :: 0 <= k < i ==> deps[k] in finished
      {
        var dep := deps[i];
        assert Edge(adjacency, node, dep);
        if state[dep] == Visiting {
          BackEdgeClosesCycle(node, dep);
          return Some((node, dep));
        }
        if state[dep] == Unvisited {
          var inner := Dfs(dep);
          if inner.Some? {
            return inner;
          }
        }
      }
      Finish(node);
      return None;
    }

    method Enter(node: string)
      requires Valid() && node in state && state[node] == Unvisited
      requires path != [] ==> Edge(adjacency, path[|path| - 1], node)
      modifies this
      ensures Valid() && path == old(path) + [node] && finished == old(finished)
      ensures state == old(state)[node := Visiting]
    {
      state := state[node := Visiting];
      path := path + [node];
    }

    lemma BackEdgeClosesCycle(node: string, dep: string)
      requires Valid() && path != [] && path[|path| - 1] == node
      requires Edge(adjacency, node, dep) && dep in path
      ensures ClosesCycle(adjacency, node, dep)
    {
      var i :| 0 <= i < |path| && path[i] == dep;
      var p := path[i..] + [dep];
      forall k | 0 <= k < |p| - 1 ensures Edge(adjacency, p[k], p[k + 1]) {
        if k < |p| - 2 { assert Edge(adjacency, path[i + k], path[i + k + 1]); }
      }
      assert Cycle(adjacency, p);
    }

    method Finish(node: string)
      requires Valid() && path != [] && path[|path| - 1] == node
      requires node !in path[..|path| - 1]
      requires forall b :: Edge(adjacency, node, b) ==> b in finished
      modifies this
      ensures Valid() && path == old(path)[..|old(path)| - 1]
      ensures finished == old(finished) + [node]
      ensures state == old(state)[node := Visited]
    {
      FinishOrderSnoc(adjacency, finished, node);
      state := state[node := Visited];
      path := path[..|path| - 1];
      finished := finished + [node];
    }
  }

  method CheckCycles(subtasks: seq<SubtaskSpec>) returns (backEdge: Option<(string, string)>)
    requires UniqueIds(subtasks) && GoodBefore(subtasks, |subtasks|, 0)
    ensures backEdge.None? <==> Acyclic(Adjacency(subtasks))
    ensures backEdge.Some? ==> ClosesCycle(Adjacency(subtasks), backEdge.value.0, backEdge.value.1)
  {
    hide Acyclic, ClosesCycle, Walk, Adjacency, GoodBefore, Edge, FinishOrder, Closed, UniqueIds, CycleSearch.Remaining;
    var adjacency := BuildAdjacency(subtasks);
    GoodPlanIsClosed(subtasks);
    AdjacencyKeys(subtasks);
    var search := new CycleSearch(adjacency);
    for i := 0 to |subtasks|
      invariant fresh(search) && search.Valid() && search.path == [] && search.adjacency == adjacency
      invariant forall k :: 0 <= k < i ==> subtasks[k].id in search.finished
    {
      if search.state[subtasks[i].id] == Unvisited {
        var inner := search.Dfs(subtasks[i].id);
        if inner.Some? {
          ClosingEdgeIsCyclic(adjacency, inner.value.0, inner.value.1);
          return inner;
        }
      }
    }
    CompleteSearch(adjacency, search.finished);
    return None;
  }

  lemma ClosingEdgeIsCyclic(g: Graph, u: string, v: string)
    requires ClosesCycle(g, u, v)
    ensures !Acyclic(g)
  {
  }

  // ---------------------------------------------------------------- validation

  /** Accepts exactly the valid plans, and each refusal names a real violation:
      the first bad dependency in plan order, or an edge that closes a cycle. */
  method ValidateDag(subtasks: seq<SubtaskSpec>) returns (r: Result<(), DagError>)
    ensures r.Ok? <==> ValidPlan(subtasks)
    ensures r == Err(DuplicateIds) <==> !UniqueIds(subtasks)
    ensures r.Err? && (r.error.UnknownDependency? || r.error.SelfDependency?) ==>
              exists i: nat, d: nat :: && FirstBad(subtasks, i, d)
                                       && r.error.id == subtasks[i].id && r.error.dep == subtasks[i].dependsOn[d]
                                       && (r.error.UnknownDependency? <==> r.error.dep !in Ids(subtasks))
    ensures r.Err? && r.error.CycleDetected? ==>
              && GoodBefore(subtasks, |subtasks|, 0)
              && ClosesCycle(Adjacency(subtasks), r.error.id, r.error.dep)
  {
    var ids: set<string> := {};
    for i := 0 to |subtasks|
      invariant ids == Ids(subtasks[..i])
    {
      IdsSnoc(subtasks[..i + 1]);
      assert subtasks[..i + 1][..i] == subtasks[..i];
      ids := ids + {subtasks[i].id};
    }
    assert subtasks[..|subtasks|] == subtasks;
    IdCount(subtasks);
    if |ids| != |subtasks| {
      return Err(DuplicateIds);
    }
    for i := 0 to |subtasks|
      invariant GoodBefore(subtasks, i, 0)
    {
      var s := subtasks[i];
      for d := 0 to |s.dependsOn|
        invariant GoodBefore(subtasks, i, d)
      {
        if s.dependsOn[d] !in ids {
          assert FirstBad(subtasks, i, d);
          return Err(UnknownDependency(s.id, s.dependsOn[d]));
        }
        if s.dependsOn[d] == s.id {
          assert FirstBad(subtasks, i, d);
          return Err(SelfDependency(s.id, s.dependsOn[d]));
        }
      }
    }
    var backEdge := CheckCycles(subtasks);
    if backEdge.Some? {
      return Err(CycleDetected(backEdge.value.0, backEdge.value.1));
    }
    return Ok(());
  }

  // ---------------------------------------------------------------- ordering

  /** Visited is what is being visited and what has been emitted, all of it from the plan. */
  ghost predicate Tracks(subtasks: seq<SubtaskSpec>, idMap: map<string, SubtaskSpec>, visited: set<string>,
                         active: set<string>, result: seq<SubtaskSpec>)
  {
    && visited <= idMap.Keys && active <= visited
    && (forall n :: n in visited <==> n in active || n in Ids(result))
    && active !! Ids(result)
    && (forall s :: s in result ==> s in subtasks)
  }

  lemma EmittedTracks(subtasks: seq<SubtaskSpec>, idMap: map<string, SubtaskSpec>, visited: set<string>,
                      active: set<string>, result: seq<SubtaskSpec>, node: SubtaskSpec)
    requires Tracks(subtasks, idMap, visited, active, result) && node in subtasks && node.id in active
    ensures Tracks(subtasks, idMap, visited, active - {node.id}, result + [node])
    ensures node.id !in Ids(result)
  {
    hide Ids;
    IdsSnoc(result + [node]);
    assert (result + [node])[..|result + [node]| - 1] == result;
  }

  /** `_visit` and the two collections it updates; `active` holds the ids being visited. */
  class TopologicalVisit {
    const subtasks: seq<SubtaskSpec>
    const idMap: map<string, SubtaskSpec>
    ghost const rank: map<string, nat>
    var visited: set<string>
    var result: seq<SubtaskSpec>
    ghost var active: set<string>

    /** `idMap` indexes a plan that has passed validation. */
    ghost predicate Indexed() {
      && idMap.Keys == Ids(subtasks)
      && (forall s :: s in subtasks ==> idMap[s.id] == s)
      && (forall n :: n in idMap ==> idMap[n] in subtasks && idMap[n].id == n && n in rank)
      && (forall n, b :: n in idMap && b in idMap[n].dependsOn ==> b in idMap && rank[b] < rank[n])
    }

    ghost predicate Valid()
      reads this
    {
      && Indexed()
      && Tracks(subtasks, idMap, visited, active, result)
      && UniqueIds(result)
      && DependenciesFirst(result)
    }

    constructor (subtasks: seq<SubtaskSpec>, idMap: map<string, SubtaskSpec>, ghost rank: map<string, nat>)
      ensures this.subtasks == subtasks && this.idMap == idMap && this.rank == rank
      ensures visited == {} && result == [] && active == {}
    {
      this.subtasks, this.idMap, this.rank := subtasks, idMap, rank;
      visited, result, active := {}, [], {};
    }

    /** Visited but not yet emitted means on the current path, and the rank keeps a
        dependency off the path: so on return `nodeId` has been emitted. */
    method Visit(nodeId: string)
      requires Valid() && nodeId in idMap
      requires forall a :: a in active ==> rank[nodeId] < rank[a]
      modifies this
      ensures Valid() && active == old(active)
      ensures nodeId in Ids(result)
      ensures old(result) <= result && old(visited) <= visited
      decreases idMap.Keys - visited
    {
      if nodeId in visited {
        return;
      }
      visited := visited + {nodeId};
      active := active + {nodeId};
      ghost var here := active;
      var node := idMap[nodeId];
      for i := 0 to |node.dependsOn|
        invariant Valid() && active == here
        invariant old(result) <= result && old(visited) + {nodeId} <= visited
        invariant forall k :: 0 <= k < i ==> node.dependsOn[k] in Ids(result)
      {
        ghost var sofar := result;
        Visit(node.dependsOn[i]);
        IdsGrow(sofar, result);
      }
      Emit(node);
    }

    method Emit(node: SubtaskSpec)
      requires Valid() && node in subtasks && node.id in active
      requires forall b :: b in node.dependsOn ==> b in Ids(result)
      modifies this
      ensures Valid() && active == old(active) - {node.id}
      ensures result == old(result) + [node] && visited == old(visited)
    {
      hide DependenciesFirst, UniqueIds, Tracks, Ids;
      EmittedTracks(subtasks, idMap, visited, active, result, node);
      EmittedIsUnique(result, node);
      DependenciesSnoc(result, node);
      active := active - {node.id};
      result := result + [node];
    }
  }

  lemma EmittedIsUnique(result: seq<SubtaskSpec>, node: SubtaskSpec)
    requires UniqueIds(result) && node.id !in Ids(result)
    ensures UniqueIds(result + [node])
  {
    hide Ids;
    assert (result + [node])[..|result + [node]| - 1] == result;
    UniqueSnoc(result + [node]);
  }

  lemma IdsGrow(small: seq<SubtaskSpec>, big: seq<SubtaskSpec>)
    requires small <= big
    ensures Ids(small) <= Ids(big)
  {
    forall s | s in small ensures s in big {
      var i :| 0 <= i < |small| && small[i] == s;
      assert big[i] == s;
    }
  }

  lemma DependenciesSnoc(order: seq<SubtaskSpec>, node: SubtaskSpec)
    requires DependenciesFirst(order)
    requires forall b :: b in node.dependsOn ==> b in Ids(order)
    ensures DependenciesFirst(order + [node])
  {
    var longer := order + [node];
    forall i, dep | 0 <= i < |longer| && dep in longer[i].dependsOn
      ensures exists j :: 0 <= j < i && longer[j].id == dep
    {
      if i < |order| {
        assert dep in order[i].dependsOn;
        var j :| 0 <= j < i && order[j].id == dep;
        assert longer[j].id == dep;
      } else {
        var s :| s in order && s.id == dep;
        var j :| 0 <= j < |order| && order[j] == s;
        assert longer[j].id == dep;
      }
    }
  }

  /** Two lists without repeated ids that hold the same subtasks are permutations of each other. */
  lemma {:induction false} SameMembersPermute(a: seq<SubtaskSpec>, b: seq<SubtaskSpec>)
    requires UniqueIds(a) && UniqueIds(b)
    requires forall s :: s in a <==> s in b
    ensures multiset(a) == multiset(b)
  {
    UniqueCounts(a);
    UniqueCounts(b);
    forall s ensures multiset(a)[s] == multiset(b)[s] {
      assert s in multiset(a) <==> s in a;
      assert s in multiset(b) <==> s in b;
    }
  }

  lemma {:induction false} UniqueCounts(a: seq<SubtaskSpec>)
    requires UniqueIds(a)
    ensures forall s :: multiset(a)[s] <= 1
  {
    if |a| > 0 {
      var init := a[..|a| - 1];
      UniqueCounts(init);
      assert a == init + [a[|a| - 1]];
      forall i | 0 <= i < |init| ensures init[i] != a[|a| - 1] { assert init[i] == a[i]; }
      assert a[|a| - 1] !in multiset(init);
    }
  }

  /** The sorting loop over a plan that passed validation, with a rank of its graph. */
  method VisitAll(subtasks: seq<SubtaskSpec>, ghost rank: map<string, nat>) returns (order: seq<SubtaskSpec>)
    requires UniqueIds(subtasks)
    requires forall s :: s in subtasks ==> s.id in rank
    requires forall s, b :: s in subtasks && b in s.dependsOn ==>
             b in Ids(subtasks) && b in rank && rank[b] < rank[s.id]
    ensures multiset(order) == multiset(subtasks) && DependenciesFirst(order)
  {
    hide DependenciesFirst;
    var idMap := IndexById(subtasks);
    var visit := new TopologicalVisit(subtasks, idMap, rank);
    NothingToOrder();
    for i := 0 to |subtasks|
      invariant fresh(visit) && visit.Valid() && visit.active == {}
      invariant visit.subtasks == subtasks && visit.idMap == idMap
      invariant forall k :: 0 <= k < i ==> subtasks[k].id in Ids(visit.result)
    {
      ghost var sofar := visit.result;
      visit.Visit(subtasks[i].id);
      IdsGrow(sofar, visit.result);
    }
    order := visit.result;
    forall s | s in subtasks ensures s in order {
      var t :| t in order && t.id == s.id;
      assert t == idMap[s.id] == s;
    }
    SameMembersPermute(order, subtasks);
  }

  lemma NothingToOrder()
    ensures DependenciesFirst([])
  {
  }

  /** On a valid plan the result is a permutation of the plan with every dependency
      before its dependents; on any other list it fails as validation does. */
  method TopologicalSort(subtasks: seq<SubtaskSpec>) returns (r: Result<seq<SubtaskSpec>, DagError>)
    ensures r.Ok? <==> ValidPlan(subtasks)
    ensures r.Ok? ==> multiset(r.value) == multiset(subtasks) && DependenciesFirst(r.value)
    ensures r == Err(DuplicateIds) <==> !UniqueIds(subtasks)
    ensures r.Err? && (r.error.UnknownDependency? || r.error.SelfDependency?) ==>
              exists i: nat, d: nat :: && FirstBad(subtasks, i, d)
                                       && r.error.id == subtasks[i].id && r.error.dep == subtasks[i].dependsOn[d]
                                       && (r.error.UnknownDependency? <==> r.error.dep !in Ids(subtasks))
    ensures r.Err? && r.error.CycleDetected? ==>
              && GoodBefore(subtasks, |subtasks|, 0)
              && ClosesCycle(Adjacency(subtasks), r.error.id, r.error.dep)
  {
    hide Acyclic, ClosesCycle, Adjacency, GoodBefore, GoodDependency, FirstBad, DependenciesFirst;
    var checked := ValidateDag(subtasks);
    if checked.Err? {
      return Err(checked.error);
    }
    GoodPlanIsClosed(subtasks);
    AcyclicIffRanked(Adjacency(subtasks));
    ghost var rank :| Ranked(Adjacency(subtasks), rank);
    PlanIsRanked(subtasks, rank);
    var order := VisitAll(subtasks, rank);
    return Ok(order);
  }

  method IndexById(subtasks: seq<SubtaskSpec>) returns (idMap: map<string, SubtaskSpec>)
    requires UniqueIds(subtasks)
    ensures idMap.Keys == Ids(subtasks)
    ensures forall s :: s in subtasks ==> idMap[s.id] == s
    ensures forall n :: n in idMap ==> idMap[n] in subtasks && idMap[n].id == n
  {
    idMap := map[];
    for i := 0 to |subtasks|
      invariant idMap.Keys == Ids(subtasks[..i])
      invariant forall k :: 0 <= k < i ==> idMap[subtasks[k].id] == subtasks[k]
      invariant forall n :: n in idMap ==> idMap[n] in subtasks[..i] && idMap[n].id == n
    {
      IdsSnoc(subtasks[..i + 1]);
      assert subtasks[..i + 1][..i] == subtasks[..i];
      idMap := idMap[subtasks[i].id := subtasks[i]];
    }
    assert subtasks[..|subtasks|] == subtasks;
  }

  lemma PlanIsRanked(subtasks: seq<SubtaskSpec>, rank: map<string, nat>)
    requires ValidPlan(subtasks) && Ranked(Adjacency(subtasks), rank)
    ensures forall s :: s in subtasks ==> s.id in rank
    ensures forall s, b :: s in subtasks && b in s.dependsOn ==> b in Ids(subtasks) && b in rank && rank[b] < rank[s.id]
  {
    GoodPlanIsClosed(subtasks);
    AdjacencyKeys(subtasks);
    forall s | s in subtasks
      ensures s.id in rank && forall b :: b in s.dependsOn ==> b in Ids(subtasks) && b in rank && rank[b] < rank[s.id]
    {
      var i :| 0 <= i < |subtasks| && subtasks[i] == s;
      AdjacencyAt(subtasks, i);
      forall b | b in s.dependsOn ensures b in Ids(subtasks) && b in rank && rank[b] < rank[s.id] {
        assert Edge(Adjacency(subtasks), s.id, b);
      }
    }
  }
}
