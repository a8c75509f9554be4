/** Loading of workflow definitions: field checks, dangling targets, and the cycle test. */
module WorkflowDefinitions {
  import opened Wrappers
  import opened Digraph
  import opened WorkflowEngine

  const TRANSITION_KEYS := {"on_success", "on_failure", "on_timeout", "on_cancel"}

  /** The one edge the cycle test reads. */
  function MainTarget(d: Definition, id: string): Option<string>
    requires id in d.steps
  {
    var t := d.steps[id].transitions;
    if "on_success" in t && t["on_success"] != "" && t["on_success"] != END_TARGET && t["on_success"] in d.steps
    then Some(t["on_success"]) else None
  }

  function MainGraph(d: Definition): Graph {
    map id | id in d.steps :: Listed(MainTarget(d, id))
  }

  /** What the field validators check besides `WellFormed`. A step may have no transitions: the check
      for at least one does not look at the default of a step that leaves them out. */
  ghost predicate FieldsOk(d: Definition) {
    && d.startStep != ""
    && forall id :: id in d.steps ==>
         && !d.steps[id].stepType.OtherStep? && d.steps[id].transitions.Keys <= TRANSITION_KEYS
  }

  /** The cycle test, as its outcome: no cycle along `on_success`, or some such cycle through a condition. */
  ghost predicate PassesCycleTest(d: Definition) {
    || Acyclic(MainGraph(d))
    || exists p :: Cycle(MainGraph(d), p) && p[0] in d.steps && d.steps[p[0]].stepType.ConditionStep?
  }

  /** A definition that loads. */
  ghost predicate Loads(d: Definition) {
    WellFormed(d) && FieldsOk(d) && PassesCycleTest(d)
  }

  // ---------------------------------------------------------------- graph facts

  /** The nodes with an edge to `n`. */
  function Preds(g: Graph, n: string): set<string> {
    set m | m in g && n in g[m]
  }

  lemma PredsAreEdges(g: Graph, a: string, b: string)
    ensures Edge(g, a, b) <==> a in Preds(g, b)
    ensures a in Preds(g, b) ==> a in g
  {
  }

  /** The first edge out of a node; the graphs here have at most one. */
  function Next(g: Graph, id: string): Option<string>
    requires id in g
  {
    if g[id] == [] then None else Some(g[id][0])
  }

  ghost predicate OneEdgeEach(g: Graph) {
    forall a :: a in g ==> |g[a]| <= 1
  }

  lemma MainGraphShape(d: Definition)
    ensures MainGraph(d).Keys == d.steps.Keys && OneEdgeEach(MainGraph(d)) && Closed(MainGraph(d))
    ensures forall id :: id in d.steps ==> Next(MainGraph(d), id) == MainTarget(d, id)
  {
  }

  lemma OneTarget(g: Graph, id: string)
    requires OneEdgeEach(g) && Closed(g) && id in g
    ensures |g[id]| <= 1 && forall n :: n in g[id] ==> n in g
  {
    forall n | n in g[id] ensures n in g { assert Edge(g, id, n); }
  }

  lemma NextIsOnly(g: Graph, id: string)
    requires id in g && |g[id]| <= 1
    ensures forall n :: n in g[id] <==> Next(g, id) == Some(n)
  {
  }

  /** Every entry's predecessors come before it. */
  ghost predicate PredsFirst(g: Graph, order: seq<string>) {
    && Distinct(order)
    && forall i, m :: 0 <= i < |order| && m in Preds(g, order[i]) ==> m in order[..i]
  }

  lemma PredsFirstSnoc(g: Graph, order: seq<string>, n: string)
    requires PredsFirst(g, order) && n !in order && forall m :: m in Preds(g, n) ==> m in order
    ensures PredsFirst(g, order + [n])
  {
    hide Preds;
    var longer := order + [n];
    forall i, m | 0 <= i < |longer| && m in Preds(g, longer[i]) ensures m in longer[..i] {
      if i < |order| { assert longer[..i] == order[..i]; } else { assert longer[..i] == order; }
    }
  }

  /** A walk into the order comes from further up in it. */
  lemma {:induction false} WalkComesFromBefore(g: Graph, order: seq<string>, p: seq<string>, i: nat) returns (j: nat)
    requires PredsFirst(g, order) && Walk(g, p) && i < |order| && p[|p| - 1] == order[i]
    ensures j < |order| && order[j] == p[0] && j + |p| - 1 <= i
  {
    hide Preds, MainGraph;
    if |p| == 1 {
      j := i;
    } else {
      var q := p[..|p| - 1];
      assert Edge(g, p[|p| - 2], p[|p| - 1]);
      PredsAreEdges(g, p[|p| - 2], order[i]);
      var k :| 0 <= k < i && order[..i][k] == q[|q| - 1];
      forall x | 0 <= x < |q| - 1 ensures Edge(g, q[x], q[x + 1]) { assert Edge(g, p[x], p[x + 1]); }
      j := WalkComesFromBefore(g, order, q, k);
    }
  }

  lemma OrderedIsOnNoCycle(g: Graph, order: seq<string>, p: seq<string>)
    requires PredsFirst(g, order) && Cycle(g, p)
    ensures p[0] !in order
  {
    if p[0] in order {
      var i :| 0 <= i < |order| && order[i] == p[0];
      var j := WalkComesFromBefore(g, order, p, i);
    }
  }

  /** `q` follows edges backwards. */
  ghost predicate BackWalk(g: Graph, q: seq<string>) {
    forall k :: 0 <= k < |q| - 1 ==> Edge(g, q[k + 1], q[k])
  }

  ghost predicate HasPredIn(g: Graph, live: set<string>, b: string) {
    exists a :: a in live && Edge(g, a, b)
  }

  ghost predicate Fed(g: Graph, live: set<string>) {
    forall b :: b in live ==> HasPredIn(g, live, b)
  }

  lemma {:induction false} LongBackWalk(g: Graph, live: set<string>, u: string, n: nat) returns (q: seq<string>)
    requires u in live && Fed(g, live)
    ensures |q| == n + 1 && q[0] == u && BackWalk(g, q) && forall i :: 0 <= i < |q| ==> q[i] in live
  {
    if n == 0 {
      q := [u];
    } else {
      hide Edge;
      var r := LongBackWalk(g, live, u, n - 1);
      assert HasPredIn(g, live, r[|r| - 1]);
      var a :| a in live && Edge(g, a, r[|r| - 1]);
      q := r + [a];
    }
  }

  /** With at most one edge out of each node, equal places on a backward walk stay equal further on. */
  lemma {:induction false} RepeatShifts(g: Graph, q: seq<string>, i: nat, j: nat)
    requires BackWalk(g, q) && i < j < |q| && q[i] == q[j] && forall a :: a in g ==> |g[a]| <= 1
    ensures q[0] == q[j - i]
  {
    if i > 0 {
      assert Edge(g, q[i - 1 + 1], q[i - 1]) && Edge(g, q[j - 1 + 1], q[j - 1]);
      RepeatShifts(g, q, i - 1, j - 1);
    }
  }

  /** If every node of a set has a predecessor in the set, and no node has two edges, all its nodes are on cycles. */
  lemma OnCycle(g: Graph, live: set<string>, u: string) returns (p: seq<string>)
    requires u in live && Fed(g, live)
    requires forall a :: a in g ==> |g[a]| <= 1
    ensures Cycle(g, p) && p[0] == u
  {
    hide Edge, Fed, BackWalk, Cycle;
    var q := LongBackWalk(g, live, u, |live|);
    Pigeonhole(q, live);
    var i, j :| 0 <= i < j < |q| && q[i] == q[j];
    RepeatShifts(g, q, i, j);
    p := BackwardsIsCycle(g, q, j - i);
  }

  lemma BackwardsIsCycle(g: Graph, q: seq<string>, n: nat) returns (p: seq<string>)
    requires BackWalk(g, q) && 0 < n < |q| && q[0] == q[n]
    ensures Cycle(g, p) && p[0] == q[n]
  {
    hide Edge;
    p := seq(n + 1, k requires 0 <= k <= n => q[n - k]);
    forall k | 0 <= k < |p| - 1 ensures Edge(g, p[k], p[k + 1]) {
      assert Edge(g, q[n - k - 1 + 1], q[n - k - 1]);
    }
  }

  // ---------------------------------------------------------------- Kahn's algorithm

  ghost predicate Counted(g: Graph, inDegree: map<string, nat>, todo: set<string>) {
    inDegree.Keys == g.Keys && forall n {:trigger Preds(g, n)} :: n in g ==> inDegree[n] == |Preds(g, n) - todo|
  }

  method CountInDegrees(g: Graph) returns (inDegree: map<string, nat>)
    requires OneEdgeEach(g) && Closed(g)
    ensures inDegree.Keys == g.Keys && forall n {:trigger Preds(g, n)} :: n in g ==> inDegree[n] == |Preds(g, n)|
  {
    hide Preds, Counted, Next, Zeroes, OneEdgeEach, Closed;
    inDegree := Zeroes(g);
    var todo := g.Keys;
    NothingCounted(g);
    while todo != {}
      invariant todo <= g.Keys && Counted(g, inDegree, todo)
      decreases |todo|
    {
      var id :| id in todo;
      OneTarget(g, id);
      inDegree := CountEdge(g, inDegree, todo, id);
      todo := todo - {id};
    }
    AllCounted(g, inDegree);
  }

  method CountEdge(g: Graph, inDegree: map<string, nat>, ghost todo: set<string>,
                   id: string) returns (after: map<string, nat>)
    requires Counted(g, inDegree, todo) && id in todo && id in g
    requires |g[id]| <= 1 && (forall n :: n in g[id] ==> n in g)
    ensures Counted(g, after, todo - {id})
  {
    hide Preds, Counted, Next;
    after := inDegree;
    var target := Next(g, id);
    NextIsOnly(g, id);
    SameKeysCounted(g, inDegree, todo);
    if target.Some? { after := inDegree[target.value := inDegree[target.value] + 1]; }
    CountOneMore(g, inDegree, todo, id, after);
  }

  function Zeroes(g: Graph): map<string, nat> {
    map id | id in g :: 0
  }

  lemma NothingCounted(g: Graph)
    ensures Counted(g, Zeroes(g), g.Keys)
  {
    assert forall n :: Preds(g, n) - g.Keys == {};
  }

  lemma AllCounted(g: Graph, inDegree: map<string, nat>)
    requires Counted(g, inDegree, {})
    ensures inDegree.Keys == g.Keys && forall n {:trigger Preds(g, n)} :: n in g ==> inDegree[n] == |Preds(g, n)|
  {
    hide Preds;
    assert forall n :: Preds(g, n) - {} == Preds(g, n);
  }

  lemma SameKeysCounted(g: Graph, inDegree: map<string, nat>, todo: set<string>)
    requires Counted(g, inDegree, todo)
    ensures inDegree.Keys == g.Keys
  {
  }

  lemma CountOneMore(g: Graph, inDegree: map<string, nat>, todo: set<string>, id: string, after: map<string, nat>)
    requires Counted(g, inDegree, todo) && id in todo && id in g
    requires after.Keys == inDegree.Keys
    requires forall n :: n in inDegree ==> after[n] == inDegree[n] + (if n in g[id] then 1 else 0)
    ensures Counted(g, after, todo - {id})
  {
    hide Preds, Next;
    forall n | n in g
      ensures |Preds(g, n) - (todo - {id})| == |Preds(g, n) - todo| + (if n in g[id] then 1 else 0) {
      OneMoreDone(g, n, todo, id);
    }
  }

  lemma OneMoreDone(g: Graph, n: string, todo: set<string>, id: string)
    requires id in todo && id in g
    ensures |Preds(g, n) - (todo - {id})| == |Preds(g, n) - todo| + (if n in g[id] then 1 else 0)
  {
    if n in g[id] {
      assert Preds(g, n) - (todo - {id}) == (Preds(g, n) - todo) + {id};
    } else {
      assert Preds(g, n) - (todo - {id}) == Preds(g, n) - todo;
    }
  }

  method ZeroDegrees(g: Graph, inDegree: map<string, nat>) returns (queue: seq<string>)
    requires inDegree.Keys == g.Keys
    ensures Distinct(queue) && forall n :: n in queue <==> n in inDegree && inDegree[n] == 0
  {
    queue := [];
    var todo := g.Keys;
    while todo != {}
      invariant todo <= g.Keys && Distinct(queue)
      invariant forall n :: n in queue <==> n in inDegree && inDegree[n] == 0 && n !in todo
      decreases |todo|
    {
      var id :| id in todo;
      if inDegree[id] == 0 { queue := queue + [id]; }
      todo := todo - {id};
    }
  }

  ghost predicate DegreesLeft(g: Graph, inDegree: map<string, nat>, order: seq<string>) {
    inDegree.Keys == g.Keys && forall n {:trigger Preds(g, n)} :: n in g ==>
        inDegree[n] == |Preds(g, n) - Members(order)|
  }

  ghost predicate ZeroesQueued(g: Graph, inDegree: map<string, nat>, queue: seq<string>, order: seq<string>) {
    && inDegree.Keys == g.Keys
    && (forall n :: n in g ==> (inDegree[n] == 0 <==> n in order || n in queue))
    && (forall n :: n in order ==> n in g && n !in queue)
    && (forall n :: n in queue ==> n in g)
  }

  /** The state of the search: `order` lists the visited steps. */
  ghost predicate Searching(g: Graph, inDegree: map<string, nat>, queue: seq<string>, order: seq<string>) {
    PredsFirst(g, order) && Distinct(queue) && DegreesLeft(g, inDegree, order)
        && ZeroesQueued(g, inDegree, queue, order)
  }

  function Members(order: seq<string>): set<string> {
    set n | n in order
  }

  lemma SearchStarts(g: Graph, inDegree: map<string, nat>, queue: seq<string>)
    requires inDegree.Keys == g.Keys && Distinct(queue)
    requires forall n {:trigger Preds(g, n)} :: n in g ==> inDegree[n] == |Preds(g, n)|
    requires forall n :: n in queue <==> n in inDegree && inDegree[n] == 0
    ensures Searching(g, inDegree, queue, [])
  {
    hide Preds, Members;
    forall n | n in g ensures Preds(g, n) - Members([]) == Preds(g, n) { assert Members([]) == {} by { NoMembers(); } }
  }

  lemma NoMembers()
    ensures Members([]) == {}
  {
  }

  /** One visit: `current` leaves the queue, and its target enters it when this was the last edge into it. */
  lemma SearchAdvances(g: Graph, inDegree: map<string, nat>, queue: seq<string>, order: seq<string>,
                       after: map<string, nat>, queued: seq<string>)
    requires Searching(g, inDegree, queue, order) && queue != [] && queue[0] in g && |g[queue[0]]| <= 1
    requires var t := Next(g, queue[0]);
             t.None? ==> after == inDegree && queued == queue[1..]
    requires var t := Next(g, queue[0]);
             t.Some? ==>
               && t.value in inDegree && inDegree[t.value] > 0 && after == inDegree[t.value := inDegree[t.value] - 1]
               && queued == if after[t.value] == 0 then queue[1..] + [t.value] else queue[1..]
    ensures Searching(g, after, queued, order + [queue[0]])
  {
    hide Preds, Next, PredsFirst, DegreesLeft, ZeroesQueued, Distinct;
    FrontIsNew(g, inDegree, queue, order);
    var current := queue[0];
    var target := Next(g, current);
    NothingBefore(g, order, current);
    PredsFirstSnoc(g, order, current);
    DegreesDrop(g, inDegree, order, current, after);
    if target.Some? { TargetIsNew(g, inDegree, queue, order, target.value); }
    QueueMoves(queue, target);
    ZeroesMove(g, inDegree, queue, order, after, queued);
  }

  lemma FrontIsNew(g: Graph, inDegree: map<string, nat>, queue: seq<string>, order: seq<string>)
    requires DegreesLeft(g, inDegree, order) && ZeroesQueued(g, inDegree, queue, order) && queue != []
    ensures queue[0] in g && queue[0] !in order && |Preds(g, queue[0]) - Members(order)| == 0
  {
    hide Preds;
  }

  lemma TargetIsNew(g: Graph, inDegree: map<string, nat>, queue: seq<string>, order: seq<string>, n: string)
    requires ZeroesQueued(g, inDegree, queue, order) && n in inDegree && inDegree[n] > 0
    ensures n !in queue && n !in order && n in g
  {
  }

  lemma DegreesDrop(g: Graph, inDegree: map<string, nat>, order: seq<string>, current: string, after: map<string, nat>)
    requires DegreesLeft(g, inDegree, order) && current in g && |g[current]| <= 1 && current !in order
    requires var t := Next(g, current);
             && (t.None? ==> after == inDegree)
             && (t.Some? ==>
                   && t.value in inDegree && inDegree[t.value] > 0
                   && after == inDegree[t.value := inDegree[t.value] - 1])
    ensures DegreesLeft(g, after, order + [current])
  {
    hide Preds, Next;
    NextIsOnly(g, current);
    forall n | n in g ensures after[n] == |Preds(g, n) - Members(order + [current])| {
      OneMoreVisited(g, n, order, current);
    }
  }

  lemma ZeroesMove(g: Graph, inDegree: map<string, nat>, queue: seq<string>, order: seq<string>,
                   after: map<string, nat>, queued: seq<string>)
    requires ZeroesQueued(g, inDegree, queue, order) && queue != [] && queue[0] in g && queue[0] !in queue[1..]
    requires forall n :: n in queue <==> n == queue[0] || n in queue[1..]
    requires var t := Next(g, queue[0]);
             && (t.None? ==> after == inDegree && queued == queue[1..])
             && (t.Some? ==>
                   && t.value in inDegree && inDegree[t.value] > 0
                   && after == inDegree[t.value := inDegree[t.value] - 1]
                   && queued == if after[t.value] == 0 then queue[1..] + [t.value] else queue[1..])
    ensures ZeroesQueued(g, after, queued, order + [queue[0]])
  {
    hide Next;
  }

  lemma QueueMoves(queue: seq<string>, target: Option<string>)
    requires queue != [] && Distinct(queue) && (target.Some? ==> target.value !in queue)
    ensures Distinct(queue[1..]) && queue[0] !in queue[1..]
    ensures target.Some? ==> Distinct(queue[1..] + [target.value])
    ensures forall n :: n in queue <==> n == queue[0] || n in queue[1..]
  {
    assert queue == [queue[0]] + queue[1..];
    if target.Some? {
      var longer := queue[1..] + [target.value];
      forall i, j | 0 <= i < j < |longer| ensures longer[i] != longer[j] {
        if j == |queue| - 1 { assert longer[i] == queue[i + 1] && queue[i + 1] in queue; }
      }
    }
  }

  lemma NothingBefore(g: Graph, order: seq<string>, n: string)
    requires |Preds(g, n) - Members(order)| == 0
    ensures forall m :: m in Preds(g, n) ==> m in order
  {
    hide Preds;
    var left := Preds(g, n) - Members(order);
    assert left == {};
    forall m | m in Preds(g, n) ensures m in order {
      assert m !in left;
    }
  }

  lemma OneMoreVisited(g: Graph, n: string, order: seq<string>, current: string)
    requires current in g && current !in order
    ensures |Preds(g, n) - Members(order + [current])|
            == |Preds(g, n) - Members(order)| - (if n in g[current] then 1 else 0)
  {
    var before, after := Preds(g, n) - Members(order), Preds(g, n) - Members(order + [current]);
    if n in g[current] {
      assert before == after + {current} && current !in after;
    } else {
      assert before == after;
    }
  }

  ghost predicate OnSomeCycle(g: Graph, n: string) {
    exists p :: Cycle(g, p) && p[0] == n
  }

  /** What the search leaves are exactly the steps on cycles of the main graph. */
  lemma LeftAreCycles(g: Graph, inDegree: map<string, nat>, order: seq<string>, n: string)
    requires Searching(g, inDegree, [], order) && n in g && OneEdgeEach(g)
    ensures n !in order <==> OnSomeCycle(g, n)
  {
    hide Preds, Cycle, PredsFirst, Distinct, DegreesLeft, Fed;
    if n !in order {
      var live := g.Keys - Members(order);
      LeftAreFed(g, inDegree, order);
      var p := OnCycle(g, live, n);
    } else {
      NotOnCycle(g, order, n);
    }
  }

  lemma NotOnCycle(g: Graph, order: seq<string>, n: string)
    requires PredsFirst(g, order) && n in order
    ensures !OnSomeCycle(g, n)
  {
    hide PredsFirst;
    forall p | Cycle(g, p) ensures p[0] != n { OrderedIsOnNoCycle(g, order, p); }
  }

  lemma LeftHavePreds(g: Graph, inDegree: map<string, nat>, order: seq<string>, b: string)
    requires DegreesLeft(g, inDegree, order) && ZeroesQueued(g, inDegree, [], order) && b in g && b !in order
    ensures Preds(g, b) - Members(order) != {}
  {
    hide Preds;
    assert inDegree[b] != 0;
  }

  lemma LeftAreFed(g: Graph, inDegree: map<string, nat>, order: seq<string>)
    requires DegreesLeft(g, inDegree, order) && ZeroesQueued(g, inDegree, [], order)
    ensures Fed(g, g.Keys - Members(order))
  {
    hide Preds, Edge, DegreesLeft, ZeroesQueued;
    var live := g.Keys - Members(order);
    forall b | b in live ensures HasPredIn(g, live, b) {
      LeftHavePreds(g, inDegree, order, b);
      var a :| a in Preds(g, b) - Members(order);
      PredsAreEdges(g, a, b);
      assert a in live;
    }
  }

  /** Kahn's algorithm with its exemption: some step left over is a condition. */
  method ValidateGraphIsAcyclic(d: Definition) returns (ok: bool)
    ensures ok <==> PassesCycleTest(d)
  {
    hide MainGraph, MainTarget, Preds, Searching, Acyclic, Cycle, Counted, Next;
    var adjacency := MainGraph(d);
    MainGraphShape(d);
    var inDegree := CountInDegrees(adjacency);
    var queue := ZeroDegrees(adjacency, inDegree);
    var visited := 0;
    ghost var order := [];
    SearchStarts(adjacency, inDegree, queue);
    while queue != []
      invariant Searching(adjacency, inDegree, queue, order) && visited == |order|
      decreases |adjacency.Keys - Members(order)|
    {
      ghost var degrees, waiting := inDegree, queue;
      var current := queue[0];
      SearchFacts(adjacency, inDegree, queue, order);
      queue := queue[1..];
      visited := visited + 1;
      var neighbour := Next(adjacency, current);
      if neighbour.Some? {
        inDegree := inDegree[neighbour.value := inDegree[neighbour.value] - 1];
        if inDegree[neighbour.value] == 0 { queue := queue + [neighbour.value]; }
      }
      SearchAdvances(adjacency, degrees, waiting, order, inDegree, queue);
      FewerLeft(adjacency, order, current);
      order := order + [current];
    }
    ok := Verdict(d, inDegree, visited, order);
  }

  lemma FewerLeft(g: Graph, order: seq<string>, current: string)
    requires current in g && current !in order
    ensures |g.Keys - Members(order + [current])| < |g.Keys - Members(order)|
  {
    assert current in g.Keys - Members(order);
    Smaller(g.Keys - Members(order + [current]), g.Keys - Members(order));
  }

  lemma Smaller(a: set<string>, b: set<string>)
    requires a < b
    ensures |a| < |b|
  {
    var x :| x in b && x !in a;
    assert a <= b - {x};
    assert b - {x} == a + (b - {x} - a);
  }

  lemma SearchFacts(g: Graph, inDegree: map<string, nat>, queue: seq<string>, order: seq<string>)
    requires Searching(g, inDegree, queue, order) && queue != [] && OneEdgeEach(g) && Closed(g)
    ensures inDegree.Keys == g.Keys && queue[0] in g && queue[0] !in order && |g[queue[0]]| <= 1
    ensures Next(g, queue[0]).Some? ==> Next(g, queue[0]).value in inDegree && inDegree[Next(g, queue[0]).value] > 0
  {
    hide PredsFirst, Preds, DegreesLeft, ZeroesQueued, Next;
    FrontIsNew(g, inDegree, queue, order);
    SameKeys(g, inDegree, order);
    NextIsOnly(g, queue[0]);
    if Next(g, queue[0]).Some? {
      assert Edge(g, queue[0], Next(g, queue[0]).value);
      TargetCounts(g, inDegree, order, queue[0], Next(g, queue[0]).value);
    }
  }

  lemma SameKeys(g: Graph, inDegree: map<string, nat>, order: seq<string>)
    requires DegreesLeft(g, inDegree, order)
    ensures inDegree.Keys == g.Keys
  {
  }

  lemma TargetCounts(g: Graph, inDegree: map<string, nat>, order: seq<string>, m: string, n: string)
    requires DegreesLeft(g, inDegree, order) && m in g && m !in order && n in g[m] && n in g
    ensures n in inDegree && inDegree[n] > 0
  {
    assert m in Preds(g, n) - Members(order);
  }

  method Verdict(d: Definition, inDegree: map<string, nat>, visited: nat, ghost order: seq<string>) returns (ok: bool)
    requires Searching(MainGraph(d), inDegree, [], order) && visited == |order|
    ensures ok <==> PassesCycleTest(d)
  {
    hide MainGraph, MainTarget, Preds, Searching, OnSomeCycle, Distinct, PassesCycleTest, Next;
    ghost var g := MainGraph(d);
    MainGraphShape(d);
    forall n | n in d.steps ensures n !in order <==> OnSomeCycle(g, n) {
      LeftAreCycles(g, inDegree, order, n);
    }
    LeftHaveDegree(g, inDegree, order);
    AllVisited(g, order);
    TestByCycles(d);
    assert |g.Keys| == |g| && |d.steps.Keys| == |d.steps|;
    if visited == |d.steps| { return true; }
    var unvisited := set id | id in d.steps && inDegree[id] != 0;
    ok := exists id :: id in unvisited && d.steps[id].stepType.ConditionStep?;
  }

  lemma LeftHaveDegree(g: Graph, inDegree: map<string, nat>, order: seq<string>)
    requires Searching(g, inDegree, [], order)
    ensures Distinct(order) && (forall n :: n in order ==> n in g) && inDegree.Keys == g.Keys
    ensures forall n :: n in g ==> (inDegree[n] != 0 <==> n !in order)
  {
    hide Preds, Distinct;
  }

  lemma TestByCycles(d: Definition)
    ensures PassesCycleTest(d) <==>
            || (forall n :: n in d.steps ==> !OnSomeCycle(MainGraph(d), n))
            || exists n :: n in d.steps && OnSomeCycle(MainGraph(d), n) && d.steps[n].stepType.ConditionStep?
  {
    hide MainGraph;
    CyclesAreInside(MainGraph(d));
    MainGraphShape(d);
    if !Acyclic(MainGraph(d)) {
      var p :| Cycle(MainGraph(d), p);
      assert OnSomeCycle(MainGraph(d), p[0]);
    }
    if exists p :: Cycle(MainGraph(d), p) && p[0] in d.steps && d.steps[p[0]].stepType.ConditionStep? {
      var p :| Cycle(MainGraph(d), p) && p[0] in d.steps && d.steps[p[0]].stepType.ConditionStep?;
      assert OnSomeCycle(MainGraph(d), p[0]);
    }
  }

  lemma AllVisited(g: Graph, order: seq<string>)
    requires Distinct(order) && forall n :: n in order ==> n in g
    ensures |order| == |g| <==> forall n :: n in g ==> n in order
  {
    SizeOfMembers(order);
    assert Members(order) <= g.Keys && |g| == |g.Keys|;
    if exists n :: n in g && n !in order {
      Smaller(Members(order), g.Keys);
    } else {
      assert Members(order) == g.Keys;
    }
  }

  lemma {:induction false} SizeOfMembers(order: seq<string>)
    requires Distinct(order)
    ensures |Members(order)| == |order|
  {
    if |order| > 0 {
      var init := order[..|order| - 1];
      SizeOfMembers(init);
      assert Members(order) == Members(init) + {order[|order| - 1]};
    }
  }

  lemma CyclesAreInside(g: Graph)
    ensures forall p :: Cycle(g, p) ==> p[0] in g
  {
    forall p | Cycle(g, p) ensures p[0] in g { assert Edge(g, p[0], p[1]); }
  }
}
