/** Finite directed graphs given by adjacency lists, as the validators build them. */
module Digraph {

  type Graph = map<string, seq<string>>

  predicate Edge(g: Graph, a: string, b: string) {
    a in g && b in g[a]
  }

  /** Every target of an edge is itself a key of the graph. */
  ghost predicate Closed(g: Graph) {
    forall a, b :: Edge(g, a, b) ==> b in g
  }

  ghost predicate Walk(g: Graph, p: seq<string>) {
    |p| >= 1 && forall i :: 0 <= i < |p| - 1 ==> Edge(g, p[i], p[i + 1])
  }

  /** A closed walk of at least one edge. */
  ghost predicate Cycle(g: Graph, p: seq<string>) {
    |p| >= 2 && Walk(g, p) && p[0] == p[|p| - 1]
  }

  ghost predicate Acyclic(g: Graph) {
    forall p :: !Cycle(g, p)
  }

  /** `rank` strictly decreases along every edge. */
  ghost predicate Ranked(g: Graph, rank: map<string, nat>) {
    && g.Keys <= rank.Keys
    && forall a, b :: Edge(g, a, b) && b in g ==> rank[b] < rank[a]
  }

  ghost predicate Distinct<T(!new)>(s: seq<T>) {
    forall i, j :: 0 <= i < j < |s| ==> s[i] != s[j]
  }

  /** More positions than values forces a repeat. */
  lemma {:induction false} Pigeonhole<T(!new)>(s: seq<T>, values: set<T>)
    requires forall i :: 0 <= i < |s| ==> s[i] in values
    requires |s| > |values|
    ensures !Distinct(s)
  {
    if Distinct(s) {
      var last := s[|s| - 1];
      Pigeonhole(s[..|s| - 1], values - {last});
    }
  }

  /** In a ranked closed graph a walk never climbs, so no walk returns to its start. */
  lemma {:induction false} RankFallsAlongWalk(g: Graph, rank: map<string, nat>, p: seq<string>)
    requires Closed(g) && Ranked(g, rank) && Walk(g, p) && |p| >= 2
    ensures p[|p| - 1] in g && p[0] in g && rank[p[|p| - 1]] < rank[p[0]]
  {
    var q := p[..|p| - 1];
    assert Edge(g, p[|p| - 2], p[|p| - 1]);
    if |p| > 2 {
      RankFallsAlongWalk(g, rank, q);
    }
  }

  lemma RankedIsAcyclic(g: Graph, rank: map<string, nat>)
    requires Closed(g) && Ranked(g, rank)
    ensures Acyclic(g)
  {
    forall p ensures !Cycle(g, p) {
      if Cycle(g, p) {
        RankFallsAlongWalk(g, rank, p);
      }
    }
  }

  /** A walk that visits some node twice contains a cycle. */
  lemma RepeatGivesCycle(g: Graph, p: seq<string>, i: nat, j: nat)
    requires Walk(g, p) && i < j < |p| && p[i] == p[j]
    ensures Cycle(g, p[i..j + 1])
  {
    var c := p[i..j + 1];
    forall k | 0 <= k < |c| - 1 ensures Edge(g, c[k], c[k + 1]) {
      assert Edge(g, p[i + k], p[i + k + 1]);
    }
  }

  /** In an acyclic graph no walk visits a node twice. */
  lemma {:induction false} AcyclicWalksAreDistinct(g: Graph, p: seq<string>)
    requires Acyclic(g) && Walk(g, p)
    ensures Distinct(p)
  {
    forall i, j | 0 <= i < j < |p| ensures p[i] != p[j] {
      var q := p[i..j + 1];
      forall k | 0 <= k < |q| - 1 ensures Edge(g, q[k], q[k + 1]) {
        assert Edge(g, p[i + k], p[i + k + 1]);
      }
      assert !Cycle(g, q);
    }
  }

  ghost predicate HasSuccessorIn(g: Graph, live: set<string>, a: string) {
    exists b :: b in live && Edge(g, a, b)
  }

  /** While nodes of `live` keep having successors in `live`, walks of any length exist. */
  lemma {:induction false} LongWalk(g: Graph, live: set<string>, n: nat) returns (p: seq<string>)
    requires live != {}
    requires forall a :: a in live ==> HasSuccessorIn(g, live, a)
    ensures Walk(g, p) && |p| == n + 1 && forall i :: 0 <= i < |p| ==> p[i] in live
  {
    if n == 0 {
      var a :| a in live;
      p := [a];
    } else {
      var q := LongWalk(g, live, n - 1);
      var b :| b in live && Edge(g, q[|q| - 1], b);
      p := q + [b];
    }
  }

  /** An acyclic graph has, inside any non-empty node set, a node with no successor in that set. */
  lemma SinkExists(g: Graph, live: set<string>) returns (sink: string)
    requires Acyclic(g) && live != {}
    ensures sink in live && !HasSuccessorIn(g, live, sink)
  {
    if forall a :: a in live ==> HasSuccessorIn(g, live, a) {
      var p := LongWalk(g, live, |live|);
      Pigeonhole(p, live);
      var i, j :| 0 <= i < j < |p| && p[i] == p[j];
      RepeatGivesCycle(g, p, i, j);
      assert false;
    }
    sink :| sink in live && !HasSuccessorIn(g, live, sink);
  }

  /** Removing sinks one at a time ranks the nodes of `live` above everything removed before. */
  lemma {:induction false} RankLive(g: Graph, live: set<string>) returns (rank: map<string, nat>)
    requires Acyclic(g)
    ensures rank.Keys == live
    ensures forall a :: a in live ==> rank[a] < |live|
    ensures forall a, b :: a in live && b in live && Edge(g, a, b) ==> rank[b] < rank[a]
    decreases |live|
  {
    if live == {} {
      rank := map[];
    } else {
      var sink := SinkExists(g, live);
      var rest := RankLive(g, live - {sink});
      rank := (map a | a in rest :: rest[a] + 1)[sink := 0];
    }
  }

  /** The rank found this way stays below the number of nodes. */
  lemma TightRank(g: Graph) returns (rank: map<string, nat>)
    requires Acyclic(g)
    ensures Ranked(g, rank) && rank.Keys == g.Keys
    ensures forall a :: a in g ==> rank[a] < |g|
  {
    rank := RankLive(g, g.Keys);
    assert |g.Keys| == |g|;
  }

  /** A finite closed graph is acyclic exactly when some rank decreases along all its edges. */
  lemma AcyclicIffRanked(g: Graph)
    requires Closed(g)
    ensures Acyclic(g) <==> exists rank :: Ranked(g, rank)
  {
    if Acyclic(g) {
      var rank := RankLive(g, g.Keys);
      assert Ranked(g, rank);
    }
    if exists rank :: Ranked(g, rank) {
      var rank :| Ranked(g, rank);
      RankedIsAcyclic(g, rank);
    }
  }

  /** `finished` lists nodes in the order a depth-first search leaves them:
      every successor of an entry is an earlier entry. */
  ghost predicate FinishOrder(g: Graph, finished: seq<string>) {
    && Distinct(finished)
    && forall i, b :: 0 <= i < |finished| && Edge(g, finished[i], b) ==> b in finished[..i]
  }

  lemma FinishOrderSnoc(g: Graph, finished: seq<string>, node: string)
    requires FinishOrder(g, finished) && node !in finished
    requires forall b :: Edge(g, node, b) ==> b in finished
    ensures FinishOrder(g, finished + [node])
  {
    var longer := finished + [node];
    forall i, b | 0 <= i < |longer| && Edge(g, longer[i], b) ensures b in longer[..i] {
      if i < |finished| {
        assert longer[..i] == finished[..i] && Edge(g, finished[i], b);
      } else {
        assert longer[..i] == finished;
      }
    }
  }

  function Position(s: seq<string>, x: string): (i: nat)
    requires x in s
    ensures i < |s| && s[i] == x
  {
    if s[0] == x then 0 else Position(s[1..], x) + 1
  }

  /** A search that finished every node proves the graph closed and acyclic. */
  lemma CompleteSearch(g: Graph, finished: seq<string>)
    requires FinishOrder(g, finished)
    requires forall n :: n in finished <==> n in g
    ensures Closed(g) && Acyclic(g)
  {
    forall a, b | Edge(g, a, b) ensures b in g {
      var i :| 0 <= i < |finished| && finished[i] == a;
      assert b in finished[..i];
    }
    var rank: map<string, nat> := map n | n in finished :: Position(finished, n);
    forall a, b | Edge(g, a, b) && b in g ensures rank[b] < rank[a] {
      var i := Position(finished, a);
      assert Edge(g, finished[i], b);
      var j :| 0 <= j < i && finished[..i][j] == b;
      assert finished[j] == b && Position(finished, b) == j;
    }
    RankedIsAcyclic(g, rank);
  }
}
