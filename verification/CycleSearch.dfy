/** The dependency analysis of interpreter/src/Interpreter.cpp. */
module CycleSearch {
  // A depth-first search that keeps two maps, the visited nodes and the nodes on the recursion stack, against the
  // definition of a cycle as a non-empty closed path.

  type Node = string
  type Graph = map<Node, seq<Node>>    // duplicates and self-loops allowed; an absent key has no successors

  function Succ(g: Graph, x: Node): seq<Node> {
    if x in g then g[x] else []
  }

  ghost predicate IsPath(g: Graph, p: seq<Node>) {
    p != [] && forall i | 0 <= i < |p| - 1 :: p[i + 1] in Succ(g, p[i])
  }

  ghost predicate IsCycle(g: Graph, p: seq<Node>) {
    IsPath(g, p) && |p| >= 2 && p[0] == p[|p| - 1]
  }

  ghost predicate HasCycle(g: Graph) {
    exists p :: IsCycle(g, p)
  }

  /** All successors of members are members. */
  ghost predicate Closed(g: Graph, b: set<Node>) {
    forall x, y | x in b && y in Succ(g, x) :: y in b
  }

  ghost predicate Acyclic(g: Graph, b: set<Node>) {
    forall p | IsCycle(g, p) :: p[0] !in b
  }

  lemma {:induction false} PathStaysIn(g: Graph, b: set<Node>, p: seq<Node>, i: nat)
    requires Closed(g, b) && IsPath(g, p) && p[0] in b && i < |p|
    ensures p[i] in b
  {
    if i > 0 {
      PathStaysIn(g, b, p, i - 1);
      assert p[i - 1 + 1] in Succ(g, p[i - 1]);
    }
  }

  /** A node all of whose successors are finished can be finished, too. */
  lemma {:induction false} AddFinished(g: Graph, b: set<Node>, x: Node)
    requires Closed(g, b) && Acyclic(g, b) && x !in b
    requires forall y | y in Succ(g, x) :: y in b
    ensures Closed(g, b + {x}) && Acyclic(g, b + {x})
  {
    forall p | IsCycle(g, p) ensures p[0] !in b + {x} {
      if p[0] == x {
        var q := p[1..];
        assert p[0 + 1] in Succ(g, p[0]);
        assert IsPath(g, q) by {
          forall i | 0 <= i < |q| - 1 ensures q[i + 1] in Succ(g, q[i]) {
            assert p[i + 1 + 1] in Succ(g, p[i + 1]);
          }
        }
        PathStaysIn(g, b, q, |q| - 1);
      }
    }
  }

  lemma {:induction false} CyclesStartAtKeys(g: Graph)
    ensures forall p | IsCycle(g, p) :: p[0] in g.Keys
  {
    forall p | IsCycle(g, p) ensures p[0] in g.Keys {
      assert p[0 + 1] in Succ(g, p[0]);
    }
  }

  /** The tail of a path from an earlier occurrence of y, extended by an edge back to y. */
  lemma {:induction false} CloseCycle(g: Graph, p: seq<Node>, y: Node)
    requires IsPath(g, p) && y in Succ(g, p[|p| - 1]) && y in p
    ensures HasCycle(g)
  {
    var k :| 0 <= k < |p| && p[k] == y;
    var c := p[k..] + [y];
    forall i | 0 <= i < |c| - 1 ensures c[i + 1] in Succ(g, c[i]) {
      if i < |p| - k - 1 {
        assert p[k + i + 1] in Succ(g, p[k + i]);
      }
    }
    assert IsCycle(g, c);
  }

  lemma {:induction false} ExtendPath(g: Graph, p: seq<Node>, y: Node)
    requires p == [] || (IsPath(g, p) && y in Succ(g, p[|p| - 1]))
    ensures IsPath(g, p + [y])
  {
    var q := p + [y];
    forall i | 0 <= i < |q| - 1 ensures q[i + 1] in Succ(g, q[i]) {
      if i < |p| - 1 {
        assert p[i + 1] in Succ(g, p[i]);
      }
    }
  }

  ghost function Nodes(g: Graph): set<Node> {
    g.Keys + set x, i | x in g && 0 <= i < |g[x]| :: g[x][i]
  }

  /** A lookup with the default of the source's operator[]. */
  predicate At(m: map<Node, bool>, x: Node) {
    x in m && m[x]
  }

  function TrueSet(m: map<Node, bool>): set<Node> {
    set x | x in m && m[x]
  }

  function Finished(visited: map<Node, bool>, path: seq<Node>): set<Node> {
    set x | x in TrueSet(visited) && x !in path
  }

  /** `path` lists the nodes on the recursion stack, outermost first; every other visited node is finished. */
  ghost predicate Searching(g: Graph, visited: map<Node, bool>, stack: map<Node, bool>, path: seq<Node>) {
    && TrueSet(visited) <= Nodes(g)
    && (forall x | x in path :: At(visited, x))
    && (forall x :: At(stack, x) <==> x in path)
    && (path == [] || IsPath(g, path))
    && Closed(g, Finished(visited, path))
    && Acyclic(g, Finished(visited, path))
  }

  lemma {:induction false} PushKeepsSearching(
    g: Graph, visited: map<Node, bool>, stack: map<Node, bool>, path: seq<Node>, x: Node)
    requires Searching(g, visited, stack, path) && x in Nodes(g) && !At(visited, x)
    requires path == [] || x in Succ(g, path[|path| - 1])
    ensures Searching(g, visited[x := true], stack[x := true], path + [x])
    ensures Finished(visited[x := true], path + [x]) == Finished(visited, path)
    ensures TrueSet(visited[x := true]) == TrueSet(visited) + {x}
  {
    ExtendPath(g, path, x);
    assert TrueSet(visited[x := true]) == TrueSet(visited) + {x};
    assert Finished(visited[x := true], path + [x]) == Finished(visited, path);
  }

  lemma {:induction false} PopKeepsSearching(
    g: Graph, visited: map<Node, bool>, stack: map<Node, bool>, path: seq<Node>, x: Node)
    requires Searching(g, visited, stack, path + [x]) && x !in path
    requires forall y | y in Succ(g, x) :: y in Finished(visited, path + [x])
    ensures Searching(g, visited, stack[x := false], path)
    ensures Finished(visited, path) == Finished(visited, path + [x]) + {x}
  {
    AddFinished(g, Finished(visited, path + [x]), x);
    assert forall y :: y in path + [x] <==> y in path || y == x;
    assert Finished(visited, path) == Finished(visited, path + [x]) + {x};
    if path != [] {
      var p := path + [x];
      forall i | 0 <= i < |path| - 1 ensures path[i + 1] in Succ(g, path[i]) {
        assert p[i + 1] in Succ(g, p[i]);
      }
    }
  }

  class Search {
    const graph: Graph
    var visited: map<Node, bool>
    var recursionStack: map<Node, bool>

    constructor (g: Graph)
      ensures graph == g && visited == map[] && recursionStack == map[]
    {
      graph, visited, recursionStack := g, map[], map[];
    }

    /** True only if there is a cycle; otherwise the node is finished, and the stack is as it was. */
    method IsCyclicUtil(node: Node, ghost path: seq<Node>) returns (cyclic: bool)
      requires Searching(graph, visited, recursionStack, path) && node in Nodes(graph)
      requires path == [] || (!At(visited, node) && node in Succ(graph, path[|path| - 1]))
      modifies this
      ensures cyclic ==> HasCycle(graph)
      ensures !cyclic ==> Searching(graph, visited, recursionStack, path) && node in Finished(visited, path)
      ensures !cyclic ==> old(Finished(visited, path)) <= Finished(visited, path)
      ensures !cyclic ==> old(TrueSet(visited)) <= TrueSet(visited)
      decreases Nodes(graph) - TrueSet(visited)
    {
      if !At(visited, node) {
        ghost var stack := path + [node];
        ghost var seen := TrueSet(visited);
        PushKeepsSearching(graph, visited, recursionStack, path, node);
        visited := visited[node := true];
        recursionStack := recursionStack[node := true];
        var neighbors := Succ(graph, node);
        for i := 0 to |neighbors|
          invariant Searching(graph, visited, recursionStack, stack)
          invariant seen + {node} <= TrueSet(visited)
          invariant old(Finished(visited, path)) <= Finished(visited, stack)
          invariant forall j | 0 <= j < i :: neighbors[j] in Finished(visited, stack)
        {
          var neighbor := neighbors[i];
          if !At(visited, neighbor) {
            assert node in graph && neighbor in graph[node];
            var deeper := IsCyclicUtil(neighbor, stack);
            if deeper {
              return true;
            }
          }
          if At(recursionStack, neighbor) {
            CloseCycle(graph, stack, neighbor);
            return true;
          }
          assert neighbor in Finished(visited, stack);
        }
        PopKeepsSearching(graph, visited, recursionStack, path, node);
        recursionStack := recursionStack[node := false];
        return false;
      }
      recursionStack := recursionStack[node := false];
      return false;
    }
  }

  class StaticAnalyzer {
    var callGraph: Graph

    constructor ()
      ensures callGraph == map[]
    {
      callGraph := map[];
    }

    method AddDependency(src: Node, dst: Node)
      modifies this
      ensures callGraph == old(callGraph)[src := Succ(old(callGraph), src) + [dst]]
    {
      callGraph := callGraph[src := Succ(callGraph, src) + [dst]];
    }

    /** True exactly when some node has a non-empty path to itself. */
    method DetectCircularDependencies() returns (cyclic: bool)
      ensures cyclic <==> HasCycle(callGraph)
    {
      var search := new Search(callGraph);
      assert Finished(search.visited, []) == {};
      var remaining := callGraph.Keys;
      while remaining != {}
        invariant remaining <= callGraph.Keys && search.graph == callGraph && fresh(search)
        invariant Searching(callGraph, search.visited, search.recursionStack, [])
        invariant callGraph.Keys - remaining <= Finished(search.visited, [])
        decreases |remaining|
      {
        var node :| node in remaining;
        remaining := remaining - {node};
        var found := search.IsCyclicUtil(node, []);
        if found {
          return true;
        }
      }
      CyclesStartAtKeys(callGraph);
      return false;
    }
  }
}
