/** Dependency-cycle detection (scripts/routerkit_hardware_canary.py:796-813). */
module CycleCheck {
  type Graph = map<string, seq<string>>

  /** A dependency that is itself a key; targets outside the map are ignored. */
  predicate Edge(g: Graph, x: string, y: string) {
    x in g && y in g && y in g[x]
  }

  ghost predicate Path(g: Graph, p: seq<string>) {
    forall i :: 0 <= i < |p| - 1 ==> Edge(g, p[i], p[i + 1])
  }

  /** A non-empty path that comes back to where it started; an edge from a key to itself is one. */
  ghost predicate Cycle(g: Graph, p: seq<string>) {
    |p| >= 2 && Path(g, p) && p[0] == p[|p| - 1]
  }

  ghost predicate HasCycle(g: Graph) {
    exists p :: Cycle(g, p)
  }

  // ---- Finished nodes ----

  /** Each finished node's dependencies were finished before it. */
  ghost predicate Finished(g: Graph, order: seq<string>) {
    forall i, y :: 0 <= i < |order| && Edge(g, order[i], y) ==> y in order[..i]
  }

  ghost function Members(s: seq<string>): set<string> {
    set x | x in s
  }

  lemma {:induction false} FinishedSnoc(g: Graph, order: seq<string>, node: string)
    requires Finished(g, order) && (forall y :: Edge(g, node, y) ==> y in order)
    ensures Finished(g, order + [node]) && Members(order + [node]) == Members(order) + {node}
  {
    var next := order + [node];
    forall i, y | 0 <= i < |next| && Edge(g, next[i], y) ensures y in next[..i] {
      assert next[..i] == order[..i];
      if i == |order| {
        assert order[..i] == order;
      }
    }
  }

  /** Along a path that starts at position i of the finishing order, positions only fall. */
  lemma {:induction false} PathFalls(g: Graph, order: seq<string>, p: seq<string>, i: nat) returns (j: nat)
    requires Finished(g, order) && Path(g, p) && p != [] && i < |order| && order[i] == p[0]
    ensures j < |order| && order[j] == p[|p| - 1] && j + |p| - 1 <= i
    decreases |p|
  {
    if |p| == 1 {
      j := i;
    } else {
      assert Edge(g, p[0], p[1]);
      assert p[1] in order[..i];
      var k :| 0 <= k < i && order[k] == p[1];
      var rest := p[1..];
      forall n | 0 <= n < |rest| - 1 ensures Edge(g, rest[n], rest[n + 1]) {
        assert Edge(g, p[n + 1], p[n + 2]);
      }
      j := PathFalls(g, order, rest, k);
    }
  }

  /** No cycle passes through a node of a finishing order: going around, the position would fall for ever. */
  lemma {:induction false} CycleDescends(g: Graph, order: seq<string>, p: seq<string>, i: nat)
    requires Finished(g, order) && Cycle(g, p) && i < |order| && order[i] == p[0]
    ensures false
    decreases i
  {
    var j := PathFalls(g, order, p, i);
    CycleDescends(g, order, p, j);
  }

  lemma {:induction false} FinishedMeansAcyclic(g: Graph, order: seq<string>)
    requires Finished(g, order) && g.Keys <= Members(order)
    ensures !HasCycle(g)
  {
    if HasCycle(g) {
      var p :| Cycle(g, p);
      assert Edge(g, p[0], p[1]);
      assert p[0] in Members(order);
      var i :| 0 <= i < |order| && order[i] == p[0];
      CycleDescends(g, order, p, i);
    }
  }

  // ---- The search ----

  /** The two shared sets of the recursive visit. */
  class Search {
    const graph: Graph
    var visiting: set<string>
    var visited: set<string>
    /** The visited nodes in the order they were finished. */
    ghost var order: seq<string>

    constructor (graph: Graph)
      ensures this.graph == graph && visiting == {} && visited == {} && order == [] && Consistent([])
    {
      this.graph, visiting, visited, order := graph, {}, {}, [];
    }

    /** What is being visited is the current path; what is visited is finished. */
    ghost predicate Consistent(stack: seq<string>)
      reads this
    {
      && visiting == Members(stack) && Path(graph, stack)
      && visited == Members(order) && Finished(graph, order)
    }

    /** Depth-first visit below the current path: true exactly when it runs into that path. */
    method Visit(node: string, ghost stack: seq<string>) returns (found: bool)
      requires node in graph && Consistent(stack) && visiting <= graph.Keys
      requires stack != [] ==> Edge(graph, stack[|stack| - 1], node)
      modifies this
      decreases |graph.Keys - visiting|
      ensures found ==> HasCycle(graph)
      ensures !found ==> Consistent(stack) && visiting == old(visiting)
      ensures !found ==> node in visited && old(visited) <= visited
    {
      ghost var path := stack + [node];
      ExtendedPath(graph, stack, node);
      if node in visiting {
        ClosedPath(graph, stack, node);
        return true;
      }
      if node in visited {
        return false;
      }
      visiting := visiting + {node};
      var dependencies := graph[node];
      for i := 0 to |dependencies|
        invariant Consistent(path) && visiting == old(visiting) + {node} && old(visited) <= visited
        invariant forall k :: 0 <= k < i && dependencies[k] in graph ==> dependencies[k] in visited
      {
        if dependencies[i] in graph {
          var below := Visit(dependencies[i], path);
          if below {
            return true;
          }
        }
      }
      visiting := visiting - {node};
      visited := visited + {node};
      FinishedSnoc(graph, order, node);
      order := order + [node];
      return false;
    }
  }

  lemma {:induction false} ExtendedPath(g: Graph, stack: seq<string>, node: string)
    requires Path(g, stack) && (stack != [] ==> Edge(g, stack[|stack| - 1], node))
    ensures Path(g, stack + [node]) && Members(stack + [node]) == Members(stack) + {node}
  {
    var path := stack + [node];
    forall i | 0 <= i < |path| - 1 ensures Edge(g, path[i], path[i + 1]) {
      if i < |stack| - 1 {
        assert Edge(g, stack[i], stack[i + 1]);
      }
    }
  }

  lemma {:induction false} ClosedPath(g: Graph, stack: seq<string>, node: string)
    requires Path(g, stack + [node]) && node in stack
    ensures HasCycle(g)
  {
    var i :| 0 <= i < |stack| && stack[i] == node;
    var path := stack + [node];
    var p := path[i..];
    forall n | 0 <= n < |p| - 1 ensures Edge(g, p[n], p[n + 1]) {
      assert Edge(g, path[i + n], path[i + n + 1]);
    }
    assert Cycle(g, p);
  }

  /** `_has_cycle`: visit every key in turn; terminates on every finite map, and finds a cycle exactly when the graph
      restricted to its own keys has one. */
  method DetectCycle(graph: Graph, keys: seq<string>) returns (found: bool)
    requires Members(keys) == graph.Keys
    ensures found <==> HasCycle(graph)
  {
    var search := new Search(graph);
    for i := 0 to |keys|
      invariant search.graph == graph && search.Consistent([])
      invariant forall k :: 0 <= k < i ==> keys[k] in search.visited
    {
      assert keys[i] in Members(keys);
      var below := search.Visit(keys[i], []);
      if below {
        return true;
      }
    }
    assert graph.Keys <= Members(search.order);
    FinishedMeansAcyclic(graph, search.order);
    return false;
  }
}
