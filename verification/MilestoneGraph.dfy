/** Milestone dependency graphs: the cycle check of a charter and the order milestones are executed in. */
module MilestoneGraphs {
  import opened Wrappers
  import opened TextOrder

  datatype Milestone = Milestone(id: string, dependencies: seq<string>)

  type Graph = map<string, seq<string>>

  datatype CharterError =
    | DuplicateIds | UnknownDependency(id: string) | SelfDependency(id: string) | Cycle(id: string)

  // ---------- What a charter should be ----------

  ghost predicate UniqueIds(ms: seq<Milestone>) {
    forall i, j | 0 <= i < j < |ms| :: ms[i].id != ms[j].id
  }

  ghost predicate KnownDependencies(ms: seq<Milestone>) {
    forall i, d | 0 <= i < |ms| && d in ms[i].dependencies :: HasId(ms, d)
  }

  predicate HasId(ms: seq<Milestone>, id: string) {
    exists i :: 0 <= i < |ms| && ms[i].id == id
  }

  function GraphOf(ms: seq<Milestone>): Graph {
    if ms == [] then map[]
    else GraphOf(ms[..|ms| - 1])[ms[|ms| - 1].id := ms[|ms| - 1].dependencies]
  }

  /** A walk along dependencies. */
  ghost predicate IsPath(g: Graph, p: seq<string>) {
    p != [] && forall i | 0 <= i < |p| - 1 :: p[i] in g && p[i + 1] in g[p[i]]
  }

  ghost predicate CycleAt(g: Graph, p: seq<string>) {
    |p| >= 2 && IsPath(g, p) && p[0] == p[|p| - 1]
  }

  ghost predicate Cyclic(g: Graph) {
    exists p :: CycleAt(g, p)
  }

  ghost predicate Acceptable(ms: seq<Milestone>) {
    UniqueIds(ms) && KnownDependencies(ms) && !Cyclic(GraphOf(ms))
  }

  lemma {:induction false} GraphHolds(ms: seq<Milestone>)
    ensures forall id :: id in GraphOf(ms) <==> HasId(ms, id)
    ensures UniqueIds(ms) ==>
      forall i | 0 <= i < |ms| :: ms[i].id in GraphOf(ms) && GraphOf(ms)[ms[i].id] == ms[i].dependencies
  {
    if ms != [] {
      var before, last := ms[..|ms| - 1], ms[|ms| - 1];
      GraphHolds(before);
      forall id ensures id in GraphOf(ms) <==> HasId(ms, id) {
        if HasId(before, id) {
          var i :| 0 <= i < |before| && before[i].id == id;
          assert ms[i].id == id;
        }
        assert id == last.id ==> ms[|ms| - 1].id == id;
      }
    }
  }

  /** Dependencies stay inside the graph. */
  ghost predicate Closed(g: Graph) {
    forall a, b | a in g && b in g[a] :: b in g
  }

  lemma GraphClosed(ms: seq<Milestone>)
    requires UniqueIds(ms) && KnownDependencies(ms)
    ensures Closed(GraphOf(ms))
  {
    GraphHolds(ms);
    var g := GraphOf(ms);
    forall a, b | a in g && b in g[a] ensures b in g {
      var i :| 0 <= i < |ms| && ms[i].id == a;
      assert HasId(ms, b);
    }
  }

  // ---------- The depth-first cycle check ----------

  /** Every node's dependencies stand before it. */
  ghost predicate Topological(g: Graph, order: seq<string>) {
    forall i, d | 0 <= i < |order| && order[i] in g && d in g[order[i]] :: d in order[..i]
  }

  /** No walk can climb a topological order, so none can come back. */
  lemma {:induction false} WalkDescends(g: Graph, order: seq<string>, p: seq<string>, at: nat)
    requires Topological(g, order) && IsPath(g, p) && at < |order| && order[at] == p[0]
    ensures exists j :: 0 <= j <= at - (|p| - 1) && order[j] == p[|p| - 1]
    decreases |p|
  {
    if |p| > 1 {
      assert p[1] in g[p[0]] && p[1] in order[..at];
      var j :| 0 <= j < at && order[j] == p[1];
      var rest := p[1..];
      assert forall i | 0 <= i < |rest| :: rest[i] == p[i + 1];
      WalkDescends(g, order, rest, j);
    }
  }

  lemma {:induction false} AroundAgain(g: Graph, p: seq<string>, n: nat) returns (walk: seq<string>)
    requires CycleAt(g, p)
    ensures IsPath(g, walk) && walk[0] == p[0] && |walk| > n
    decreases n
  {
    if n == 0 {
      walk := p;
    } else {
      var shorter := AroundAgain(g, p, n - 1);
      if |shorter| > n {
        walk := shorter;
      } else {
        walk := p[..|p| - 1] + shorter;
        forall i | 0 <= i < |walk| - 1 ensures walk[i] in g && walk[i + 1] in g[walk[i]] {
          if i < |p| - 1 {
            assert walk[i] == p[i];
            if i == |p| - 2 { assert walk[i + 1] == shorter[0] == p[|p| - 1]; }
          } else {
            assert walk[i] == shorter[i - (|p| - 1)] && walk[i + 1] == shorter[i - (|p| - 1) + 1];
          }
        }
      }
    }
  }

  lemma TopologicalAcyclic(g: Graph, order: seq<string>)
    requires Topological(g, order) && forall id | id in g :: id in order
    ensures !Cyclic(g)
  {
    if p :| CycleAt(g, p) {
      assert p[0] in g;
      var at :| 0 <= at < |order| && order[at] == p[0];
      var walk := AroundAgain(g, p, at + 1);
      WalkDescends(g, order, walk, at);
      assert false;
    }
  }

  /** The node sets of `validate_graph`'s inner function, which both are updated in place. */
  class CycleCheck {
    const graph: Graph
    var visiting: set<string>
    var visited: set<string>
    ghost var order: seq<string>

    ghost predicate Valid()
      reads this
    {
      && Closed(graph)
      && visiting !! visited && visiting <= graph.Keys && visited <= graph.Keys
      && (forall id :: id in order <==> id in visited)
      && Topological(graph, order)
    }

    constructor (graph: Graph)
      requires Closed(graph)
      ensures Valid() && this.graph == graph && visiting == {} && visited == {}
    {
      this.graph, visiting, visited, order := graph, {}, {}, [];
    }

    /** `trail` is the walk of open calls that led to `node`. */
    ghost predicate Trail(trail: seq<string>, node: string)
      reads this
    {
      && IsPath(graph, trail + [node])
      && (forall id :: id in trail <==> id in visiting)
    }

    /** `visit`: it raises exactly when a cycle can be reached, and then names a node on one. */
    method Visit(node: string, ghost trail: seq<string>) returns (r: Result<(), CharterError>)
      requires Valid() && node in graph && Trail(trail, node)
      modifies `visiting, `visited, `order
      ensures r.Ok? ==> Valid() && visiting == old(visiting) && old(visited) <= visited && node in visited
      ensures r.Err? ==> r.error.Cycle? && exists p :: CycleAt(graph, p) && p[0] == r.error.id
      decreases graph.Keys - visiting
    {
      if node in visiting {
        ghost var i :| 0 <= i < |trail| && trail[i] == node;
        ghost var cycle := (trail + [node])[i..];
        assert forall k | 0 <= k < |cycle| :: cycle[k] == (trail + [node])[i + k];
        assert CycleAt(graph, cycle);
        return Err(Cycle(node));
      }
      if node in visited {
        return Ok(());
      }
      visiting := visiting + {node};
      var open, dependencies := visiting, graph[node];
      for k := 0 to |dependencies|
        invariant Valid() && visiting == open && old(visited) <= visited && node !in visited
        invariant forall j | 0 <= j < k :: dependencies[j] in visited
      {
        TrailGrows(graph, trail, node, dependencies[k]);
        var _ :- Visit(dependencies[k], trail + [node]);
      }
      visiting := visiting - {node};
      assert Topological(graph, order + [node]) by { Appended(graph, order, node); }
      visited, order := visited + {node}, order + [node];
      return Ok(());
    }
  }

  lemma TrailGrows(g: Graph, trail: seq<string>, node: string, next: string)
    requires IsPath(g, trail + [node]) && node in g && next in g[node]
    ensures IsPath(g, trail + [node] + [next])
  {
    var p := trail + [node] + [next];
    assert forall i | 0 <= i < |p| - 1 :: p[i] == (trail + [node])[i];
  }

  lemma Appended(g: Graph, order: seq<string>, node: string)
    requires Topological(g, order) && node in g && forall d | d in g[node] :: d in order
    ensures Topological(g, order + [node])
  {
    forall i, d | 0 <= i <= |order| && (order + [node])[i] in g && d in g[(order + [node])[i]]
      ensures d in (order + [node])[..i]
    {
      assert (order + [node])[..i] == order[..i];
      assert order[..|order|] == order;
    }
  }

  lemma SelfCycle(g: Graph, id: string)
    requires id in g && id in g[id]
    ensures Cyclic(g)
  {
    assert CycleAt(g, [id, id]);
  }

  lemma CycleIsCyclic(g: Graph)
    ensures (exists p :: CycleAt(g, p)) ==> Cyclic(g)
  {
  }

  /** `validate_graph` accepts exactly the charters with unique ids, known dependencies and no cycle. */
  method ValidateGraph(ms: seq<Milestone>) returns (r: Result<(), CharterError>)
    ensures r.Ok? <==> Acceptable(ms)
    ensures r == Err(DuplicateIds) <==> !UniqueIds(ms)
    ensures r.Err? && r.error.Cycle? ==>
      && (exists p :: CycleAt(GraphOf(ms), p) && p[0] == r.error.id)
      && UniqueIds(ms) && KnownDependencies(ms) && forall i | 0 <= i < |ms| :: ms[i].id !in ms[i].dependencies
    ensures r.Err? && r.error.UnknownDependency? ==>
      exists i, d :: 0 <= i < |ms| && d in ms[i].dependencies && ms[i].id == r.error.id && !HasId(ms, d)
    ensures r.Err? && r.error.SelfDependency? ==>
      exists i :: 0 <= i < |ms| && ms[i].id == r.error.id && ms[i].id in ms[i].dependencies
  {
    hide Cyclic, CycleAt, IsPath, Topological, GraphOf;
    var known := {};
    for i := 0 to |ms|
      invariant known == set k | 0 <= k < i :: ms[k].id
      invariant forall j, k | 0 <= j < k < i :: ms[j].id != ms[k].id
    {
      if ms[i].id in known {
        return Err(DuplicateIds);
      }
      known := known + {ms[i].id};
    }
    GraphHolds(ms);
    var graph := GraphOf(ms);
    for i := 0 to |ms|
      invariant forall j, d | 0 <= j < i && d in ms[j].dependencies :: HasId(ms, d)
      invariant forall j | 0 <= j < i :: ms[j].id !in ms[j].dependencies
    {
      var m := ms[i];
      for k := 0 to |m.dependencies|
        invariant forall j | 0 <= j < k :: HasId(ms, m.dependencies[j])
      {
        if m.dependencies[k] !in known {
          assert m.dependencies[k] in ms[i].dependencies && !HasId(ms, m.dependencies[k]);
          return Err(UnknownDependency(m.id));
        }
      }
      if m.id in m.dependencies {
        SelfCycle(graph, m.id);
        return Err(SelfDependency(m.id));
      }
    }
    GraphClosed(ms);
    CycleIsCyclic(graph);
    var check := new CycleCheck(graph);
    for i := 0 to |ms|
      invariant check.Valid() && check.visiting == {} && check.graph == graph
      invariant forall j | 0 <= j < i :: ms[j].id in check.visited
    {
      var _ :- check.Visit(ms[i].id, []);
    }
    TopologicalAcyclic(graph, check.order);
    return Ok(());
  }

  // ---------- Chains of dependencies ----------

  /** A chain of `k` dependencies starts at `id`. */
  predicate Chain(g: Graph, id: string, k: nat)
    decreases k
  {
    id in g && (k == 0 || exists d :: d in g[id] && Chain(g, d, k - 1))
  }

  lemma {:induction false} ChainShortens(g: Graph, id: string, k: nat)
    requires Chain(g, id, k + 1)
    ensures Chain(g, id, k)
    decreases k
  {
    if k > 0 {
      var d :| d in g[id] && Chain(g, d, k);
      ChainShortens(g, d, k - 1);
    }
  }

  lemma {:induction false} ChainWalk(g: Graph, id: string, k: nat) returns (p: seq<string>)
    requires Chain(g, id, k)
    ensures IsPath(g, p) && |p| == k + 1 && p[0] == id && forall x | x in p :: x in g
    decreases k
  {
    p := [id];
    if k > 0 {
      var d :| d in g[id] && Chain(g, d, k - 1);
      var rest := ChainWalk(g, d, k - 1);
      p := [id] + rest;
      assert forall i | 1 <= i < |p| :: p[i] == rest[i - 1];
    }
  }

  lemma {:induction false} Pigeonhole(p: seq<string>, nodes: set<string>)
    requires (forall x | x in p :: x in nodes) && |p| > |nodes|
    ensures exists i, j :: 0 <= i < j < |p| && p[i] == p[j]
    decreases |p|
  {
    var last := p[|p| - 1];
    if i :| 0 <= i < |p| - 1 && p[i] == last {
    } else {
      var shorter := p[..|p| - 1];
      forall x | x in shorter ensures x in nodes - {last} {
        assert x in p;
      }
      Pigeonhole(shorter, nodes - {last});
      var i, j :| 0 <= i < j < |shorter| && shorter[i] == shorter[j];
      assert p[i] == p[j];
    }
  }

  /** In a graph without cycles no chain is as long as the graph is large. */
  lemma ChainsAreShort(g: Graph, id: string)
    requires !Cyclic(g)
    ensures !Chain(g, id, |g|)
  {
    if Chain(g, id, |g|) {
      var p := ChainWalk(g, id, |g|);
      assert |g.Keys| == |g|;
      Pigeonhole(p, g.Keys);
      var i, j :| 0 <= i < j < |p| && p[i] == p[j];
      var cycle := p[i..j + 1];
      assert forall k | 0 <= k < |cycle| :: cycle[k] == p[i + k];
      assert CycleAt(g, cycle);
    }
  }

  /** If no node runs out after `k` steps, none ever does. */
  lemma {:induction false} ChainsGrow(g: Graph, id: string, k: nat, n: nat)
    requires forall x | Chain(g, x, k) :: Chain(g, x, k + 1)
    requires Chain(g, id, k) && n >= k
    ensures Chain(g, id, n)
    decreases n
  {
    if n > k {
      assert Chain(g, id, k + 1);
      var d :| d in g[id] && Chain(g, d, k);
      ChainsGrow(g, d, k, n - 1);
    }
  }

  /** Some node can always be executed next. */
  lemma SomeNodeEnds(g: Graph, k: nat, id: string) returns (end: string)
    requires !Cyclic(g) && Chain(g, id, k)
    ensures Chain(g, end, k) && !Chain(g, end, k + 1)
  {
    if x :| Chain(g, x, k) && !Chain(g, x, k + 1) {
      end := x;
    } else {
      ChainsGrow(g, id, k, k + |g|);
      ChainsAreShort(g, id);
      ChainDown(g, id, |g|, k + |g|);
      assert false;
    }
  }

  lemma {:induction false} ChainDown(g: Graph, id: string, j: nat, k: nat)
    requires Chain(g, id, k) && j <= k
    ensures Chain(g, id, j)
    decreases k
  {
    if j < k {
      ChainShortens(g, id, k - 1);
      ChainDown(g, id, j, k - 1);
    }
  }
}
