/** Walks in a dependency graph, and what depth-first search, reachability and layering may conclude from them. */
module DependencyGraph {
  import opened Collections

  type Node = string
  type Graph = map<Node, seq<Node>>

  function Deps(g: Graph, n: Node): seq<Node> {
    if n in g then g[n] else []
  }

  predicate Edge(g: Graph, a: Node, b: Node) {
    b in Deps(g, a)
  }

  /** Every step follows a dependency. */
  ghost predicate IsWalk(g: Graph, w: seq<Node>) {
    forall i :: 0 <= i < |w| - 1 ==> Edge(g, w[i], w[i + 1])
  }

  /** A walk of at least one step that ends where it starts. */
  ghost predicate ClosedWalk(g: Graph, w: seq<Node>) {
    |w| >= 2 && w[0] == w[|w| - 1] && IsWalk(g, w)
  }

  ghost predicate Cyclic(g: Graph) {
    exists w :: ClosedWalk(g, w)
  }

  ghost function Universe(g: Graph): set<Node> {
    g.Keys + set a, b | a in g && b in g[a] :: b
  }

  lemma DepsInUniverse(g: Graph, a: Node, b: Node)
    requires Edge(g, a, b)
    ensures a in Universe(g) && b in Universe(g)
  {
  }

  // ---- a dependency order rules out cycles ----

  /** Every node's dependencies come before it. */
  ghost predicate DependencyOrder(g: Graph, order: seq<Node>) {
    forall i, b :: 0 <= i < |order| && Edge(g, order[i], b) ==> b in order[..i]
  }

  lemma {:induction false} WalkDescends(g: Graph, order: seq<Node>, w: seq<Node>, i: nat) returns (j: nat)
    requires DependencyOrder(g, order) && IsWalk(g, w) && |w| >= 1
    requires i < |order| && order[i] == w[0]
    ensures j <= i && order[j] == w[|w| - 1] && (|w| >= 2 ==> j < i)
    decreases |w|
  {
    if |w| == 1 {
      j := i;
    } else {
      assert Edge(g, w[0], w[1]);
      assert w[1] in order[..i];
      var k :| 0 <= k < i && order[..i][k] == w[1];
      j := WalkDescends(g, order, w[1..], k);
    }
  }

  lemma OrderedMeansAcyclic(g: Graph, order: seq<Node>)
    requires DependencyOrder(g, order) && Distinct(order) && forall n :: n in g ==> n in order
    ensures !Cyclic(g)
  {
    forall w ensures !ClosedWalk(g, w) {
      if ClosedWalk(g, w) {
        assert Edge(g, w[0], w[1]);
        var i :| 0 <= i < |order| && order[i] == w[0];
        var j := WalkDescends(g, order, w, i);
      }
    }
  }

  // ---- depth-first search for cycles ----

  class CycleFinder {
    const g: Graph
    var visited: set<Node>
    var path: seq<Node>
    var pathSet: set<Node>
    var cycles: seq<seq<Node>>
    ghost var finished: seq<Node>

    constructor (g: Graph)
      ensures this.g == g && Valid() && path == [] && cycles == [] && finished == []
    {
      this.g := g;
      visited, path, pathSet, cycles, finished := {}, [], {}, [], [];
    }

    /** The path is a walk of unfinished nodes; all reports are closed walks; without reports, finishing is a dependency order. */
    ghost predicate Valid()
      reads this
    {
      && IsWalk(g, path) && Distinct(finished)
      && (forall n :: n in pathSet <==> n in path)
      && (forall n :: n in visited <==> n in path || n in finished)
      && (forall n :: n in path ==> n !in finished)
      && (forall c :: c in cycles ==> ClosedWalk(g, c))
      && (cycles == [] ==> DependencyOrder(g, finished))
    }

    /** Searches on from a node; what it leaves behind only grows, and the path is as before. */
    method Dfs(node: Node)
      requires Valid() && node in Universe(g) && (path != [] ==> Edge(g, path[|path| - 1], node))
      modifies this
      ensures Valid() && path == old(path) && old(cycles) <= cycles && old(finished) <= finished
      ensures node in visited && old(visited) <= visited
      ensures cycles == [] ==> node in finished
      decreases Universe(g) - visited, 1
    {
      if node in pathSet {
        var start := IndexOf(path, node);
        CycleCloses(g, path, node, start);
        cycles := cycles + [path[start..] + [node]];
        return;
      }
      if node in visited {
        return;
      }
      Explore(node);
    }

    method Explore(node: Node)
      requires Valid() && node in Universe(g) && (path != [] ==> Edge(g, path[|path| - 1], node)) && node !in visited
      modifies this
      ensures Valid() && path == old(path) && old(cycles) <= cycles && old(finished) <= finished
      ensures node in finished && old(visited) <= visited
      decreases Universe(g) - visited, 0
    {
      ghost var above := path;
      Push(node);
      Follow(node);
      Pop(node, above);
    }

    method Follow(node: Node)
      requires Valid() && path != [] && path[|path| - 1] == node
      modifies this
      ensures Valid() && path == old(path) && old(cycles) <= cycles && old(finished) <= finished && old(visited) <= visited
      ensures cycles == [] ==> forall b :: Edge(g, node, b) ==> b in finished
      decreases Universe(g) - visited, 2
    {
      var neighbours := Deps(g, node);
      var i := 0;
      while i < |neighbours|
        invariant 0 <= i <= |neighbours|
        invariant Valid() && path == old(path) && old(cycles) <= cycles && old(finished) <= finished && old(visited) <= visited
        invariant cycles == [] ==> forall k :: 0 <= k < i ==> neighbours[k] in finished
      {
        assert Edge(g, node, neighbours[i]);
        DepsInUniverse(g, node, neighbours[i]);
        Dfs(neighbours[i]);
        i := i + 1;
      }
    }

    method Push(node: Node)
      requires Valid() && (path != [] ==> Edge(g, path[|path| - 1], node)) && node !in visited
      modifies `visited, `path, `pathSet
      ensures Valid() && path == old(path) + [node] && visited == old(visited) + {node}
    {
      visited := visited + {node};
      path := path + [node];
      pathSet := pathSet + {node};
    }

    method Pop(node: Node, ghost above: seq<Node>)
      requires Valid() && path == above + [node] && node !in above
      requires cycles == [] ==> forall b :: Edge(g, node, b) ==> b in finished
      modifies `path, `pathSet, `finished
      ensures Valid() && path == above && finished == old(finished) + [node]
    {
      if cycles == [] { FinishNode(g, finished, node); }
      assert forall i :: 0 <= i < |above| ==> above[i] == path[i];
      assert path[|path| - 1] == node && node in path && node !in finished;
      path := path[..|path| - 1];
      pathSet := pathSet - {node};
      finished := finished + [node];
    }

    method Run(nodes: seq<Node>)
      requires Valid() && path == [] && cycles == [] && finished == [] && Elements(nodes) == g.Keys
      modifies this
      ensures Valid() && (cycles != [] <==> Cyclic(g))
    {
      var i := 0;
      while i < |nodes|
        invariant 0 <= i <= |nodes| && Valid() && path == []
        invariant cycles == [] ==> forall k :: 0 <= k < i ==> nodes[k] in finished
      {
        assert nodes[i] in Elements(nodes);
        Dfs(nodes[i]);
        i := i + 1;
      }
      if cycles == [] {
        forall n | n in g ensures n in finished { assert n in Elements(nodes); }
        OrderedMeansAcyclic(g, finished);
      } else {
        assert ClosedWalk(g, cycles[0]);
      }
    }
  }

  /** Reports a closed walk exactly when there is one, and nothing but closed walks. */
  method DetectCycles(g: Graph, nodes: seq<Node>) returns (cycles: seq<seq<Node>>)
    requires Elements(nodes) == g.Keys
    ensures cycles != [] <==> Cyclic(g)
    ensures forall c :: c in cycles ==> ClosedWalk(g, c)
  {
    var finder := new CycleFinder(g);
    finder.Run(nodes);
    cycles := finder.cycles;
  }

  method IndexOf(xs: seq<Node>, x: Node) returns (i: nat)
    requires x in Elements(xs)
    ensures i < |xs| && xs[i] == x && forall j :: 0 <= j < i ==> xs[j] != x
  {
    i := 0;
    while xs[i] != x
      invariant i < |xs| && forall j :: 0 <= j < i ==> xs[j] != x
      decreases |xs| - i
    {
      i := i + 1;
    }
  }

  lemma CycleCloses(g: Graph, path: seq<Node>, node: Node, start: nat)
    requires IsWalk(g, path) && start < |path| && path[start] == node && Edge(g, path[|path| - 1], node)
    ensures ClosedWalk(g, path[start..] + [node])
  {
    var w := path[start..] + [node];
    forall i | 0 <= i < |w| - 1 ensures Edge(g, w[i], w[i + 1]) {
      assert w[i] == path[start + i];
    }
  }

  lemma FinishNode(g: Graph, finished: seq<Node>, node: Node)
    requires forall b :: Edge(g, node, b) ==> b in finished
    requires DependencyOrder(g, finished)
    ensures DependencyOrder(g, finished + [node])
  {
    var more := finished + [node];
    forall i, b | 0 <= i < |more| && Edge(g, more[i], b) ensures b in more[..i] {
      assert more[..i] == if i < |finished| then finished[..i] else finished;
    }
  }

  // ---- reachability and redundant dependencies ----

  /** A walk of at least one step from a to b. */
  ghost predicate Reaches(g: Graph, a: Node, b: Node) {
    exists w :: WalkFrom(g, a, b, w)
  }

  ghost predicate WalkFrom(g: Graph, a: Node, b: Node, w: seq<Node>) {
    |w| >= 2 && w[0] == a && w[|w| - 1] == b && IsWalk(g, w)
  }

  lemma ReachesDirectly(g: Graph, a: Node, b: Node)
    requires Edge(g, a, b)
    ensures Reaches(g, a, b)
  {
    assert WalkFrom(g, a, b, [a, b]);
  }

  /** Everything a set of nodes depends on lies in a set. */
  ghost predicate LeadsInto(g: Graph, from: set<Node>, into: set<Node>) {
    forall a, b :: a in from && Edge(g, a, b) ==> b in into
  }

  lemma {:induction false} WalksStayInside(g: Graph, start: Node, inside: set<Node>, w: seq<Node>)
    requires LeadsInto(g, {start}, inside) && LeadsInto(g, inside, inside)
    requires |w| >= 2 && (w[0] == start || w[0] in inside) && IsWalk(g, w)
    ensures w[|w| - 1] in inside
    decreases |w|
  {
    assert Edge(g, w[0], w[1]);
    if |w| > 2 { WalksStayInside(g, start, inside, w[1..]); }
  }

  class Reacher {
    const g: Graph
    var visited: set<Node>

    constructor (g: Graph)
      ensures this.g == g && visited == {}
    {
      this.g := g;
      visited := {};
    }

    /** Adds what is reachable from a node through nodes not yet visited; what it adds is fully followed up. */
    method GetTransitive(node: Node, ghost origin: Node)
      requires node == origin || Reaches(g, origin, node)
      requires forall n :: n in visited ==> Reaches(g, origin, n)
      modifies this
      ensures old(visited) <= visited && LeadsInto(g, {node}, visited) && LeadsInto(g, visited - old(visited), visited)
      ensures forall n :: n in visited ==> Reaches(g, origin, n)
      decreases Universe(g) - visited
    {
      var deps := Deps(g, node);
      var i := 0;
      while i < |deps|
        invariant 0 <= i <= |deps| && old(visited) <= visited
        invariant forall k :: 0 <= k < i ==> deps[k] in visited
        invariant LeadsInto(g, visited - old(visited), visited)
        invariant forall n :: n in visited ==> Reaches(g, origin, n)
      {
        var dep := deps[i];
        if dep !in visited {
          assert Edge(g, node, dep);
          DepsInUniverse(g, node, dep);
          ReachesOneMore(g, origin, node, dep);
          ghost var before := visited;
          visited := visited + {dep};
          ghost var marked := visited;
          GetTransitive(dep, origin);
          FollowedUp(g, old(visited), before, dep, marked, visited);
        }
        i := i + 1;
      }
    }
  }

  lemma ReachesOneMore(g: Graph, origin: Node, node: Node, dep: Node)
    requires (node == origin || Reaches(g, origin, node)) && Edge(g, node, dep)
    ensures Reaches(g, origin, dep)
  {
    if node == origin {
      ReachesDirectly(g, node, dep);
    } else {
      var w :| WalkFrom(g, origin, node, w);
      assert WalkFrom(g, origin, dep, w + [dep]);
    }
  }

  lemma FollowedUp(g: Graph, start: set<Node>, before: set<Node>, dep: Node, marked: set<Node>, after: set<Node>)
    requires start <= before && marked == before + {dep} && marked <= after
    requires LeadsInto(g, before - start, before) && LeadsInto(g, {dep}, after) && LeadsInto(g, after - marked, after)
    ensures LeadsInto(g, after - start, after)
  {
    forall a, b | a in after - start && Edge(g, a, b) ensures b in after {
      if a in before { assert a in before - start; } else if a != dep { assert a in after - marked; }
    }
  }

  /** All that a node depends on, directly or through others. */
  method TransitiveDeps(g: Graph, node: Node) returns (reached: set<Node>)
    ensures forall n :: n in reached <==> Reaches(g, node, n)
  {
    var reacher := new Reacher(g);
    reacher.GetTransitive(node, node);
    reached := reacher.visited;
    forall n | Reaches(g, node, n) ensures n in reached {
      var w :| WalkFrom(g, node, n, w);
      WalksStayInside(g, node, reached, w);
    }
  }

  datatype Redundancy = Redundancy(node: Node, dep: Node, via: Node)

  /** The other dependencies through which one dependency is already reachable, in list order. */
  ghost function Already(g: Graph, node: Node, dep: Node): Node -> Option<Redundancy> {
    (other: Node) => if other != dep && Reaches(g, other, dep) then Some(Redundancy(node, dep, other)) else None
  }

  ghost function RedundantDeps(g: Graph, node: Node, deps: seq<Node>): seq<Redundancy> {
    if deps == [] then []
    else RedundantDeps(g, node, deps[..|deps| - 1]) + FilterMap(Already(g, node, deps[|deps| - 1]), Deps(g, node))
  }

  ghost function AllRedundant(g: Graph, nodes: seq<Node>): seq<Redundancy> {
    if nodes == [] then []
    else AllRedundant(g, nodes[..|nodes| - 1]) + RedundantDeps(g, nodes[|nodes| - 1], Deps(g, nodes[|nodes| - 1]))
  }

  method FindTransitiveRedundancy(g: Graph, nodes: seq<Node>) returns (found: seq<Redundancy>)
    requires Elements(nodes) == g.Keys
    ensures found == AllRedundant(g, nodes)
  {
    found := [];
    var i := 0;
    while i < |nodes|
      invariant 0 <= i <= |nodes| && found == AllRedundant(g, nodes[..i])
    {
      assert nodes[..i + 1][..i] == nodes[..i];
      var more := RedundanciesOf(g, nodes[i]);
      found := found + more;
      i := i + 1;
    }
    assert nodes[..i] == nodes;
  }

  method RedundanciesOf(g: Graph, node: Node) returns (found: seq<Redundancy>)
    ensures found == RedundantDeps(g, node, Deps(g, node))
  {
    var deps := Deps(g, node);
    found := [];
    var i := 0;
    while i < |deps|
      invariant 0 <= i <= |deps| && found == RedundantDeps(g, node, deps[..i])
    {
      assert deps[..i + 1][..i] == deps[..i];
      var more := WaysAround(g, node, deps[i]);
      found := found + more;
      i := i + 1;
    }
    assert deps[..i] == deps;
  }

  method WaysAround(g: Graph, node: Node, dep: Node) returns (found: seq<Redundancy>)
    ensures found == FilterMap(Already(g, node, dep), Deps(g, node))
  {
    var deps := Deps(g, node);
    found := [];
    var i := 0;
    while i < |deps|
      invariant 0 <= i <= |deps| && found == FilterMap(Already(g, node, dep), deps[..i])
    {
      FilterMapStep(Already(g, node, dep), deps, i);
      if deps[i] != dep {
        var reached := TransitiveDeps(g, deps[i]);
        if dep in reached {
          found := found + [Redundancy(node, dep, deps[i])];
        }
      }
      i := i + 1;
    }
    assert deps[..i] == deps;
  }

  /** A finding says exactly that a node lists a dependency it also has through another one it lists. */
  lemma {:induction false} RedundantIff(g: Graph, nodes: seq<Node>, r: Redundancy)
    ensures r in AllRedundant(g, nodes) <==>
      r.node in nodes && Edge(g, r.node, r.dep) && Edge(g, r.node, r.via) && r.via != r.dep && Reaches(g, r.via, r.dep)
  {
    if nodes != [] {
      RedundantIff(g, nodes[..|nodes| - 1], r);
      RedundantDepsIff(g, nodes[|nodes| - 1], Deps(g, nodes[|nodes| - 1]), r);
      assert nodes == nodes[..|nodes| - 1] + [nodes[|nodes| - 1]];
    }
  }

  lemma {:induction false} RedundantDepsIff(g: Graph, node: Node, deps: seq<Node>, r: Redundancy)
    ensures r in RedundantDeps(g, node, deps) <==>
      r.node == node && r.dep in deps && Edge(g, node, r.via) && r.via != r.dep && Reaches(g, r.via, r.dep)
  {
    if deps != [] {
      var last := deps[|deps| - 1];
      RedundantDepsIff(g, node, deps[..|deps| - 1], r);
      FilterMapMember(Already(g, node, last), Deps(g, node), r);
      assert deps == deps[..|deps| - 1] + [last];
      if r.node == node && r.dep == last && Edge(g, node, r.via) && r.via != r.dep && Reaches(g, r.via, r.dep) {
        assert Already(g, node, last)(r.via) == Some(r);
      }
    }
  }
}
