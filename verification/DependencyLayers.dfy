/** Layering a dependency graph: groups that may run side by side, and the cycle that stops the layering early. */
module DependencyLayers {
  import opened Collections
  import opened Ordering
  import opened ResourceSteps
  import opened DependencyGraph

  /** The remaining nodes none of whose dependencies remain. */
  ghost function Ready(g: Graph, remaining: set<Node>): set<Node> {
    set n | n in remaining && forall d :: d in Deps(g, n) ==> d !in remaining
  }

  /** What is left when no node is ready any more. */
  ghost function Stuck(g: Graph, remaining: set<Node>): set<Node>
    decreases |remaining|
  {
    if Ready(g, remaining) == {} then remaining
    else (Shrinks(g, remaining); Stuck(g, remaining - Ready(g, remaining)))
  }

  /** The layers, first to last. */
  ghost function Layers(g: Graph, remaining: set<Node>): seq<set<Node>>
    decreases |remaining|
  {
    if Ready(g, remaining) == {} then []
    else (Shrinks(g, remaining); [Ready(g, remaining)] + Layers(g, remaining - Ready(g, remaining)))
  }

  lemma Shrinks(g: Graph, remaining: set<Node>)
    requires Ready(g, remaining) != {}
    ensures |remaining - Ready(g, remaining)| < |remaining|
  {
    var rest := remaining - Ready(g, remaining);
    assert remaining == rest + Ready(g, remaining);
    assert |remaining| == |rest| + |Ready(g, remaining)|;
  }

  /** Layers of at least two nodes, each listed by id. */
  ghost function Groups(layers: seq<set<Node>>): seq<seq<Node>> {
    if layers == [] then [] else Group(layers[0]) + Groups(layers[1..])
  }

  ghost function Group(layer: set<Node>): seq<seq<Node>> {
    if |layer| > 1 then [Listing(layer)] else []
  }

  ghost function GroupsOf(g: Graph, remaining: set<Node>): seq<seq<Node>> {
    Groups(Layers(g, remaining))
  }

  lemma LayersUnfold(g: Graph, remaining: set<Node>) returns (ready: set<Node>, rest: set<Node>)
    requires Ready(g, remaining) != {}
    ensures ready == Ready(g, remaining) && rest == remaining - Ready(g, remaining) && |remaining| == |ready| + |rest|
    ensures ready != {} && ready <= remaining
    ensures Layers(g, remaining) == [ready] + Layers(g, rest) && Stuck(g, remaining) == Stuck(g, rest)
  {
    ready, rest := Ready(g, remaining), remaining - Ready(g, remaining);
    Shrinks(g, remaining);
    SizeSplit(remaining, ready);
  }

  lemma SizeSplit(all: set<Node>, part: set<Node>)
    requires part <= all
    ensures |all| == |part| + |all - part|
  {
    assert all == part + (all - part);
  }

  lemma GroupsUnfold(layer: set<Node>, layers: seq<set<Node>>)
    ensures Groups([layer] + layers) == Group(layer) + Groups(layers)
  {
    assert ([layer] + layers)[1..] == layers;
  }

  method ReadyNodes(g: Graph, remaining: set<Node>) returns (ready: set<Node>)
    ensures ready == Ready(g, remaining)
  {
    ready := {};
    var todo := remaining;
    while todo != {}
      invariant todo <= remaining
      invariant forall n :: n in ready <==> n in Ready(g, remaining) && n !in todo
    {
      var n :| n in todo;
      var deps := set d | d in Deps(g, n);
      if deps * remaining == {} {
        assert forall d :: d in Deps(g, n) ==> d in deps;
        ready := ready + {n};
      } else {
        ghost var d := Pick(deps * remaining);
        assert d in Deps(g, n) && d in remaining;
      }
      todo := todo - {n};
    }
  }

  method ListGroup(ready: set<Node>) returns (group: seq<seq<Node>>)
    ensures group == Group(ready)
  {
    if |ready| <= 1 {
      return [];
    }
    var listed := ListIds(ready);
    var sorted := SortIds(listed);
    group := [sorted];
  }

  lemma GroupsStep(g: Graph, remaining: set<Node>, ready: set<Node>, rest: set<Node>)
    requires ready == Ready(g, remaining) && ready != {} && rest == remaining - ready
    ensures GroupsOf(g, remaining) == Group(ready) + GroupsOf(g, rest)
    ensures Stuck(g, remaining) == Stuck(g, rest) && |rest| < |remaining|
  {
    var layer, left := LayersUnfold(g, remaining);
    GroupsUnfold(layer, Layers(g, left));
  }

  lemma NothingReady(g: Graph, remaining: set<Node>)
    requires Ready(g, remaining) == {}
    ensures GroupsOf(g, remaining) == [] && Stuck(g, remaining) == remaining
  {
  }

  /** The groups found so far and those still to come are all groups. */
  ghost predicate Found(g: Graph, allNodes: set<Node>, groups: seq<seq<Node>>, remaining: set<Node>) {
    GroupsOf(g, allNodes) == groups + GroupsOf(g, remaining) && Stuck(g, allNodes) == Stuck(g, remaining)
  }

  lemma FoundStep(g: Graph, allNodes: set<Node>, groups: seq<seq<Node>>, remaining: set<Node>, ready: set<Node>)
    requires Found(g, allNodes, groups, remaining) && ready == Ready(g, remaining) && ready != {}
    ensures Found(g, allNodes, groups + Group(ready), remaining - ready) && |remaining - ready| < |remaining|
  {
    GroupsStep(g, remaining, ready, remaining - ready);
    Regrouped(groups, Group(ready), GroupsOf(g, remaining - ready));
  }

  lemma Regrouped<T>(xs: seq<T>, ys: seq<T>, zs: seq<T>)
    ensures xs + (ys + zs) == xs + ys + zs
  {
  }

  lemma AllFound(g: Graph, allNodes: set<Node>, groups: seq<seq<Node>>, remaining: set<Node>)
    requires Found(g, allNodes, groups, remaining) && Ready(g, remaining) == {}
    ensures groups == GroupsOf(g, allNodes) && remaining == Stuck(g, allNodes)
  {
    NothingReady(g, remaining);
  }

  method FindParallelGroups(g: Graph, allNodes: set<Node>) returns (groups: seq<seq<Node>>, ghost left: set<Node>)
    ensures groups == GroupsOf(g, allNodes) && left == Stuck(g, allNodes)
  {
    groups := [];
    var remaining := allNodes;
    while remaining != {}
      invariant Found(g, allNodes, groups, remaining)
      decreases |remaining|
    {
      var ready := ReadyNodes(g, remaining);
      if ready == {} {
        break;
      }
      FoundStep(g, allNodes, groups, remaining, ready);
      var group := ListGroup(ready);
      groups := groups + group;
      remaining := remaining - ready;
    }
    assert Ready(g, remaining) == {};
    AllFound(g, allNodes, groups, remaining);
    left := remaining;
  }

  // ---- stopping early ----

  ghost predicate CycleWithin(g: Graph, nodes: set<Node>) {
    exists w :: CycleIn(g, nodes, w)
  }

  ghost predicate CycleIn(g: Graph, nodes: set<Node>, w: seq<Node>) {
    ClosedWalk(g, w) && forall n :: n in w ==> n in nodes
  }

  /** No node of a cycle is ever ready. */
  lemma {:induction false} CyclesStay(g: Graph, remaining: set<Node>, w: seq<Node>)
    requires CycleIn(g, remaining, w)
    ensures CycleIn(g, Stuck(g, remaining), w)
    decreases |remaining|
  {
    var ready := Ready(g, remaining);
    if ready != {} {
      Shrinks(g, remaining);
      forall n | n in w ensures n !in ready {
        var i :| 0 <= i < |w| && w[i] == n;
        var j := if i < |w| - 1 then i + 1 else 1;
        assert Edge(g, n, w[j]) && w[j] in w;
      }
      CyclesStay(g, remaining - ready, w);
    }
  }

  lemma {:induction false} StuckIsStuck(g: Graph, remaining: set<Node>)
    ensures Ready(g, Stuck(g, remaining)) == {} && Stuck(g, remaining) <= remaining
    decreases |remaining|
  {
    if Ready(g, remaining) != {} {
      Shrinks(g, remaining);
      StuckIsStuck(g, remaining - Ready(g, remaining));
    }
  }

  /** Where every node has a dependency that remains, one can walk on for ever, so some node repeats. */
  lemma {:induction false} LongWalk(g: Graph, stuck: set<Node>, length: nat) returns (w: seq<Node>)
    requires stuck != {} && Ready(g, stuck) == {} && length >= 1
    ensures |w| == length && IsWalk(g, w) && forall n :: n in w ==> n in stuck
  {
    if length == 1 {
      w := [Pick(stuck)];
    } else {
      var shorter := LongWalk(g, stuck, length - 1);
      var last := shorter[|shorter| - 1];
      assert last in shorter;
      assert last !in Ready(g, stuck);
      var d :| d in Deps(g, last) && d in stuck;
      w := shorter + [d];
      assert Edge(g, last, d);
    }
  }

  lemma {:induction false} SomeRepeat(w: seq<Node>, nodes: set<Node>) returns (i: nat, j: nat)
    requires |w| > |nodes| && forall n :: n in w ==> n in nodes
    ensures i < j < |w| && w[i] == w[j]
  {
    var init, last := w[..|w| - 1], w[|w| - 1];
    if last in init {
      i :| 0 <= i < |init| && init[i] == last;
      j := |w| - 1;
    } else {
      assert last in w;
      forall n | n in init ensures n in nodes - {last} { assert n in w; }
      i, j := SomeRepeat(init, nodes - {last});
    }
  }

  lemma StuckHoldsCycle(g: Graph, stuck: set<Node>)
    requires stuck != {} && Ready(g, stuck) == {}
    ensures CycleWithin(g, stuck)
  {
    var w := LongWalk(g, stuck, |stuck| + 1);
    var i, j := SomeRepeat(w, stuck);
    var loop := w[i..j + 1];
    forall k | 0 <= k < |loop| - 1 ensures Edge(g, loop[k], loop[k + 1]) { assert loop[k] == w[i + k] && loop[k + 1] == w[i + k + 1]; }
    forall n | n in loop ensures n in stuck { assert n in w; }
    assert CycleIn(g, stuck, loop);
  }

  /** The layering stops with nodes left over exactly when there is a cycle among the nodes, and then the cycle is left over. */
  lemma StopsEarlyIffCycle(g: Graph, all: set<Node>)
    ensures Stuck(g, all) != {} <==> CycleWithin(g, all)
    ensures forall w :: CycleIn(g, all, w) <==> CycleIn(g, Stuck(g, all), w)
  {
    StuckIsStuck(g, all);
    forall w | CycleIn(g, all, w) ensures CycleIn(g, Stuck(g, all), w) && Stuck(g, all) != {} {
      CyclesStay(g, all, w);
      assert w[0] in w;
    }
    if Stuck(g, all) != {} {
      StuckHoldsCycle(g, Stuck(g, all));
      var w :| CycleIn(g, Stuck(g, all), w);
      assert CycleIn(g, all, w);
    }
  }

  ghost function Covered(layers: seq<set<Node>>): set<Node> {
    if layers == [] then {} else layers[0] + Covered(layers[1..])
  }

  ghost function TotalSize(layers: seq<set<Node>>): nat {
    if layers == [] then 0 else |layers[0]| + TotalSize(layers[1..])
  }

  lemma CoveredUnfold(layer: set<Node>, layers: seq<set<Node>>)
    ensures Covered([layer] + layers) == layer + Covered(layers)
    ensures TotalSize([layer] + layers) == |layer| + TotalSize(layers)
  {
    assert ([layer] + layers)[1..] == layers;
  }

  lemma UnionStep(remaining: set<Node>, ready: set<Node>, covered: set<Node>, stuck: set<Node>)
    requires ready <= remaining && remaining - ready == covered + stuck
    ensures remaining == ready + covered + stuck
  {
    forall n ensures n in remaining <==> n in ready + covered + stuck { assert n in remaining - ready <==> n in covered + stuck; }
  }

  ghost predicate Partitioned(remaining: set<Node>, layers: seq<set<Node>>, stuck: set<Node>) {
    remaining == Covered(layers) + stuck && |remaining| == TotalSize(layers) + |stuck|
  }

  lemma PartitionStep(remaining: set<Node>, ready: set<Node>, layers: seq<set<Node>>, stuck: set<Node>)
    requires ready <= remaining && Partitioned(remaining - ready, layers, stuck)
    ensures Partitioned(remaining, [ready] + layers, stuck)
  {
    CoveredUnfold(ready, layers);
    SizeSplit(remaining, ready);
    UnionStep(remaining, ready, Covered(layers), stuck);
  }

  lemma NothingLayered(remaining: set<Node>)
    ensures Partitioned(remaining, [], remaining)
  {
    assert Covered([]) == {};
    assert {} + remaining == remaining;
  }

  /** Layers and left-overs together are the nodes, each exactly once. */
  lemma {:induction false} LayersPartition(g: Graph, remaining: set<Node>)
    ensures Partitioned(remaining, Layers(g, remaining), Stuck(g, remaining))
    decreases |remaining|
  {
    if Ready(g, remaining) == {} {
      NothingLayered(remaining);
    } else {
      var ready, rest := LayersUnfold(g, remaining);
      assert |ready| > 0;
      LayersPartition(g, rest);
      PartitionStep(remaining, ready, Layers(g, rest), Stuck(g, rest));
    }
  }
}
