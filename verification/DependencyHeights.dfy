/** Which node sets the layering treats as promised: an exact condition on the dependencies that run through other nodes. */
module DependencyHeights {
  import opened Collections
  import opened Ordering
  import opened DependencyGraph
  import opened DependencyLayers

  /** A walk of k steps that stays among the nodes starts here. */
  ghost predicate Tall(g: Graph, all: set<Node>, n: Node, k: nat)
    decreases k
  {
    n in all && (k == 0 || exists d :: Edge(g, n, d) && Tall(g, all, d, k - 1))
  }

  /** The length of the longest walk from a node that stays among the nodes, as far as there can be one without a cycle. */
  ghost function Height(g: Graph, all: set<Node>, n: Node): nat {
    Tallest(g, all, n, |all|)
  }

  ghost function Tallest(g: Graph, all: set<Node>, n: Node, most: nat): nat {
    if most == 0 || Tall(g, all, n, most) then most else Tallest(g, all, n, most - 1)
  }

  /** A walk of at least two steps that leaves the nodes at once and comes back only at its end. */
  ghost predicate HiddenHop(g: Graph, all: set<Node>, w: seq<Node>) {
    |w| >= 3 && IsWalk(g, w) && w[0] in all && w[|w| - 1] in all && forall i :: 0 < i < |w| - 1 ==> w[i] !in all
  }

  ghost predicate HopsDescend(g: Graph, all: set<Node>) {
    forall w :: HiddenHop(g, all, w) ==> Height(g, all, w[|w| - 1]) < Height(g, all, w[0])
  }

  /** No node of a layer depends, however indirectly, on a node of the same layer. */
  ghost predicate LayersIndependent(g: Graph, all: set<Node>) {
    forall i, x, y :: 0 <= i < |Layers(g, all)| && x in Layers(g, all)[i] && y in Layers(g, all)[i] ==> !Reaches(g, x, y)
  }

  // ---- layers are heights ----

  lemma {:induction false} TallerIsTall(g: Graph, all: set<Node>, n: Node, k: nat, j: nat)
    requires Tall(g, all, n, k) && j <= k
    ensures Tall(g, all, n, j)
    decreases k
  {
    if j > 0 {
      var d :| Edge(g, n, d) && Tall(g, all, d, k - 1);
      TallerIsTall(g, all, d, k - 1, j - 1);
    }
  }

  /** What remains are the nodes from which k steps can be walked. */
  ghost predicate AtLeast(g: Graph, all: set<Node>, k: nat, remaining: set<Node>) {
    forall n :: n in remaining <==> Tall(g, all, n, k)
  }

  /** The ready nodes are those of height k exactly, and without them the taller ones remain. */
  lemma ReadyAtHeight(g: Graph, all: set<Node>, k: nat, remaining: set<Node>)
    requires AtLeast(g, all, k, remaining)
    ensures forall n :: n in Ready(g, remaining) <==> n in remaining && !Tall(g, all, n, k + 1)
    ensures AtLeast(g, all, k + 1, remaining - Ready(g, remaining))
  {
    forall n
      ensures Tall(g, all, n, k + 1) ==> n in remaining
      ensures n in remaining ==> (n in Ready(g, remaining) <==> !Tall(g, all, n, k + 1))
    {
      TallStep(g, all, n, k, remaining);
    }
  }

  lemma TallStep(g: Graph, all: set<Node>, n: Node, k: nat, remaining: set<Node>)
    requires AtLeast(g, all, k, remaining)
    ensures Tall(g, all, n, k + 1) ==> n in remaining
    ensures n in remaining ==> (Tall(g, all, n, k + 1) <==> exists d :: d in Deps(g, n) && d in remaining)
  {
    if Tall(g, all, n, k + 1) {
      TallerIsTall(g, all, n, k + 1, k);
      var d :| Edge(g, n, d) && Tall(g, all, d, k);
      assert d in Deps(g, n);
    } else if n in remaining {
      assert n in all;
      forall d | d in Deps(g, n) ensures d !in remaining { assert Edge(g, n, d); }
    }
  }

  /** What remains after some layers. */
  ghost function Rest(g: Graph, remaining: set<Node>, i: nat): set<Node> {
    if i == 0 then remaining else Rest(g, remaining - Ready(g, remaining), i - 1)
  }

  lemma {:induction false} RestAtLeast(g: Graph, all: set<Node>, k: nat, remaining: set<Node>, i: nat)
    requires AtLeast(g, all, k, remaining)
    ensures AtLeast(g, all, k + i, Rest(g, remaining, i))
    decreases i
  {
    if i > 0 {
      ReadyAtHeight(g, all, k, remaining);
      RestAtLeast(g, all, k + 1, remaining - Ready(g, remaining), i - 1);
    }
  }

  lemma {:induction false} LayerIsRest(g: Graph, remaining: set<Node>, i: nat)
    requires i < |Layers(g, remaining)|
    ensures Layers(g, remaining)[i] == Ready(g, Rest(g, remaining, i)) && i < |remaining|
    decreases i
  {
    var ready, rest := LayersUnfold(g, remaining);
    if i > 0 { LayerIsRest(g, rest, i - 1); }
  }

  /** Where nothing is left over, every node is in some layer. */
  lemma {:induction false} LayerOf(g: Graph, remaining: set<Node>, n: Node) returns (i: nat)
    requires Stuck(g, remaining) == {} && n in remaining
    ensures i < |Layers(g, remaining)| && n in Layers(g, remaining)[i]
    decreases |remaining|
  {
    var ready, rest := LayersUnfold(g, remaining);
    if n in ready {
      i := 0;
    } else {
      var j := LayerOf(g, rest, n);
      i := j + 1;
    }
  }

  lemma HeightOfLayer(g: Graph, all: set<Node>, i: nat, n: Node)
    requires i < |Layers(g, all)| && n in Layers(g, all)[i]
    ensures Tall(g, all, n, i) && !Tall(g, all, n, i + 1) && i < |all|
  {
    LayerIsRest(g, all, i);
    assert AtLeast(g, all, 0, all);
    RestAtLeast(g, all, 0, all, i);
    ReadyAtHeight(g, all, i, Rest(g, all, i));
  }

  lemma {:induction false} TallestIs(g: Graph, all: set<Node>, n: Node, most: nat, h: nat)
    requires Tall(g, all, n, h) && !Tall(g, all, n, h + 1) && h <= most
    ensures Tallest(g, all, n, most) == h
  {
    if h < most {
      if Tall(g, all, n, most) { TallerIsTall(g, all, n, most, h + 1); }
      TallestIs(g, all, n, most - 1, h);
    }
  }

  /** Where nothing is left over, every node is listed in the layer of its height and in no other. */
  lemma HeightIsLayer(g: Graph, all: set<Node>, n: Node)
    requires Stuck(g, all) == {} && n in all
    ensures Height(g, all, n) < |Layers(g, all)| && Height(g, all, n) < |all|
    ensures forall i :: 0 <= i < |Layers(g, all)| ==> (n in Layers(g, all)[i] <==> i == Height(g, all, n))
    ensures Tall(g, all, n, Height(g, all, n)) && !Tall(g, all, n, Height(g, all, n) + 1)
  {
    var h := LayerOf(g, all, n);
    forall i: nat | i < |Layers(g, all)| && n in Layers(g, all)[i] ensures i == Height(g, all, n) {
      HeightOfLayer(g, all, i, n);
      TallestIs(g, all, n, |all|, i);
    }
    HeightOfLayer(g, all, h, n);
  }

  // ---- hops that descend keep the layers independent ----

  lemma HeightIs(g: Graph, all: set<Node>, n: Node)
    requires Stuck(g, all) == {} && n in all
    ensures Tall(g, all, n, Height(g, all, n)) && !Tall(g, all, n, Height(g, all, n) + 1)
  {
    HeightIsLayer(g, all, n);
  }

  lemma OneStepTaller(g: Graph, all: set<Node>, a: Node, b: Node, low: nat, high: nat)
    requires a in all && Edge(g, a, b) && Tall(g, all, b, low) && !Tall(g, all, a, high + 1)
    ensures low < high
  {
    assert Tall(g, all, a, low + 1);
    if high <= low { TallerIsTall(g, all, a, low + 1, high + 1); }
  }

  lemma StepDescends(g: Graph, all: set<Node>, a: Node, b: Node)
    requires Stuck(g, all) == {} && a in all && b in all && Edge(g, a, b)
    ensures Height(g, all, b) < Height(g, all, a)
  {
    HeightIs(g, all, a);
    HeightIs(g, all, b);
    OneStepTaller(g, all, a, b, Height(g, all, b), Height(g, all, a));
  }

  /** Where a walk first comes back to the nodes. */
  lemma FirstReturn(all: set<Node>, w: seq<Node>) returns (k: nat)
    requires |w| >= 2 && w[|w| - 1] in all
    ensures 0 < k < |w| && w[k] in all && forall i :: 0 < i < k ==> w[i] !in all
  {
    k := 1;
    while w[k] !in all
      invariant 0 < k < |w| && forall i :: 0 < i < k ==> w[i] !in all
      decreases |w| - k
    {
      k := k + 1;
    }
  }

  lemma {:induction false} WalksDescend(g: Graph, all: set<Node>, w: seq<Node>)
    requires Stuck(g, all) == {} && HopsDescend(g, all)
    requires |w| >= 2 && IsWalk(g, w) && w[0] in all && w[|w| - 1] in all
    ensures Height(g, all, w[|w| - 1]) < Height(g, all, w[0])
    decreases |w|
  {
    var k := FirstReturn(all, w);
    if k == 1 {
      StepDescends(g, all, w[0], w[1]);
    } else {
      assert HiddenHop(g, all, w[..k + 1]);
    }
    if k < |w| - 1 { WalksDescend(g, all, w[k..]); }
  }

  // ---- a hop that does not descend makes a layer depend on itself ----

  /** From a node one can walk down to every smaller height. */
  lemma {:induction false} WalkDown(g: Graph, all: set<Node>, n: Node, h: nat, k: nat) returns (w: seq<Node>)
    requires Tall(g, all, n, h) && !Tall(g, all, n, h + 1) && k <= h
    ensures |w| >= 1 && IsWalk(g, w) && w[0] == n
    ensures Tall(g, all, w[|w| - 1], k) && !Tall(g, all, w[|w| - 1], k + 1)
    decreases h
  {
    if h == k {
      w := [n];
    } else {
      var d :| Edge(g, n, d) && Tall(g, all, d, h - 1);
      var rest := WalkDown(g, all, d, h - 1, k);
      w := [n] + rest;
    }
  }

  lemma WalksJoin(g: Graph, v: seq<Node>, w: seq<Node>)
    requires |v| >= 1 && |w| >= 1 && IsWalk(g, v) && IsWalk(g, w) && v[|v| - 1] == w[0]
    ensures IsWalk(g, v + w[1..])
  {
    var vw := v + w[1..];
    forall i | 0 <= i < |vw| - 1 ensures Edge(g, vw[i], vw[i + 1]) {
      if i >= |v| - 1 { assert vw[i] == w[i - |v| + 1] && vw[i + 1] == w[i - |v| + 2]; }
    }
  }

  lemma LayerMeets(g: Graph, all: set<Node>, i: int, x: Node, y: Node)
    requires 0 <= i < |Layers(g, all)| && x in Layers(g, all)[i] && y in Layers(g, all)[i] && Reaches(g, x, y)
    ensures !LayersIndependent(g, all)
  {
  }

  lemma LevelHopMeetsLayer(g: Graph, all: set<Node>, hop: seq<Node>)
    requires Stuck(g, all) == {} && HiddenHop(g, all, hop) && Height(g, all, hop[0]) <= Height(g, all, hop[|hop| - 1])
    ensures !LayersIndependent(g, all)
  {
    var a, b := hop[0], hop[|hop| - 1];
    HeightIsLayer(g, all, a);
    HeightIsLayer(g, all, b);
    var i := Height(g, all, a);
    var down := WalkDown(g, all, b, Height(g, all, b), i);
    var y := down[|down| - 1];
    HeightIsLayer(g, all, y);
    TallestIs(g, all, y, |all|, i);
    WalksJoin(g, hop, down);
    assert WalkFrom(g, a, y, hop + down[1..]);
    LayerMeets(g, all, i, a, y);
  }

  lemma IndependentExactlyAcyclic(g: Graph, all: set<Node>)
    requires Stuck(g, all) == {}
    ensures LayersIndependent(g, all) <==> HopsDescend(g, all)
  {
    if HopsDescend(g, all) {
      forall i, x, y | 0 <= i < |Layers(g, all)| && x in Layers(g, all)[i] && y in Layers(g, all)[i]
        ensures !Reaches(g, x, y)
      {
        LayersPartition(g, all);
        LayerCovered(Layers(g, all), i, x);
        LayerCovered(Layers(g, all), i, y);
        HeightIsLayer(g, all, x);
        HeightIsLayer(g, all, y);
        forall w ensures !WalkFrom(g, x, y, w) {
          if WalkFrom(g, x, y, w) { WalksDescend(g, all, w); }
        }
      }
    }
    if LayersIndependent(g, all) {
      forall w | HiddenHop(g, all, w) ensures Height(g, all, w[|w| - 1]) < Height(g, all, w[0]) {
        if Height(g, all, w[0]) <= Height(g, all, w[|w| - 1]) { LevelHopMeetsLayer(g, all, w); }
      }
    }
  }

  lemma {:induction false} LayerCovered(layers: seq<set<Node>>, i: nat, n: Node)
    requires i < |layers| && n in layers[i]
    ensures n in Covered(layers)
  {
    if i > 0 { LayerCovered(layers[1..], i - 1, n); }
  }

  // ---- nodes left over on a cycle take no part ----

  /** A node that depends on a left-over node is left over. */
  lemma {:induction false} StuckSpreads(g: Graph, remaining: set<Node>, n: Node, d: Node)
    requires n in remaining && Edge(g, n, d) && d in Stuck(g, remaining)
    ensures n in Stuck(g, remaining)
    decreases |remaining|
  {
    if Ready(g, remaining) != {} {
      var ready, rest := LayersUnfold(g, remaining);
      StuckIsStuck(g, rest);
      StuckSpreads(g, rest, n, d);
    }
  }

  ghost function Layered(g: Graph, remaining: set<Node>): set<Node> {
    remaining - Stuck(g, remaining)
  }

  lemma ReadyWithoutStuck(g: Graph, remaining: set<Node>)
    requires Ready(g, remaining) != {}
    ensures Ready(g, Layered(g, remaining)) == Ready(g, remaining)
    ensures Layered(g, remaining) - Ready(g, remaining) == Layered(g, remaining - Ready(g, remaining))
  {
    var ready, rest := LayersUnfold(g, remaining);
    StuckIsStuck(g, rest);
    forall n | n in Ready(g, Layered(g, remaining)) ensures n in ready {
      forall d | d in Deps(g, n) ensures d !in remaining {
        if d in remaining { StuckSpreads(g, remaining, n, d); }
      }
    }
    forall n | n in ready ensures n in Ready(g, Layered(g, remaining)) { }
  }

  /** The layering is that of the nodes it does not leave over. */
  lemma {:induction false} LayersWithoutStuck(g: Graph, remaining: set<Node>)
    ensures Layers(g, Layered(g, remaining)) == Layers(g, remaining) && Stuck(g, Layered(g, remaining)) == {}
    decreases |remaining|
  {
    if Ready(g, remaining) == {} {
      assert Layered(g, remaining) == {};
    } else {
      var ready, rest := LayersUnfold(g, remaining);
      LayersWithoutStuck(g, rest);
      ReadyWithoutStuck(g, remaining);
      SameUnfold(g, remaining, Layered(g, remaining), Layered(g, rest));
    }
  }

  lemma SameUnfold(g: Graph, remaining: set<Node>, layered: set<Node>, layeredRest: set<Node>)
    requires Ready(g, remaining) != {} && Ready(g, layered) == Ready(g, remaining)
    requires layered - Ready(g, remaining) == layeredRest && Stuck(g, layeredRest) == {}
    requires Layers(g, layeredRest) == Layers(g, remaining - Ready(g, remaining))
    ensures Layers(g, layered) == Layers(g, remaining) && Stuck(g, layered) == {}
  {
    var ready, rest := LayersUnfold(g, remaining);
    var same, less := LayersUnfold(g, layered);
  }

  /**
   * The layers are free of dependencies among their own nodes exactly when every dependency that runs through nodes
   * outside the layering leads from a taller node to a lower one.
   */
  lemma LayersIndependentIff(g: Graph, all: set<Node>)
    ensures LayersIndependent(g, all) <==> HopsDescend(g, Layered(g, all))
    ensures !CycleWithin(g, all) ==> (LayersIndependent(g, all) <==> HopsDescend(g, all))
  {
    LayersWithoutStuck(g, all);
    IndependentExactlyAcyclic(g, Layered(g, all));
    StopsEarlyIffCycle(g, all);
    assert !CycleWithin(g, all) ==> Layered(g, all) == all;
  }

  // ---- the reported groups ----

  lemma {:induction false} GroupIsLayer(layers: seq<set<Node>>, group: seq<Node>) returns (i: nat)
    requires group in Groups(layers)
    ensures i < |layers| && group == Listing(layers[i]) && |layers[i]| > 1
  {
    if |layers[0]| > 1 && group == Listing(layers[0]) {
      i := 0;
    } else {
      var j := GroupIsLayer(layers[1..], group);
      i := j + 1;
    }
  }

  /** Where hidden dependencies lead down, no member of a reported group depends on another, however indirectly. */
  lemma DescendingGroups(g: Graph, all: set<Node>, group: seq<Node>, x: Node, y: Node)
    requires HopsDescend(g, Layered(g, all)) && group in GroupsOf(g, all) && x in group && y in group
    ensures !Reaches(g, x, y)
  {
    var i := GroupIsLayer(Layers(g, all), group);
    ListingSorted(Layers(g, all)[i]);
    assert x in Elements(group) && y in Elements(group);
    LayersIndependentIff(g, all);
  }

  /** Dependencies of the nodes are again among the nodes. */
  ghost predicate DependencyClosed(g: Graph, nodes: set<Node>) {
    LeadsInto(g, nodes, nodes)
  }

  lemma ClosedHidesNothing(g: Graph, all: set<Node>, w: seq<Node>)
    requires DependencyClosed(g, all)
    ensures !HiddenHop(g, Layered(g, all), w)
  {
    if HiddenHop(g, Layered(g, all), w) {
      assert Edge(g, w[0], w[1]) && w[1] in all;
      StuckSpreads(g, all, w[0], w[1]);
    }
  }

  /** In a dependency-closed set of nodes, cycles or not, the promise holds of every group. */
  lemma GroupsAreIndependent(g: Graph, all: set<Node>, group: seq<Node>, x: Node, y: Node)
    requires DependencyClosed(g, all) && group in GroupsOf(g, all) && x in group && y in group
    ensures !Reaches(g, x, y)
  {
    forall w ensures !HiddenHop(g, Layered(g, all), w) { ClosedHidesNothing(g, all, w); }
    DescendingGroups(g, all, group, x, y);
  }

  // ---- a promise broken ----

  const HIDDEN: Graph := map["a" := ["x"], "x" := ["b"]]

  lemma HiddenWalk()
    ensures Reaches(HIDDEN, "a", "b") && Ready(HIDDEN, {"a", "b"}) == {"a", "b"}
  {
    assert Edge(HIDDEN, "a", "x") && Edge(HIDDEN, "x", "b");
    assert WalkFrom(HIDDEN, "a", "b", ["a", "x", "b"]);
  }

  lemma OneLayer(g: Graph, all: set<Node>)
    requires all != {} && Ready(g, all) == all
    ensures Layers(g, all) == [all] && Stuck(g, all) == {} && GroupsOf(g, all) == Group(all)
  {
    var ready, rest := LayersUnfold(g, all);
    assert rest == {} && Layers(g, rest) == [];
    GroupsUnfold(all, []);
  }

  lemma ListingOfTwo()
    ensures Group({"a", "b"}) == [["a", "b"]]
  {
    assert SortedBy(STRING_ORDER, ["a", "b"]);
    ListingUnique({"a", "b"}, ["a", "b"]);
    assert |{"a", "b"}| == 2;
  }

  /** A node set that hides a dependency through an unlisted node gets the two ends reported as one independent group. */
  lemma OpenSetsHideDependencies()
    ensures ["a", "b"] in GroupsOf(HIDDEN, {"a", "b"}) && Reaches(HIDDEN, "a", "b") && !HopsDescend(HIDDEN, {"a", "b"})
  {
    HiddenWalk();
    OneLayer(HIDDEN, {"a", "b"});
    ListingOfTwo();
    OneLayerMeets(HIDDEN, {"a", "b"}, "a", "b");
  }

  lemma OneLayerMeets(g: Graph, all: set<Node>, x: Node, y: Node)
    requires Layers(g, all) == [all] && Stuck(g, all) == {} && x in all && y in all && Reaches(g, x, y)
    ensures !HopsDescend(g, all)
  {
    LayerMeets(g, all, 0, x, y);
    IndependentExactlyAcyclic(g, all);
  }
}
