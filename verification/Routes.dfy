/** Land routes between two players' cities: what one is, and the breadth-first search for one. */
module Routes {
  import opened Collections
  import opened Domain
  import opened Phases
  import opened ResourceSteps
  import opened SiegeSteps

  predicate UsesMode(mode: Option<Traversal>, e: Edge) {
    mode == None || mode == Some(e.traversal)
  }

  function InMode(mode: Option<Traversal>): Edge -> bool {
    (e: Edge) => UsesMode(mode, e)
  }

  /** Two cities joined by an edge of the given kind, or of any kind. */
  ghost predicate Connected(m: MapDefinition, mode: Option<Traversal>, a: CityId, b: CityId) {
    AdjacentBy(Filter(InMode(mode), m.edges), a, b)
  }

  lemma ConnectedSymmetric(m: MapDefinition, mode: Option<Traversal>, a: CityId, b: CityId)
    ensures Connected(m, mode, a, b) <==> Connected(m, mode, b, a)
  {
  }

  lemma ConnectedAnyMode(m: MapDefinition, a: CityId, b: CityId)
    ensures Connected(m, None, a, b) <==> Adjacent(m, a, b)
  {
    FilterAll(InMode(None), m.edges);
  }

  ghost function OwnersOnRoute(s: Snapshot, p: PlayerId, q: PlayerId): set<PlayerId>
    requires p in s.players && q in s.players
  {
    {p, q} + set r | r in s.players && s.players[p].allianceId.Some?
      && s.players[p].allianceId == s.players[q].allianceId && s.players[r].allianceId == s.players[p].allianceId
  }

  ghost predicate OnRoute(s: Snapshot, p: PlayerId, q: PlayerId, c: CityId)
    requires p in s.players && q in s.players
  {
    c in s.cities && s.cities[c].owner.Some? && s.cities[c].owner.value in OwnersOnRoute(s, p, q)
  }

  ghost predicate RouteStep(m: MapDefinition, path: seq<CityId>, i: nat)
    requires i + 1 < |path|
  {
    Connected(m, Some(Land), path[i], path[i + 1])
  }

  /** A walk over land roads, through friendly cities only, from a city of p. */
  ghost predicate WalkFrom(s: Snapshot, m: MapDefinition, p: PlayerId, q: PlayerId, path: seq<CityId>)
    requires p in s.players && q in s.players
  {
    && path != [] && path[0] in OwnedCities(s.cities, p)
    && (forall c :: c in path ==> OnRoute(s, p, q, c))
    && (forall i :: 0 <= i < |path| - 1 ==> RouteStep(m, path, i))
  }

  ghost predicate Route(s: Snapshot, m: MapDefinition, p: PlayerId, q: PlayerId, path: seq<CityId>)
    requires p in s.players && q in s.players
  {
    WalkFrom(s, m, p, q, path) && path[|path| - 1] in OwnedCities(s.cities, q)
  }

  ghost predicate LandRoute(s: Snapshot, m: MapDefinition, p: PlayerId, q: PlayerId)
    requires p in s.players && q in s.players
  {
    exists path :: Route(s, m, p, q, path)
  }

  // ---- the answer does not depend on who sends ----

  function Reversed<T>(xs: seq<T>): (r: seq<T>)
    ensures |r| == |xs| && forall i :: 0 <= i < |xs| ==> r[i] == xs[|xs| - 1 - i]
  {
    seq(|xs|, i requires 0 <= i < |xs| => xs[|xs| - 1 - i])
  }

  lemma RouteReversed(s: Snapshot, m: MapDefinition, p: PlayerId, q: PlayerId, path: seq<CityId>)
    requires p in s.players && q in s.players && Route(s, m, p, q, path)
    ensures Route(s, m, q, p, Reversed(path))
  {
    var back := Reversed(path);
    assert OwnersOnRoute(s, q, p) == OwnersOnRoute(s, p, q);
    forall c | c in back ensures OnRoute(s, q, p, c) {
      var i :| 0 <= i < |back| && back[i] == c;
      assert path[|path| - 1 - i] in path;
    }
    forall i | 0 <= i < |back| - 1 ensures RouteStep(m, back, i) {
      assert RouteStep(m, path, |path| - 2 - i);
      ConnectedSymmetric(m, Some(Land), back[i], back[i + 1]);
    }
  }

  lemma LandRouteSymmetric(s: Snapshot, m: MapDefinition, p: PlayerId, q: PlayerId)
    requires p in s.players && q in s.players
    ensures LandRoute(s, m, p, q) <==> LandRoute(s, m, q, p)
  {
    if LandRoute(s, m, p, q) {
      var path :| Route(s, m, p, q, path);
      RouteReversed(s, m, p, q, path);
    }
    if LandRoute(s, m, q, p) {
      var path :| Route(s, m, q, p, path);
      RouteReversed(s, m, q, p, path);
    }
  }

  // ---- the adjacency index ----

  method BuildAdjacencyIndex(m: MapDefinition, mode: Option<Traversal>) returns (index: map<CityId, set<CityId>>)
    ensures forall a, b :: Linked(index, a, b) <==> Connected(m, mode, a, b)
  {
    index := map c | c in m.cities :: {};
    var i := 0;
    while i < |m.edges|
      invariant 0 <= i <= |m.edges|
      invariant forall a, b :: Linked(index, a, b) <==> AdjacentBy(Filter(InMode(mode), m.edges[..i]), a, b)
    {
      var e := m.edges[i];
      FilterStep(InMode(mode), m.edges, i);
      if UsesMode(mode, e) {
        var halfway := Link(index, e.cityA, e.cityB);
        var linked := Link(halfway, e.cityB, e.cityA);
        forall a, b ensures Linked(linked, a, b) <==> AdjacentBy(Filter(InMode(mode), m.edges[..i + 1]), a, b) {
          AdjacentByAppend(Filter(InMode(mode), m.edges[..i]), e, a, b);
          assert Linked(halfway, a, b) <==> Linked(index, a, b) || (a == e.cityA && b == e.cityB);
        }
        index := linked;
      }
      i := i + 1;
    }
    assert m.edges[..i] == m.edges;
  }

  lemma AdjacentByAppend(edges: seq<Edge>, e: Edge, a: CityId, b: CityId)
    ensures AdjacentBy(edges + [e], a, b) <==> AdjacentBy(edges, a, b) || Joins(e, a, b)
  {
    if Joins(e, a, b) { assert e in edges + [e]; }
    forall x | x in edges && Joins(x, a, b) ensures AdjacentBy(edges + [e], a, b) { assert x in edges + [e]; }
  }

  // ---- the search ----

  /** Some walk from the sender's cities ends in c. */
  ghost predicate Reached(s: Snapshot, m: MapDefinition, p: PlayerId, q: PlayerId, c: CityId)
    requires p in s.players && q in s.players
  {
    exists path :: WalkFrom(s, m, p, q, path) && path[|path| - 1] == c
  }

  lemma ReachedStart(s: Snapshot, m: MapDefinition, p: PlayerId, q: PlayerId, c: CityId)
    requires p in s.players && q in s.players && c in OwnedCities(s.cities, p)
    ensures Reached(s, m, p, q, c) && OnRoute(s, p, q, c)
  {
    assert WalkFrom(s, m, p, q, [c]);
  }

  lemma ReachedNext(s: Snapshot, m: MapDefinition, p: PlayerId, q: PlayerId, c: CityId, n: CityId)
    requires p in s.players && q in s.players && Reached(s, m, p, q, c)
    requires Connected(m, Some(Land), c, n) && OnRoute(s, p, q, n)
    ensures Reached(s, m, p, q, n)
  {
    var path :| WalkFrom(s, m, p, q, path) && path[|path| - 1] == c;
    var longer := path + [n];
    forall i | 0 <= i < |longer| - 1 ensures RouteStep(m, longer, i) {
      if i < |path| - 1 { assert RouteStep(m, path, i); }
    }
    assert WalkFrom(s, m, p, q, longer);
  }

  /** A set that holds the sender's cities and is closed under friendly land roads holds every walk. */
  lemma {:induction false} WalkStaysInside(s: Snapshot, m: MapDefinition, p: PlayerId, q: PlayerId, path: seq<CityId>, visited: set<CityId>, i: nat)
    requires p in s.players && q in s.players && WalkFrom(s, m, p, q, path) && i < |path|
    requires OwnedCities(s.cities, p) <= visited
    requires forall c, n :: c in visited && Connected(m, Some(Land), c, n) && OnRoute(s, p, q, n) ==> n in visited
    ensures path[i] in visited
  {
    if i > 0 {
      WalkStaysInside(s, m, p, q, path, visited, i - 1);
      assert RouteStep(m, path, i - 1);
      assert OnRoute(s, p, q, path[i]);
    }
  }

  /** Who may be crossed: both ends, and the whole alliance when they share one. */
  method ConnectedRouteOwnerIds(s: Snapshot, p: PlayerId, q: PlayerId) returns (owners: set<PlayerId>)
    requires p in s.players && q in s.players
    ensures owners == OwnersOnRoute(s, p, q)
  {
    owners := {p, q};
    if s.players[p].allianceId.Some? && s.players[p].allianceId == s.players[q].allianceId {
      owners := owners + set r | r in s.players && s.players[r].allianceId == s.players[p].allianceId;
    }
  }

  /** What the search has established: everything visited is reached, everything expanded is closed. */
  ghost predicate SearchState(s: Snapshot, m: MapDefinition, p: PlayerId, q: PlayerId, queue: seq<CityId>, visited: set<CityId>)
    requires p in s.players && q in s.players
  {
    && OwnedCities(s.cities, p) <= visited
    && (forall c :: c in visited ==> OnRoute(s, p, q, c) && Reached(s, m, p, q, c))
    && (forall c :: c in queue ==> c in visited)
    && (forall c, n :: c in visited && c !in queue && Connected(m, Some(Land), c, n) && OnRoute(s, p, q, n) ==> n in visited)
    && (forall c :: c in visited && c !in queue ==> c !in OwnedCities(s.cities, q))
  }

  method HasConnectedLandRoute(s: Snapshot, m: MapDefinition, p: PlayerId, q: PlayerId, index: map<CityId, set<CityId>>)
    returns (found: bool)
    requires p in s.players && q in s.players
    requires forall a, b :: Linked(index, a, b) <==> Connected(m, Some(Land), a, b)
    ensures found <==> LandRoute(s, m, p, q)
  {
    var senderCities := set c | c in s.cities && s.cities[c].owner == Some(p);
    var recipientCities := set c | c in s.cities && s.cities[c].owner == Some(q);
    if senderCities == {} || recipientCities == {} {
      return false;
    }
    var owners := ConnectedRouteOwnerIds(s, p, q);
    var traversable := set c | c in s.cities && s.cities[c].owner.Some? && s.cities[c].owner.value in owners;
    found := Search(s, m, p, q, senderCities * traversable, recipientCities * traversable, traversable, index);
  }

  /** Breadth-first search from the starting cities to any goal, through traversable cities only. */
  method Search(s: Snapshot, m: MapDefinition, p: PlayerId, q: PlayerId, starts: set<CityId>, goals: set<CityId>,
                traversable: set<CityId>, index: map<CityId, set<CityId>>)
    returns (found: bool)
    requires p in s.players && q in s.players
    requires forall a, b :: Linked(index, a, b) <==> Connected(m, Some(Land), a, b)
    requires starts == OwnedCities(s.cities, p) && goals == OwnedCities(s.cities, q) && starts <= traversable
    requires forall c :: c in traversable <==> OnRoute(s, p, q, c)
    ensures found <==> LandRoute(s, m, p, q)
  {
    var queue := ListIds(starts);
    var visited := starts;
    forall c ensures c in queue <==> c in starts { assert c in queue <==> c in Elements(queue); }
    SearchStarts(s, m, p, q, queue, visited);
    while queue != []
      invariant visited <= traversable
      invariant SearchState(s, m, p, q, queue, visited)
      decreases traversable - visited, |queue|
    {
      var c := queue[0];
      if c in goals {
        RouteFound(s, m, p, q, c);
        return true;
      }
      queue, visited := Expand(s, m, p, q, queue, visited, c, traversable, index);
    }
    NoRouteOutside(s, m, p, q, visited);
    found := false;
  }

  lemma SearchStarts(s: Snapshot, m: MapDefinition, p: PlayerId, q: PlayerId, queue: seq<CityId>, visited: set<CityId>)
    requires p in s.players && q in s.players
    requires visited == OwnedCities(s.cities, p) && forall c :: c in queue <==> c in visited
    ensures SearchState(s, m, p, q, queue, visited)
  {
    forall c | c in visited ensures OnRoute(s, p, q, c) && Reached(s, m, p, q, c) { ReachedStart(s, m, p, q, c); }
  }

  lemma RouteFound(s: Snapshot, m: MapDefinition, p: PlayerId, q: PlayerId, c: CityId)
    requires p in s.players && q in s.players && Reached(s, m, p, q, c) && c in OwnedCities(s.cities, q)
    ensures LandRoute(s, m, p, q)
  {
    var path :| WalkFrom(s, m, p, q, path) && path[|path| - 1] == c;
    assert Route(s, m, p, q, path);
  }

  lemma NoRouteOutside(s: Snapshot, m: MapDefinition, p: PlayerId, q: PlayerId, visited: set<CityId>)
    requires p in s.players && q in s.players && SearchState(s, m, p, q, [], visited)
    ensures !LandRoute(s, m, p, q)
  {
    forall path ensures !Route(s, m, p, q, path) { NotARoute(s, m, p, q, visited, path); }
  }

  lemma NotARoute(s: Snapshot, m: MapDefinition, p: PlayerId, q: PlayerId, visited: set<CityId>, path: seq<CityId>)
    requires p in s.players && q in s.players && SearchState(s, m, p, q, [], visited)
    ensures !Route(s, m, p, q, path)
  {
    if Route(s, m, p, q, path) { WalkStaysInside(s, m, p, q, path, visited, |path| - 1); }
  }

  /** Takes a city off the queue and adds its unvisited friendly neighbours. */
  method Expand(s: Snapshot, m: MapDefinition, p: PlayerId, q: PlayerId, queue: seq<CityId>, visited: set<CityId>,
                c: CityId, traversable: set<CityId>, index: map<CityId, set<CityId>>)
    returns (nextQueue: seq<CityId>, nextVisited: set<CityId>)
    requires p in s.players && q in s.players
    requires forall a, b :: Linked(index, a, b) <==> Connected(m, Some(Land), a, b)
    requires forall n :: n in traversable <==> OnRoute(s, p, q, n)
    requires SearchState(s, m, p, q, queue, visited) && visited <= traversable
    requires queue != [] && queue[0] == c && c !in OwnedCities(s.cities, q)
    ensures SearchState(s, m, p, q, nextQueue, nextVisited) && visited <= nextVisited <= traversable
    ensures nextVisited == visited ==> |nextQueue| < |queue|
  {
    nextQueue, nextVisited := queue[1..], visited;
    var todo := if c in index then index[c] else {};
    ghost var neighbours := todo;
    assert forall n :: n in neighbours <==> Linked(index, c, n);
    while todo != {}
      invariant todo <= neighbours
      invariant visited <= nextVisited <= traversable
      invariant forall n :: n in nextVisited && n !in visited ==> n in neighbours && n in nextQueue
      invariant forall n :: n in neighbours && n !in todo && n in traversable ==> n in nextVisited
      invariant forall x :: x in queue[1..] ==> x in nextQueue
      invariant forall x :: x in nextQueue ==> x in nextVisited
      invariant nextVisited == visited ==> nextQueue == queue[1..]
    {
      var n :| n in todo;
      todo := todo - {n};
      if n !in nextVisited && n in traversable {
        nextVisited := nextVisited + {n};
        nextQueue := nextQueue + [n];
      }
    }
    SearchExpanded(s, m, p, q, queue, visited, c, nextQueue, nextVisited);
  }

  lemma SearchExpanded(s: Snapshot, m: MapDefinition, p: PlayerId, q: PlayerId, queue: seq<CityId>, visited: set<CityId>,
                       c: CityId, nextQueue: seq<CityId>, nextVisited: set<CityId>)
    requires p in s.players && q in s.players
    requires SearchState(s, m, p, q, queue, visited) && queue != [] && queue[0] == c && c !in OwnedCities(s.cities, q)
    requires visited <= nextVisited
    requires forall n :: n in nextVisited && n !in visited ==>
      Connected(m, Some(Land), c, n) && OnRoute(s, p, q, n) && n in nextQueue
    requires forall n :: Connected(m, Some(Land), c, n) && OnRoute(s, p, q, n) ==> n in nextVisited
    requires forall x :: x in queue[1..] ==> x in nextQueue
    requires forall x :: x in nextQueue ==> x in nextVisited
    ensures SearchState(s, m, p, q, nextQueue, nextVisited)
  {
    assert queue == [c] + queue[1..];
    forall n | n in nextVisited ensures OnRoute(s, p, q, n) && Reached(s, m, p, q, n) {
      if n !in visited { ReachedNext(s, m, p, q, c, n); }
    }
    forall x | x in nextVisited && x !in nextQueue ensures x == c || (x in visited && x !in queue) { }
  }
}
