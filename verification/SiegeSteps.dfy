/** Sieges: neighbours on the map and whether any of them is friendly. */
module SiegeSteps {
  import opened Collections
  import opened Domain
  import opened Leadership
  import opened Phases

  predicate Linked(adjacent: map<CityId, set<CityId>>, a: CityId, b: CityId) {
    a in adjacent && b in adjacent[a]
  }

  /** The neighbour sets of every city that some road touches. */
  method AdjacentCityIdsByCity(m: MapDefinition) returns (adjacent: map<CityId, set<CityId>>)
    ensures forall a, b :: Linked(adjacent, a, b) <==> Adjacent(m, a, b)
  {
    adjacent := map[];
    var i := 0;
    while i < |m.edges|
      invariant 0 <= i <= |m.edges|
      invariant forall a, b :: Linked(adjacent, a, b) <==> AdjacentBy(m.edges[..i], a, b)
    {
      var e := m.edges[i];
      var halfway := Link(adjacent, e.cityA, e.cityB);
      var linked := Link(halfway, e.cityB, e.cityA);
      forall a, b ensures Linked(linked, a, b) <==> AdjacentBy(m.edges[..i + 1], a, b) {
        AdjacentByStep(m.edges, i, a, b);
        assert Linked(halfway, a, b) <==> Linked(adjacent, a, b) || (a == e.cityA && b == e.cityB);
      }
      adjacent := linked;
      i := i + 1;
    }
    assert m.edges[..i] == m.edges;
  }

  method Link(adjacent: map<CityId, set<CityId>>, a: CityId, b: CityId) returns (linked: map<CityId, set<CityId>>)
    ensures forall x, y :: Linked(linked, x, y) <==> Linked(adjacent, x, y) || (x == a && y == b)
    ensures linked.Keys == adjacent.Keys + {a}
  {
    linked := adjacent[a := (if a in adjacent then adjacent[a] else {}) + {b}];
  }

  lemma AdjacentByStep(edges: seq<Edge>, i: nat, a: CityId, b: CityId)
    requires i < |edges|
    ensures AdjacentBy(edges[..i + 1], a, b) <==> AdjacentBy(edges[..i], a, b) || Joins(edges[i], a, b)
  {
    assert edges[..i + 1] == edges[..i] + [edges[i]];
    if Joins(edges[i], a, b) { assert edges[i] in edges[..i + 1]; }
  }

  const BORDER: Snapshot := Snapshot(
    0, map["york" := City(Some("p"), 1, Resources(1, 1, 1), Upgrades(0, 0, 1), 0, []),
           "leeds" := City(None, 1, Resources(1, 1, 1), Upgrades(0, 0, 0), 0, [])],
    [], map["p" := Player(Resources(1, 1, 1), ["york"], None, false)], Victory(None, 0, 2, None))

  const BORDER_ROAD: Edge := Edge("york", "leeds", 1, Land)

  /** A city among neutral neighbours counts as besieged: nobody is near, and its walls come down all the same. */
  lemma NeutralNeighboursBesiege(cities: map<CityId, CityDefinition>)
    ensures var m := MapDefinition(cities, [BORDER_ROAD]);
      && (forall n :: Adjacent(m, "york", n) ==> n in BORDER.cities && BORDER.cities[n].owner == None)
      && BORDER.armies == [] && SiegeDegraded(BORDER, m) == {"york"}
  {
    var m := MapDefinition(cities, [BORDER_ROAD]);
    assert BORDER_ROAD in m.edges && Joins(BORDER_ROAD, "york", "leeds");
    assert Adjacent(m, "york", "leeds");
    forall n | Adjacent(m, "york", n) ensures n == "leeds" { }
  }

  /** Looks for a friendly neighbour; a city with none, but with some neighbour, is besieged. */
  method IsBesiegedCity(s: Snapshot, c: CityId, m: MapDefinition) returns (besieged: bool)
    requires c in s.cities
    requires forall n :: n in s.cities && s.cities[n].owner.Some? ==> s.cities[n].owner.value in s.players
    ensures besieged <==> Besieged(s, m, c)
  {
    if s.cities[c].owner == None {
      return false;
    }
    var adjacent := AdjacentCityIdsByCity(m);
    if c !in adjacent || adjacent[c] == {} {
      return false;
    }
    assert exists n :: Adjacent(m, c, n) by {
      var n := Pick(adjacent[c]);
      assert Linked(adjacent, c, n);
    }
    var owner := s.cities[c].owner.value;
    var todo := adjacent[c];
    while todo != {}
      invariant todo <= adjacent[c]
      invariant forall n :: n in adjacent[c] && n !in todo && n in s.cities && s.cities[n].owner.Some? ==>
        CoalitionOf(s.players, s.cities[n].owner.value) != CoalitionOf(s.players, owner)
    {
      var n :| n in todo;
      if n in s.cities && s.cities[n].owner.Some? {
        if s.cities[n].owner.value == owner
           || CoalitionOf(s.players, s.cities[n].owner.value) == CoalitionOf(s.players, owner) {
          assert Linked(adjacent, c, n);
          return false;
        }
      }
      todo := todo - {n};
    }
    forall n | Adjacent(m, c, n) && n in s.cities && s.cities[n].owner.Some?
      ensures CoalitionOf(s.players, s.cities[n].owner.value) != CoalitionOf(s.players, owner)
    {
      assert Linked(adjacent, c, n);
    }
    besieged := true;
  }
}
