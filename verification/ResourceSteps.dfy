/** The loops of the resource phase: grouping cities, tallying troops, collecting income, paying upkeep. */
module ResourceSteps {
  import opened Collections
  import opened Ordering
  import opened Domain
  import opened Phases

  ghost function OwnedWithin(cities: map<CityId, City>, seen: set<CityId>, p: PlayerId): set<CityId> {
    set c | c in seen && c in cities && cities[c].owner == Some(p)
  }

  method GroupCities(cities: map<CityId, City>, players: set<PlayerId>) returns (byOwner: map<PlayerId, seq<CityId>>)
    ensures byOwner.Keys == players
    ensures forall p :: p in players ==> Distinct(byOwner[p]) && Elements(byOwner[p]) == OwnedCities(cities, p)
  {
    byOwner := map p | p in players :: [];
    var todo := cities.Keys;
    while todo != {}
      invariant todo <= cities.Keys && byOwner.Keys == players
      invariant forall p :: p in players ==>
        Distinct(byOwner[p]) && Elements(byOwner[p]) == OwnedWithin(cities, cities.Keys - todo, p)
    {
      var c :| c in todo;
      ghost var seen, before := cities.Keys - todo, byOwner;
      todo := todo - {c};
      assert cities.Keys - todo == seen + {c};
      if cities[c].owner.Some? && cities[c].owner.value in byOwner {
        var p := cities[c].owner.value;
        ElementsAppend(byOwner[p], c);
        assert c !in Elements(byOwner[p]);
        byOwner := byOwner[p := byOwner[p] + [c]];
      }
      forall p | p in players
        ensures Distinct(byOwner[p]) && Elements(byOwner[p]) == OwnedWithin(cities, seen + {c}, p)
      {
        if cities[c].owner == Some(p) {
          assert Elements(byOwner[p]) == Elements(before[p]) + {c};
        } else {
          assert OwnedWithin(cities, seen + {c}, p) == OwnedWithin(cities, seen, p);
        }
      }
    }
    assert cities.Keys - todo == cities.Keys;
    forall p | p in players ensures Elements(byOwner[p]) == OwnedCities(cities, p) {
      assert OwnedWithin(cities, cities.Keys, p) == OwnedCities(cities, p);
    }
  }

  method TallyTroops(armies: seq<Army>, players: set<PlayerId>) returns (tally: map<PlayerId, int>)
    ensures tally.Keys == players
    ensures forall p :: p in players ==> tally[p] == SumBy(OwnTroops(p), armies)
  {
    tally := map p | p in players :: 0;
    var i := 0;
    while i < |armies|
      invariant 0 <= i <= |armies| && tally.Keys == players
      invariant forall p :: p in players ==> tally[p] == SumBy(OwnTroops(p), armies[..i])
    {
      var army := armies[i];
      ghost var before := tally;
      if army.owner in tally {
        tally := tally[army.owner := tally[army.owner] + army.troops];
      }
      forall p | p in players ensures tally[p] == SumBy(OwnTroops(p), armies[..i + 1]) {
        SumByStep(OwnTroops(p), armies, i);
      }
      i := i + 1;
    }
    assert armies[..i] == armies;
  }

  /** Adds each listed city's yield, and counts the mouths to feed. */
  method CollectIncome(cities: map<CityId, City>, start: Resources, ids: seq<CityId>)
    returns (income: Resources, population: int)
    requires Elements(ids) <= cities.Keys
    ensures forall r: Resource :: income.Get(r) == start.Get(r) + SumBy(YieldAt(cities, r), ids)
    ensures population == SumBy(PopulationAt(cities), ids)
  {
    income, population := start, 0;
    var i := 0;
    while i < |ids|
      invariant 0 <= i <= |ids|
      invariant forall r: Resource :: income.Get(r) == start.Get(r) + SumBy(YieldAt(cities, r), ids[..i])
      invariant population == SumBy(PopulationAt(cities), ids[..i])
    {
      assert ids[i] in Elements(ids);
      var city := cities[ids[i]];
      ghost var before := income;
      population := population + city.population;
      income := Resources(
        income.food + YieldOf(city, Food),
        income.production + YieldOf(city, Production),
        income.money + YieldOf(city, Money));
      forall r: Resource ensures income.Get(r) == start.Get(r) + SumBy(YieldAt(cities, r), ids[..i + 1]) {
        SumByStep(YieldAt(cities, r), ids, i);
        assert income.Get(r) == before.Get(r) + YieldOf(city, r);
      }
      SumByStep(PopulationAt(cities), ids, i);
      i := i + 1;
    }
    assert ids[..i] == ids;
  }

  /** Pays the player's fortified cities in id order. */
  method DeductUpkeep(cities: map<CityId, City>, p: PlayerId, available: int) returns (money: int, unpaid: set<CityId>)
    ensures var paid := PayUpkeep(cities, Listing(FortifiedCities(cities, p)), available);
      money == Max(0, paid.0) && unpaid == paid.1
  {
    var ids := FortifiedInOrder(cities, p);
    money, unpaid := available, {};
    var i := 0;
    while i < |ids|
      invariant 0 <= i <= |ids|
      invariant (money, unpaid) == PayUpkeep(cities, ids[..i], available)
    {
      var cost := FortificationUpkeep(cities[ids[i]].upgrades.fortification);
      assert ids[..i + 1][..i] == ids[..i];
      if money >= cost {
        money := money - cost;
      } else {
        unpaid := unpaid + {ids[i]};
      }
      i := i + 1;
    }
    assert ids[..i] == ids;
    money := Max(0, money);
  }

  method FortifiedInOrder(cities: map<CityId, City>, p: PlayerId) returns (ids: seq<CityId>)
    ensures ids == Listing(FortifiedCities(cities, p))
    ensures forall c :: c in ids ==> c in cities
  {
    var found: seq<CityId> := [];
    var todo := cities.Keys;
    while todo != {}
      invariant todo <= cities.Keys
      invariant Distinct(found) && Elements(found) == FortifiedCities(cities, p) - todo
    {
      var c :| c in todo;
      todo := todo - {c};
      if cities[c].owner == Some(p) && cities[c].upgrades.fortification > 0 {
        ElementsAppend(found, c);
        assert c !in Elements(found);
        found := found + [c];
      }
    }
    ids := SortIds(found);
    assert FortifiedCities(cities, p) - {} == FortifiedCities(cities, p);
    forall c | c in ids ensures c in cities { assert c in Elements(ids); }
  }

  method ListIds(ids: set<string>) returns (listed: seq<string>)
    ensures Distinct(listed) && Elements(listed) == ids
  {
    listed := [];
    var todo := ids;
    while todo != {}
      invariant todo <= ids
      invariant Distinct(listed) && Elements(listed) == ids - todo
    {
      var x :| x in todo;
      ElementsAppend(listed, x);
      assert x !in Elements(listed);
      listed := listed + [x];
      todo := todo - {x};
    }
  }

  method SortIds(ids: seq<string>) returns (sorted: seq<string>)
    requires Distinct(ids)
    ensures sorted == Listing(Elements(ids)) && Elements(sorted) == Elements(ids)
  {
    StringOrderIsTotal();
    SortSorts(STRING_ORDER, ids);
    sorted := Sort(STRING_ORDER, ids);
    DistinctMultiset(ids);
    assert forall x :: x in sorted ==> x in multiset(sorted);
    MultisetDistinct(sorted);
    ListingUnique(Elements(ids), sorted);
  }
}
