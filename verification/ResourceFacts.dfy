/** The resource phase told by its loops agrees with the resource phase told player by player. */
module ResourceFacts {
  import opened Collections
  import opened Ordering
  import opened Domain
  import opened Phases

  lemma {:induction false} UnpaidListed(cities: map<CityId, City>, ids: seq<CityId>, money: int)
    ensures PayUpkeep(cities, ids, money).1 <= Elements(ids)
  {
    if ids != [] {
      UnpaidListed(cities, ids[..|ids| - 1], money);
      ElementsAppend(ids[..|ids| - 1], ids[|ids| - 1]);
      assert ids == ids[..|ids| - 1] + [ids[|ids| - 1]];
    }
  }

  lemma UnpaidOwned(s: Snapshot, p: PlayerId)
    requires p in s.players
    ensures Upkeep(s, p).1 <= FortifiedCities(s.cities, p)
  {
    ListingSorted(FortifiedCities(s.cities, p));
    UnpaidListed(s.cities, Listing(FortifiedCities(s.cities, p)), MoneyBeforeUpkeep(s, p));
  }

  /** Unpaid cities of the players already handled. */
  ghost function UnpaidAmong(s: Snapshot, done: set<PlayerId>): set<CityId> {
    set c | c in s.cities && s.cities[c].owner.Some? && s.cities[c].owner.value in s.players
         && s.cities[c].owner.value in done && c in Upkeep(s, s.cities[c].owner.value).1
  }

  lemma UnpaidGrows(s: Snapshot, done: set<PlayerId>, p: PlayerId)
    requires p in s.players
    ensures UnpaidAmong(s, done + {p}) == UnpaidAmong(s, done) + Upkeep(s, p).1
  {
    UnpaidOwned(s, p);
  }

  lemma IncomeCollected(s: Snapshot, p: PlayerId, ids: seq<CityId>, income: Resources, population: int)
    requires p in s.players
    requires Distinct(ids) && Elements(ids) == OwnedCities(s.cities, p)
    requires forall r: Resource :: income.Get(r) == s.players[p].resources.Get(r) + SumBy(YieldAt(s.cities, r), ids)
    requires population == SumBy(PopulationAt(s.cities), ids)
    ensures income.money == MoneyBeforeUpkeep(s, p)
    ensures income.food - population == s.players[p].resources.food + TotalYield(s.cities, p, Food) - TotalPopulation(s.cities, p)
    ensures income.production == s.players[p].resources.production + TotalYield(s.cities, p, Production)
  {
    forall r: Resource ensures income.Get(r) == s.players[p].resources.Get(r) + TotalYield(s.cities, p, r) {
      SumDistinct(YieldAt(s.cities, r), ids);
    }
    SumDistinct(PopulationAt(s.cities), ids);
    assert income.Get(Food) == income.food && income.Get(Production) == income.production && income.Get(Money) == income.money;
  }

  function WithResources(player: Player, resources: Resources): Player {
    player.(resources := resources)
  }

  ghost predicate IncomeStored(s: Snapshot, p: PlayerId, player: Player) {
    p in s.players && player == WithResources(s.players[p], ResourcesAfterIncome(s, p))
    && ResourcesAfterIncome(s, p).production >= 0
  }

  /** Every player outside `todo` has had its income stored. */
  ghost predicate IncomePending(s: Snapshot, players: map<PlayerId, Player>, todo: set<PlayerId>) {
    && players.Keys == s.players.Keys
    && (forall p :: p in players && p in todo ==> players[p] == s.players[p])
    && (forall p :: p in players && p !in todo ==> IncomeStored(s, p, players[p]))
  }

  lemma IncomeStep(s: Snapshot, players: map<PlayerId, Player>, todo: set<PlayerId>, p: PlayerId)
    requires IncomePending(s, players, todo) && p in todo && p in players
    requires ResourcesAfterIncome(s, p).production >= 0
    ensures IncomePending(s, players[p := WithResources(players[p], ResourcesAfterIncome(s, p))], todo - {p})
  {
  }

  lemma IncomeDone(s: Snapshot, players: map<PlayerId, Player>)
    requires IncomePending(s, players, {})
    ensures IncomeStorable(s) && players == ResourcePhase(s).players
  {
    forall p | p in s.players
      ensures ResourcesAfterIncome(s, p).production >= 0
      ensures players[p] == s.players[p].(resources := ResourcesAfterIncome(s, p))
    {
      assert IncomeStored(s, p, players[p]);
    }
  }

  lemma UnpaidDone(s: Snapshot)
    ensures UnpaidAmong(s, s.players.Keys - {}) == UnpaidCities(s)
  {
  }

  lemma UnpaidStep(s: Snapshot, todo: set<PlayerId>, p: PlayerId)
    requires p in todo && todo <= s.players.Keys
    ensures UnpaidAmong(s, s.players.Keys - (todo - {p})) == UnpaidAmong(s, s.players.Keys - todo) + Upkeep(s, p).1
  {
    UnpaidGrows(s, s.players.Keys - todo, p);
    assert s.players.Keys - (todo - {p}) == (s.players.Keys - todo) + {p};
  }
}
