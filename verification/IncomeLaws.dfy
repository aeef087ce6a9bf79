/** A tick's income, in numbers: yields with the economy bonus, mouths, soldiers and walls. */
module IncomeLaws {
  import opened Collections
  import opened Domain
  import opened Phases
  import opened Fortification

  // ---- yields ----

  /** The resource a city makes most of; food wins ties, and production wins them over money. */
  predicate MakesMostOf(base: Resources, r: Resource) {
    match r
    case Food => base.food >= base.production && base.food >= base.money
    case Production => base.production > base.food && base.production >= base.money
    case Money => base.money > base.food && base.money > base.production
  }

  /** The base yield, raised by a third per economy tier for the resource the city makes most of. */
  function MadeOf(s: Snapshot, r: Resource): CityId -> int {
    (c: CityId) =>
      if c !in s.cities then 0
      else
        var all := s.cities[c].base;
        var base := match r case Food => all.food case Production => all.production case Money => all.money;
        if MakesMostOf(all, r) then base * [3, 4, 5, 6][s.cities[c].upgrades.economy] / 3 else base
  }

  function PeopleIn(s: Snapshot): CityId -> int {
    (c: CityId) => if c in s.cities then s.cities[c].population else 0
  }

  function TierOf(s: Snapshot): CityId -> int {
    (c: CityId) => if c in s.cities then s.cities[c].upgrades.fortification else 0
  }

  function Soldiers(p: PlayerId): Army -> int {
    (a: Army) => if a.owner == p then a.troops else 0
  }

  ghost function Own(s: Snapshot, p: PlayerId): set<CityId> {
    set c | c in s.cities && s.cities[c].owner == Some(p)
  }

  lemma MadeIsYield(s: Snapshot, p: PlayerId, r: Resource)
    ensures TotalYield(s.cities, p, r) == SumOver(MadeOf(s, r), Own(s, p))
  {
    assert OwnedCities(s.cities, p) == Own(s, p);
    SumOverCongruent(MadeOf(s, r), YieldAt(s.cities, r), Own(s, p));
  }

  /** Food grows by what the cities make, less one for each inhabitant and soldier, and not below zero; production just grows. */
  lemma FoodAndProduction(s: Snapshot, p: PlayerId)
    requires p in s.players
    ensures var held, left := s.players[p].resources, ResourcePhase(s).players[p].resources;
      && left.food == Max(0, held.food + SumOver(MadeOf(s, Food), Own(s, p)) - SumOver(PeopleIn(s), Own(s, p)) - SumBy(Soldiers(p), s.armies))
      && left.production == held.production + SumOver(MadeOf(s, Production), Own(s, p))
  {
    MadeIsYield(s, p, Food);
    MadeIsYield(s, p, Production);
    SumOverCongruent(PeopleIn(s), PopulationAt(s.cities), Own(s, p));
    assert OwnedCities(s.cities, p) == Own(s, p);
    SumByCongruent(Soldiers(p), OwnTroops(p), s.armies);
  }

  // ---- walls ----

  ghost function Walled(s: Snapshot, p: PlayerId): set<CityId> {
    set c | c in s.cities && s.cities[c].owner == Some(p) && s.cities[c].upgrades.fortification > 0
  }

  /** The player's cities that go unpaid in the tick. */
  ghost function UnpaidOf(s: Snapshot, p: PlayerId): set<CityId> {
    set c | c in UnpaidCities(s) && s.cities[c].owner == Some(p)
  }

  ghost function MoneyMade(s: Snapshot, p: PlayerId): int
    requires p in s.players
  {
    s.players[p].resources.money + SumOver(MadeOf(s, Money), Own(s, p))
  }

  ghost function MoneyLeft(s: Snapshot, p: PlayerId): int
    requires p in s.players
  {
    ResourcePhase(s).players[p].resources.money
  }

  lemma UnpaidIsUpkeep(s: Snapshot, p: PlayerId)
    requires p in s.players
    ensures UnpaidOf(s, p) == Upkeep(s, p).1
  {
    UpkeepAccounts(s, p);
  }

  /**
   * Money grows by what the cities make, less the tier of each walled city that is paid for; a walled city goes unpaid only if
   * what is left at the end would not cover its tier.
   */
  lemma MoneyAndWalls(s: Snapshot, p: PlayerId)
    requires p in s.players
    ensures UnpaidOf(s, p) <= Walled(s, p)
    ensures var left := MoneyMade(s, p) - SumOver(TierOf(s), Walled(s, p) - UnpaidOf(s, p));
      && MoneyLeft(s, p) == Max(0, left)
      && forall c :: c in UnpaidOf(s, p) ==> left < TierOf(s)(c)
  {
    UnpaidIsUpkeep(s, p);
    UpkeepAccounts(s, p);
    MadeIsYield(s, p, Money);
    assert FortifiedCities(s.cities, p) == Walled(s, p);
    SumOverCongruent(TierOf(s), UpkeepAt(s.cities), Walled(s, p) - UnpaidOf(s, p));
  }

  lemma {:induction false} PartOfSum(f: CityId -> int, some: set<CityId>, all: set<CityId>)
    requires some <= all && forall c :: c in all ==> 0 <= f(c)
    ensures SumOver(f, some) <= SumOver(f, all)
    decreases |all|
  {
    if all - some == {} {
      assert some == all;
    } else {
      var c :| c in all - some;
      SumOverRemove(f, all, c);
      PartOfSum(f, some, all - {c});
    }
  }

  /** When the sum over all is covered, nothing can be left out for want of money. */
  lemma NothingLeftOut(f: CityId -> int, unpaid: set<CityId>, all: set<CityId>, money: int)
    requires unpaid <= all && (forall c :: c in all ==> 0 <= f(c)) && money >= SumOver(f, all)
    requires forall c :: c in unpaid ==> money - SumOver(f, all - unpaid) < f(c)
    ensures unpaid == {}
  {
    if c :| c in unpaid {
      SumOverAdd(f, all - unpaid, c);
      PartOfSum(f, all - unpaid + {c}, all);
    }
  }

  /** A player who can pay for all its walls does: no city of its goes unpaid. */
  lemma AllWallsPaid(s: Snapshot, p: PlayerId)
    requires p in s.players && MoneyMade(s, p) >= SumOver(TierOf(s), Walled(s, p))
    ensures UnpaidOf(s, p) == {}
  {
    MoneyAndWalls(s, p);
    WallsHaveTiers(s, p);
    NothingLeftOut(TierOf(s), UnpaidOf(s, p), Walled(s, p), MoneyMade(s, p));
  }

  lemma AllPaid(walled: set<CityId>, unpaid: set<CityId>)
    requires unpaid == {}
    ensures walled - unpaid == walled
  {
  }

  lemma WallsHaveTiers(s: Snapshot, p: PlayerId)
    ensures forall c :: c in Walled(s, p) ==> TierOf(s)(c) == s.cities[c].upgrades.fortification > 0
  {
  }

  // ---- an income ----

  /** One city that makes mostly food, with two tiers of economy and one of walls, and three soldiers. */
  function Farm(): Snapshot {
    Snapshot(0, map["york" := City(Some("p"), 4, Resources(5, 3, 2), Upgrades(2, 0, 1), 0, [])],
             [Army("a", "p", 3, Some("york"), None, None, 0)],
             map["p" := Player(Resources(10, 0, 0), ["york"], None, false)], Victory(None, 0, 1, None))
  }

  /** Ten and eight less four and three is eleven food; three production; two money less one for the walls. */
  lemma FarmEarns()
    ensures ResourcePhase(Farm()).players["p"].resources == Resources(11, 3, 1)
  {
    var s := Farm();
    assert Own(s, "p") == {} + {"york"} && Walled(s, "p") == {} + {"york"};
    forall f: CityId -> int ensures SumOver(f, {"york"}) == f("york") {
      SumOverEmpty(f);
      SumOverAdd(f, {}, "york");
      assert {} + {"york"} == {"york"};
    }
    assert s.armies[..0] == [];
    FoodAndProduction(s, "p");
    AllWallsPaid(s, "p");
    AllPaid(Walled(s, "p"), UnpaidOf(s, "p"));
    MoneyAndWalls(s, "p");
  }
}
