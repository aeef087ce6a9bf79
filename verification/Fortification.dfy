/** What fortifications cost, which ones go unpaid, and how many tiers a tick can take. */
module Fortification {
  import opened Collections
  import opened Ordering
  import opened Domain
  import opened Phases
  import opened RunInvariant
  import opened QueueInvariant

  // ---- paying ----

  ghost function PaidAmong(ids: seq<CityId>, unpaid: set<CityId>): set<CityId> {
    Elements(ids) - unpaid
  }

  /** The money left is what there was less what was paid, and it covers no city that went unpaid. */
  lemma {:induction false} PaymentsAccount(cities: map<CityId, City>, ids: seq<CityId>, money: int)
    requires Distinct(ids)
    ensures var (left, unpaid) := PayUpkeep(cities, ids, money);
      && unpaid <= Elements(ids) && left <= money
      && left == money - SumOver(UpkeepAt(cities), PaidAmong(ids, unpaid))
      && forall c :: c in unpaid ==> left < UpkeepAt(cities)(c)
  {
    if ids == [] {
      SumOverEmpty(UpkeepAt(cities));
      assert PaidAmong(ids, {}) == {};
    } else {
      var init, c := ids[..|ids| - 1], ids[|ids| - 1];
      PaymentsAccount(cities, init, money);
      var (left, unpaid) := PayUpkeep(cities, init, money);
      ElementsAppend(init, c);
      assert ids == init + [c];
      assert c !in Elements(init);
      if left >= UpkeepAt(cities)(c) {
        assert PaidAmong(ids, unpaid) == PaidAmong(init, unpaid) + {c};
        SumOverAdd(UpkeepAt(cities), PaidAmong(init, unpaid), c);
      } else {
        assert PaidAmong(ids, unpaid + {c}) == PaidAmong(init, unpaid);
      }
    }
  }

  /** A player's upkeep: exactly the paid cities are charged, and the rest could not be afforded even at the end. */
  lemma UpkeepAccounts(s: Snapshot, p: PlayerId)
    requires p in s.players
    ensures var (left, unpaid) := Upkeep(s, p);
      && unpaid <= FortifiedCities(s.cities, p)
      && left == MoneyBeforeUpkeep(s, p) - SumOver(UpkeepAt(s.cities), FortifiedCities(s.cities, p) - unpaid)
      && (forall c :: c in unpaid ==> left < FortificationUpkeep(s.cities[c].upgrades.fortification))
      && ResourcePhase(s).players[p].resources.money == Max(0, left)
  {
    var fortified := FortifiedCities(s.cities, p);
    ListingSorted(fortified);
    PaymentsAccount(s.cities, Listing(fortified), MoneyBeforeUpkeep(s, p));
  }

  /** The cities of a list that come before one of them and were paid. */
  ghost function PaidBefore(ids: seq<CityId>, unpaid: set<CityId>, i: nat): set<CityId>
    requires i <= |ids|
  {
    PaidAmong(ids[..i], unpaid)
  }

  /** Whether a city is paid is decided by the cities paid before it alone. */
  lemma {:induction false} PaidInTurn(cities: map<CityId, City>, ids: seq<CityId>, money: int, i: nat)
    requires Distinct(ids) && i < |ids|
    ensures var unpaid := PayUpkeep(cities, ids, money).1;
      ids[i] in unpaid <==> money - SumOver(UpkeepAt(cities), PaidBefore(ids, unpaid, i)) < UpkeepAt(cities)(ids[i])
    decreases |ids|
  {
    var init, c := ids[..|ids| - 1], ids[|ids| - 1];
    var (left, before) := PayUpkeep(cities, init, money);
    var unpaid := PayUpkeep(cities, ids, money).1;
    PaymentsAccount(cities, init, money);
    assert c !in Elements(init);
    if i == |ids| - 1 {
      assert PaidBefore(ids, unpaid, i) == PaidAmong(init, before);
    } else {
      PaidInTurn(cities, init, money, i);
      assert init[..i] == ids[..i];
      assert init[i] == ids[i] && ids[i] in Elements(init);
      assert c !in Elements(ids[..i]);
      assert PaidBefore(ids, unpaid, i) == PaidBefore(init, before, i);
    }
  }

  /** The cities with a smaller id that were paid. */
  ghost function PaidEarlier(cities: set<CityId>, unpaid: set<CityId>, c: CityId): set<CityId> {
    set d | d in cities && d !in unpaid && d != c && StrLe(d, c)
  }

  lemma EarlierInListing(cities: set<CityId>, unpaid: set<CityId>, i: nat)
    requires i < |Listing(cities)|
    ensures PaidBefore(Listing(cities), unpaid, i) == PaidEarlier(cities, unpaid, Listing(cities)[i])
  {
    var ids := Listing(cities);
    ListingSorted(cities);
    forall d ensures d in PaidBefore(ids, unpaid, i) <==> d in PaidEarlier(cities, unpaid, ids[i]) {
      BeforeInListing(ids, i, d);
    }
  }

  /** Going through a player's fortified cities by id, each is unpaid exactly when what is left does not cover it. */
  lemma UnpaidExactly(s: Snapshot, p: PlayerId, c: CityId)
    requires p in s.players && c in FortifiedCities(s.cities, p)
    ensures var unpaid := Upkeep(s, p).1;
      c in unpaid <==>
        MoneyBeforeUpkeep(s, p) - SumOver(UpkeepAt(s.cities), PaidEarlier(FortifiedCities(s.cities, p), unpaid, c))
          < FortificationUpkeep(s.cities[c].upgrades.fortification)
  {
    UnpaidInTurn(s.cities, FortifiedCities(s.cities, p), MoneyBeforeUpkeep(s, p), c);
  }

  lemma UnpaidInTurn(cities: map<CityId, City>, fortified: set<CityId>, money: int, c: CityId)
    requires c in fortified
    ensures var unpaid := PayUpkeep(cities, Listing(fortified), money).1;
      c in unpaid <==> money - SumOver(UpkeepAt(cities), PaidEarlier(fortified, unpaid, c)) < UpkeepAt(cities)(c)
  {
    var ids := Listing(fortified);
    ListingSorted(fortified);
    assert c in Elements(ids);
    var i :| 0 <= i < |ids| && ids[i] == c;
    PaidInTurn(cities, ids, money, i);
    EarlierInListing(fortified, PayUpkeep(cities, ids, money).1, i);
  }

  lemma BeforeInListing(ids: seq<CityId>, i: nat, d: CityId)
    requires i < |ids| && SortedBy(STRING_ORDER, ids) && Distinct(ids)
    ensures d in Elements(ids[..i]) <==> d in Elements(ids) && d != ids[i] && StrLe(d, ids[i])
  {
    if d in Elements(ids[..i]) {
      var j :| 0 <= j < i && ids[..i][j] == d;
      assert STRING_ORDER(ids[j], ids[i]);
    }
    if d in Elements(ids) && d != ids[i] && StrLe(d, ids[i]) {
      var j :| 0 <= j < |ids| && ids[j] == d;
      if j > i {
        assert STRING_ORDER(ids[i], ids[j]);
        StrLeAntisymmetric(d, ids[i]);
      }
      assert ids[..i][j] == d;
    }
  }

  // ---- losing tiers ----

  /** The tiers a city has once building is done; combat does not touch them. */
  ghost function BuiltUpgrades(s: Snapshot, c: CityId): Upgrades
    requires c in s.cities
  {
    FinishItems(s.cities[c].upgrades, s.cities[c].queue)
  }

  /**
   * Over a whole tick a city keeps all it has built, except one tier of fortification: that is lost exactly when it
   * has one and it is besieged after combat or went unpaid at the start, and never twice.
   */
  lemma FortificationOverTick(s: Snapshot, orders: OrderBatch, m: MapDefinition, c: CityId)
    requires c in s.cities
    ensures c in NextState(s, orders, m).cities && c in AfterCombat(s, orders, m).cities
    ensures var built := BuiltUpgrades(s, c);
      var lost := if built.fortification > 0 && (Besieged(AfterCombat(s, orders, m), m, c) || c in UnpaidCities(s)) then 1 else 0;
      && NextState(s, orders, m).cities[c].upgrades.fortification == built.fortification - lost
      && NextState(s, orders, m).cities[c].upgrades.economy == built.economy
      && NextState(s, orders, m).cities[c].upgrades.military == built.military
  {
    var fought := AfterCombat(s, orders, m);
    UpgradesUntilSiege(s, orders, m, c);
    UpgradesAfterSiege(fought, m, UnpaidCities(s), c);
  }

  lemma UpgradesUntilSiege(s: Snapshot, orders: OrderBatch, m: MapDefinition, c: CityId)
    requires c in s.cities
    ensures c in AfterCombat(s, orders, m).cities && AfterCombat(s, orders, m).cities[c].upgrades == BuiltUpgrades(s, c)
  {
    RecruitFrameSorted(QueuesAdvanced(ResourcePhase(s)), orders.recruitment);
  }

  lemma UpgradesAfterSiege(fought: Snapshot, m: MapDefinition, unpaid: set<CityId>, c: CityId)
    requires c in fought.cities
    ensures var last := VictoryPhase(AttritionPhase(SiegePhase(fought, m), unpaid, SiegeDegraded(fought, m)));
      var built := fought.cities[c].upgrades;
      && c in last.cities
      && last.cities[c].upgrades == built.(fortification :=
           if built.fortification > 0 && (Besieged(fought, m, c) || c in unpaid) then built.fortification - 1 else built.fortification)
  {
  }
}
