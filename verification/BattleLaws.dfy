/** What a battle costs, in numbers: the owner's bonus, the walls, and a tenth of the other side's strength. */
module BattleLaws {
  import opened Collections
  import opened Domain
  import opened Casualties
  import opened Phases
  import opened CombatFacts
  import opened TroopLedger

  // ---- troops that stand in a city ----

  /** One player's troops in a city, armies under way not counted. */
  function Standing(armies: seq<Army>, p: PlayerId, c: CityId): int {
    if armies == [] then 0 else
      var a := armies[|armies| - 1];
      Standing(armies[..|armies| - 1], p, c) + if a.owner == p && a.location == Some(c) && a.destination == None then a.troops else 0
  }

  /** Exactly these players have an army standing in the city. */
  ghost predicate MetBy(armies: seq<Army>, c: CityId, players: set<PlayerId>) {
    && (forall a :: a in armies && a.location == Some(c) && a.destination == None ==> a.owner in players)
    && (forall p :: p in players ==> exists a :: a in armies && a.owner == p && a.location == Some(c) && a.destination == None)
  }

  lemma {:induction false} StandingIsGroup(armies: seq<Army>, p: PlayerId, c: CityId)
    ensures Standing(armies, p, c) == TroopsAt(armies, p, c)
  {
    if armies != [] {
      var init, a := armies[..|armies| - 1], armies[|armies| - 1];
      StandingIsGroup(init, p, c);
      if StationedOf(p, c)(a) {
        SumByConcat(TROOPS, GroupAt(init, p, c), [a]);
        SumOfOne(TROOPS, a);
      }
    }
  }

  lemma MetAreOccupants(armies: seq<Army>, c: CityId, players: set<PlayerId>)
    requires MetBy(armies, c, players)
    ensures Occupants(armies, c) == players
  {
    forall p ensures p in Occupants(armies, c) <==> p in players {
      if p in players {
        var a :| a in armies && a.owner == p && a.location == Some(c) && a.destination == None;
        assert Stationed(a, c);
      }
    }
  }

  /** What is left standing when no army loses more than it has. */
  lemma {:induction false} StandingAfter(armies: seq<Army>, loss: Army -> int, p: PlayerId, c: CityId)
    requires forall a :: a in armies ==> 0 <= loss(a) <= a.troops
    ensures Standing(FilterMap(Survives(loss), armies), p, c) == Standing(armies, p, c) - SumBy(LossHere(loss, p, c), armies)
  {
    if armies != [] {
      var init, a := armies[..|armies| - 1], armies[|armies| - 1];
      assert a in armies && armies == init + [a];
      StandingAfter(init, loss, p, c);
      var left := FilterMap(Survives(loss), init);
      if Survives(loss)(a).Some? { assert (left + [Survives(loss)(a).value])[..|left|] == left; }
    }
  }

  lemma LeftInBattle(s: Snapshot, p: PlayerId, c: CityId)
    requires UniqueIds(s.armies) && AllStanding(s.armies) && c in s.cities && Contested(s.armies, c)
    ensures Standing(Fought(s).armies, p, c) == Standing(s.armies, p, c) - CasualtiesAt(s, p, c)
  {
    forall a | a in s.armies ensures 0 <= CombatLoss(s)(a) <= a.troops { CombatLossBounded(s, a); }
    StandingAfter(s.armies, CombatLoss(s), p, c);
    GroupLoss(s, p, c);
  }

  // ---- two sides ----

  lemma OneOpponent(s: Snapshot, p: PlayerId, q: PlayerId, c: CityId)
    requires c in s.cities && MetBy(s.armies, c, {p, q}) && p != q
    ensures Contested(s.armies, c) && Opposition(s, p, c) == StrengthAt(s, q, c)
  {
    MetAreOccupants(s.armies, c, {p, q});
    OccupantsContested(s.armies, c);
    assert |{p, q}| == 2;
    assert Occupants(s.armies, c) - {p} == {} + {q};
    SumOverEmpty(StrengthOf(s, c));
    SumOverAdd(StrengthOf(s, c), {}, q);
  }

  lemma {:induction false} StandingNonNegative(armies: seq<Army>, p: PlayerId, c: CityId)
    requires AllStanding(armies)
    ensures 0 <= Standing(armies, p, c)
  {
    if armies != [] {
      assert armies[|armies| - 1] in armies;
      StandingNonNegative(armies[..|armies| - 1], p, c);
    }
  }

  /** Troops of the city's owner are worth a fifth more, and more again behind walls. */
  function Walled(troops: int, tier: Tier): int {
    if tier == 0 then troops * 120 / 100
    else if tier == 1 then troops * 156 / 100
    else if tier == 2 then troops * 204 / 100
    else troops * 300 / 100
  }

  /**
   * An owner meets one attacker in its city: it loses a tenth of the attacker's bare troops, the attacker a tenth of the
   * owner's troops raised by 12/10 and by 10, 13, 17 or 25 tenths for its walls; neither loses more than it has there.
   */
  lemma OwnerMeetsAttacker(s: Snapshot, c: CityId, p: PlayerId, q: PlayerId)
    requires UniqueIds(s.armies) && AllStanding(s.armies)
    requires c in s.cities && s.cities[c].owner == Some(p) && p != q && MetBy(s.armies, c, {p, q})
    ensures var mine, theirs := Standing(s.armies, p, c), Standing(s.armies, q, c);
      var tenths := [10, 13, 17, 25][s.cities[c].upgrades.fortification];
      && Standing(Fought(s).armies, p, c) == mine - Min(mine, theirs / 10)
      && Standing(Fought(s).armies, q, c) == theirs - Min(theirs, mine * 12 * tenths / 100 / 10)
  {
    var mine, theirs, tier := Standing(s.armies, p, c), Standing(s.armies, q, c), s.cities[c].upgrades.fortification;
    StandingIsGroup(s.armies, p, c);
    StandingIsGroup(s.armies, q, c);
    StandingNonNegative(s.armies, p, c);
    StandingNonNegative(s.armies, q, c);
    OneOpponent(s, p, q, c);
    assert {q, p} == {p, q};
    OneOpponent(s, q, p, c);
    LeftInBattle(s, p, c);
    LeftInBattle(s, q, c);
    WallsAsTenths(mine, tier);
    CasualtiesAsMin(mine, theirs);
    CasualtiesAsMin(theirs, Walled(mine, tier));
  }

  lemma WallsAsTenths(troops: int, tier: Tier)
    requires 0 <= troops
    ensures EffectiveStrength(troops, true, tier) == Walled(troops, tier) == troops * 12 * [10, 13, 17, 25][tier] / 100
    ensures 0 <= Walled(troops, tier)
  {
  }

  lemma CasualtiesAsMin(troops: int, opposing: int)
    requires 0 <= troops && 0 <= opposing
    ensures CasualtiesFrom(troops, opposing) == Min(troops, opposing / 10)
  {
  }

  /** Two players meet in a city that neither owns: each loses a tenth of the other's bare troops. */
  lemma OutsidersMeet(s: Snapshot, c: CityId, p: PlayerId, q: PlayerId)
    requires UniqueIds(s.armies) && AllStanding(s.armies)
    requires c in s.cities && p != q && MetBy(s.armies, c, {p, q})
    requires s.cities[c].owner != Some(p) && s.cities[c].owner != Some(q)
    ensures var mine, theirs := Standing(s.armies, p, c), Standing(s.armies, q, c);
      Standing(Fought(s).armies, p, c) == mine - Min(mine, theirs / 10)
  {
    StandingIsGroup(s.armies, p, c);
    StandingIsGroup(s.armies, q, c);
    StandingNonNegative(s.armies, p, c);
    StandingNonNegative(s.armies, q, c);
    OneOpponent(s, p, q, c);
    LeftInBattle(s, p, c);
    CasualtiesAsMin(Standing(s.armies, p, c), Standing(s.armies, q, c));
  }

  /** What a player's troops in a city count for against the others. */
  ghost function Worth(s: Snapshot, c: CityId): PlayerId -> int {
    (q: PlayerId) =>
      if c !in s.cities then 0
      else if s.cities[c].owner == Some(q) then Standing(s.armies, q, c) * 12 * [10, 13, 17, 25][s.cities[c].upgrades.fortification] / 100
      else Standing(s.armies, q, c)
  }

  lemma WorthIsStrength(s: Snapshot, c: CityId, q: PlayerId)
    requires AllStanding(s.armies)
    ensures Worth(s, c)(q) == StrengthOf(s, c)(q) && 0 <= Worth(s, c)(q)
  {
    StandingIsGroup(s.armies, q, c);
    StandingNonNegative(s.armies, q, c);
    if c in s.cities { WallsAsTenths(Standing(s.armies, q, c), s.cities[c].upgrades.fortification); }
  }

  /** However many players meet in a city, each loses a tenth of what all the others count for together, at most all it has. */
  lemma EveryoneMeets(s: Snapshot, c: CityId, players: set<PlayerId>, p: PlayerId)
    requires UniqueIds(s.armies) && AllStanding(s.armies)
    requires c in s.cities && MetBy(s.armies, c, players) && p in players && |players| > 1
    ensures Standing(Fought(s).armies, p, c)
      == Standing(s.armies, p, c) - Min(Standing(s.armies, p, c), SumOver(Worth(s, c), players - {p}) / 10)
  {
    MetAreOccupants(s.armies, c, players);
    OccupantsContested(s.armies, c);
    LeftInBattle(s, p, c);
    forall q | q in players - {p} ensures Worth(s, c)(q) == StrengthOf(s, c)(q) && 0 <= Worth(s, c)(q) { WorthIsStrength(s, c, q); }
    SumOverCongruent(Worth(s, c), StrengthOf(s, c), players - {p});
    SumOverNonNegative(Worth(s, c), players - {p});
    StandingIsGroup(s.armies, p, c);
    StandingNonNegative(s.armies, p, c);
    CasualtiesAsMin(Standing(s.armies, p, c), SumOver(Worth(s, c), players - {p}));
  }

  // ---- better walls ----

  ghost function WithWalls(s: Snapshot, c: CityId, tier: Tier): Snapshot
    requires c in s.cities
  {
    s.(cities := s.cities[c := s.cities[c].(upgrades := s.cities[c].upgrades.(fortification := tier))])
  }

  lemma MoreTenths(troops: int, low: Tier, high: Tier)
    requires 0 <= troops && low <= high
    ensures troops * 12 * [10, 13, 17, 25][low] / 100 / 10 <= troops * 12 * [10, 13, 17, 25][high] / 100 / 10
  {
    WallsAsTenths(troops, low);
    WallsAsTenths(troops, high);
  }

  /** Better walls never spare the attacker anything and make no difference to the owner's own losses. */
  lemma BetterWalls(s: Snapshot, c: CityId, p: PlayerId, q: PlayerId, tier: Tier)
    requires UniqueIds(s.armies) && AllStanding(s.armies)
    requires c in s.cities && s.cities[c].owner == Some(p) && p != q && MetBy(s.armies, c, {p, q})
    requires s.cities[c].upgrades.fortification <= tier
    ensures Standing(Fought(WithWalls(s, c, tier)).armies, p, c) == Standing(Fought(s).armies, p, c)
    ensures Standing(Fought(WithWalls(s, c, tier)).armies, q, c) <= Standing(Fought(s).armies, q, c)
  {
    OwnerMeetsAttacker(s, c, p, q);
    OwnerMeetsAttacker(WithWalls(s, c, tier), c, p, q);
    StandingNonNegative(s.armies, p, c);
    MoreTenths(Standing(s.armies, p, c), s.cities[c].upgrades.fortification, tier);
  }

  // ---- a battle ----

  /** A hundred of p's troops and a hundred of q's in p's city. */
  function Clash(tier: Tier): Snapshot {
    Snapshot(0, map["york" := City(Some("p"), 1, Resources(1, 1, 1), Upgrades(0, 0, tier), 0, [])],
             [Army("a", "p", 100, Some("york"), None, None, 0), Army("b", "q", 100, Some("york"), None, None, 0)],
             map[], Victory(None, 0, 1, None))
  }

  lemma ClashStands(tier: Tier)
    ensures Standing(Clash(tier).armies, "p", "york") == 100 && Standing(Clash(tier).armies, "q", "york") == 100
    ensures MetBy(Clash(tier).armies, "york", {"p", "q"})
  {
    var armies := Clash(tier).armies;
    StandingOfTwo(armies[0], armies[1], "p", "york");
    StandingOfTwo(armies[0], armies[1], "q", "york");
    assert armies == [armies[0], armies[1]];
    assert armies[0] in armies && armies[1] in armies;
  }

  lemma StandingOfTwo(a: Army, b: Army, p: PlayerId, c: CityId)
    ensures Standing([a, b], p, c) == (if a.owner == p && a.location == Some(c) && a.destination == None then a.troops else 0)
      + if b.owner == p && b.location == Some(c) && b.destination == None then b.troops else 0
  {
    assert [a, b][..1] == [a] && [a][..0] == [];
    assert Standing([], p, c) == 0;
    assert Standing([a], p, c) == if a.owner == p && a.location == Some(c) && a.destination == None then a.troops else 0;
  }

  /** A hundred meet a hundred: the owner loses ten, the attacker twelve, fifteen, twenty or thirty by the tier of the walls. */
  lemma ClashEnds(tier: Tier)
    ensures Standing(Fought(Clash(tier)).armies, "p", "york") == 90
    ensures Standing(Fought(Clash(tier)).armies, "q", "york") == 100 - [12, 15, 20, 30][tier]
  {
    ClashStands(tier);
    OwnerMeetsAttacker(Clash(tier), "york", "p", "q");
    HundredLose(tier);
  }

  lemma HundredLose(tier: Tier)
    ensures Min(100, 100 / 10) == 10 && Min(100, 100 * 12 * [10, 13, 17, 25][tier] / 100 / 10) == [12, 15, 20, 30][tier]
  {
  }

  // ---- control ----

  /** After the fighting a city belongs to the player whose armies alone stand in it, and otherwise to whom it belonged before. */
  lemma ControlFalls(s: Snapshot, c: CityId)
    requires c in s.cities
    ensures forall p :: p in s.players && MetBy(s.armies, c, {p}) ==> ControlTransferred(s).cities[c].owner == Some(p)
    ensures (forall p :: p in s.players ==> !MetBy(s.armies, c, {p})) ==> ControlTransferred(s).cities[c].owner == s.cities[c].owner
  {
    forall p | p in s.players ensures MetBy(s.armies, c, {p}) <==> Occupants(s.armies, c) == {p} {
      if MetBy(s.armies, c, {p}) { MetAreOccupants(s.armies, c, {p}); }
      if Occupants(s.armies, c) == {p} { SoleOccupant(s.armies, c, p); }
    }
  }

  lemma SoleOccupant(armies: seq<Army>, c: CityId, p: PlayerId)
    requires Occupants(armies, c) == {p}
    ensures MetBy(armies, c, {p})
  {
    forall a | a in armies && a.location == Some(c) && a.destination == None ensures a.owner in {p} {
      assert Stationed(a, c) && a.owner in Occupants(armies, c);
    }
    assert p in Occupants(armies, c);
    var a :| a in armies && Stationed(a, c) && a.owner == p;
  }
}
