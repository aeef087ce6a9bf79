/** Where troops go over a whole tick: raised by recruitment, lost in contested cities, lost to hunger. */
module TroopLedger {
  import opened Collections
  import opened Ordering
  import opened Domain
  import opened Casualties
  import opened Phases
  import opened BuildFacts
  import opened MovementFacts
  import opened CombatFacts
  import opened Invariants
  import opened RunInvariant
  import opened Economy

  ghost function Troops(armies: seq<Army>, p: PlayerId): int {
    SumBy(OwnTroops(p), armies)
  }

  // ---- recruitment ----

  lemma {:induction false} ReplacedTroops(armies: seq<Army>, i: nat, a: Army, p: PlayerId)
    requires i < |armies|
    ensures Troops(armies[i := a], p) == Troops(armies, p) - OwnTroops(p)(armies[i]) + OwnTroops(p)(a)
  {
    var last := |armies| - 1;
    if i == last {
      assert armies[i := a][..last] == armies[..last];
    } else {
      assert armies[i := a][..last] == armies[..last][i := a];
      ReplacedTroops(armies[..last], i, a, p);
    }
  }

  lemma ReinforceTroops(armies: seq<Army>, q: PlayerId, c: CityId, n: int, p: PlayerId)
    requires UniqueIds(armies)
    ensures Troops(Reinforce(armies, q, c, n), p) == Troops(armies, p) + if p == q then n else 0
  {
    if GroupAt(armies, q, c) != [] {
      var id := LeastIdAt(armies, q, c);
      var i := LeastAt(armies, q, c);
      AddTroopsAt(armies, i, n);
      ReplacedTroops(armies, i, armies[i].(troops := armies[i].troops + n), p);
    } else {
      var raised := Raised(armies, q, c, n);
      assert (armies + [raised])[..|armies|] == armies;
    }
  }

  /** The army that recruits join stands in the city and belongs to the recruiting player. */
  lemma LeastAt(armies: seq<Army>, q: PlayerId, c: CityId) returns (i: nat)
    requires GroupAt(armies, q, c) != []
    ensures i < |armies| && armies[i].id == LeastIdAt(armies, q, c) && armies[i].owner == q && Stationed(armies[i], c)
  {
    IdOrderIsTotal();
    var group := GroupAt(armies, q, c);
    SortSorts(ID_ORDER, group);
    var a := Sort(ID_ORDER, group)[0];
    assert a in Sort(ID_ORDER, group);
    FilterMember(StationedOf(q, c), armies, a);
    i :| 0 <= i < |armies| && armies[i] == a;
  }

  function RecruitsFor(cities: map<CityId, City>, players: set<PlayerId>, p: PlayerId): RecruitmentOrder -> int {
    (o: RecruitmentOrder) => if o.city in cities && cities[o.city].owner == Some(p) && p in players then o.troops else 0
  }

  lemma {:induction false} RecruitAllTroops(s: Snapshot, orders: seq<RecruitmentOrder>, p: PlayerId)
    requires UniqueIds(s.armies)
    ensures Troops(RecruitAll(s, orders).armies, p) == Troops(s.armies, p) + SumBy(RecruitsFor(s.cities, s.players.Keys, p), orders)
  {
    if orders != [] {
      var init, o := orders[..|orders| - 1], orders[|orders| - 1];
      RecruitAllTroops(s, init, p);
      RecruitKeeps(s, init);
      RecruitFrame(s, init);
      var r := RecruitAll(s, init);
      match Payer(r.cities, r.players, o.city)
      case None =>
      case Some(q) => ReinforceTroops(r.armies, q, o.city, o.troops, p);
    }
  }

  /** Troops that recruitment raises for a player: those ordered in cities the player owns. */
  ghost function Raises(s: Snapshot, orders: OrderBatch, p: PlayerId): int {
    SumBy(RecruitsFor(s.cities, s.players.Keys, p), orders.recruitment)
  }

  lemma BuildTroops(s: Snapshot, orders: OrderBatch, p: PlayerId)
    requires UniqueIds(s.armies)
    ensures Troops(BuildPhase(s, orders).armies, p) == Troops(s.armies, p) + Raises(s, orders, p)
  {
    var advanced := QueuesAdvanced(s);
    var sorted := Sort(RecruitOrder(advanced.cities), orders.recruitment);
    RecruitAllTroops(advanced, sorted, p);
    SortKeepsSum(RecruitsFor(advanced.cities, s.players.Keys, p), RecruitOrder(advanced.cities), orders.recruitment);
    SumByCongruent(RecruitsFor(advanced.cities, s.players.Keys, p), RecruitsFor(s.cities, s.players.Keys, p), orders.recruitment);
  }

  lemma {:induction false} SortKeepsSum<T>(weight: T -> int, le: (T, T) -> bool, xs: seq<T>)
    ensures SumBy(weight, Sort(le, xs)) == SumBy(weight, xs)
  {
    if xs != [] {
      var head := [xs[0]];
      SortKeepsSum(weight, le, xs[1..]);
      InsertKeepsSum(weight, le, xs[0], Sort(le, xs[1..]));
      assert xs == head + xs[1..];
      SumByConcat(weight, head, xs[1..]);
      SumOfOne(weight, xs[0]);
    }
  }

  lemma SumOfOne<T>(weight: T -> int, x: T)
    ensures SumBy(weight, [x]) == weight(x)
  {
    assert [x][..0] == [];
    assert SumBy(weight, []) == 0;
  }

  lemma {:induction false} InsertKeepsSum<T>(weight: T -> int, le: (T, T) -> bool, x: T, xs: seq<T>)
    ensures SumBy(weight, Insert(le, x, xs)) == SumBy(weight, xs) + weight(x)
  {
    SumOfOne(weight, x);
    if xs == [] || le(x, xs[0]) {
      SumByConcat(weight, [x], xs);
    } else {
      InsertKeepsSum(weight, le, x, xs[1..]);
      SumOfOne(weight, xs[0]);
      SumByConcat(weight, [xs[0]], Insert(le, x, xs[1..]));
      assert xs == [xs[0]] + xs[1..];
      SumByConcat(weight, [xs[0]], xs[1..]);
    }
  }

  // ---- movement ----

  lemma MovementTroops(s: Snapshot, orders: OrderBatch, m: MapDefinition, p: PlayerId)
    ensures Troops(MovementPhase(s, orders, m).armies, p) == Troops(s.armies, p)
  {
    var arrived := FilterMap(STEP_TRANSIT, s.armies);
    SumByFilterMap(STEP_TRANSIT, OwnTroops(p), OwnTroops(p), s.armies);
    forall a | a in arrived ensures OwnTroops(p)(a) == OwnTroops(p)(Departing(orders.movements, m)(a).value) {
      MoveKeepsId(a, orders.movements, m);
    }
    SumByFilterMap(Departing(orders.movements, m), OwnTroops(p), OwnTroops(p), arrived);
  }

  // ---- losses ----

  function OwnLoss(loss: Army -> int, p: PlayerId): Army -> int {
    (a: Army) => if a.owner == p then loss(a) else 0
  }

  function OwnRemainder(loss: Army -> int, p: PlayerId): Army -> int {
    (a: Army) => if a.owner == p then a.troops - loss(a) else 0
  }

  /** When no army loses more than it has, what is left is what there was less the losses. */
  lemma LossesLeave(armies: seq<Army>, loss: Army -> int, p: PlayerId)
    requires forall a :: a in armies ==> 0 <= loss(a) <= a.troops
    ensures Troops(FilterMap(Survives(loss), armies), p) == Troops(armies, p) - SumBy(OwnLoss(loss, p), armies)
  {
    SumByFilterMap(Survives(loss), OwnTroops(p), OwnRemainder(loss, p), armies);
    SumByAdd(OwnTroops(p), OwnRemainder(loss, p), OwnLoss(loss, p), armies);
  }

  // ---- combat ----

  /** A player's losses in one city: its casualties there if the city is contested. */
  ghost function LostIn(s: Snapshot, p: PlayerId): CityId -> int {
    (c: CityId) => if c in s.cities && Contested(s.armies, c) then CasualtiesAt(s, p, c) else 0
  }

  ghost function ContestedCities(s: Snapshot): set<CityId> {
    set c | c in s.cities && Contested(s.armies, c)
  }

  function LossWithin(loss: Army -> int, p: PlayerId, cities: set<CityId>): Army -> int {
    (a: Army) => if a.owner == p && a.location.Some? && a.destination == None && a.location.value in cities then loss(a) else 0
  }

  function LossHere(loss: Army -> int, p: PlayerId, c: CityId): Army -> int {
    (a: Army) => if a.owner == p && Stationed(a, c) then loss(a) else 0
  }

  /** One city's group loses exactly its casualties, shared out by largest remainder. */
  lemma GroupLoss(s: Snapshot, p: PlayerId, c: CityId)
    requires UniqueIds(s.armies) && AllStanding(s.armies) && c in s.cities
    ensures SumBy(LossHere(CombatLoss(s), p, c), s.armies) == LostIn(s, p)(c)
  {
    var group := GroupAt(s.armies, p, c);
    GroupFacts(s.armies, p, c);
    SumByFilter(CombatLoss(s), StationedOf(p, c), LossHere(CombatLoss(s), p, c), s.armies);
    if Contested(s.armies, c) {
      var total := CasualtiesAt(s, p, c);
      forall a | a in group ensures CombatLoss(s)(a) == Loss(group, total)(a) { DueInBattle(s, c, p, a); }
      SumByCongruent(CombatLoss(s), Loss(group, total), group);
      CasualtiesBounded(s, p, c);
      LossesExact(group, total);
    } else {
      SumByCongruent(CombatLoss(s), NO_LOSS, group);
      SumOfNoLoss(group);
    }
  }

  /** Losses army by army are losses city by city. */
  lemma {:induction false} LossesByCity(armies: seq<Army>, loss: Army -> int, due: CityId -> int, p: PlayerId, cities: set<CityId>)
    requires forall c :: c in cities ==> SumBy(LossHere(loss, p, c), armies) == due(c)
    ensures SumBy(LossWithin(loss, p, cities), armies) == SumOver(due, cities)
  {
    if cities == {} {
      SumOverEmpty(due);
      SumByCongruent(LossWithin(loss, p, cities), NO_LOSS, armies);
      SumOfNoLoss(armies);
    } else {
      var c := Pick(cities);
      var rest := cities - {c};
      LossesByCity(armies, loss, due, p, rest);
      SumOverAdd(due, rest, c);
      assert rest + {c} == cities;
      SumByAdd(LossWithin(loss, p, cities), LossWithin(loss, p, rest), LossHere(loss, p, c), armies);
    }
  }

  /** In combat a player loses its casualties in each contested city and nothing anywhere else. */
  lemma CombatTroops(s: Snapshot, p: PlayerId)
    requires UniqueIds(s.armies) && AllStanding(s.armies)
    ensures Troops(Fought(s).armies, p) == Troops(s.armies, p) - SumOver(LostIn(s, p), ContestedCities(s))
  {
    forall a | a in s.armies ensures 0 <= CombatLoss(s)(a) <= a.troops { CombatLossBounded(s, a); }
    LossesLeave(s.armies, CombatLoss(s), p);
    OwnLossesByCity(s, p);
    SumOverSupport(LostIn(s, p), s.cities.Keys, ContestedCities(s));
  }

  lemma OwnLossesByCity(s: Snapshot, p: PlayerId)
    requires UniqueIds(s.armies) && AllStanding(s.armies)
    ensures SumBy(OwnLoss(CombatLoss(s), p), s.armies) == SumOver(LostIn(s, p), s.cities.Keys)
  {
    forall c | c in s.cities.Keys ensures SumBy(LossHere(CombatLoss(s), p, c), s.armies) == LostIn(s, p)(c) { GroupLoss(s, p, c); }
    LossesByCity(s.armies, CombatLoss(s), LostIn(s, p), p, s.cities.Keys);
    SumByCongruent(OwnLoss(CombatLoss(s), p), LossWithin(CombatLoss(s), p, s.cities.Keys), s.armies);
  }

  lemma CombatLossBounded(s: Snapshot, a: Army)
    requires UniqueIds(s.armies) && AllStanding(s.armies) && a in s.armies
    ensures 0 <= CombatLoss(s)(a) <= a.troops
  {
    if InBattle(s, a) {
      var c := a.location.value;
      GroupFacts(s.armies, a.owner, c);
      CasualtiesBounded(s, a.owner, c);
      LossAffordable(GroupAt(s.armies, a.owner, c), CasualtiesAt(s, a.owner, c), a);
    }
  }

  /** An army under way, or in a city with no enemy, comes out of combat as it was. */
  lemma NoFightNoLoss(s: Snapshot, a: Army)
    requires AllStanding(s.armies) && a in s.armies
    requires a.destination.Some? || a.location == None || !Contested(s.armies, a.location.value)
    ensures a in Fought(s).armies
  {
    assert Survives(CombatLoss(s))(a) == Some(a);
    FilterMapMember(Survives(CombatLoss(s)), s.armies, a);
  }

  // ---- hunger ----

  function IsOf(p: PlayerId): Army -> int {
    (a: Army) => if a.owner == p then 1 else 0
  }

  ghost function ArmyCount(armies: seq<Army>, p: PlayerId): int {
    SumBy(IsOf(p), armies)
  }

  lemma HungerTroops(armies: seq<Army>, starving: set<PlayerId>, p: PlayerId)
    requires AllStanding(armies)
    ensures Troops(FilterMap(Survives(HungerLoss(starving)), armies), p)
         == Troops(armies, p) - if p in starving then ArmyCount(armies, p) else 0
  {
    LossesLeave(armies, HungerLoss(starving), p);
    if p in starving {
      SumByCongruent(OwnLoss(HungerLoss(starving), p), IsOf(p), armies);
    } else {
      SumByCongruent(OwnLoss(HungerLoss(starving), p), NO_LOSS, armies);
      SumOfNoLoss(armies);
    }
  }

  // ---- the whole tick ----

  ghost function FallenInCombat(s: Snapshot, orders: OrderBatch, m: MapDefinition, p: PlayerId): int {
    var met := AfterMovement(s, orders, m);
    SumOver(LostIn(met, p), ContestedCities(met))
  }

  /** One troop for each army that came through combat, if the player's food stands at exactly zero. */
  ghost function FallenToHunger(s: Snapshot, orders: OrderBatch, m: MapDefinition, p: PlayerId): int
    requires p in NextState(s, orders, m).players
  {
    if NextState(s, orders, m).players[p].resources.food == 0 then ArmyCount(AfterCombat(s, orders, m).armies, p) else 0
  }

  /** Over a tick a player's troops change by what was recruited, less the fallen in combat, less the starved. */
  lemma TroopsOverTick(s: Snapshot, orders: OrderBatch, m: MapDefinition, p: PlayerId)
    requires TickReady(s) && p in s.players
    ensures p in NextState(s, orders, m).players
    ensures Troops(NextState(s, orders, m).armies, p)
         == Troops(s.armies, p) + Raises(s, orders, p) - FallenInCombat(s, orders, m, p) - FallenToHunger(s, orders, m, p)
  {
    var paid := ResourcePhase(s);
    var built := BuildPhase(paid, orders);
    var met := AfterMovement(s, orders, m);
    var fought := AfterCombat(s, orders, m);
    ReadyForCombat(s, orders, m);
    ReadyForSiege(s, orders, m);
    BuildTroops(paid, orders, p);
    MovementTroops(built, orders, m, p);
    CombatTroops(met, p);
    var starving := Starving(SiegePhase(fought, m).players);
    HungerTroops(fought.armies, starving, p);
    ResourcesSettled(s, orders, m, p);
    assert Raises(paid, orders, p) == Raises(s, orders, p);
    assert NextState(s, orders, m).armies == FilterMap(Survives(HungerLoss(starving)), fought.armies);
    StarvingIffEmpty(s, orders, m, p);
  }

  lemma StarvingIffEmpty(s: Snapshot, orders: OrderBatch, m: MapDefinition, p: PlayerId)
    requires p in s.players
    ensures p in NextState(s, orders, m).players
    ensures p in Starving(SiegePhase(AfterCombat(s, orders, m), m).players) <==>
      NextState(s, orders, m).players[p].resources.food == 0
  {
    KeysKept(s, orders, m);
  }
}
