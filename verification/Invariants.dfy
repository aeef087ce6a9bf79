/** What every tick keeps: unique standing armies in known places, and matching ownership records. */
module Invariants {
  import opened Collections
  import opened Ordering
  import opened Domain
  import opened Casualties
  import opened Phases
  import opened BuildFacts
  import opened MovementFacts
  import opened ControlFacts
  import opened AttritionFacts

  // ---- the predicates ----

  /** Stationed in a known city, or under way to one with time left. */
  ghost predicate Placed(a: Army, cities: set<CityId>) {
    || (a.location.Some? && a.location.value in cities && a.destination == None && a.path == None)
    || (a.location == None && a.destination.Some? && a.destination.value in cities
        && a.path == Some([a.destination.value]) && 0 < a.ticksRemaining)
  }

  ghost predicate ArmyOk(a: Army, cities: set<CityId>, players: set<PlayerId>) {
    a.owner in players && 0 < a.troops && Placed(a, cities)
  }

  ghost predicate ArmiesOk(armies: seq<Army>, cities: set<CityId>, players: set<PlayerId>) {
    forall a :: a in armies ==> ArmyOk(a, cities, players)
  }

  /** One item per track, each unfinished and above the level already built. */
  ghost predicate QueueOk(city: City) {
    && (forall i :: 0 <= i < |city.queue| ==>
          0 < city.queue[i].ticksRemaining && city.upgrades.Get(city.queue[i].track) < city.queue[i].tier)
    && (forall i, j :: 0 <= i < j < |city.queue| ==> city.queue[i].track != city.queue[j].track)
  }

  ghost predicate QueuesOk(s: Snapshot) {
    forall c :: c in s.cities ==> QueueOk(s.cities[c])
  }

  /** All that the resolver needs of a state to run its phases. */
  ghost predicate TickReady(s: Snapshot) {
    UniqueIds(s.armies) && AllStanding(s.armies) && ListsMatch(s) && OwnersKnown(s)
  }

  // ---- frames ----

  ghost predicate SameOwnership(s: Snapshot, t: Snapshot) {
    && t.cities.Keys == s.cities.Keys && t.players.Keys == s.players.Keys
    && (forall c :: c in s.cities ==> t.cities[c].owner == s.cities[c].owner)
    && (forall p :: p in s.players ==> t.players[p].citiesOwned == s.players[p].citiesOwned)
  }

  lemma OwnershipKept(s: Snapshot, t: Snapshot)
    requires SameOwnership(s, t)
    ensures ListsMatch(s) ==> ListsMatch(t)
    ensures OwnersKnown(s) ==> OwnersKnown(t)
  {
    forall p ensures OwnedCities(t.cities, p) == OwnedCities(s.cities, p) { }
  }

  lemma {:induction false} RecruitAllOwnership(s: Snapshot, orders: seq<RecruitmentOrder>)
    ensures SameOwnership(s, RecruitAll(s, orders))
  {
    if orders != [] { RecruitAllOwnership(s, orders[..|orders| - 1]); }
  }

  lemma BuildOwnership(s: Snapshot, orders: OrderBatch)
    ensures SameOwnership(s, BuildPhase(s, orders))
  {
    var advanced := QueuesAdvanced(s);
    RecruitAllOwnership(advanced, Sort(RecruitOrder(advanced.cities), orders.recruitment));
  }

  // ---- armies ----

  lemma AddTroopsKeeps(armies: seq<Army>, id: ArmyId, n: int, cities: set<CityId>, players: set<PlayerId>)
    requires ArmiesOk(armies, cities, players) && 0 < n
    ensures ArmiesOk(FilterMap(AddTroops(id, n), armies), cities, players)
  {
    forall b | b in FilterMap(AddTroops(id, n), armies) ensures ArmyOk(b, cities, players) {
      FilterMapMember(AddTroops(id, n), armies, b);
      var a :| a in armies && AddTroops(id, n)(a) == Some(b);
      assert ArmyOk(a, cities, players);
    }
  }

  lemma ReinforceKeeps(armies: seq<Army>, p: PlayerId, c: CityId, n: int, cities: set<CityId>, players: set<PlayerId>)
    requires UniqueIds(armies) && 0 < n
    ensures UniqueIds(Reinforce(armies, p, c, n))
    ensures AllStanding(armies) ==> AllStanding(Reinforce(armies, p, c, n))
    ensures ArmiesOk(armies, cities, players) && c in cities && p in players
      ==> ArmiesOk(Reinforce(armies, p, c, n), cities, players)
  {
    if GroupAt(armies, p, c) != [] {
      var id := LeastIdAt(armies, p, c);
      AddTroopsTotal(armies, id, n);
      if ArmiesOk(armies, cities, players) { AddTroopsKeeps(armies, id, n, cities, players); }
    } else {
      UniqueIdsAppend(armies, Raised(armies, p, c, n));
    }
  }

  lemma {:induction false} RecruitKeeps(s: Snapshot, orders: seq<RecruitmentOrder>)
    requires UniqueIds(s.armies)
    ensures var r := RecruitAll(s, orders);
      && UniqueIds(r.armies)
      && (AllStanding(s.armies) ==> AllStanding(r.armies))
      && (ArmiesOk(s.armies, s.cities.Keys, s.players.Keys) ==> ArmiesOk(r.armies, s.cities.Keys, s.players.Keys))
  {
    if orders != [] {
      var r, o := RecruitAll(s, orders[..|orders| - 1]), orders[|orders| - 1];
      RecruitKeeps(s, orders[..|orders| - 1]);
      RecruitFrame(s, orders[..|orders| - 1]);
      match Payer(r.cities, r.players, o.city)
      case None =>
      case Some(p) => ReinforceKeeps(r.armies, p, o.city, o.troops, s.cities.Keys, s.players.Keys);
    }
  }

  lemma BuildKeepsArmies(s: Snapshot, orders: OrderBatch)
    requires UniqueIds(s.armies)
    ensures var t := BuildPhase(s, orders);
      && UniqueIds(t.armies)
      && (AllStanding(s.armies) ==> AllStanding(t.armies))
      && (ArmiesOk(s.armies, s.cities.Keys, s.players.Keys) ==> ArmiesOk(t.armies, s.cities.Keys, s.players.Keys))
  {
    var advanced := QueuesAdvanced(s);
    RecruitKeeps(advanced, Sort(RecruitOrder(advanced.cities), orders.recruitment));
  }

  lemma PassStanding(f: Army -> Option<Army>, armies: seq<Army>)
    requires forall a :: a in armies && f(a).Some? ==> 0 < f(a).value.troops
    ensures AllStanding(FilterMap(f, armies))
  {
    forall b | b in FilterMap(f, armies) ensures 0 < b.troops {
      FilterMapMember(f, armies, b);
    }
  }

  lemma MovementKeepsArmies(s: Snapshot, orders: OrderBatch, m: MapDefinition)
    requires UniqueIds(s.armies) && AllStanding(s.armies)
    ensures UniqueIds(MovementPhase(s, orders, m).armies) && AllStanding(MovementPhase(s, orders, m).armies)
  {
    TransitKeepsIds(s.armies);
    PassStanding(STEP_TRANSIT, s.armies);
    var arrived := FilterMap(STEP_TRANSIT, s.armies);
    DepartKeepsIds(arrived, orders.movements, m);
    forall a | a in arrived ensures 0 < Departing(orders.movements, m)(a).value.troops { MoveKeepsId(a, orders.movements, m); }
    PassStanding(Departing(orders.movements, m), arrived);
  }

  lemma SurviveKeeps(loss: Army -> int, armies: seq<Army>)
    requires UniqueIds(armies)
    ensures UniqueIds(FilterMap(Survives(loss), armies)) && AllStanding(FilterMap(Survives(loss), armies))
  {
    PassKeepsIds(Survives(loss), armies);
    PassStanding(Survives(loss), armies);
  }

  // ---- control ----

  lemma ControlKeepsOwnership(s: Snapshot)
    requires ListsMatch(s) && OwnersKnown(s)
    ensures ListsMatch(ControlTransferred(s)) && OwnersKnown(ControlTransferred(s))
  {
    var t := ControlTransferred(s);
    forall p | p in t.players
      ensures Distinct(t.players[p].citiesOwned) && Elements(t.players[p].citiesOwned) == OwnedCities(t.cities, p)
    {
      RevisedElements(s.players[p].citiesOwned, Lost(s, p), Gained(s, p));
      forall c ensures c in OwnedCities(t.cities, p) <==> c in (OwnedCities(s.cities, p) - Lost(s, p)) + Gained(s, p) { }
    }
  }

  // ---- readiness through the tick ----

  ghost function AfterMovement(s: Snapshot, orders: OrderBatch, m: MapDefinition): Snapshot {
    MovementPhase(BuildPhase(ResourcePhase(s), orders), orders, m)
  }

  lemma ReadyForCombat(s: Snapshot, orders: OrderBatch, m: MapDefinition)
    requires TickReady(s)
    ensures TickReady(ResourcePhase(s)) && TickReady(BuildPhase(ResourcePhase(s), orders)) && TickReady(AfterMovement(s, orders, m))
  {
    var a := ResourcePhase(s);
    var b := BuildPhase(a, orders);
    OwnershipKept(s, a);
    BuildOwnership(a, orders);
    OwnershipKept(a, b);
    BuildKeepsArmies(a, orders);
    MovementKeepsArmies(b, orders, m);
    OwnershipKept(b, AfterMovement(s, orders, m));
  }

  lemma ReadyForSiege(s: Snapshot, orders: OrderBatch, m: MapDefinition)
    requires TickReady(s)
    ensures TickReady(CombatPhase(AfterMovement(s, orders, m)))
  {
    ReadyForCombat(s, orders, m);
    var t := AfterMovement(s, orders, m);
    SurviveKeeps(CombatLoss(t), t.armies);
    OwnershipKept(t, Fought(t));
    ControlKeepsOwnership(Fought(t));
  }
}
