/** The tick resolver: a match state that its phases update in place, one after the other. */
module Resolver {
  import opened Collections
  import opened Ordering
  import opened Naming
  import opened Domain
  import opened Casualties
  import opened Leadership
  import opened Phases
  import opened ResourceSteps
  import opened ResourceFacts
  import opened BuildFacts
  import opened MovementFacts
  import opened CombatFacts
  import opened CombatSteps
  import opened ControlFacts
  import opened SiegeSteps
  import opened VictorySteps
  import opened AttritionFacts
  import opened Invariants

  /** What the phases of one tick pass on to each other. */
  class PhaseState {
    var unpaid: set<CityId>
    var degraded: set<CityId>

    constructor ()
      ensures unpaid == {} && degraded == {}
    {
      unpaid, degraded := {}, {};
    }
  }

  /** One player's income: yields in, mouths and soldiers fed, fortifications paid. */
  method PlayerIncome(cities: map<CityId, City>, start: Resources, ids: seq<CityId>, troops: int, p: PlayerId,
                      ghost s: Snapshot)
    returns (updated: Resources, unpaid: set<CityId>)
    requires cities == s.cities && p in s.players && start == s.players[p].resources
    requires Distinct(ids) && Elements(ids) == OwnedCities(cities, p) && troops == SumBy(OwnTroops(p), s.armies)
    ensures updated == ResourcesAfterIncome(s, p) && unpaid == Upkeep(s, p).1
  {
    var income, population := CollectIncome(cities, start, ids);
    IncomeCollected(s, p, ids, income, population);
    var food := Max(0, income.food - population - troops);
    var money, unpaidIds := DeductUpkeep(cities, p, income.money);
    return Resources(food, income.production, money), unpaidIds;
  }

  /** Stores income player by player; stops at the first count the state model refuses. */
  method StoreIncome(cities: map<CityId, City>, start: map<PlayerId, Player>, idsByOwner: map<PlayerId, seq<CityId>>,
                     troopsByOwner: map<PlayerId, int>, ghost s: Snapshot)
    returns (ok: bool, players: map<PlayerId, Player>, unpaid: set<CityId>)
    requires cities == s.cities && start == s.players && idsByOwner.Keys == troopsByOwner.Keys == start.Keys
    requires forall p :: p in start ==> Distinct(idsByOwner[p]) && Elements(idsByOwner[p]) == OwnedCities(cities, p)
    requires forall p :: p in start ==> troopsByOwner[p] == SumBy(OwnTroops(p), s.armies)
    ensures ok <==> IncomeStorable(s)
    ensures ok ==> players == ResourcePhase(s).players && unpaid == UnpaidCities(s)
  {
    players, unpaid := start, {};
    var todo := players.Keys;
    assert start.Keys - todo == {};
    while todo != {}
      invariant todo <= start.Keys
      invariant IncomePending(s, players, todo)
      invariant unpaid == UnpaidAmong(s, start.Keys - todo)
    {
      var p :| p in todo;
      var updated, unpaidByPlayer := PlayerIncome(cities, players[p].resources, idsByOwner[p], troopsByOwner[p], p, s);
      if updated.food < 0 || updated.production < 0 || updated.money < 0 {
        return false, players, unpaid;
      }
      UnpaidStep(s, todo, p);
      IncomeStep(s, players, todo, p);
      unpaid := unpaid + unpaidByPlayer;
      players := players[p := WithResources(players[p], updated)];
      todo := todo - {p};
    }
    IncomeDone(s, players);
    UnpaidDone(s);
    ok := true;
  }

  class MatchState {
    var tick: nat
    var cities: map<CityId, City>
    var armies: seq<Army>
    var players: map<PlayerId, Player>
    var victory: Victory

    ghost function View(): Snapshot
      reads this
    {
      Snapshot(tick, cities, armies, players, victory)
    }

    constructor DeepCopy(original: MatchState)
      ensures View() == original.View()
    {
      tick, cities, armies := original.tick, original.cities, original.armies;
      players, victory := original.players, original.victory;
    }

    /** Income and upkeep; refuses (as the state model does) a count below zero. */
    method ResolveResourcePhase(phase: PhaseState) returns (ok: bool)
      modifies `players, phase
      ensures ok <==> IncomeStorable(old(View()))
      ensures ok ==> View() == ResourcePhase(old(View()))
      ensures ok ==> phase.unpaid == UnpaidCities(old(View())) && phase.degraded == {}
    {
      phase.unpaid, phase.degraded := {}, {};
      var idsByOwner := GroupCities(cities, players.Keys);
      var troopsByOwner := TallyTroops(armies, players.Keys);
      var updated, unpaid;
      ok, updated, unpaid := StoreIncome(cities, players, idsByOwner, troopsByOwner, View());
      players := updated;
      phase.unpaid := phase.unpaid + unpaid;
    }

    /** One tick of construction in every city; finished items raise their track. */
    method AdvanceBuildQueues()
      modifies `cities
      ensures View() == QueuesAdvanced(old(View()))
    {
      ghost var before := cities;
      var todo := cities.Keys;
      while todo != {}
        invariant todo <= before.Keys == cities.Keys
        invariant forall c :: c in before ==> cities[c] == if c in todo then before[c] else AdvanceQueue(before[c])
      {
        var c :| c in todo;
        var city := AdvanceCity(cities[c]);
        cities := cities[c := city];
        todo := todo - {c};
      }
      assert cities == map c | c in before :: AdvanceQueue(before[c]);
    }

    /** Recruits in processing order, each order paid for by the city's owner. */
    method ProcessRecruitmentOrders(orders: seq<RecruitmentOrder>) returns (ok: bool)
      requires UniqueIds(armies)
      modifies `players, `armies
      ensures ok <==> RecruitSortable(cities, orders)
      ensures View() == (if ok then Recruited(old(View()), orders) else old(View())) && UniqueIds(armies)
    {
      if orders == [] {
        return true;
      }
      RecruitSortIff(cities, orders);
      var attempt := TrySort(RecruitOrder(cities), OwnersComparable(cities), orders);
      if attempt == None {
        return false;
      }
      RecruitInOrder(attempt.value);
      ok := true;
    }

    method RecruitInOrder(sorted: seq<RecruitmentOrder>)
      requires UniqueIds(armies)
      modifies `players, `armies
      ensures View() == RecruitAll(old(View()), sorted) && UniqueIds(armies)
    {
      ghost var before := View();
      var names := set a | a in armies :: a.id;
      var i := 0;
      while i < |sorted|
        invariant 0 <= i <= |sorted|
        invariant View() == RecruitAll(before, sorted[..i])
        invariant names == Ids(armies) && UniqueIds(armies)
      {
        var o := sorted[i];
        RecruitStep(before, sorted, i);
        if Payer(cities, players, o.city).Some? {
          names := RecruitInto(cities[o.city].owner.value, o.city, o.troops, names);
        }
        i := i + 1;
      }
      assert sorted[..i] == sorted;
    }

    method RecruitInto(p: PlayerId, c: CityId, troops: Positive, names: set<ArmyId>) returns (updated: set<ArmyId>)
      requires UniqueIds(armies) && names == Ids(armies)
      requires Payer(cities, players, c) == Some(p)
      modifies `players, `armies
      ensures View() == RecruitOne(old(View()), RecruitmentOrder(c, troops))
      ensures UniqueIds(armies) && updated == Ids(armies)
    {
      updated := names;
      players := players[p := players[p].(resources := players[p].resources.Minus(RecruitBill(troops)))];
      var stationed := Sort(ID_ORDER, GroupAt(armies, p, c));
      IdOrderIsTotal();
      SortSorts(ID_ORDER, GroupAt(armies, p, c));
      if stationed != [] {
        FilterMember(StationedOf(p, c), armies, stationed[0]);
        var i :| 0 <= i < |armies| && armies[i] == stationed[0];
        AddTroopsAt(armies, i, troops);
        UniqueIdsUpdate(armies, i, armies[i].troops + troops);
        armies := armies[i := armies[i].(troops := armies[i].troops + troops)];
      } else {
        var id := NextFreeName(RecruitPrefix(p, c), names);
        var recruits := Army(id, p, troops, Some(c), None, None, 0);
        UniqueIdsAppend(armies, recruits);
        IdsAppend(armies, recruits);
        armies := armies + [recruits];
        updated := names + {id};
      }
    }

    /** Starts each accepted upgrade whose track was idle when the phase began. */
    method StartUpgradeOrders(orders: seq<UpgradeOrder>, start: map<CityId, City>)
      modifies `cities, `players
      ensures View() == UpgradesStarted(start, old(View()), orders)
    {
      ghost var before := View();
      var i := 0;
      while i < |orders|
        invariant 0 <= i <= |orders|
        invariant View() == UpgradeAll(start, before, orders[..i])
      {
        var o := orders[i];
        UpgradeAllStep(start, before, orders, i);
        var payer := Payer(cities, players, o.city);
        if o.track !in QueuedTracks(start, o.city) && payer.Some? {
          var p := payer.value;
          players := players[p := Debited(players[p], Production, UpgradeCost(o.track, o.target))];
          var item := QueueItem(o.track, o.target, BuildDuration(o.target));
          cities := cities[o.city := cities[o.city].(queue := cities[o.city].queue + [item])];
        }
        i := i + 1;
      }
      assert orders[..i] == orders;
      UpgradeAllClosed(start, before, orders);
    }

    /** Moves resources between players, debit before credit. */
    method ProcessTransferOrders(orders: seq<TransferOrder>)
      modifies `players
      ensures View() == Transferred(old(View()), orders)
    {
      ghost var before := View();
      var i := 0;
      while i < |orders|
        invariant 0 <= i <= |orders|
        invariant TransfersMade(before, players, orders[..i])
      {
        var o := orders[i];
        if o.sender.Some? && o.sender.value in players && o.recipient in players {
          TransferStep(before, players, orders, i);
          players := players[o.sender.value := Debited(players[o.sender.value], o.resource, o.amount)];
          players := players[o.recipient := Adjusted(players[o.recipient], o.resource, o.amount)];
        } else {
          TransferSkipped(before, players, orders, i);
        }
        i := i + 1;
      }
      assert orders[..i] == orders;
    }

    method ResolveBuildPhase(orders: OrderBatch) returns (ok: bool)
      requires UniqueIds(armies)
      modifies `cities, `players, `armies
      ensures ok <==> RecruitSortable(old(cities), orders.recruitment)
      ensures ok ==> View() == BuildPhase(old(View()), orders) && UniqueIds(armies)
    {
      var start := cities;
      AdvanceBuildQueues();
      SortableStays(start, cities, orders.recruitment);
      ok := ProcessRecruitmentOrders(orders.recruitment);
      if !ok {
        return;
      }
      StartUpgradeOrders(orders.upgrades, start);
      ProcessTransferOrders(orders.transfers);
    }

    /** Armies under way take one more step; those that arrive are stationed. */
    method AdvanceTransitArmies()
      modifies `armies
      ensures View() == old(View()).(armies := FilterMap(STEP_TRANSIT, old(armies)))
    {
      ghost var before := armies;
      var i := 0;
      while i < |armies|
        invariant 0 <= i <= |armies| == |before|
        invariant forall k :: 0 <= k < i ==> STEP_TRANSIT(before[k]) == Some(armies[k])
        invariant forall k :: i <= k < |armies| ==> armies[k] == before[k]
      {
        var army := armies[i];
        if army.destination != None {
          army := army.(ticksRemaining := army.ticksRemaining - 1);
          if army.ticksRemaining == 0 {
            army := army.(location := army.destination, destination := None, path := None);
          }
        }
        armies := armies[i := army];
        i := i + 1;
      }
      TransitDone(before, armies);
    }

    /** Sends off the ordered armies that stand in a city next to their destination. */
    method StartMovementOrders(orders: seq<MovementOrder>, m: MapDefinition)
      requires UniqueIds(armies)
      modifies `armies
      ensures View() == old(View()).(armies := FilterMap(Departing(orders, m), old(armies)))
      ensures UniqueIds(armies)
    {
      ghost var before := armies;
      var index := IndexById(armies);
      var i := 0;
      NothingDeparts(before, m);
      assert orders[..0] == [];
      while i < |orders|
        invariant 0 <= i <= |orders| && |armies| == |before|
        invariant armies == FilterMap(Departing(orders[..i], m), before)
      {
        var o := orders[i];
        if o.armyId in index {
          var k := index[o.armyId];
          DepartAt(before, orders, i, m, k);
          var departed := Depart(armies[k], o, m);
          armies := armies[k := departed];
        } else {
          DepartNobody(before, orders, i, m);
        }
        i := i + 1;
      }
      assert orders[..i] == orders;
      DepartKeepsIds(before, orders, m);
    }

    method ResolveMovementPhase(orders: OrderBatch, m: MapDefinition)
      requires UniqueIds(armies)
      modifies `armies
      ensures View() == MovementPhase(old(View()), orders, m) && UniqueIds(armies)
    {
      TransitKeepsIds(armies);
      AdvanceTransitArmies();
      StartMovementOrders(orders.movements, m);
    }

    /** Books losses city by city, then takes them off all armies at once. */
    method ResolveContestedCityCombat()
      requires UniqueIds(armies) && AllStanding(armies)
      modifies `armies
      ensures View() == Fought(old(View()))
    {
      ghost var before := View();
      var ledger: map<ArmyId, int> := map[];
      var todo := cities.Keys;
      ghost var done: set<CityId> := {};
      while todo != {}
        invariant todo <= cities.Keys && done !! todo && cities.Keys <= done + todo && done <= cities.Keys
        invariant View() == before && LedgerMatches(armies, CombatLoss(before), done, "", {}, ledger)
      {
        var c :| c in todo;
        ledger := BookOneCity(armies, ledger, done, before, c, cities[c]);
        todo := todo - {c};
        done := done + {c};
      }
      LedgerComplete(before, done, "", ledger);
      armies := ApplyLosses(armies, ledger, CombatLoss(before));
    }

    /** Hands each city to its only occupant, keeping every player's list in step. */
    method TransferUncontestedCityControl()
      requires ListsMatch(View())
      modifies `cities, `players
      ensures View() == ControlTransferred(old(View()))
    {
      ghost var before := View();
      var todo := cities.Keys;
      ghost var done: set<CityId> := {};
      ControlUnmoved(before);
      while todo != {}
        invariant todo <= before.cities.Keys && done !! todo && before.cities.Keys <= done + todo && done <= before.cities.Keys
        invariant ControlMoved(before, cities, players, done)
      {
        var c :| c in todo;
        SettleCity(c, before, done);
        todo := todo - {c};
        done := done + {c};
      }
      assert done == before.cities.Keys;
      ControlDone(before, cities, players);
    }

    method SettleCity(c: CityId, ghost before: Snapshot, ghost done: set<CityId>)
      requires ListsMatch(before) && ControlMoved(before, cities, players, done) && armies == before.armies
      requires c in before.cities && c !in done
      modifies `cities, `players
      ensures ControlMoved(before, cities, players, done + {c})
    {
      var occupying := set a | a in armies && Stationed(a, c) :: a.owner;
      if |occupying| != 1 {
        NoSoleOccupant(before, c);
        ControlStays(before, cities, players, done, c);
        return;
      }
      var p :| p in occupying;
      OnlyOccupant(before, c, p);
      if cities[c].owner == Some(p) || p !in players {
        ControlStays(before, cities, players, done, c);
        return;
      }
      CityFalls(before, cities, done, c, p);
      StruckStaysDistinct(before, players, done, c, p);
      ListsFall(before, players, done, c, p);
      var previous := cities[c].owner;
      cities := cities[c := cities[c].(owner := Some(p))];
      RemoveCityFromPlayer(previous, c);
      AddCityToPlayer(p, c);
    }

    method RemoveCityFromPlayer(p: Option<PlayerId>, c: CityId)
      modifies `players
      ensures players == StruckFrom(old(players), p, c)
    {
      if p == None || p.value !in players {
        return;
      }
      players := players[p.value := players[p.value].(citiesOwned := Filter(Outside({c}), players[p.value].citiesOwned))];
    }

    method AddCityToPlayer(p: PlayerId, c: CityId)
      requires p in players ==> Distinct(players[p].citiesOwned)
      modifies `players
      ensures players == ListedFor(old(players), p, c)
    {
      if p !in players || c in players[p].citiesOwned {
        return;
      }
      ElementsAppend(players[p].citiesOwned, c);
      var sorted := SortIds(players[p].citiesOwned + [c]);
      players := players[p := players[p].(citiesOwned := sorted)];
    }

    method ResolveCombatPhase()
      requires UniqueIds(armies) && AllStanding(armies) && ListsMatch(View())
      modifies `armies, `cities, `players
      ensures View() == CombatPhase(old(View()))
    {
      ResolveContestedCityCombat();
      TransferUncontestedCityControl();
    }

    /** Besieged fortifications lose a tier; the order of visiting does not matter. */
    method ResolveSiegePhase(m: MapDefinition, phase: PhaseState)
      requires OwnersKnown(View()) && phase.degraded == {}
      modifies `cities, phase`degraded
      ensures View() == SiegePhase(old(View()), m)
      ensures phase.degraded == SiegeDegraded(old(View()), m)
    {
      ghost var before := View();
      var todo := cities.Keys;
      ghost var done: set<CityId> := {};
      while todo != {}
        invariant todo <= before.cities.Keys && done !! todo && before.cities.Keys <= done + todo && done <= before.cities.Keys
        invariant SiegeDone(before, m, cities, phase.degraded, done)
      {
        var c :| c in todo;
        SiegeUnderWay(before, m, cities, phase.degraded, done, c);
        if cities[c].owner.Some? && cities[c].upgrades.fortification != 0 {
          var besieged := IsBesiegedCity(Snapshot(tick, cities, armies, players, victory), c, m);
          if besieged {
            cities := cities[c := Weaken(cities[c])];
            phase.degraded := phase.degraded + {c};
          }
        }
        todo := todo - {c};
        done := done + {c};
      }
      assert done == before.cities.Keys;
      SiegeComplete(before, m, cities, phase.degraded);
    }

    /** Hunger, decay of unpaid fortifications, and the recount of who is still in the match. */
    method ResolveAttritionPhase(phase: PhaseState)
      modifies `armies, `cities, `players, phase`degraded
      ensures View() == AttritionPhase(old(View()), old(phase.unpaid), old(phase.degraded))
    {
      var starving := set p | p in players && players[p].resources.food == 0;
      armies := StarveArmies(armies, starving);
      DegradeUnpaidFortifications(phase);
      MarkEliminated();
    }

    method DegradeUnpaidFortifications(phase: PhaseState)
      modifies `cities, phase`degraded
      ensures View() == UnpaidDegraded(old(View()), phase.unpaid, old(phase.degraded))
    {
      ghost var before, earlier := View(), phase.degraded;
      var todo := phase.unpaid;
      while todo != {}
        invariant todo <= phase.unpaid && cities.Keys == before.cities.Keys
        invariant forall c :: c in cities && c in phase.unpaid - todo && c !in earlier ==> cities[c] == Weaken(before.cities[c])
        invariant forall c :: c in cities && !(c in phase.unpaid - todo && c !in earlier) ==> cities[c] == before.cities[c]
        invariant forall c :: c in todo && c in cities ==> (c in phase.degraded <==> c in earlier)
        invariant earlier <= phase.degraded
      {
        var c :| c in todo;
        todo := todo - {c};
        if c !in phase.degraded && c in cities && cities[c].upgrades.fortification != 0 {
          cities := cities[c := Weaken(cities[c])];
          phase.degraded := phase.degraded + {c};
        }
      }
      assert cities == UnpaidDegraded(before, phase.unpaid, earlier).cities;
    }

    method MarkEliminated()
      modifies `players
      ensures View() == EliminationMarked(old(View()))
    {
      var holders := OwnersOfCities(cities, players.Keys);
      var commanders := OwnersOfArmies(armies, players.Keys);
      players := EliminatePlayers(players, holders, commanders);
    }

    /** Recomputes the leader and steps the countdown. */
    method ResolveVictoryPhase()
      modifies `victory
      ensures View() == VictoryPhase(old(View()))
    {
      var s := Snapshot(tick, cities, armies, players, victory);
      var leader, held := FindLeader(s, CoalitionKey(players));
      var leaderId := match leader { case None => None case Some(k) => Some(k.id) };
      victory := victory.(leader := leaderId, citiesHeld := held, countdown := NextCountdown(victory, leaderId, held));
    }
  }

  method EliminatePlayers(players: map<PlayerId, Player>, holders: map<PlayerId, nat>, commanders: map<PlayerId, nat>)
    returns (marked: map<PlayerId, Player>)
    requires holders.Keys == commanders.Keys == players.Keys
    ensures marked == map p | p in players :: players[p].(isEliminated := holders[p] == 0 && commanders[p] == 0)
  {
    marked := players;
    var todo := players.Keys;
    while todo != {}
      invariant todo <= players.Keys == marked.Keys
      invariant forall p :: p in players && p in todo ==> marked[p] == players[p]
      invariant forall p :: p in players && p !in todo ==>
        marked[p] == players[p].(isEliminated := holders[p] == 0 && commanders[p] == 0)
    {
      var p :| p in todo;
      marked := marked[p := marked[p].(isEliminated := holders[p] == 0 && commanders[p] == 0)];
      todo := todo - {p};
    }
  }

  /** Everyone in the starving set loses one; what is left of nothing is disbanded. */
  method StarveArmies(armies: seq<Army>, starving: set<PlayerId>) returns (surviving: seq<Army>)
    ensures surviving == FilterMap(Survives(HungerLoss(starving)), armies)
  {
    surviving := [];
    var i := 0;
    while i < |armies|
      invariant 0 <= i <= |armies|
      invariant surviving == FilterMap(Survives(HungerLoss(starving)), armies[..i])
    {
      FilterMapStep(Survives(HungerLoss(starving)), armies, i);
      var troops := armies[i].troops;
      if armies[i].owner in starving {
        troops := troops - STARVATION_LOSS;
      }
      if troops > 0 {
        surviving := surviving + [armies[i].(troops := troops)];
      }
      i := i + 1;
    }
    assert armies[..i] == armies;
  }

  /** Runs the phases on a copy; the given state is never touched. */
  method ResolveTick(state: MatchState, orders: OrderBatch, m: MapDefinition) returns (failure: Option<TickError>, next: MatchState)
    requires TickReady(state.View())
    ensures fresh(next)
    ensures failure == TickFailure(state.View(), orders)
    ensures failure == None ==> next.View() == NextState(state.View(), orders, m)
  {
    next := new MatchState.DeepCopy(state);
    var phase := new PhaseState();
    ghost var before := next.View();
    var stored := next.ResolveResourcePhase(phase);
    if !stored {
      return Some(IncomeRefused), next;
    }
    var built := next.ResolveBuildPhase(orders);
    if !built {
      return Some(OrdersNotComparable), next;
    }
    failure := None;
    next.ResolveMovementPhase(orders, m);
    ReadyForCombat(before, orders, m);
    next.ResolveCombatPhase();
    ReadyForSiege(before, orders, m);
    next.ResolveSiegePhase(m, phase);
    next.ResolveAttritionPhase(phase);
    next.ResolveVictoryPhase();
  }

  method BookOneCity(armies: seq<Army>, ledger: map<ArmyId, int>, ghost done: set<CityId>, ghost s: Snapshot, c: CityId, city: City)
    returns (updated: map<ArmyId, int>)
    requires armies == s.armies && UniqueIds(armies) && AllStanding(armies) && c in s.cities && city == s.cities[c] && c !in done
    requires LedgerMatches(armies, CombatLoss(s), done, "", {}, ledger)
    ensures LedgerMatches(armies, CombatLoss(s), done + {c}, "", {}, updated)
  {
    LedgerMove(armies, CombatLoss(s), done, "", c, ledger);
    var armiesHere := Filter(AtCity(c), armies);
    var owners := set a | a in armiesHere :: a.owner;
    GroupsHere(armies, c);
    OccupantsContested(armies, c);
    if |owners| <= 1 {
      LedgerCityQuiet(s, done, c, ledger, "");
      return ledger;
    }
    updated := BookCity(armiesHere, ledger, done, s, c, city);
    LedgerCityDone(s, done, c, updated, "", CombatLoss(s));
  }

  method IndexById(armies: seq<Army>) returns (index: map<ArmyId, nat>)
    requires UniqueIds(armies)
    ensures forall id :: id in index ==> index[id] < |armies| && armies[index[id]].id == id
    ensures forall k :: 0 <= k < |armies| ==> armies[k].id in index
  {
    index := map[];
    var i := 0;
    while i < |armies|
      invariant 0 <= i <= |armies|
      invariant forall id :: id in index ==> index[id] < i && armies[index[id]].id == id
      invariant forall k :: 0 <= k < i ==> armies[k].id in index
    {
      index := index[armies[i].id := i];
      i := i + 1;
    }
  }

  /** Sends one army off, if it stands in a city with a road to the destination. */
  method Depart(army: Army, o: MovementOrder, m: MapDefinition) returns (departed: Army)
    requires army.id == o.armyId
    ensures departed == MoveOne(army, o, m)
  {
    departed := army;
    if army.location == None || army.destination != None {
      return;
    }
    var distance := EdgeDistance(m.edges, army.location.value, o.destination);
    if distance == None {
      return;
    }
    departed := army.(location := None, destination := Some(o.destination), path := Some([o.destination]),
      ticksRemaining := distance.value);
  }

  /** Counts one city's queue down, keeping what is unfinished. */
  method AdvanceCity(city: City) returns (advanced: City)
    ensures advanced == AdvanceQueue(city)
  {
    var upgrades, remaining := city.upgrades, [];
    var i := 0;
    while i < |city.queue|
      invariant 0 <= i <= |city.queue|
      invariant upgrades == FinishItems(city.upgrades, city.queue[..i])
      invariant remaining == FilterMap(COUNT_DOWN, city.queue[..i])
    {
      var item := city.queue[i];
      var ticks := item.ticksRemaining - 1;
      FilterMapStep(COUNT_DOWN, city.queue, i);
      assert city.queue[..i + 1][..i] == city.queue[..i];
      if ticks == 0 {
        upgrades := upgrades.Set(item.track, item.tier);
      } else {
        remaining := remaining + [item.(ticksRemaining := ticks)];
      }
      i := i + 1;
    }
    assert city.queue[..i] == city.queue;
    advanced := city.(upgrades := upgrades, queue := remaining);
  }
}
