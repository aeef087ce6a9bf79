/** The state invariants that the regression harness asks of every tick, proved for every run. */
module RunInvariant {
  import opened Collections
  import opened Domain
  import opened Leadership
  import opened Phases
  import opened Invariants
  import opened QueueInvariant
  import opened Submissions
  import opened OrderIndependence
  import opened Economy

  // ---- the inductive invariant ----

  ghost predicate StateInv(s: Snapshot, m: MapDefinition) {
    && MapWellFormed(m) && s.cities.Keys == m.cities.Keys
    && TickReady(s)
    && ArmiesOk(s.armies, s.cities.Keys, s.players.Keys)
    && QueuesOk(s)
    && YieldsOk(s) && ProductionOk(s)
  }

  /** Each tick marks as eliminated exactly the players left with no city and no army. */
  ghost predicate EliminationOk(s: Snapshot) {
    forall p :: p in s.players ==> (s.players[p].isEliminated <==> !Present(s, p))
  }

  /** The victory record names the sole leader and the largest holding, and only a leader at the threshold counts down. */
  ghost predicate VictoryOk(s: Snapshot) {
    && s.victory.citiesHeld == MostHeld(s, PublicKey(s.players))
    && s.victory.leader == LeaderOf(s, PublicKey(s.players))
    && (s.victory.countdown.Some? ==> s.victory.leader.Some? && s.victory.threshold <= s.victory.citiesHeld)
  }

  /** One tick as the server runs it: validate the queue against the state, resolve, step the clock. */
  ghost function Tick(s: Snapshot, m: MapDefinition, queue: seq<OrderEnvelope>): Snapshot {
    NextState(s, QueuedBatch(s, m, queue), m).(tick := s.tick + 1)
  }

  // ---- armies keep their places ----

  lemma PassKeepsArmies(f: Army -> Option<Army>, armies: seq<Army>, cities: set<CityId>, players: set<PlayerId>)
    requires forall a :: a in armies && f(a).Some? ==> ArmyOk(f(a).value, cities, players)
    ensures ArmiesOk(FilterMap(f, armies), cities, players)
  {
    forall b | b in FilterMap(f, armies) ensures ArmyOk(b, cities, players) {
      FilterMapMember(f, armies, b);
    }
  }

  lemma {:induction false} RouteEndsKnown(edges: seq<Edge>, a: CityId, b: CityId)
    requires EdgeDistance(edges, a, b).Some?
    ensures exists e :: e in edges && Joins(e, a, b)
  {
    if Joins(edges[|edges| - 1], a, b) {
      assert edges[|edges| - 1] in edges;
    } else {
      RouteEndsKnown(edges[..|edges| - 1], a, b);
      var e :| e in edges[..|edges| - 1] && Joins(e, a, b);
      assert e in edges;
    }
  }

  lemma {:induction false} MoveKeepsPlace(a: Army, orders: seq<MovementOrder>, m: MapDefinition, players: set<PlayerId>)
    requires MapWellFormed(m) && ArmyOk(a, m.cities.Keys, players)
    ensures ArmyOk(MoveBy(a, orders, m), m.cities.Keys, players)
  {
    if orders != [] {
      var init, o := orders[..|orders| - 1], orders[|orders| - 1];
      MoveKeepsPlace(a, init, m, players);
      var b := MoveBy(a, init, m);
      if b.id == o.armyId && b.location.Some? && b.destination == None && EdgeDistance(m.edges, b.location.value, o.destination).Some? {
        RouteEndsKnown(m.edges, b.location.value, o.destination);
      }
    }
  }

  lemma MovementKeepsPlaces(s: Snapshot, orders: OrderBatch, m: MapDefinition)
    requires MapWellFormed(m) && s.cities.Keys == m.cities.Keys && ArmiesOk(s.armies, s.cities.Keys, s.players.Keys)
    ensures ArmiesOk(MovementPhase(s, orders, m).armies, s.cities.Keys, s.players.Keys)
  {
    forall a | a in s.armies ensures ArmyOk(STEP_TRANSIT(a).value, s.cities.Keys, s.players.Keys) {
      assert ArmyOk(a, s.cities.Keys, s.players.Keys);
    }
    PassKeepsArmies(STEP_TRANSIT, s.armies, s.cities.Keys, s.players.Keys);
    var arrived := FilterMap(STEP_TRANSIT, s.armies);
    forall a | a in arrived ensures ArmyOk(Departing(orders.movements, m)(a).value, s.cities.Keys, s.players.Keys) {
      MoveKeepsPlace(a, orders.movements, m, s.players.Keys);
    }
    PassKeepsArmies(Departing(orders.movements, m), arrived, s.cities.Keys, s.players.Keys);
  }

  lemma LossKeepsPlaces(loss: Army -> int, armies: seq<Army>, cities: set<CityId>, players: set<PlayerId>)
    requires ArmiesOk(armies, cities, players)
    ensures ArmiesOk(FilterMap(Survives(loss), armies), cities, players)
  {
    forall a | a in armies && Survives(loss)(a).Some? ensures ArmyOk(Survives(loss)(a).value, cities, players) {
      assert ArmyOk(a, cities, players);
    }
    PassKeepsArmies(Survives(loss), armies, cities, players);
  }

  // ---- the tick, conjunct by conjunct ----

  ghost function AfterCombat(s: Snapshot, orders: OrderBatch, m: MapDefinition): Snapshot {
    CombatPhase(AfterMovement(s, orders, m))
  }

  lemma BuildKeepsKeys(s: Snapshot, orders: OrderBatch)
    ensures BuildPhase(s, orders).cities.Keys == s.cities.Keys && BuildPhase(s, orders).players.Keys == s.players.Keys
  {
    BuildOwnership(s, orders);
  }

  lemma KeysKept(s: Snapshot, orders: OrderBatch, m: MapDefinition)
    ensures NextState(s, orders, m).cities.Keys == s.cities.Keys && NextState(s, orders, m).players.Keys == s.players.Keys
  {
    BuildKeepsKeys(ResourcePhase(s), orders);
    assert CombatPhase(AfterMovement(s, orders, m)).cities.Keys == s.cities.Keys;
  }

  lemma TickKeepsReady(s: Snapshot, orders: OrderBatch, m: MapDefinition)
    requires TickReady(s)
    ensures TickReady(NextState(s, orders, m))
  {
    ReadyForSiege(s, orders, m);
    DecayKeepsReady(AfterCombat(s, orders, m), m, UnpaidCities(s));
  }

  lemma DecayKeepsReady(s: Snapshot, m: MapDefinition, unpaid: set<CityId>)
    requires TickReady(s)
    ensures TickReady(VictoryPhase(AttritionPhase(SiegePhase(s, m), unpaid, SiegeDegraded(s, m))))
  {
    var besieged := SiegePhase(s, m);
    var t := VictoryPhase(AttritionPhase(besieged, unpaid, SiegeDegraded(s, m)));
    SurviveKeeps(HungerLoss(Starving(besieged.players)), s.armies);
    assert SameOwnership(s, t);
    OwnershipKept(s, t);
  }

  lemma TickKeepsPlaces(s: Snapshot, orders: OrderBatch, m: MapDefinition)
    requires StateInv(s, m)
    ensures ArmiesOk(NextState(s, orders, m).armies, s.cities.Keys, s.players.Keys)
  {
    var paid := ResourcePhase(s);
    BuildKeepsKeys(paid, orders);
    BuildKeepsArmies(paid, orders);
    MovementKeepsPlaces(BuildPhase(paid, orders), orders, m);
    var moved := AfterMovement(s, orders, m);
    LossKeepsPlaces(CombatLoss(moved), moved.armies, s.cities.Keys, s.players.Keys);
    var fought := AfterCombat(s, orders, m);
    LossKeepsPlaces(HungerLoss(Starving(SiegePhase(fought, m).players)), fought.armies, s.cities.Keys, s.players.Keys);
  }

  lemma TickKeepsYields(s: Snapshot, orders: OrderBatch, m: MapDefinition)
    requires YieldsOk(s)
    ensures YieldsOk(NextState(s, orders, m))
  {
    var paid := ResourcePhase(s);
    RecruitFrameSorted(QueuesAdvanced(paid), orders.recruitment);
    forall c | c in s.cities ensures c in NextState(s, orders, m).cities && NextState(s, orders, m).cities[c].base == s.cities[c].base {
      KeysKept(s, orders, m);
      assert BuildPhase(paid, orders).cities[c].base == s.cities[c].base;
    }
    KeysKept(s, orders, m);
  }

  lemma ReadyIgnoresClock(s: Snapshot, tick: nat)
    requires TickReady(s)
    ensures TickReady(s.(tick := tick))
  {
    assert SameOwnership(s, s.(tick := tick));
    OwnershipKept(s, s.(tick := tick));
  }

  lemma TickStaysReady(s: Snapshot, m: MapDefinition, queue: seq<OrderEnvelope>)
    requires TickReady(s)
    ensures TickReady(Tick(s, m, queue))
  {
    TickKeepsReady(s, QueuedBatch(s, m, queue), m);
    ReadyIgnoresClock(NextState(s, QueuedBatch(s, m, queue), m), s.tick + 1);
  }

  lemma TickStaysPlaced(s: Snapshot, m: MapDefinition, queue: seq<OrderEnvelope>)
    requires StateInv(s, m)
    ensures Tick(s, m, queue).cities.Keys == m.cities.Keys && Tick(s, m, queue).players.Keys == s.players.Keys
    ensures ArmiesOk(Tick(s, m, queue).armies, Tick(s, m, queue).cities.Keys, Tick(s, m, queue).players.Keys)
  {
    KeysKept(s, QueuedBatch(s, m, queue), m);
    TickKeepsPlaces(s, QueuedBatch(s, m, queue), m);
  }

  lemma TickStaysQueued(s: Snapshot, m: MapDefinition, queue: seq<OrderEnvelope>)
    requires QueuesOk(s)
    ensures QueuesOk(Tick(s, m, queue))
  {
    QueuedUpgradesFit(s, m, queue);
    TickKeepsQueues(s, QueuedBatch(s, m, queue), m);
  }

  lemma TickStaysSolvent(s: Snapshot, m: MapDefinition, queue: seq<OrderEnvelope>)
    requires YieldsOk(s) && ProductionOk(s)
    ensures IncomeStorable(s) && YieldsOk(Tick(s, m, queue)) && ProductionOk(Tick(s, m, queue))
  {
    TickKeepsYields(s, QueuedBatch(s, m, queue), m);
    ProductionStaysNonNegative(s, m, queue);
  }

  /** Resolving a validated queue keeps the invariant, and never fails. */
  lemma TickKeepsInv(s: Snapshot, m: MapDefinition, queue: seq<OrderEnvelope>)
    requires StateInv(s, m)
    ensures IncomeStorable(s) && TickFailure(s, QueuedBatch(s, m, queue)) == None && StateInv(Tick(s, m, queue), m)
  {
    QueuedSortable(s, m, queue);
    TickStaysReady(s, m, queue);
    TickStaysPlaced(s, m, queue);
    TickStaysQueued(s, m, queue);
    TickStaysSolvent(s, m, queue);
  }

  lemma TickMarksEliminated(s: Snapshot, orders: OrderBatch, m: MapDefinition, tick: nat)
    ensures EliminationOk(NextState(s, orders, m).(tick := tick))
  {
    var t := NextState(s, orders, m).(tick := tick);
    var decayed := UnpaidDegraded(Starved(SiegePhase(AfterCombat(s, orders, m), m)), UnpaidCities(s), SiegeDegraded(AfterCombat(s, orders, m), m));
    MarkedIsOk(decayed, t);
  }

  lemma MarkedIsOk(s: Snapshot, t: Snapshot)
    requires t.cities == s.cities && t.armies == s.armies && t.players == EliminationMarked(s).players
    ensures EliminationOk(t)
  {
    forall p ensures Present(t, p) <==> Present(s, p) { }
  }

  // ---- one name space for sides ----

  /** No alliance goes by an empty name or by a player's name. */
  ghost predicate NamesApart(players: map<PlayerId, Player>) {
    forall p :: p in players && players[p].allianceId.Some? ==>
      players[p].allianceId.value != "" && players[p].allianceId.value !in players
  }

  lemma SidesMatch(s: Snapshot, p: PlayerId, q: PlayerId)
    requires NamesApart(s.players) && p in s.players && q in s.players
    ensures PublicKey(s.players)(p) == CoalitionKey(s.players)(p).id
    ensures PublicKey(s.players)(p) == PublicKey(s.players)(q) <==> CoalitionKey(s.players)(p) == CoalitionKey(s.players)(q)
  {
  }

  lemma SideCitiesMatch(s: Snapshot, p: PlayerId)
    requires NamesApart(s.players) && p in s.players
    ensures CitiesOf(s, PublicKey(s.players), PublicKey(s.players)(p)) == CitiesOf(s, CoalitionKey(s.players), CoalitionKey(s.players)(p))
  {
    var a := CitiesOf(s, PublicKey(s.players), PublicKey(s.players)(p));
    var b := CitiesOf(s, CoalitionKey(s.players), CoalitionKey(s.players)(p));
    forall c ensures c in a <==> c in b {
      if c in s.cities && Counted(s, c) { SidesMatch(s, s.cities[c].owner.value, p); }
    }
  }

  lemma SideOfOwner<K(!new)>(s: Snapshot, key: PlayerId -> K, k: K) returns (p: PlayerId)
    requires k in Sides(s, key)
    ensures p in s.players && key(p) == k && key(p) in Sides(s, key)
    ensures forall other: PlayerId -> string :: other(p) in Sides(s, other)
    ensures forall other: PlayerId -> Coalition :: other(p) in Sides(s, other)
  {
    var c :| c in s.cities && Counted(s, c) && key(s.cities[c].owner.value) == k;
    p := s.cities[c].owner.value;
  }

  /** With names apart, both ways of naming sides find the same leader and the same holding. */
  lemma LeadersAgree(s: Snapshot)
    requires NamesApart(s.players)
    ensures MostHeld(s, PublicKey(s.players)) == MostHeld(s, CoalitionKey(s.players))
    ensures LeaderOf(s, PublicKey(s.players))
         == match LeaderOf(s, CoalitionKey(s.players)) { case None => None case Some(k) => Some(k.id) }
  {
    HoldingsAgree(s);
    var public, inner := PublicKey(s.players), CoalitionKey(s.players);
    match LeaderOf(s, inner)
    case Some(k) =>
      assert SoleLeader(s, inner, k);
      PublicLeader(s, k);
      LeaderIs(s, public, k.id);
    case None =>
      forall k | SoleLeader(s, public, k) ensures false {
        InnerLeader(s, k);
      }
  }

  /** Any side under one naming has a counterpart of the same size under the other. */
  lemma PublicCounterpart(s: Snapshot, k: string) returns (j: Coalition)
    requires NamesApart(s.players) && k in Sides(s, PublicKey(s.players))
    ensures j in Sides(s, CoalitionKey(s.players))
    ensures HeldBy(s, CoalitionKey(s.players))(j) == HeldBy(s, PublicKey(s.players))(k)
  {
    var p := SideOfOwner(s, PublicKey(s.players), k);
    SideCitiesMatch(s, p);
    j := CoalitionKey(s.players)(p);
  }

  lemma InnerCounterpart(s: Snapshot, j: Coalition) returns (k: string)
    requires NamesApart(s.players) && j in Sides(s, CoalitionKey(s.players))
    ensures k in Sides(s, PublicKey(s.players))
    ensures HeldBy(s, CoalitionKey(s.players))(j) == HeldBy(s, PublicKey(s.players))(k)
  {
    var p := SideOfOwner(s, CoalitionKey(s.players), j);
    SideCitiesMatch(s, p);
    k := PublicKey(s.players)(p);
  }

  lemma HoldingsAgree(s: Snapshot)
    requires NamesApart(s.players)
    ensures MostHeld(s, PublicKey(s.players)) == MostHeld(s, CoalitionKey(s.players))
  {
    var public, inner := PublicKey(s.players), CoalitionKey(s.players);
    if Sides(s, public) != {} {
      var k :| k in Sides(s, public) && HeldBy(s, public)(k) == MostHeld(s, public);
      var j := PublicCounterpart(s, k);
    }
    if Sides(s, inner) != {} {
      var j :| j in Sides(s, inner) && HeldBy(s, inner)(j) == MostHeld(s, inner);
      var k := InnerCounterpart(s, j);
    }
  }

  lemma PublicLeader(s: Snapshot, k: Coalition)
    requires NamesApart(s.players) && SoleLeader(s, CoalitionKey(s.players), k)
    ensures SoleLeader(s, PublicKey(s.players), k.id)
  {
    var public, inner := PublicKey(s.players), CoalitionKey(s.players);
    var p := SideOfOwner(s, inner, k);
    SideCitiesMatch(s, p);
    SidesMatch(s, p, p);
    forall j | j in Sides(s, public) && j != k.id ensures HeldBy(s, public)(j) < HeldBy(s, public)(k.id) {
      var q := SideOfOwner(s, public, j);
      SideCitiesMatch(s, q);
      SidesMatch(s, p, q);
      assert inner(q) in Sides(s, inner);
    }
  }

  lemma InnerLeader(s: Snapshot, k: string)
    requires NamesApart(s.players) && SoleLeader(s, PublicKey(s.players), k)
    ensures exists j :: SoleLeader(s, CoalitionKey(s.players), j)
  {
    var public, inner := PublicKey(s.players), CoalitionKey(s.players);
    var p := SideOfOwner(s, public, k);
    SideCitiesMatch(s, p);
    forall j | j in Sides(s, inner) && j != inner(p) ensures HeldBy(s, inner)(j) < HeldBy(s, inner)(inner(p)) {
      var q := SideOfOwner(s, inner, j);
      SideCitiesMatch(s, q);
      SidesMatch(s, p, q);
      assert public(q) in Sides(s, public);
    }
    assert SoleLeader(s, inner, inner(p));
  }
}
