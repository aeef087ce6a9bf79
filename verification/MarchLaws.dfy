/** Armies under way come closer tick by tick and arrive on time. */
module MarchLaws {
  import opened Collections
  import opened Domain
  import opened Casualties
  import opened Phases
  import opened Invariants
  import opened Submissions
  import opened RunInvariant
  import opened Regression
  import opened TroopLedger
  import opened Departures

  // ---- one movement phase ----

  /** Reinforcements and orders leave an army alone that is under way. */
  lemma {:induction false} RecruitsPassBy(s: Snapshot, orders: seq<RecruitmentOrder>, a: Army)
    requires UniqueIds(s.armies) && a in s.armies && a.destination.Some?
    ensures a in RecruitAll(s, orders).armies
  {
    if orders != [] {
      var init, o := orders[..|orders| - 1], orders[|orders| - 1];
      var r := RecruitAll(s, init);
      RecruitsPassBy(s, init, a);
      RecruitKeeps(s, init);
      match Payer(r.cities, r.players, o.city)
      case None =>
      case Some(p) => ReinforcementsPassBy(r.armies, p, o.city, o.troops, a);
    }
  }

  lemma ReinforcementsPassBy(armies: seq<Army>, p: PlayerId, c: CityId, n: int, a: Army)
    requires UniqueIds(armies) && a in armies && a.destination.Some?
    ensures a in Reinforce(armies, p, c, n)
  {
    if GroupAt(armies, p, c) != [] {
      var i := LeastAt(armies, p, c);
      assert AddTroops(LeastIdAt(armies, p, c), n)(a) == Some(a);
      FilterMapMember(AddTroops(LeastIdAt(armies, p, c), n), armies, a);
    }
  }

  lemma BuildPassesBy(s: Snapshot, orders: OrderBatch, a: Army)
    requires UniqueIds(s.armies) && a in s.armies && a.destination.Some?
    ensures a in BuildPhase(s, orders).armies
  {
    var advanced := QueuesAdvanced(s);
    RecruitsPassBy(advanced, Ordering.Sort(RecruitOrder(advanced.cities), orders.recruitment), a);
  }

  lemma {:induction false} NoOrderNoMove(a: Army, orders: seq<MovementOrder>, m: MapDefinition)
    requires forall o :: o in orders ==> o.armyId != a.id
    ensures MoveBy(a, orders, m) == a
  {
    if orders != [] {
      assert orders[|orders| - 1] in orders;
      NoOrderNoMove(a, orders[..|orders| - 1], m);
    }
  }

  /** Only an army that stands somewhere sets out: on any other, orders have no effect, validated or not. */
  lemma {:induction false} OnlyStandingDepart(a: Army, orders: seq<MovementOrder>, m: MapDefinition)
    requires a.location == None || a.destination.Some?
    ensures MoveBy(a, orders, m) == a
  {
    if orders != [] { OnlyStandingDepart(a, orders[..|orders| - 1], m); }
  }

  /** Nobody's order is accepted for an army that is under way. */
  lemma NoOrderUnderWay(s: Snapshot, m: MapDefinition, queue: seq<OrderEnvelope>, a: Army)
    requires UniqueIds(s.armies) && a in s.armies && a.destination.Some?
    ensures forall o :: o in QueuedBatch(s, m, queue).movements ==> o.armyId != a.id
  {
    forall o | o in QueuedBatch(s, m, queue).movements ensures o.armyId != a.id {
      var b := AcceptedMovement(s, m, queue, o);
    }
  }

  /** The army a tick further on its way: arrived if it had one tick left, otherwise one tick closer. */
  function Closer(a: Army): Army {
    if a.ticksRemaining == 1 then a.(location := a.destination, destination := None, path := None, ticksRemaining := 0)
    else a.(ticksRemaining := a.ticksRemaining - 1)
  }

  lemma MarchStep(s: Snapshot, m: MapDefinition, queue: seq<OrderEnvelope>, a: Army)
    requires UniqueIds(s.armies) && a in s.armies && a.destination.Some?
    ensures Closer(a) in AfterMovement(s, QueuedBatch(s, m, queue), m).armies
  {
    var batch := QueuedBatch(s, m, queue);
    var built := BuildPhase(ResourcePhase(s), batch);
    BuildPassesBy(ResourcePhase(s), batch, a);
    FilterMapMember(STEP_TRANSIT, built.armies, Closer(a));
    assert STEP_TRANSIT(a) == Some(Closer(a));
    NoOrderUnderWay(s, m, queue, a);
    NoOrderNoMove(Closer(a), batch.movements, m);
    FilterMapMember(Departing(batch.movements, m), FilterMap(STEP_TRANSIT, built.armies), Closer(a));
  }

  /** In the movement phase of a validated tick an army with one tick left comes to stand in its destination. */
  lemma ArmyArrives(s: Snapshot, m: MapDefinition, queue: seq<OrderEnvelope>, a: Army)
    requires UniqueIds(s.armies) && a in s.armies && a.destination.Some? && a.ticksRemaining == 1
    ensures a.(location := a.destination, destination := None, path := None, ticksRemaining := 0)
      in AfterMovement(s, QueuedBatch(s, m, queue), m).armies
  {
    MarchStep(s, m, queue, a);
  }

  /** With more ticks left it is the same army one tick closer. */
  lemma ArmyComesCloser(s: Snapshot, m: MapDefinition, queue: seq<OrderEnvelope>, a: Army)
    requires UniqueIds(s.armies) && a in s.armies && a.destination.Some? && a.ticksRemaining > 1
    ensures a.(ticksRemaining := a.ticksRemaining - 1) in AfterMovement(s, QueuedBatch(s, m, queue), m).armies
  {
    MarchStep(s, m, queue, a);
  }

  // ---- the rest of the tick ----

  lemma OneOfAnId(armies: seq<Army>, a: Army, b: Army)
    requires UniqueIds(armies) && a in armies && b in armies && a.id == b.id
    ensures a == b
  {
  }

  /** Between movement and the end of the tick an army under way can only lose troops to hunger. */
  lemma UnderWayStays(s: Snapshot, orders: OrderBatch, m: MapDefinition, a: Army, b: Army)
    requires TickReady(s) && a in AfterMovement(s, orders, m).armies && a.destination.Some?
    requires b in NextState(s, orders, m).armies && b.id == a.id
    ensures b == a.(troops := b.troops)
  {
    var met := AfterMovement(s, orders, m);
    var fought := CombatPhase(met);
    ReadyForCombat(s, orders, m);
    ReadyForSiege(s, orders, m);
    NoFightNoLoss(met, a);
    var loss := HungerLoss(Starving(SiegePhase(fought, m).players));
    HungerLeaves(fought.armies, loss, a, b);
  }

  lemma HungerLeaves(armies: seq<Army>, loss: Army -> int, a: Army, b: Army)
    requires UniqueIds(armies) && a in armies && b in FilterMap(Survives(loss), armies) && b.id == a.id
    ensures b == a.(troops := b.troops)
  {
    FilterMapMember(Survives(loss), armies, b);
    var x :| x in armies && Survives(loss)(x) == Some(b);
    OneOfAnId(armies, a, x);
  }

  // ---- runs ----

  /** The army with the id, whatever its strength, is under way to d with n ticks to go. */
  ghost predicate OnTheWay(s: Snapshot, id: ArmyId, d: CityId, n: int) {
    exists a :: a in s.armies && a.id == id && a.location == None && a.destination == Some(d) && a.ticksRemaining == n
  }

  /** The army has not died out. */
  ghost predicate Alive(s: Snapshot, id: ArmyId) {
    exists a :: a in s.armies && a.id == id
  }

  ghost predicate StandsIn(s: Snapshot, id: ArmyId, d: CityId) {
    exists a :: a in s.armies && a.id == id && a.location == Some(d) && a.destination == None
  }

  lemma SomeoneOf(s: Snapshot, id: ArmyId) returns (b: Army)
    requires Alive(s, id)
    ensures b in s.armies && b.id == id
  {
    b :| b in s.armies && b.id == id;
  }

  lemma SomeoneOnTheWay(s: Snapshot, id: ArmyId, d: CityId, n: int) returns (a: Army)
    requires OnTheWay(s, id, d, n)
    ensures a in s.armies && a.id == id && a.location == None && a.destination == Some(d) && a.ticksRemaining == n
  {
    a :| a in s.armies && a.id == id && a.location == None && a.destination == Some(d) && a.ticksRemaining == n;
  }

  lemma WayShortens(s: Snapshot, m: MapDefinition, queue: seq<OrderEnvelope>, id: ArmyId, d: CityId, n: int)
    requires TickReady(s) && OnTheWay(s, id, d, n) && n > 1 && Alive(Tick(s, m, queue), id)
    ensures OnTheWay(Tick(s, m, queue), id, d, n - 1)
  {
    var a := SomeoneOnTheWay(s, id, d, n);
    var b := SomeoneOf(Tick(s, m, queue), id);
    ArmyComesCloser(s, m, queue, a);
    UnderWayStays(s, QueuedBatch(s, m, queue), m, a.(ticksRemaining := n - 1), b);
  }

  lemma WayBegins(s: Snapshot, m: MapDefinition, queue: seq<OrderEnvelope>, o: MovementOrder) returns (from: CityId)
    requires TickReady(s) && o in QueuedBatch(s, m, queue).movements
    ensures exists a :: a in s.armies && a.id == o.armyId && a.location == Some(from) && a.destination == None
    ensures EdgeDistance(m.edges, from, o.destination).Some?
    ensures Alive(Tick(s, m, queue), o.armyId) ==>
      OnTheWay(Tick(s, m, queue), o.armyId, o.destination, EdgeDistance(m.edges, from, o.destination).value)
  {
    var before, after := AcceptedMovementsDepart(s, m, queue, o);
    from := before.location.value;
    if Alive(Tick(s, m, queue), o.armyId) {
      var b :| b in Tick(s, m, queue).armies && b.id == o.armyId;
      UnderWayStays(s, QueuedBatch(s, m, queue), m, after, b);
    }
  }

  lemma WayEnds(s: Snapshot, m: MapDefinition, queue: seq<OrderEnvelope>, id: ArmyId, d: CityId)
    requires TickReady(s) && OnTheWay(s, id, d, 1)
    ensures StandsIn(AfterMovement(s, QueuedBatch(s, m, queue), m), id, d)
  {
    var a :| a in s.armies && a.id == id && a.location == None && a.destination == Some(d) && a.ticksRemaining == 1;
    ArmyArrives(s, m, queue, a);
  }

  /** The way between two cities is as long as the last edge on the map that joins them. */
  lemma {:induction false} LastRoadCounts(edges: seq<Edge>, k: nat, a: CityId, b: CityId)
    requires k < |edges|
    requires (edges[k].cityA == a && edges[k].cityB == b) || (edges[k].cityA == b && edges[k].cityB == a)
    requires forall j :: k < j < |edges| ==>
      !((edges[j].cityA == a && edges[j].cityB == b) || (edges[j].cityA == b && edges[j].cityB == a))
    ensures EdgeDistance(edges, a, b) == Some(edges[k].distance)
  {
    if k < |edges| - 1 { LastRoadCounts(edges[..|edges| - 1], k, a, b); }
  }

  /** In state j the army is under way to d with n ticks to go. */
  ghost function OnItsWay(states: seq<Snapshot>, id: ArmyId, d: CityId): (nat, int) -> bool {
    (j: nat, n: int) => j < |states| && OnTheWay(states[j], id, d, n)
  }

  lemma ShortensInRun(m: MapDefinition, states: seq<Snapshot>, queues: seq<seq<OrderEnvelope>>, id: ArmyId, d: CityId, j: nat, n: int)
    requires IsRun(m, states, queues) && j + 1 < |states| && TickReady(states[j]) && Alive(states[j + 1], id)
    requires 1 < n && OnItsWay(states, id, d)(j, n)
    ensures OnItsWay(states, id, d)(j + 1, n - 1)
  {
    WayShortens(states[j], m, queues[j], id, d, n);
  }

  lemma {:induction false} Shortens(way: (nat, int) -> bool, i: nat, r: int, k: nat)
    requires way(i, r) && k < r && forall j: nat, n: int :: i <= j < i + k && 1 < n && way(j, n) ==> way(j + 1, n - 1)
    ensures way(i + k, r - k)
  {
    if k > 0 { Shortens(way, i, r, k - 1); }
  }

  lemma MarchInRun(m: MapDefinition, states: seq<Snapshot>, queues: seq<seq<OrderEnvelope>>, i: nat, id: ArmyId, d: CityId, r: int, j: nat)
    requires IsRun(m, states, queues) && 0 < r && j == i + r - 1 && j < |states| && OnItsWay(states, id, d)(i, r)
    requires forall k :: i <= k <= j ==> TickReady(states[k]) && Alive(states[k], id)
    ensures OnItsWay(states, id, d)(j, 1)
  {
    forall k: nat, n: int | i <= k < j && 1 < n && OnItsWay(states, id, d)(k, n) ensures OnItsWay(states, id, d)(k + 1, n - 1) {
      ShortensInRun(m, states, queues, id, d, k, n);
    }
    Shortens(OnItsWay(states, id, d), i, r, r - 1);
  }

  ghost predicate ArrivesInTick(m: MapDefinition, states: seq<Snapshot>, queues: seq<seq<OrderEnvelope>>, j: nat, id: ArmyId, d: CityId) {
    j < |queues| && j < |states| && StandsIn(AfterMovement(states[j], QueuedBatch(states[j], m, queues[j]), m), id, d)
  }

  lemma DepartsInRun(m: MapDefinition, states: seq<Snapshot>, queues: seq<seq<OrderEnvelope>>, i: nat, o: MovementOrder, from: CityId)
    requires IsRun(m, states, queues) && i + 1 < |states| && TickReady(states[i]) && Alive(states[i + 1], o.armyId)
    requires o in QueuedBatch(states[i], m, queues[i]).movements && StandsIn(states[i], o.armyId, from)
    ensures EdgeDistance(m.edges, from, o.destination).Some?
    ensures OnItsWay(states, o.armyId, o.destination)(i + 1, EdgeDistance(m.edges, from, o.destination).value)
  {
    var place := WayBegins(states[i], m, queues[i], o);
    SamePlace(states[i].armies, o.armyId, place, from);
  }

  lemma SamePlace(armies: seq<Army>, id: ArmyId, c: CityId, d: CityId)
    requires UniqueIds(armies)
    requires exists a :: a in armies && a.id == id && a.location == Some(c) && a.destination == None
    requires exists a :: a in armies && a.id == id && a.location == Some(d) && a.destination == None
    ensures c == d
  {
    var a :| a in armies && a.id == id && a.location == Some(c) && a.destination == None;
    var b :| b in armies && b.id == id && b.location == Some(d) && b.destination == None;
    OneOfAnId(armies, a, b);
  }

  lemma ArrivesInRun(m: MapDefinition, states: seq<Snapshot>, queues: seq<seq<OrderEnvelope>>, j: nat, id: ArmyId, d: CityId)
    requires |states| == |queues| + 1 && j < |queues| && TickReady(states[j]) && OnItsWay(states, id, d)(j, 1)
    ensures ArrivesInTick(m, states, queues, j, id, d)
  {
    WayEnds(states[j], m, queues[j], id, d);
  }

  /**
   * In every run, an accepted movement along a road of length L brings its army into the destination in the movement phase
   * of the L-th tick after its departure, unless the army has starved on the way.
   */
  lemma AcceptedMovementArrives(m: MapDefinition, states: seq<Snapshot>, queues: seq<seq<OrderEnvelope>>, i: nat, o: MovementOrder,
                                from: CityId, length: int, threshold: nat) returns (j: nat)
    requires IsRun(m, states, queues) && RunState(states[0], m, threshold) && 0 < length && i + length < |queues|
    requires o in QueuedBatch(states[i], m, queues[i]).movements && StandsIn(states[i], o.armyId, from)
    requires EdgeDistance(m.edges, from, o.destination) == Some(length)
    requires forall k :: i < k <= i + length ==> Alive(states[k], o.armyId)
    ensures j == i + length && ArrivesInTick(m, states, queues, j, o.armyId, o.destination)
  {
    j := i + length;
    forall k | i <= k <= j ensures TickReady(states[k]) { RunKeepsInv(m, states, queues, k, threshold); }
    DepartsInRun(m, states, queues, i, o, from);
    MarchInRun(m, states, queues, i + 1, o.armyId, o.destination, length, j);
    ArrivesInRun(m, states, queues, j, o.armyId, o.destination);
  }
}
