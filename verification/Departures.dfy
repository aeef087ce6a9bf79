/** What validation lets march does march: every accepted movement departs, along its road, in the tick that resolves it. */
module Departures {
  import opened Collections
  import opened Domain
  import opened Casualties
  import opened Phases
  import opened Routes
  import opened Validation
  import opened ValidationFacts
  import opened Submissions
  import opened OrderIndependence
  import opened Invariants
  import Ordering

  /** The same army but for its number of troops. */
  predicate SameButTroops(a: Army, b: Army) {
    b == a.(troops := b.troops)
  }

  lemma {:induction false} RecruitsLeaveInPlace(s: Snapshot, orders: seq<RecruitmentOrder>, a: Army) returns (b: Army)
    requires a in s.armies
    ensures b in RecruitAll(s, orders).armies && SameButTroops(a, b)
  {
    if orders == [] {
      b := a;
    } else {
      var init, o := orders[..|orders| - 1], orders[|orders| - 1];
      var r := RecruitAll(s, init);
      b := RecruitsLeaveInPlace(s, init, a);
      match Payer(r.cities, r.players, o.city)
      case None =>
      case Some(p) => b := ReinforceLeavesInPlace(r.armies, p, o.city, o.troops, b);
    }
  }

  lemma ReinforceLeavesInPlace(armies: seq<Army>, p: PlayerId, c: CityId, n: int, a: Army) returns (b: Army)
    requires a in armies
    ensures b in Reinforce(armies, p, c, n) && SameButTroops(a, b)
  {
    if GroupAt(armies, p, c) != [] {
      var id := LeastIdAt(armies, p, c);
      b := AddTroops(id, n)(a).value;
      FilterMapMember(AddTroops(id, n), armies, b);
    } else {
      b := a;
    }
  }

  lemma BuildLeavesInPlace(s: Snapshot, orders: OrderBatch, a: Army) returns (b: Army)
    requires a in s.armies
    ensures b in BuildPhase(s, orders).armies && SameButTroops(a, b)
  {
    var advanced := QueuesAdvanced(s);
    b := RecruitsLeaveInPlace(advanced, Ordering.Sort(RecruitOrder(advanced.cities), orders.recruitment), a);
  }

  /** Joined cities have a road of some length. */
  lemma {:induction false} JoinedHaveDistance(edges: seq<Edge>, a: CityId, b: CityId)
    requires AdjacentBy(edges, a, b)
    ensures EdgeDistance(edges, a, b).Some?
  {
    var e :| e in edges && Joins(e, a, b);
    if !Joins(edges[|edges| - 1], a, b) {
      assert e in edges[..|edges| - 1];
      JoinedHaveDistance(edges[..|edges| - 1], a, b);
    }
  }

  /** What an accepted movement says of its army: the mover's own, standing in a city that a road joins to the destination. */
  lemma AcceptedMovement(s: Snapshot, m: MapDefinition, queue: seq<OrderEnvelope>, o: MovementOrder) returns (a: Army)
    requires UniqueIds(s.armies) && o in QueuedBatch(s, m, queue).movements
    ensures a in s.armies && a.id == o.armyId && a.location.Some? && a.destination == None
    ensures o.destination in s.cities && Adjacent(m, a.location.value, o.destination)
    ensures Filter(Moves(a.id), QueuedBatch(s, m, queue).movements) == [o]
  {
    var batch := QueuedBatch(s, m, queue);
    JoinedIssued(s, m, queue, Submitters(queue));
    var p :| MovedBy(s)(p)(o);
    a := FindArmy(s.armies, o.armyId).value;
    ArmyFound(s.armies, o.armyId);
    PartOfQueued(s, m, queue, p);
    FilterMember(MovedBy(s)(p), batch.movements, o);
    assert PartOf(s, batch, p).movements == Filter(MovedBy(s)(p), batch.movements);
    AcceptedOnce(s, m, queue, p, o);
    FilterFilter(MovedBy(s)(p), Moves(a.id), Moves(a.id), batch.movements);
    ConnectedAnyMode(m, a.location.value, o.destination);
  }

  lemma AcceptedOnce(s: Snapshot, m: MapDefinition, queue: seq<OrderEnvelope>, p: PlayerId, o: MovementOrder)
    requires o in AcceptedFor(s, m, queue, p).movements
    ensures MovementReason(s, m, p, o) == None && Filter(Moves(o.armyId), AcceptedFor(s, m, queue, p).movements) == [o]
  {
    var e := CombinedFor(queue, p).value;
    FilterMember(From(p), queue, Filter(From(p), queue)[0]);
    MovementsSplit(s, m, p, s.players[p].resources, e.orders.movements);
    MovementsAccepted(s, m, p, s.players[p].resources, e.orders.movements, o.armyId);
    FilterMember(Moves(o.armyId), AcceptedFor(s, m, queue, p).movements, o);
  }

  ghost predicate UnderWay(a: Army, o: MovementOrder, distance: int) {
    a.id == o.armyId && a.location == None && a.destination == Some(o.destination) && a.path == Some([o.destination])
    && a.ticksRemaining == distance
  }

  /** In the tick that resolves a queue, every movement accepted from it sets its army out on the road it was ordered along. */
  lemma AcceptedMovementsDepart(s: Snapshot, m: MapDefinition, queue: seq<OrderEnvelope>, o: MovementOrder)
    returns (before: Army, after: Army)
    requires UniqueIds(s.armies) && o in QueuedBatch(s, m, queue).movements
    ensures before in s.armies && before.id == o.armyId && before.destination == None
    ensures before.location.Some? && EdgeDistance(m.edges, before.location.value, o.destination).Some?
    ensures after in AfterMovement(s, QueuedBatch(s, m, queue), m).armies
    ensures UnderWay(after, o, EdgeDistance(m.edges, before.location.value, o.destination).value)
  {
    var batch := QueuedBatch(s, m, queue);
    before := AcceptedMovement(s, m, queue, o);
    JoinedHaveDistance(m.edges, before.location.value, o.destination);
    var built := BuildPhase(ResourcePhase(s), batch);
    var standing := BuildLeavesInPlace(ResourcePhase(s), batch, before);
    MoveByOwnOrders(standing, batch.movements, m);
    after := MoveBy(standing, batch.movements, m);
    OneMove(standing, o, m);
    FilterMapMember(STEP_TRANSIT, built.armies, standing);
    FilterMapMember(Departing(batch.movements, m), FilterMap(STEP_TRANSIT, built.armies), after);
  }

  lemma OneMove(a: Army, o: MovementOrder, m: MapDefinition)
    ensures MoveBy(a, [o], m) == MoveOne(a, o, m)
  {
    assert [o][..0] == [];
    assert MoveBy(a, [], m) == a;
  }
}
