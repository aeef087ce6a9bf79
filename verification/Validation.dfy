/** The order validator: four greedy passes over one player's orders, three of them sharing a budget. */
module Validation {
  import opened Collections
  import opened Domain
  import opened Phases
  import opened SiegeSteps
  import opened Routes

  datatype OrderKind = MovementKind | RecruitmentKind | UpgradeKind | TransferKind

  datatype Reason =
    | LateOrder | UnknownPlayer | UnknownCity | UnknownArmy | ConflictingDuplicate | InvalidOwnership
    | InvalidRecipientRelation | InvalidAdjacency | ArmyInTransit | InsufficientResources
    | InvalidTierProgression | DisconnectedRoute

  datatype Rejection = Rejection(kind: OrderKind, index: nat, reason: Reason)

  datatype ValidationResult = ValidationResult(accepted: OrderBatch, rejected: seq<Rejection>)

  /** What a pass has accepted and refused so far, and what is left to spend. */
  datatype Pass<T> = Pass(accepted: seq<T>, rejected: seq<Rejection>, budget: Resources)

  // ---- one order at a time ----

  /** The army listed last under an id. */
  function FindArmy(armies: seq<Army>, id: ArmyId): Option<Army> {
    if armies == [] then None
    else if armies[|armies| - 1].id == id then Some(armies[|armies| - 1])
    else FindArmy(armies[..|armies| - 1], id)
  }

  ghost function MovementReason(s: Snapshot, m: MapDefinition, p: PlayerId, o: MovementOrder): Option<Reason> {
    match FindArmy(s.armies, o.armyId)
    case None => Some(UnknownArmy)
    case Some(a) =>
      if o.destination !in s.cities then Some(UnknownCity)
      else if a.owner != p then Some(InvalidOwnership)
      else if a.destination != None || a.location == None then Some(ArmyInTransit)
      else if !Connected(m, None, a.location.value, o.destination) then Some(InvalidAdjacency)
      else None
  }

  function RecruitmentReason(s: Snapshot, p: PlayerId, budget: Resources, o: RecruitmentOrder): Option<Reason> {
    if o.city !in s.cities then Some(UnknownCity)
    else if s.cities[o.city].owner != Some(p) then Some(InvalidOwnership)
    else if !budget.Covers(RecruitBill(o.troops)) then Some(InsufficientResources)
    else None
  }

  function UpgradeCharge(o: UpgradeOrder): Resources {
    Resources(0, UpgradeCost(o.track, o.target), 0)
  }

  function UpgradeReason(s: Snapshot, p: PlayerId, budget: Resources, o: UpgradeOrder): Option<Reason> {
    if o.city !in s.cities then Some(UnknownCity)
    else if s.cities[o.city].owner != Some(p) then Some(InvalidOwnership)
    else if o.target != s.cities[o.city].upgrades.Get(o.track) + 1 then Some(InvalidTierProgression)
    else if !budget.Covers(UpgradeCharge(o)) then Some(InsufficientResources)
    else None
  }

  datatype Relation = Allied | Enemy | Neutral

  function RecipientRelation(sender: Player, recipient: Player): Relation {
    if sender.allianceId.Some? && sender.allianceId == recipient.allianceId then Allied
    else if sender.allianceId.Some? && recipient.allianceId.Some? then Enemy
    else Neutral
  }

  function TransferCharge(o: TransferOrder): Resources {
    Resources(0, 0, 0).Add(o.resource, o.amount)
  }

  ghost function TransferReason(s: Snapshot, m: MapDefinition, p: PlayerId, budget: Resources, o: TransferOrder): Option<Reason>
    requires p in s.players
  {
    if o.recipient !in s.players then Some(UnknownPlayer)
    else if RecipientRelation(s.players[p], s.players[o.recipient]).Enemy? then Some(InvalidRecipientRelation)
    else if !o.resource.Money? && !LandRoute(s, m, p, o.recipient) then Some(DisconnectedRoute)
    else if !budget.Covers(TransferCharge(o)) then Some(InsufficientResources)
    else None
  }

  // ---- the passes, order after order ----

  predicate ArmyOrdered(accepted: seq<MovementOrder>, id: ArmyId) {
    exists x :: x in accepted && x.armyId == id
  }

  predicate TrackOrdered(accepted: seq<UpgradeOrder>, c: CityId, t: Track) {
    exists x :: x in accepted && x.city == c && x.track == t
  }

  ghost function MovementPass(s: Snapshot, m: MapDefinition, p: PlayerId, start: Resources, orders: seq<MovementOrder>): Pass<MovementOrder> {
    if orders == [] then Pass([], [], start) else
      var pass, o, i := MovementPass(s, m, p, start, orders[..|orders| - 1]), orders[|orders| - 1], |orders| - 1;
      if ArmyOrdered(pass.accepted, o.armyId) then
        pass.(rejected := pass.rejected + [Rejection(MovementKind, i, ConflictingDuplicate)])
      else match MovementReason(s, m, p, o)
        case Some(reason) => pass.(rejected := pass.rejected + [Rejection(MovementKind, i, reason)])
        case None => pass.(accepted := pass.accepted + [o])
  }

  function RecruitmentPass(s: Snapshot, p: PlayerId, start: Resources, orders: seq<RecruitmentOrder>): Pass<RecruitmentOrder> {
    if orders == [] then Pass([], [], start) else
      var pass, o, i := RecruitmentPass(s, p, start, orders[..|orders| - 1]), orders[|orders| - 1], |orders| - 1;
      match RecruitmentReason(s, p, pass.budget, o)
      case Some(reason) => pass.(rejected := pass.rejected + [Rejection(RecruitmentKind, i, reason)])
      case None => Pass(pass.accepted + [o], pass.rejected, pass.budget.Minus(RecruitBill(o.troops)))
  }

  ghost function UpgradePass(s: Snapshot, p: PlayerId, start: Resources, orders: seq<UpgradeOrder>): Pass<UpgradeOrder> {
    if orders == [] then Pass([], [], start) else
      var pass, o, i := UpgradePass(s, p, start, orders[..|orders| - 1]), orders[|orders| - 1], |orders| - 1;
      if TrackOrdered(pass.accepted, o.city, o.track) then
        pass.(rejected := pass.rejected + [Rejection(UpgradeKind, i, ConflictingDuplicate)])
      else match UpgradeReason(s, p, pass.budget, o)
        case Some(reason) => pass.(rejected := pass.rejected + [Rejection(UpgradeKind, i, reason)])
        case None => Pass(pass.accepted + [o], pass.rejected, pass.budget.Minus(UpgradeCharge(o)))
  }

  /** Accepted transfers are stamped with their sender. */
  ghost function TransferPass(s: Snapshot, m: MapDefinition, p: PlayerId, start: Resources, orders: seq<TransferOrder>): Pass<TransferOrder>
    requires p in s.players
  {
    if orders == [] then Pass([], [], start) else
      var pass, o, i := TransferPass(s, m, p, start, orders[..|orders| - 1]), orders[|orders| - 1], |orders| - 1;
      match TransferReason(s, m, p, pass.budget, o)
      case Some(reason) => pass.(rejected := pass.rejected + [Rejection(TransferKind, i, reason)])
      case None => Pass(pass.accepted + [o.(sender := Some(p))], pass.rejected, pass.budget.Minus(TransferCharge(o)))
  }

  function RejectRange(kind: OrderKind, count: nat, reason: Reason): seq<Rejection> {
    seq(count, i requires 0 <= i < count => Rejection(kind, i, reason))
  }

  function RejectAll(orders: OrderBatch, reason: Reason): ValidationResult {
    ValidationResult(NO_ORDERS,
      RejectRange(MovementKind, |orders.movements|, reason) + RejectRange(RecruitmentKind, |orders.recruitment|, reason)
      + RejectRange(UpgradeKind, |orders.upgrades|, reason) + RejectRange(TransferKind, |orders.transfers|, reason))
  }

  /** Validation of one envelope: movements, then recruitment, upgrades and transfers on one budget. */
  ghost function Validated(s: Snapshot, m: MapDefinition, e: OrderEnvelope): ValidationResult {
    if e.tick != s.tick then RejectAll(e.orders, LateOrder)
    else if e.playerId !in s.players then RejectAll(e.orders, UnknownPlayer)
    else
      var p := e.playerId;
      var movement := MovementPass(s, m, p, s.players[p].resources, e.orders.movements);
      var recruitment := RecruitmentPass(s, p, s.players[p].resources, e.orders.recruitment);
      var upgrade := UpgradePass(s, p, recruitment.budget, e.orders.upgrades);
      var transfer := TransferPass(s, m, p, upgrade.budget, e.orders.transfers);
      ValidationResult(
        OrderBatch(movement.accepted, recruitment.accepted, upgrade.accepted, transfer.accepted),
        movement.rejected + recruitment.rejected + upgrade.rejected + transfer.rejected)
  }

  // ---- the loops ----

  method ArmiesById(armies: seq<Army>) returns (byId: map<ArmyId, Army>)
    ensures forall id :: FindArmy(armies, id) == if id in byId then Some(byId[id]) else None
  {
    byId := map[];
    var i := 0;
    while i < |armies|
      invariant 0 <= i <= |armies|
      invariant forall id :: FindArmy(armies[..i], id) == if id in byId then Some(byId[id]) else None
    {
      assert armies[..i + 1][..i] == armies[..i];
      byId := byId[armies[i].id := armies[i]];
      i := i + 1;
    }
    assert armies[..i] == armies;
  }

  method CheckMovement(s: Snapshot, m: MapDefinition, p: PlayerId, o: MovementOrder, byId: map<ArmyId, Army>,
                       index: map<CityId, set<CityId>>)
    returns (reason: Option<Reason>)
    requires forall id :: FindArmy(s.armies, id) == if id in byId then Some(byId[id]) else None
    requires forall a, b :: Linked(index, a, b) <==> Connected(m, None, a, b)
    ensures reason == MovementReason(s, m, p, o)
  {
    assert FindArmy(s.armies, o.armyId) == if o.armyId in byId then Some(byId[o.armyId]) else None;
    if o.armyId !in byId {
      return Some(UnknownArmy);
    }
    var army := byId[o.armyId];
    if o.destination !in s.cities {
      return Some(UnknownCity);
    }
    if army.owner != p {
      return Some(InvalidOwnership);
    }
    if army.destination != None || army.location == None {
      return Some(ArmyInTransit);
    }
    if !Linked(index, army.location.value, o.destination) {
      return Some(InvalidAdjacency);
    }
    reason := None;
  }

  method ValidateMovements(s: Snapshot, m: MapDefinition, p: PlayerId, start: Resources, orders: seq<MovementOrder>)
    returns (pass: Pass<MovementOrder>)
    ensures pass == MovementPass(s, m, p, start, orders)
  {
    var byId := ArmiesById(s.armies);
    var index := BuildAdjacencyIndex(m, None);
    var seen: set<ArmyId> := {};
    pass := Pass([], [], start);
    var i := 0;
    while i < |orders|
      invariant 0 <= i <= |orders|
      invariant pass == MovementPass(s, m, p, start, orders[..i])
      invariant forall id :: id in seen <==> ArmyOrdered(pass.accepted, id)
    {
      var o := orders[i];
      assert orders[..i + 1][..i] == orders[..i];
      if o.armyId in seen {
        pass := pass.(rejected := pass.rejected + [Rejection(MovementKind, i, ConflictingDuplicate)]);
      } else {
        var reason := CheckMovement(s, m, p, o, byId, index);
        if reason == None {
          MovementSeen(pass.accepted, o);
          seen := seen + {o.armyId};
          pass := pass.(accepted := pass.accepted + [o]);
        } else {
          pass := pass.(rejected := pass.rejected + [Rejection(MovementKind, i, reason.value)]);
        }
      }
      i := i + 1;
    }
    assert orders[..i] == orders;
  }

  lemma MovementSeen(accepted: seq<MovementOrder>, o: MovementOrder)
    ensures forall id :: ArmyOrdered(accepted + [o], id) <==> id == o.armyId || ArmyOrdered(accepted, id)
  {
    assert o in accepted + [o];
    forall x | x in accepted ensures x in accepted + [o] { }
  }

  method ValidateRecruitment(s: Snapshot, p: PlayerId, start: Resources, orders: seq<RecruitmentOrder>)
    returns (pass: Pass<RecruitmentOrder>)
    ensures pass == RecruitmentPass(s, p, start, orders)
  {
    pass := Pass([], [], start);
    var i := 0;
    while i < |orders|
      invariant 0 <= i <= |orders|
      invariant pass == RecruitmentPass(s, p, start, orders[..i])
    {
      var o := orders[i];
      assert orders[..i + 1][..i] == orders[..i];
      var reason := RecruitmentReason(s, p, pass.budget, o);
      if reason == None {
        pass := Pass(pass.accepted + [o], pass.rejected, pass.budget.Minus(RecruitBill(o.troops)));
      } else {
        pass := pass.(rejected := pass.rejected + [Rejection(RecruitmentKind, i, reason.value)]);
      }
      i := i + 1;
    }
    assert orders[..i] == orders;
  }

  method ValidateUpgrades(s: Snapshot, p: PlayerId, start: Resources, orders: seq<UpgradeOrder>)
    returns (pass: Pass<UpgradeOrder>)
    ensures pass == UpgradePass(s, p, start, orders)
  {
    var seen: set<(CityId, Track)> := {};
    pass := Pass([], [], start);
    var i := 0;
    while i < |orders|
      invariant 0 <= i <= |orders|
      invariant pass == UpgradePass(s, p, start, orders[..i])
      invariant forall c, t :: (c, t) in seen <==> TrackOrdered(pass.accepted, c, t)
    {
      var o := orders[i];
      assert orders[..i + 1][..i] == orders[..i];
      if (o.city, o.track) in seen {
        pass := pass.(rejected := pass.rejected + [Rejection(UpgradeKind, i, ConflictingDuplicate)]);
      } else {
        var reason := UpgradeReason(s, p, pass.budget, o);
        if reason == None {
          UpgradeSeen(pass.accepted, o);
          seen := seen + {(o.city, o.track)};
          pass := Pass(pass.accepted + [o], pass.rejected, pass.budget.Minus(UpgradeCharge(o)));
        } else {
          pass := pass.(rejected := pass.rejected + [Rejection(UpgradeKind, i, reason.value)]);
        }
      }
      i := i + 1;
    }
    assert orders[..i] == orders;
  }

  lemma UpgradeSeen(accepted: seq<UpgradeOrder>, o: UpgradeOrder)
    ensures forall c, t :: TrackOrdered(accepted + [o], c, t) <==> (c == o.city && t == o.track) || TrackOrdered(accepted, c, t)
  {
    assert o in accepted + [o];
    forall x | x in accepted ensures x in accepted + [o] { }
  }

  method CheckTransfer(s: Snapshot, m: MapDefinition, p: PlayerId, budget: Resources, o: TransferOrder,
                       index: map<CityId, set<CityId>>)
    returns (reason: Option<Reason>)
    requires p in s.players
    requires forall a, b :: Linked(index, a, b) <==> Connected(m, Some(Land), a, b)
    ensures reason == TransferReason(s, m, p, budget, o)
  {
    if o.recipient !in s.players {
      return Some(UnknownPlayer);
    }
    if RecipientRelation(s.players[p], s.players[o.recipient]).Enemy? {
      return Some(InvalidRecipientRelation);
    }
    if !o.resource.Money? {
      var connected := HasConnectedLandRoute(s, m, p, o.recipient, index);
      if !connected {
        return Some(DisconnectedRoute);
      }
    }
    if !budget.Covers(TransferCharge(o)) {
      return Some(InsufficientResources);
    }
    reason := None;
  }

  method ValidateTransfers(s: Snapshot, m: MapDefinition, p: PlayerId, start: Resources, orders: seq<TransferOrder>)
    returns (pass: Pass<TransferOrder>)
    requires p in s.players
    ensures pass == TransferPass(s, m, p, start, orders)
  {
    var index := BuildAdjacencyIndex(m, Some(Land));
    pass := Pass([], [], start);
    var i := 0;
    while i < |orders|
      invariant 0 <= i <= |orders|
      invariant pass == TransferPass(s, m, p, start, orders[..i])
    {
      var o := orders[i];
      assert orders[..i + 1][..i] == orders[..i];
      var reason := CheckTransfer(s, m, p, pass.budget, o, index);
      if reason == None {
        pass := Pass(pass.accepted + [o.(sender := Some(p))], pass.rejected, pass.budget.Minus(TransferCharge(o)));
      } else {
        pass := pass.(rejected := pass.rejected + [Rejection(TransferKind, i, reason.value)]);
      }
      i := i + 1;
    }
    assert orders[..i] == orders;
  }

  method ValidateOrderEnvelope(s: Snapshot, m: MapDefinition, e: OrderEnvelope) returns (result: ValidationResult)
    ensures result == Validated(s, m, e)
  {
    if e.tick != s.tick {
      return RejectAll(e.orders, LateOrder);
    }
    if e.playerId !in s.players {
      return RejectAll(e.orders, UnknownPlayer);
    }
    var p := e.playerId;
    var budget := s.players[p].resources;
    var movement := ValidateMovements(s, m, p, budget, e.orders.movements);
    var recruitment := ValidateRecruitment(s, p, budget, e.orders.recruitment);
    var upgrade := ValidateUpgrades(s, p, recruitment.budget, e.orders.upgrades);
    var transfer := ValidateTransfers(s, m, p, upgrade.budget, e.orders.transfers);
    result := ValidationResult(
      OrderBatch(movement.accepted, recruitment.accepted, upgrade.accepted, transfer.accepted),
      movement.rejected + recruitment.rejected + upgrade.rejected + transfer.rejected);
  }
}
