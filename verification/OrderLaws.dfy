/** Which orders are accepted, one after another, in the terms of the match: ids, edges, alliance ids and counts. */
module OrderLaws {
  import opened Collections
  import opened Domain
  import opened Phases
  import opened Routes
  import opened Validation
  import opened ValidationFacts

  // ---- what is left to spend ----

  /** A recruit costs one food and five production. */
  function RecruitPrice(r: Resource): RecruitmentOrder -> int {
    (o: RecruitmentOrder) => match r case Food => o.troops case Production => 5 * o.troops case Money => 0
  }

  /** An upgrade costs production, by its track and tier. */
  function UpgradePrice(r: Resource): UpgradeOrder -> int {
    (o: UpgradeOrder) =>
      if r != Production then 0
      else match o.track
        case Economy => [7, 11, 15][o.target - 1]
        case Military => [8, 12, 16][o.target - 1]
        case Fortification => [6, 10, 14][o.target - 1]
  }

  function TransferPrice(r: Resource): TransferOrder -> int {
    (o: TransferOrder) => if o.resource == r then o.amount else 0
  }

  /** What a player can still spend of a resource once these orders are accepted. */
  function LeftOf(holding: Resources, accepted: OrderBatch, r: Resource): int {
    (match r case Food => holding.food case Production => holding.production case Money => holding.money)
    - SumBy(RecruitPrice(r), accepted.recruitment) - SumBy(UpgradePrice(r), accepted.upgrades) - SumBy(TransferPrice(r), accepted.transfers)
  }

  /** No count is below what is asked of it, the counts that are asked nothing included. */
  predicate CanPay(holding: Resources, accepted: OrderBatch, food: int, production: int, money: int) {
    && LeftOf(holding, accepted, Food) >= food
    && LeftOf(holding, accepted, Production) >= production
    && LeftOf(holding, accepted, Money) >= money
  }

  lemma PricesAreSpent(orders: OrderBatch, r: Resource)
    ensures SumBy(RecruitPrice(r), orders.recruitment) + SumBy(UpgradePrice(r), orders.upgrades)
      + SumBy(TransferPrice(r), orders.transfers) == Spend(orders, r)
  {
    SumByCongruent(RecruitPrice(r), RecruitCost(r), orders.recruitment);
    SumByCongruent(UpgradePrice(r), UpgradeCostIn(r), orders.upgrades);
    SumByCongruent(TransferPrice(r), TransferCost(r), orders.transfers);
  }

  // ---- an envelope, order by order: movements, then recruitment, upgrades and transfers ----

  /** The envelope cut off after so many orders of each kind. */
  function Cut(e: OrderEnvelope, movements: nat, recruitment: nat, upgrades: nat, transfers: nat): OrderEnvelope
    requires movements <= |e.orders.movements| && recruitment <= |e.orders.recruitment|
    requires upgrades <= |e.orders.upgrades| && transfers <= |e.orders.transfers|
  {
    e.(orders := OrderBatch(e.orders.movements[..movements], e.orders.recruitment[..recruitment],
                            e.orders.upgrades[..upgrades], e.orders.transfers[..transfers]))
  }

  predicate DueNow(s: Snapshot, e: OrderEnvelope) {
    e.tick == s.tick && e.playerId in s.players
  }

  /** An empty envelope gets nothing accepted and nothing refused; one that is not cut off is the envelope itself. */
  lemma Uncut(s: Snapshot, m: MapDefinition, e: OrderEnvelope)
    ensures Validated(s, m, Cut(e, 0, 0, 0, 0)) == ValidationResult(NO_ORDERS, [])
    ensures Cut(e, |e.orders.movements|, |e.orders.recruitment|, |e.orders.upgrades|, |e.orders.transfers|) == e
  {
    assert e.orders.movements[..|e.orders.movements|] == e.orders.movements;
    assert e.orders.recruitment[..|e.orders.recruitment|] == e.orders.recruitment;
    assert e.orders.upgrades[..|e.orders.upgrades|] == e.orders.upgrades;
    assert e.orders.transfers[..|e.orders.transfers|] == e.orders.transfers;
    if e.tick == s.tick && e.playerId in s.players {
      assert MovementPass(s, m, e.playerId, s.players[e.playerId].resources, []).accepted == [];
    } else {
      assert RejectRange(MovementKind, 0, LateOrder) == [];
    }
  }

  ghost predicate Accepts(before: ValidationResult, after: ValidationResult, accepted: OrderBatch) {
    after == ValidationResult(accepted, before.rejected)
  }

  ghost predicate Refuses(before: ValidationResult, after: ValidationResult, kind: OrderKind, i: nat, reason: Reason) {
    after == ValidationResult(before.accepted, before.rejected + [Rejection(kind, i, reason)])
  }

  // ---- movements ----

  /** Some edge of the map joins the two cities. */
  ghost predicate Road(m: MapDefinition, a: CityId, b: CityId) {
    exists e :: e in m.edges && ((e.cityA == a && e.cityB == b) || (e.cityA == b && e.cityB == a))
  }

  lemma {:induction false} LastOfAnId(armies: seq<Army>, k: nat)
    requires k < |armies| && forall j :: k < j < |armies| ==> armies[j].id != armies[k].id
    ensures FindArmy(armies, armies[k].id) == Some(armies[k])
  {
    if k < |armies| - 1 { LastOfAnId(armies[..|armies| - 1], k); }
  }

  lemma {:induction false} NoneOfAnId(armies: seq<Army>, id: ArmyId)
    requires forall a :: a in armies ==> a.id != id
    ensures FindArmy(armies, id) == None
  {
    if armies != [] {
      assert armies[|armies| - 1] in armies;
      NoneOfAnId(armies[..|armies| - 1], id);
    }
  }

  ghost predicate MovesAlready(accepted: OrderBatch, id: ArmyId) {
    exists x :: x in accepted.movements && x.armyId == id
  }

  /** An order for an army that nobody has is refused. */
  lemma StrangeArmyRefused(s: Snapshot, m: MapDefinition, e: OrderEnvelope, i: nat)
    requires DueNow(s, e) && i < |e.orders.movements| && forall a :: a in s.armies ==> a.id != e.orders.movements[i].armyId
    ensures var before, after := Validated(s, m, Cut(e, i, 0, 0, 0)), Validated(s, m, Cut(e, i + 1, 0, 0, 0));
      !MovesAlready(before.accepted, e.orders.movements[i].armyId) ==> Refuses(before, after, MovementKind, i, UnknownArmy)
  {
    NoneOfAnId(s.armies, e.orders.movements[i].armyId);
    assert e.orders.movements[..i + 1][..i] == e.orders.movements[..i];
  }

  /**
   * An order for an army, the one listed last if several have its id, is accepted if and only if the army has no accepted order
   * yet, is the player's own and stands in a city joined to a known destination; otherwise the first thing that fails is named.
   */
  lemma MovementDecided(s: Snapshot, m: MapDefinition, e: OrderEnvelope, i: nat, k: nat)
    requires DueNow(s, e) && i < |e.orders.movements| && k < |s.armies| && s.armies[k].id == e.orders.movements[i].armyId
    requires forall j :: k < j < |s.armies| ==> s.armies[j].id != s.armies[k].id
    ensures var before, after := Validated(s, m, Cut(e, i, 0, 0, 0)), Validated(s, m, Cut(e, i + 1, 0, 0, 0));
      var o, a := e.orders.movements[i], s.armies[k];
      if MovesAlready(before.accepted, o.armyId) then Refuses(before, after, MovementKind, i, ConflictingDuplicate)
      else if o.destination !in s.cities then Refuses(before, after, MovementKind, i, UnknownCity)
      else if a.owner != e.playerId then Refuses(before, after, MovementKind, i, InvalidOwnership)
      else if a.destination.Some? || a.location.None? then Refuses(before, after, MovementKind, i, ArmyInTransit)
      else if !Road(m, a.location.value, o.destination) then Refuses(before, after, MovementKind, i, InvalidAdjacency)
      else Accepts(before, after, before.accepted.(movements := before.accepted.movements + [o]))
  {
    LastOfAnId(s.armies, k);
    assert e.orders.movements[..i + 1][..i] == e.orders.movements[..i];
    var o, a := e.orders.movements[i], s.armies[k];
    if a.location.Some? {
      ConnectedAnyMode(m, a.location.value, o.destination);
      assert Road(m, a.location.value, o.destination) <==> Adjacent(m, a.location.value, o.destination);
    }
  }

  // ---- recruitment ----

  /** What the passes leave of the budget, after all the orders of an envelope. */
  lemma BudgetLeft(s: Snapshot, m: MapDefinition, e: OrderEnvelope) returns (budget: Resources)
    requires DueNow(s, e)
    ensures budget == TransferPass(s, m, e.playerId, UpgradePass(s, e.playerId,
      RecruitmentPass(s, e.playerId, s.players[e.playerId].resources, e.orders.recruitment).budget,
      e.orders.upgrades).budget, e.orders.transfers).budget
    ensures budget == Resources(LeftOf(s.players[e.playerId].resources, Validated(s, m, e).accepted, Food),
                                LeftOf(s.players[e.playerId].resources, Validated(s, m, e).accepted, Production),
                                LeftOf(s.players[e.playerId].resources, Validated(s, m, e).accepted, Money))
  {
    var p, start := e.playerId, s.players[e.playerId].resources;
    var recruitment := RecruitmentPass(s, p, start, e.orders.recruitment);
    var upgrade := UpgradePass(s, p, recruitment.budget, e.orders.upgrades);
    var transfer := TransferPass(s, m, p, upgrade.budget, e.orders.transfers);
    RecruitmentAccepted(s, p, start, e.orders.recruitment);
    UpgradesAccepted(s, p, recruitment.budget, e.orders.upgrades);
    TransfersAccepted(s, m, p, upgrade.budget, e.orders.transfers);
    Chain(start, Validated(s, m, e).accepted, recruitment.budget, upgrade.budget, transfer.budget);
    budget := transfer.budget;
    PricesAreSpent(Validated(s, m, e).accepted, Food);
    PricesAreSpent(Validated(s, m, e).accepted, Production);
    PricesAreSpent(Validated(s, m, e).accepted, Money);
    assert budget.Get(Food) == budget.food && budget.Get(Production) == budget.production && budget.Get(Money) == budget.money;
  }

  /** Recruitment is accepted if and only if the city is the player's own and a food and five production are left for each recruit. */
  lemma RecruitmentDecided(s: Snapshot, m: MapDefinition, e: OrderEnvelope, i: nat)
    requires DueNow(s, e) && i < |e.orders.recruitment|
    ensures var moves := |e.orders.movements|;
      var before, after := Validated(s, m, Cut(e, moves, i, 0, 0)), Validated(s, m, Cut(e, moves, i + 1, 0, 0));
      var o := e.orders.recruitment[i];
      if o.city !in s.cities then Refuses(before, after, RecruitmentKind, i, UnknownCity)
      else if s.cities[o.city].owner != Some(e.playerId) then Refuses(before, after, RecruitmentKind, i, InvalidOwnership)
      else if !CanPay(s.players[e.playerId].resources, before.accepted, o.troops, 5 * o.troops, 0)
      then Refuses(before, after, RecruitmentKind, i, InsufficientResources)
      else Accepts(before, after, before.accepted.(recruitment := before.accepted.recruitment + [o]))
  {
    assert e.orders.recruitment[..i + 1][..i] == e.orders.recruitment[..i];
    var budget := BudgetLeft(s, m, Cut(e, |e.orders.movements|, i, 0, 0));
    assert e.orders.upgrades[..0] == [] && e.orders.transfers[..0] == [];
  }

  // ---- upgrades ----

  ghost predicate RaisesAlready(accepted: OrderBatch, c: CityId, t: Track) {
    exists x :: x in accepted.upgrades && x.city == c && x.track == t
  }

  /**
   * An upgrade is accepted if and only if none is accepted yet for the same city and track, the city is the player's own, the
   * tier is the next one and its production is left.
   */
  lemma UpgradeDecided(s: Snapshot, m: MapDefinition, e: OrderEnvelope, i: nat)
    requires DueNow(s, e) && i < |e.orders.upgrades|
    ensures var moves, recruits := |e.orders.movements|, |e.orders.recruitment|;
      var before, after := Validated(s, m, Cut(e, moves, recruits, i, 0)), Validated(s, m, Cut(e, moves, recruits, i + 1, 0));
      var o := e.orders.upgrades[i];
      if RaisesAlready(before.accepted, o.city, o.track) then Refuses(before, after, UpgradeKind, i, ConflictingDuplicate)
      else if o.city !in s.cities then Refuses(before, after, UpgradeKind, i, UnknownCity)
      else if s.cities[o.city].owner != Some(e.playerId) then Refuses(before, after, UpgradeKind, i, InvalidOwnership)
      else if o.target != TierOf(s.cities[o.city], o.track) + 1 then Refuses(before, after, UpgradeKind, i, InvalidTierProgression)
      else if !CanPay(s.players[e.playerId].resources, before.accepted, 0, UpgradePrice(Production)(o), 0)
      then Refuses(before, after, UpgradeKind, i, InsufficientResources)
      else Accepts(before, after, before.accepted.(upgrades := before.accepted.upgrades + [o]))
  {
    var o := e.orders.upgrades[i];
    assert e.orders.transfers[..0] == [];
    UpgradeStep(s, m, e, i);
    var budget := BudgetLeft(s, m, Cut(e, |e.orders.movements|, |e.orders.recruitment|, i, 0));
    UpgradeRefusal(s, e.playerId, budget, o);
  }

  lemma UpgradeStep(s: Snapshot, m: MapDefinition, e: OrderEnvelope, i: nat)
    requires DueNow(s, e) && i < |e.orders.upgrades|
    ensures var moves, recruits, p := |e.orders.movements|, |e.orders.recruitment|, e.playerId;
      var before, after := Validated(s, m, Cut(e, moves, recruits, i, 0)), Validated(s, m, Cut(e, moves, recruits, i + 1, 0));
      var o := e.orders.upgrades[i];
      var budget := UpgradePass(s, p, RecruitmentPass(s, p, s.players[p].resources, e.orders.recruitment[..recruits]).budget,
        e.orders.upgrades[..i]).budget;
      if RaisesAlready(before.accepted, o.city, o.track) then Refuses(before, after, UpgradeKind, i, ConflictingDuplicate)
      else match UpgradeReason(s, p, budget, o)
        case Some(reason) => Refuses(before, after, UpgradeKind, i, reason)
        case None => Accepts(before, after, before.accepted.(upgrades := before.accepted.upgrades + [o]))
  {
    assert e.orders.upgrades[..i + 1][..i] == e.orders.upgrades[..i];
    assert e.orders.transfers[..0] == [];
  }

  lemma UpgradeRefusal(s: Snapshot, p: PlayerId, budget: Resources, o: UpgradeOrder)
    ensures UpgradeReason(s, p, budget, o) ==
      if o.city !in s.cities then Some(UnknownCity)
      else if s.cities[o.city].owner != Some(p) then Some(InvalidOwnership)
      else if o.target != TierOf(s.cities[o.city], o.track) + 1 then Some(InvalidTierProgression)
      else if budget.food < 0 || budget.production < UpgradePrice(Production)(o) || budget.money < 0 then Some(InsufficientResources)
      else None
  {
  }

  function TierOf(city: City, t: Track): int {
    match t
    case Economy => city.upgrades.economy
    case Military => city.upgrades.military
    case Fortification => city.upgrades.fortification
  }

  // ---- transfers ----

  /** Both players are in an alliance, and not in the same one. */
  predicate Rivals(s: Snapshot, p: PlayerId, q: PlayerId)
    requires p in s.players && q in s.players
  {
    s.players[p].allianceId.Some? && s.players[q].allianceId.Some? && s.players[p].allianceId != s.players[q].allianceId
  }

  ghost function Before(s: Snapshot, m: MapDefinition, e: OrderEnvelope, i: nat): ValidationResult
    requires i <= |e.orders.transfers|
  {
    Validated(s, m, Cut(e, |e.orders.movements|, |e.orders.recruitment|, |e.orders.upgrades|, i))
  }

  /**
   * A transfer is accepted, stamped with its sender, if and only if the recipient is known and no rival, a land route joins the
   * two unless it is money, and the amount is left.
   */
  lemma TransferDecided(s: Snapshot, m: MapDefinition, e: OrderEnvelope, i: nat)
    requires DueNow(s, e) && i < |e.orders.transfers|
    ensures var before, after, o := Before(s, m, e, i), Before(s, m, e, i + 1), e.orders.transfers[i];
      if o.recipient !in s.players then Refuses(before, after, TransferKind, i, UnknownPlayer)
      else if Rivals(s, e.playerId, o.recipient) then Refuses(before, after, TransferKind, i, InvalidRecipientRelation)
      else if o.resource != Money && !LandRoute(s, m, e.playerId, o.recipient) then Refuses(before, after, TransferKind, i, DisconnectedRoute)
      else if !CanPay(s.players[e.playerId].resources, before.accepted,
                      TransferPrice(Food)(o), TransferPrice(Production)(o), TransferPrice(Money)(o))
      then Refuses(before, after, TransferKind, i, InsufficientResources)
      else Accepts(before, after, before.accepted.(transfers := before.accepted.transfers + [o.(sender := Some(e.playerId))]))
  {
    TransferStep(s, m, e, i);
    var budget := BudgetLeft(s, m, Cut(e, |e.orders.movements|, |e.orders.recruitment|, |e.orders.upgrades|, i));
    TransferRefusal(s, m, e.playerId, budget, e.orders.transfers[i]);
  }

  lemma TransferStep(s: Snapshot, m: MapDefinition, e: OrderEnvelope, i: nat)
    requires DueNow(s, e) && i < |e.orders.transfers|
    ensures var before, after, o := Before(s, m, e, i), Before(s, m, e, i + 1), e.orders.transfers[i];
      var p, cut := e.playerId, Cut(e, |e.orders.movements|, |e.orders.recruitment|, |e.orders.upgrades|, i).orders;
      var budget := TransferPass(s, m, p, UpgradePass(s, p, RecruitmentPass(s, p, s.players[p].resources, cut.recruitment).budget,
        cut.upgrades).budget, cut.transfers).budget;
      match TransferReason(s, m, p, budget, o)
      case Some(reason) => Refuses(before, after, TransferKind, i, reason)
      case None => Accepts(before, after, before.accepted.(transfers := before.accepted.transfers + [o.(sender := Some(p))]))
  {
    assert e.orders.transfers[..i + 1][..i] == e.orders.transfers[..i];
  }

  lemma TransferRefusal(s: Snapshot, m: MapDefinition, p: PlayerId, budget: Resources, o: TransferOrder)
    requires p in s.players
    ensures TransferReason(s, m, p, budget, o) ==
      if o.recipient !in s.players then Some(UnknownPlayer)
      else if Rivals(s, p, o.recipient) then Some(InvalidRecipientRelation)
      else if o.resource != Money && !LandRoute(s, m, p, o.recipient) then Some(DisconnectedRoute)
      else if budget.food < TransferPrice(Food)(o) || budget.production < TransferPrice(Production)(o)
        || budget.money < TransferPrice(Money)(o) then Some(InsufficientResources)
      else None
  {
  }

  /** Whatever else a player orders, its resources never go to a rival. */
  lemma {:induction false} NothingForRivals(s: Snapshot, m: MapDefinition, e: OrderEnvelope, n: nat)
    requires DueNow(s, e) && n <= |e.orders.transfers|
    ensures forall o :: o in Before(s, m, e, n).accepted.transfers ==>
      o.sender == Some(e.playerId) && o.recipient in s.players && !Rivals(s, e.playerId, o.recipient)
  {
    if n == 0 {
      assert e.orders.transfers[..0] == [];
    } else {
      NothingForRivals(s, m, e, n - 1);
      TransferDecided(s, m, e, n - 1);
    }
  }

  lemma AcceptedGoToFriends(s: Snapshot, m: MapDefinition, e: OrderEnvelope)
    requires DueNow(s, e)
    ensures forall o :: o in Validated(s, m, e).accepted.transfers ==>
      o.sender == Some(e.playerId) && o.recipient in s.players && !Rivals(s, e.playerId, o.recipient)
  {
    Uncut(s, m, e);
    NothingForRivals(s, m, e, |e.orders.transfers|);
  }

  /** In every envelope, the refusals for the recipient's alliance are those of orders to rivals. */
  lemma {:induction false} RivalsAreRefused(s: Snapshot, m: MapDefinition, e: OrderEnvelope, n: nat, i: nat)
    requires DueNow(s, e) && i < n <= |e.orders.transfers|
    ensures Rejection(TransferKind, i, InvalidRecipientRelation) in Before(s, m, e, n).rejected
      <==> e.orders.transfers[i].recipient in s.players && Rivals(s, e.playerId, e.orders.transfers[i].recipient)
  {
    TransferDecided(s, m, e, n - 1);
    if i < n - 1 {
      RivalsAreRefused(s, m, e, n - 1, i);
    } else {
      EarlierIndexes(s, m, e, i);
    }
  }

  lemma EarlierIndexes(s: Snapshot, m: MapDefinition, e: OrderEnvelope, n: nat)
    requires DueNow(s, e) && n <= |e.orders.transfers|
    ensures forall r :: r in Before(s, m, e, n).rejected && r.kind == TransferKind ==> r.index < n
  {
    var p, cut := e.playerId, Cut(e, |e.orders.movements|, |e.orders.recruitment|, |e.orders.upgrades|, n).orders;
    var recruitment := RecruitmentPass(s, p, s.players[p].resources, cut.recruitment);
    var upgrade := UpgradePass(s, p, recruitment.budget, cut.upgrades);
    MovementsSplit(s, m, p, s.players[p].resources, cut.movements);
    RecruitmentAccepted(s, p, s.players[p].resources, cut.recruitment);
    UpgradesAccepted(s, p, recruitment.budget, cut.upgrades);
    TransfersAccepted(s, m, p, upgrade.budget, cut.transfers);
    FilterMapTotal(Stamped(p), cut.transfers);
  }

  /** One transfer by itself: money in hand reaches every known player but a rival, an ally and an unallied player alike. */
  lemma OneTransfer(s: Snapshot, m: MapDefinition, e: OrderEnvelope, o: TransferOrder)
    requires DueNow(s, e) && e.orders == OrderBatch([], [], [], [o])
    requires o.resource == Money && o.recipient in s.players
    ensures var held := s.players[e.playerId].resources;
      Validated(s, m, e) ==
        if Rivals(s, e.playerId, o.recipient) then ValidationResult(NO_ORDERS, [Rejection(TransferKind, 0, InvalidRecipientRelation)])
        else if held.food >= 0 && held.production >= 0 && held.money >= o.amount
        then ValidationResult(OrderBatch([], [], [], [o.(sender := Some(e.playerId))]), [])
        else ValidationResult(NO_ORDERS, [Rejection(TransferKind, 0, InsufficientResources)])
  {
    Uncut(s, m, e);
    TransferDecided(s, m, e, 0);
  }

  /**
   * Land routes, in the map's own terms: from p's to q's along land edges, through cities of the two or, if they are allied,
   * of their alliance.
   */
  lemma LandRouteInWords(s: Snapshot, m: MapDefinition, p: PlayerId, q: PlayerId)
    requires p in s.players && q in s.players
    ensures LandRoute(s, m, p, q) <==> exists path :: LandPath(s, m, p, q, path)
  {
    forall path: seq<CityId> ensures Route(s, m, p, q, path) <==> LandPath(s, m, p, q, path) { PathInWords(s, m, p, q, path); }
  }

  ghost predicate LandEdge(m: MapDefinition, a: CityId, b: CityId) {
    exists e :: e in m.edges && e.traversal == Land && ((e.cityA == a && e.cityB == b) || (e.cityA == b && e.cityB == a))
  }

  /** The city belongs to one of the two players or, when both are in one alliance, to anyone in it. */
  predicate LetsThrough(s: Snapshot, p: PlayerId, q: PlayerId, c: CityId)
    requires p in s.players && q in s.players
  {
    c in s.cities && s.cities[c].owner.Some?
    && var r := s.cities[c].owner.value;
       r == p || r == q || (r in s.players && s.players[r].allianceId.Some?
         && s.players[p].allianceId == s.players[r].allianceId && s.players[q].allianceId == s.players[r].allianceId)
  }

  ghost predicate LandPath(s: Snapshot, m: MapDefinition, p: PlayerId, q: PlayerId, path: seq<CityId>)
    requires p in s.players && q in s.players
  {
    && path != [] && (forall i :: 0 <= i < |path| ==> LetsThrough(s, p, q, path[i]))
    && s.cities[path[0]].owner == Some(p) && s.cities[path[|path| - 1]].owner == Some(q)
    && forall i, j :: 0 <= i < |path| - 1 && j == i + 1 ==> LandEdge(m, path[i], path[j])
  }

  lemma ConnectedByLand(m: MapDefinition, a: CityId, b: CityId)
    ensures Connected(m, Some(Land), a, b) <==> LandEdge(m, a, b)
  {
    if Connected(m, Some(Land), a, b) {
      var e :| e in Filter(InMode(Some(Land)), m.edges) && Joins(e, a, b);
      FilterMember(InMode(Some(Land)), m.edges, e);
    }
    if LandEdge(m, a, b) {
      var e :| e in m.edges && e.traversal == Land && Joins(e, a, b);
      FilterMember(InMode(Some(Land)), m.edges, e);
    }
  }

  lemma PathInWords(s: Snapshot, m: MapDefinition, p: PlayerId, q: PlayerId, path: seq<CityId>)
    requires p in s.players && q in s.players
    ensures Route(s, m, p, q, path) <==> LandPath(s, m, p, q, path)
  {
    forall c ensures OnRoute(s, p, q, c) <==> LetsThrough(s, p, q, c) { }
    forall i | 0 <= i < |path| - 1 ensures RouteStep(m, path, i) <==> LandEdge(m, path[i], path[i + 1]) {
      ConnectedByLand(m, path[i], path[i + 1]);
    }
  }

  // ---- envelopes that are not for now ----

  /** An envelope for another tick, or from nobody, gets every order refused for that reason and nothing accepted. */
  lemma NotNow(s: Snapshot, m: MapDefinition, e: OrderEnvelope)
    requires !DueNow(s, e)
    ensures var reason := if e.tick != s.tick then LateOrder else UnknownPlayer;
      var result := Validated(s, m, e);
      && result.accepted == NO_ORDERS
      && (forall i: nat :: i < |e.orders.movements| ==> Rejection(MovementKind, i, reason) in result.rejected)
      && (forall i: nat :: i < |e.orders.recruitment| ==> Rejection(RecruitmentKind, i, reason) in result.rejected)
      && (forall i: nat :: i < |e.orders.upgrades| ==> Rejection(UpgradeKind, i, reason) in result.rejected)
      && (forall i: nat :: i < |e.orders.transfers| ==> Rejection(TransferKind, i, reason) in result.rejected)
      && |result.rejected| == |e.orders.movements| + |e.orders.recruitment| + |e.orders.upgrades| + |e.orders.transfers|
  {
    var reason := if e.tick != s.tick then LateOrder else UnknownPlayer;
    InRange(MovementKind, |e.orders.movements|, reason);
    InRange(RecruitmentKind, |e.orders.recruitment|, reason);
    InRange(UpgradeKind, |e.orders.upgrades|, reason);
    InRange(TransferKind, |e.orders.transfers|, reason);
  }

  lemma InRange(kind: OrderKind, count: nat, reason: Reason)
    ensures forall i: nat :: i < count ==> Rejection(kind, i, reason) in RejectRange(kind, count, reason)
  {
    forall i: nat | i < count ensures Rejection(kind, i, reason) in RejectRange(kind, count, reason) {
      assert RejectRange(kind, count, reason)[i] == Rejection(kind, i, reason);
    }
  }
}
