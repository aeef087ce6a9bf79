/** What the four passes accept, what they refuse, and what the accepted orders cost. */
module ValidationFacts {
  import opened Collections
  import opened Domain
  import opened Casualties
  import opened Phases
  import opened Validation

  // ---- every order is either kept, in place, or refused, by its index ----

  ghost function RefusedIndexes(rejected: seq<Rejection>): set<nat> {
    set r | r in rejected :: r.index
  }

  /** The orders whose indexes were not refused, in their original order. */
  ghost function Kept<T>(orders: seq<T>, refused: set<nat>): seq<T> {
    if orders == [] then [] else
      var earlier, i := Kept(orders[..|orders| - 1], refused), |orders| - 1;
      if i in refused then earlier else earlier + [orders[i]]
  }

  lemma {:induction false} KeptLater<T>(orders: seq<T>, refused: set<nat>, later: set<nat>)
    requires forall i: nat :: i < |orders| ==> (i in refused <==> i in later)
    ensures Kept(orders, refused) == Kept(orders, later)
  {
    if orders != [] { KeptLater(orders[..|orders| - 1], refused, later); }
  }

  /** The outcome of a pass splits its orders: accepted ones in order, the rest refused once each. */
  ghost predicate Splits<T>(orders: seq<T>, kind: OrderKind, accepted: seq<T>, rejected: seq<Rejection>) {
    && accepted == Kept(orders, RefusedIndexes(rejected))
    && |accepted| + |rejected| == |orders|
    && (forall r :: r in rejected ==> r.kind == kind && r.index < |orders|)
  }

  lemma SplitsRefuse<T>(orders: seq<T>, kind: OrderKind, accepted: seq<T>, rejected: seq<Rejection>, reason: Reason)
    requires orders != [] && Splits(orders[..|orders| - 1], kind, accepted, rejected)
    ensures Splits(orders, kind, accepted, rejected + [Rejection(kind, |orders| - 1, reason)])
  {
    var last := Rejection(kind, |orders| - 1, reason);
    assert RefusedIndexes(rejected + [last]) == RefusedIndexes(rejected) + {last.index};
    KeptLater(orders[..|orders| - 1], RefusedIndexes(rejected), RefusedIndexes(rejected + [last]));
  }

  lemma SplitsAccept<T>(orders: seq<T>, kind: OrderKind, accepted: seq<T>, rejected: seq<Rejection>)
    requires orders != [] && Splits(orders[..|orders| - 1], kind, accepted, rejected)
    ensures Splits(orders, kind, accepted + [orders[|orders| - 1]], rejected)
  {
  }

  // ---- movements ----

  function Moves(id: ArmyId): MovementOrder -> bool {
    (o: MovementOrder) => o.armyId == id
  }

  ghost function ValidMoves(s: Snapshot, m: MapDefinition, p: PlayerId, id: ArmyId): MovementOrder -> bool {
    (o: MovementOrder) => o.armyId == id && MovementReason(s, m, p, o) == None
  }

  function FirstOnly<T>(xs: seq<T>): seq<T> {
    if xs == [] then [] else xs[..1]
  }

  lemma OrderedMeansFiltered(accepted: seq<MovementOrder>, id: ArmyId)
    ensures ArmyOrdered(accepted, id) <==> Filter(Moves(id), accepted) != []
  {
    if ArmyOrdered(accepted, id) {
      var x :| x in accepted && x.armyId == id;
      FilterMember(Moves(id), accepted, x);
    }
    if Filter(Moves(id), accepted) != [] {
      FilterMember(Moves(id), accepted, Filter(Moves(id), accepted)[0]);
    }
  }

  /** With unique ids, looking an army up by id finds it or there is none. */
  lemma {:induction false} ArmyFound(armies: seq<Army>, id: ArmyId)
    requires UniqueIds(armies)
    ensures match FindArmy(armies, id)
      case Some(a) => a in armies && a.id == id && forall b :: b in armies && b.id == id ==> b == a
      case None => forall b :: b in armies ==> b.id != id
  {
    if armies != [] && armies[|armies| - 1].id != id {
      ArmyFound(armies[..|armies| - 1], id);
    }
  }

  /** Of the orders for one army, exactly the first valid one is accepted. */
  lemma {:induction false} MovementsAccepted(s: Snapshot, m: MapDefinition, p: PlayerId, start: Resources, orders: seq<MovementOrder>, id: ArmyId)
    ensures var pass := MovementPass(s, m, p, start, orders);
      Filter(Moves(id), pass.accepted) == FirstOnly(Filter(ValidMoves(s, m, p, id), orders))
  {
    if orders != [] {
      var init, o := orders[..|orders| - 1], orders[|orders| - 1];
      MovementsAccepted(s, m, p, start, init, id);
      FirstKept(MovementPass(s, m, p, start, init).accepted, id, o, MovementReason(s, m, p, o) == None,
                ValidMoves(s, m, p, id), init);
      assert orders == init + [o];
    }
  }

  /** One more order: accepted if it is valid and its army has none yet. */
  lemma FirstKept(accepted: seq<MovementOrder>, id: ArmyId, o: MovementOrder, ok: bool, valid: MovementOrder -> bool, init: seq<MovementOrder>)
    requires Filter(Moves(id), accepted) == FirstOnly(Filter(valid, init))
    requires valid(o) <==> o.armyId == id && ok
    ensures Filter(Moves(id), if ok && !ArmyOrdered(accepted, o.armyId) then accepted + [o] else accepted)
         == FirstOnly(Filter(valid, init + [o]))
  {
    OrderedMeansFiltered(accepted, o.armyId);
    assert (accepted + [o])[..|accepted + [o]| - 1] == accepted;
    assert (init + [o])[..|init + [o]| - 1] == init;
  }

  lemma {:induction false} MovementsSplit(s: Snapshot, m: MapDefinition, p: PlayerId, start: Resources, orders: seq<MovementOrder>)
    ensures var pass := MovementPass(s, m, p, start, orders);
      Splits(orders, MovementKind, pass.accepted, pass.rejected) && pass.budget == start
      && forall o :: o in pass.accepted ==> MovementReason(s, m, p, o) == None
  {
    if orders != [] {
      var init, o := orders[..|orders| - 1], orders[|orders| - 1];
      MovementsSplit(s, m, p, start, init);
      var pass := MovementPass(s, m, p, start, init);
      if ArmyOrdered(pass.accepted, o.armyId) {
        SplitsRefuse(orders, MovementKind, pass.accepted, pass.rejected, ConflictingDuplicate);
      } else {
        match MovementReason(s, m, p, o)
        case Some(reason) => SplitsRefuse(orders, MovementKind, pass.accepted, pass.rejected, reason);
        case None => SplitsAccept(orders, MovementKind, pass.accepted, pass.rejected);
      }
    }
  }

  // ---- spending ----

  function RecruitCost(r: Resource): RecruitmentOrder -> int {
    (o: RecruitmentOrder) => RecruitBill(o.troops).Get(r)
  }

  function UpgradeCostIn(r: Resource): UpgradeOrder -> int {
    (o: UpgradeOrder) => UpgradeCharge(o).Get(r)
  }

  function TransferCost(r: Resource): TransferOrder -> int {
    (o: TransferOrder) => TransferCharge(o).Get(r)
  }

  ghost function Spend(orders: OrderBatch, r: Resource): int {
    SumBy(RecruitCost(r), orders.recruitment) + SumBy(UpgradeCostIn(r), orders.upgrades) + SumBy(TransferCost(r), orders.transfers)
  }

  /** A pass that accepts anything leaves no count in the red, and always accounts for what it spent. */
  ghost predicate Accounted<T>(start: Resources, cost: Resource -> T -> int, accepted: seq<T>, left: Resources) {
    && (forall r: Resource :: left.Get(r) == start.Get(r) - SumBy(cost(r), accepted))
    && (accepted != [] ==> forall r: Resource :: 0 <= left.Get(r))
  }

  const RECRUIT_COST: Resource -> RecruitmentOrder -> int := (r: Resource) => RecruitCost(r)
  const UPGRADE_COST: Resource -> UpgradeOrder -> int := (r: Resource) => UpgradeCostIn(r)
  const TRANSFER_COST: Resource -> TransferOrder -> int := (r: Resource) => TransferCost(r)

  lemma AccountOne<T>(start: Resources, cost: Resource -> T -> int, accepted: seq<T>, left: Resources, o: T, charge: Resources)
    requires Accounted(start, cost, accepted, left) && left.Covers(charge)
    requires forall r: Resource :: cost(r)(o) == charge.Get(r)
    ensures Accounted(start, cost, accepted + [o], left.Minus(charge))
  {
    forall r: Resource
      ensures SumBy(cost(r), accepted + [o]) == SumBy(cost(r), accepted) + charge.Get(r)
      ensures left.Minus(charge).Get(r) == left.Get(r) - charge.Get(r) >= 0
    {
      SumByConcat(cost(r), accepted, [o]);
      assert SumBy(cost(r), [o]) == cost(r)(o);
    }
  }

  lemma {:induction false} RecruitmentAccepted(s: Snapshot, p: PlayerId, start: Resources, orders: seq<RecruitmentOrder>)
    ensures var pass := RecruitmentPass(s, p, start, orders);
      && Splits(orders, RecruitmentKind, pass.accepted, pass.rejected)
      && Accounted(start, RECRUIT_COST, pass.accepted, pass.budget)
      && (forall o :: o in pass.accepted ==> CityOwner(s.cities, o.city) == Some(p))
  {
    if orders != [] {
      var init, o := orders[..|orders| - 1], orders[|orders| - 1];
      RecruitmentAccepted(s, p, start, init);
      var pass := RecruitmentPass(s, p, start, init);
      match RecruitmentReason(s, p, pass.budget, o)
      case Some(reason) => SplitsRefuse(orders, RecruitmentKind, pass.accepted, pass.rejected, reason);
      case None =>
        SplitsAccept(orders, RecruitmentKind, pass.accepted, pass.rejected);
        AccountOne(start, RECRUIT_COST, pass.accepted, pass.budget, o, RecruitBill(o.troops));
    }
  }

  function OnTrack(c: CityId, t: Track): UpgradeOrder -> bool {
    (o: UpgradeOrder) => o.city == c && o.track == t
  }

  lemma TrackedMeansFiltered(accepted: seq<UpgradeOrder>, c: CityId, t: Track)
    ensures TrackOrdered(accepted, c, t) <==> Filter(OnTrack(c, t), accepted) != []
  {
    if TrackOrdered(accepted, c, t) {
      var x :| x in accepted && x.city == c && x.track == t;
      FilterMember(OnTrack(c, t), accepted, x);
    }
    if Filter(OnTrack(c, t), accepted) != [] {
      FilterMember(OnTrack(c, t), accepted, Filter(OnTrack(c, t), accepted)[0]);
    }
  }

  ghost predicate NextTier(s: Snapshot, o: UpgradeOrder) {
    o.city in s.cities && o.target == s.cities[o.city].upgrades.Get(o.track) + 1
  }

  lemma {:induction false} UpgradesAccepted(s: Snapshot, p: PlayerId, start: Resources, orders: seq<UpgradeOrder>)
    ensures var pass := UpgradePass(s, p, start, orders);
      && Splits(orders, UpgradeKind, pass.accepted, pass.rejected)
      && Accounted(start, UPGRADE_COST, pass.accepted, pass.budget)
      && (forall o :: o in pass.accepted ==> CityOwner(s.cities, o.city) == Some(p) && NextTier(s, o))
  {
    if orders != [] {
      var init, o := orders[..|orders| - 1], orders[|orders| - 1];
      UpgradesAccepted(s, p, start, init);
      var pass := UpgradePass(s, p, start, init);
      if TrackOrdered(pass.accepted, o.city, o.track) {
        SplitsRefuse(orders, UpgradeKind, pass.accepted, pass.rejected, ConflictingDuplicate);
      } else {
        match UpgradeReason(s, p, pass.budget, o)
        case Some(reason) => SplitsRefuse(orders, UpgradeKind, pass.accepted, pass.rejected, reason);
        case None =>
          SplitsAccept(orders, UpgradeKind, pass.accepted, pass.rejected);
          AccountOne(start, UPGRADE_COST, pass.accepted, pass.budget, o, UpgradeCharge(o));
      }
    }
  }

  /** At most one accepted upgrade per city and track. */
  lemma {:induction false} UpgradesDistinct(s: Snapshot, p: PlayerId, start: Resources, orders: seq<UpgradeOrder>, c: CityId, t: Track)
    ensures |Filter(OnTrack(c, t), UpgradePass(s, p, start, orders).accepted)| <= 1
  {
    if orders != [] {
      var init, o := orders[..|orders| - 1], orders[|orders| - 1];
      UpgradesDistinct(s, p, start, init, c, t);
      TrackedMeansFiltered(UpgradePass(s, p, start, init).accepted, o.city, o.track);
      FilterConcat(OnTrack(c, t), UpgradePass(s, p, start, init).accepted, [o]);
      assert Filter(OnTrack(c, t), [o]) == if o.city == c && o.track == t then [o] else [];
    }
  }

  function Stamped(p: PlayerId): TransferOrder -> Option<TransferOrder> {
    (o: TransferOrder) => Some(o.(sender := Some(p)))
  }

  /** Accepted transfers carry the sender and go to a known player. */
  lemma {:induction false} TransfersAccepted(s: Snapshot, m: MapDefinition, p: PlayerId, start: Resources, orders: seq<TransferOrder>)
    requires p in s.players
    ensures var pass := TransferPass(s, m, p, start, orders);
      && Splits(FilterMap(Stamped(p), orders), TransferKind, pass.accepted, pass.rejected)
      && Accounted(start, TRANSFER_COST, pass.accepted, pass.budget)
      && (forall o :: o in pass.accepted ==> o.sender == Some(p) && o.recipient in s.players)
  {
    if orders != [] {
      var init, o := orders[..|orders| - 1], orders[|orders| - 1];
      TransfersAccepted(s, m, p, start, init);
      var pass := TransferPass(s, m, p, start, init);
      var stamped := StampedInit(p, orders);
      match TransferReason(s, m, p, pass.budget, o)
      case Some(reason) => SplitsRefuse(stamped, TransferKind, pass.accepted, pass.rejected, reason);
      case None =>
        SplitsAccept(stamped, TransferKind, pass.accepted, pass.rejected);
        AccountOne(start, TRANSFER_COST, pass.accepted, pass.budget, o.(sender := Some(p)), TransferCharge(o));
    }
  }

  lemma StampedInit(p: PlayerId, orders: seq<TransferOrder>) returns (stamped: seq<TransferOrder>)
    requires orders != []
    ensures stamped == FilterMap(Stamped(p), orders) && |stamped| == |orders|
    ensures stamped[..|stamped| - 1] == FilterMap(Stamped(p), orders[..|orders| - 1])
    ensures stamped[|stamped| - 1] == orders[|orders| - 1].(sender := Some(p))
  {
    stamped := FilterMap(Stamped(p), orders);
    FilterMapTotal(Stamped(p), orders);
    FilterMapTotal(Stamped(p), orders[..|orders| - 1]);
  }

  // ---- a whole envelope ----

  lemma Chain(start: Resources, orders: OrderBatch, first: Resources, second: Resources, third: Resources)
    requires Accounted(start, RECRUIT_COST, orders.recruitment, first)
    requires Accounted(first, UPGRADE_COST, orders.upgrades, second)
    requires Accounted(second, TRANSFER_COST, orders.transfers, third)
    ensures forall r: Resource :: third.Get(r) == start.Get(r) - Spend(orders, r)
    ensures forall r: Resource :: 0 <= start.Get(r) ==> 0 <= third.Get(r)
  {
    forall r: Resource
      ensures third.Get(r) == start.Get(r) - Spend(orders, r)
      ensures 0 <= start.Get(r) ==> 0 <= third.Get(r)
    {
      assert first.Get(r) == start.Get(r) - SumBy(RECRUIT_COST(r), orders.recruitment);
      assert second.Get(r) == first.Get(r) - SumBy(UPGRADE_COST(r), orders.upgrades);
      assert third.Get(r) == second.Get(r) - SumBy(TRANSFER_COST(r), orders.transfers);
    }
  }

  /** What validation accepts, the player's resources before the tick can pay for, resource by resource. */
  lemma AcceptedAffordable(s: Snapshot, m: MapDefinition, e: OrderEnvelope, r: Resource)
    requires e.playerId in s.players && 0 <= s.players[e.playerId].resources.Get(r)
    ensures 0 <= Spend(Validated(s, m, e).accepted, r) <= s.players[e.playerId].resources.Get(r)
  {
    var p := e.playerId;
    var start := s.players[p].resources;
    var accepted := Validated(s, m, e).accepted;
    if e.tick == s.tick {
      var recruitment := RecruitmentPass(s, p, start, e.orders.recruitment);
      var upgrade := UpgradePass(s, p, recruitment.budget, e.orders.upgrades);
      var transfer := TransferPass(s, m, p, upgrade.budget, e.orders.transfers);
      RecruitmentAccepted(s, p, start, e.orders.recruitment);
      UpgradesAccepted(s, p, recruitment.budget, e.orders.upgrades);
      TransfersAccepted(s, m, p, upgrade.budget, e.orders.transfers);
      Chain(start, accepted, recruitment.budget, upgrade.budget, transfer.budget);
      assert 0 <= transfer.budget.Get(r);
    }
    SpendNonNegative(accepted, r);
  }

  lemma SpendNonNegative(orders: OrderBatch, r: Resource)
    ensures 0 <= Spend(orders, r)
  {
    SumByNonNegative(RecruitCost(r), orders.recruitment);
    SumByNonNegative(UpgradeCostIn(r), orders.upgrades);
    SumByNonNegative(TransferCost(r), orders.transfers);
  }

  /** A player with any count below zero gets no recruitment, upgrade or transfer accepted at all. */
  lemma NothingInTheRed(s: Snapshot, m: MapDefinition, e: OrderEnvelope, r: Resource)
    requires e.playerId in s.players && s.players[e.playerId].resources.Get(r) < 0
    ensures var accepted := Validated(s, m, e).accepted;
      accepted.recruitment == [] && accepted.upgrades == [] && accepted.transfers == []
  {
    if e.tick == s.tick {
      var p := e.playerId;
      var start := s.players[p].resources;
      NoRecruitmentInTheRed(s, p, start, e.orders.recruitment, r);
      NoUpgradeInTheRed(s, p, start, e.orders.upgrades, r);
      NoTransferInTheRed(s, m, p, start, e.orders.transfers, r);
    }
  }

  lemma {:induction false} NoRecruitmentInTheRed(s: Snapshot, p: PlayerId, start: Resources, orders: seq<RecruitmentOrder>, r: Resource)
    requires start.Get(r) < 0
    ensures RecruitmentPass(s, p, start, orders).accepted == [] && RecruitmentPass(s, p, start, orders).budget == start
  {
    if orders != [] { NoRecruitmentInTheRed(s, p, start, orders[..|orders| - 1], r); }
  }

  lemma {:induction false} NoUpgradeInTheRed(s: Snapshot, p: PlayerId, start: Resources, orders: seq<UpgradeOrder>, r: Resource)
    requires start.Get(r) < 0
    ensures UpgradePass(s, p, start, orders).accepted == [] && UpgradePass(s, p, start, orders).budget == start
  {
    if orders != [] { NoUpgradeInTheRed(s, p, start, orders[..|orders| - 1], r); }
  }

  lemma {:induction false} NoTransferInTheRed(s: Snapshot, m: MapDefinition, p: PlayerId, start: Resources, orders: seq<TransferOrder>, r: Resource)
    requires p in s.players && start.Get(r) < 0
    ensures TransferPass(s, m, p, start, orders).accepted == [] && TransferPass(s, m, p, start, orders).budget == start
  {
    if orders != [] { NoTransferInTheRed(s, m, p, start, orders[..|orders| - 1], r); }
  }
}
