/** What each tick phase does to a match state, entity by entity and free of any visiting order. */
module Phases {
  import opened Collections
  import opened Ordering
  import opened Naming
  import opened Domain
  import opened Casualties
  import opened Leadership

  ghost function OwnedCities(cities: map<CityId, City>, p: PlayerId): set<CityId> {
    set c | c in cities && cities[c].owner == Some(p)
  }

  // ---- resource phase ----

  /** The first resource, in the order food, production, money, that a city makes most of. */
  function PrimaryResource(base: Resources): Resource {
    if base.food >= base.production && base.food >= base.money then Food
    else if base.production >= base.money then Production
    else Money
  }

  function YieldOf(city: City, r: Resource): int {
    if r == PrimaryResource(city.base)
    then city.base.Get(r) * EconomyNumerator(city.upgrades.economy) / ECONOMY_DENOMINATOR
    else city.base.Get(r)
  }

  function YieldAt(cities: map<CityId, City>, r: Resource): CityId -> int {
    (c: CityId) => if c in cities then YieldOf(cities[c], r) else 0
  }

  function PopulationAt(cities: map<CityId, City>): CityId -> int {
    (c: CityId) => if c in cities then cities[c].population else 0
  }

  ghost function TotalYield(cities: map<CityId, City>, p: PlayerId, r: Resource): int {
    SumOver(YieldAt(cities, r), OwnedCities(cities, p))
  }

  ghost function TotalPopulation(cities: map<CityId, City>, p: PlayerId): int {
    SumOver(PopulationAt(cities), OwnedCities(cities, p))
  }

  function OwnTroops(p: PlayerId): Army -> int {
    (a: Army) => if a.owner == p then a.troops else 0
  }

  ghost function FortifiedCities(cities: map<CityId, City>, p: PlayerId): set<CityId> {
    set c | c in cities && cities[c].owner == Some(p) && cities[c].upgrades.fortification > 0
  }

  function UpkeepAt(cities: map<CityId, City>): CityId -> int {
    (c: CityId) => if c in cities then FortificationUpkeep(cities[c].upgrades.fortification) else 0
  }

  /** Pay down a list of cities while the money lasts, skipping what it cannot cover. */
  function PayUpkeep(cities: map<CityId, City>, ids: seq<CityId>, money: int): (int, set<CityId>) {
    if ids == [] then (money, {}) else
      var (left, unpaid) := PayUpkeep(cities, ids[..|ids| - 1], money);
      var city := ids[|ids| - 1];
      if left >= UpkeepAt(cities)(city) then (left - UpkeepAt(cities)(city), unpaid)
      else (left, unpaid + {city})
  }

  ghost function MoneyBeforeUpkeep(s: Snapshot, p: PlayerId): int
    requires p in s.players
  {
    s.players[p].resources.money + TotalYield(s.cities, p, Money)
  }

  ghost function Upkeep(s: Snapshot, p: PlayerId): (int, set<CityId>)
    requires p in s.players
  {
    PayUpkeep(s.cities, Listing(FortifiedCities(s.cities, p)), MoneyBeforeUpkeep(s, p))
  }

  ghost function ResourcesAfterIncome(s: Snapshot, p: PlayerId): Resources
    requires p in s.players
  {
    Resources(
      Max(0, s.players[p].resources.food + TotalYield(s.cities, p, Food)
             - TotalPopulation(s.cities, p) - SumBy(OwnTroops(p), s.armies)),
      s.players[p].resources.production + TotalYield(s.cities, p, Production),
      Max(0, Upkeep(s, p).0))
  }

  /** The state model refuses negative counts when a player's resources are stored back. */
  ghost predicate IncomeStorable(s: Snapshot) {
    forall p :: p in s.players ==> ResourcesAfterIncome(s, p).production >= 0
  }

  ghost function ResourcePhase(s: Snapshot): Snapshot {
    s.(players := map p | p in s.players :: s.players[p].(resources := ResourcesAfterIncome(s, p)))
  }

  ghost function UnpaidCities(s: Snapshot): set<CityId> {
    set c | c in s.cities && s.cities[c].owner.Some? && s.cities[c].owner.value in s.players
         && c in Upkeep(s, s.cities[c].owner.value).1
  }

  // ---- build phase ----

  const COUNT_DOWN: QueueItem -> Option<QueueItem> :=
    (q: QueueItem) => if q.ticksRemaining - 1 == 0 then None else Some(q.(ticksRemaining := q.ticksRemaining - 1))

  function FinishItems(upgrades: Upgrades, queue: seq<QueueItem>): Upgrades {
    if queue == [] then upgrades else
      var earlier, item := FinishItems(upgrades, queue[..|queue| - 1]), queue[|queue| - 1];
      if item.ticksRemaining - 1 == 0 then earlier.Set(item.track, item.tier) else earlier
  }

  function AdvanceQueue(city: City): City {
    city.(upgrades := FinishItems(city.upgrades, city.queue), queue := FilterMap(COUNT_DOWN, city.queue))
  }

  ghost function QueuesAdvanced(s: Snapshot): Snapshot {
    s.(cities := map c | c in s.cities :: AdvanceQueue(s.cities[c]))
  }

  predicate Stationed(a: Army, c: CityId) {
    a.location == Some(c) && a.destination == None
  }

  function StationedOf(p: PlayerId, c: CityId): Army -> bool {
    (a: Army) => a.owner == p && Stationed(a, c)
  }

  function GroupAt(armies: seq<Army>, p: PlayerId, c: CityId): seq<Army> {
    Filter(StationedOf(p, c), armies)
  }

  function AddTroops(id: ArmyId, n: int): Army -> Option<Army> {
    (a: Army) => Some(if a.id == id then a.(troops := a.troops + n) else a)
  }

  function RecruitPrefix(p: PlayerId, c: CityId): string {
    "recruitment:" + p + ":" + c + ":"
  }

  ghost function Raised(armies: seq<Army>, p: PlayerId, c: CityId, n: int): Army {
    Army(Numbered(RecruitPrefix(p, c), FirstFree(RecruitPrefix(p, c), Ids(armies), 1)), p, n, Some(c), None, None, 0)
  }

  ghost function LeastIdAt(armies: seq<Army>, p: PlayerId, c: CityId): (id: ArmyId)
    requires GroupAt(armies, p, c) != []
  {
    IdOrderIsTotal();
    SortSorts(ID_ORDER, GroupAt(armies, p, c));
    Sort(ID_ORDER, GroupAt(armies, p, c))[0].id
  }

  /** Recruits join the least-named friendly army in the city, or form a new one. */
  ghost function Reinforce(armies: seq<Army>, p: PlayerId, c: CityId, n: int): seq<Army> {
    if GroupAt(armies, p, c) != [] then FilterMap(AddTroops(LeastIdAt(armies, p, c), n), armies)
    else armies + [Raised(armies, p, c, n)]
  }

  /** The player who pays for work in a city. */
  function Payer(cities: map<CityId, City>, players: map<PlayerId, Player>, c: CityId): Option<PlayerId> {
    if c in cities && cities[c].owner.Some? && cities[c].owner.value in players then cities[c].owner else None
  }

  function RecruitBill(troops: int): Resources {
    Resources(troops * RECRUIT_FOOD, troops * RECRUIT_PRODUCTION, 0)
  }

  ghost function RecruitOne(s: Snapshot, o: RecruitmentOrder): Snapshot {
    match Payer(s.cities, s.players, o.city)
    case None => s
    case Some(p) =>
      s.(players := s.players[p := s.players[p].(resources := s.players[p].resources.Minus(RecruitBill(o.troops)))],
         armies := Reinforce(s.armies, p, o.city, o.troops))
  }

  ghost function RecruitAll(s: Snapshot, orders: seq<RecruitmentOrder>): Snapshot {
    if orders == [] then s
    else RecruitOne(RecruitAll(s, orders[..|orders| - 1]), orders[|orders| - 1])
  }

  /** Orders are processed by owner, then city, then size. Putting no owner first only completes the order: see RecruitSortable. */
  predicate OwnerLe(x: Option<PlayerId>, y: Option<PlayerId>) {
    x.None? || (y.Some? && StrLe(x.value, y.value))
  }

  function CityOwner(cities: map<CityId, City>, c: CityId): Option<PlayerId> {
    if c in cities then cities[c].owner else None
  }

  predicate RecruitLe(cities: map<CityId, City>, x: RecruitmentOrder, y: RecruitmentOrder) {
    var ox, oy := CityOwner(cities, x.city), CityOwner(cities, y.city);
    if ox != oy then OwnerLe(ox, oy)
    else if x.city != y.city then StrLe(x.city, y.city)
    else x.troops <= y.troops
  }

  function RecruitOrder(cities: map<CityId, City>): (RecruitmentOrder, RecruitmentOrder) -> bool {
    (x: RecruitmentOrder, y: RecruitmentOrder) => RecruitLe(cities, x, y)
  }

  /** An owner and no owner cannot be compared; two owners, or no owner twice, can. */
  function OwnersComparable(cities: map<CityId, City>): (RecruitmentOrder, RecruitmentOrder) -> bool {
    (x: RecruitmentOrder, y: RecruitmentOrder) => HasOwner(cities)(x) == HasOwner(cities)(y)
  }

  function HasOwner(cities: map<CityId, City>): RecruitmentOrder -> bool {
    (o: RecruitmentOrder) => CityOwner(cities, o.city).Some?
  }

  /** The cities recruited in are all owned, or all unowned or unknown: only then can the orders be sorted. */
  ghost predicate RecruitSortable(cities: map<CityId, City>, orders: seq<RecruitmentOrder>) {
    OneKind(HasOwner(cities), orders)
  }

  ghost function Recruited(s: Snapshot, orders: seq<RecruitmentOrder>): Snapshot {
    RecruitAll(s, Sort(RecruitOrder(s.cities), orders))
  }

  function QueuedTracks(start: map<CityId, City>, c: CityId): set<Track> {
    if c in start then set q | q in start[c].queue :: q.track else {}
  }

  /** Who pays for an upgrade order, if it starts at all. */
  function UpgradePayer(start: map<CityId, City>, s: Snapshot, o: UpgradeOrder): Option<PlayerId> {
    if o.track in QueuedTracks(start, o.city) then None else Payer(s.cities, s.players, o.city)
  }

  function UpgradeBill(start: map<CityId, City>, s: Snapshot, p: PlayerId): UpgradeOrder -> int {
    (o: UpgradeOrder) => if UpgradePayer(start, s, o) == Some(p) then UpgradeCost(o.track, o.target) else 0
  }

  function NewItem(start: map<CityId, City>, s: Snapshot, c: CityId): UpgradeOrder -> Option<QueueItem> {
    (o: UpgradeOrder) =>
      if o.city == c && UpgradePayer(start, s, o).Some?
      then Some(QueueItem(o.track, o.target, BuildDuration(o.target))) else None
  }

  ghost function UpgradesStarted(start: map<CityId, City>, s: Snapshot, orders: seq<UpgradeOrder>): Snapshot {
    s.(cities := map c | c in s.cities ::
         s.cities[c].(queue := s.cities[c].queue + FilterMap(NewItem(start, s, c), orders)),
       players := map p | p in s.players ::
         s.players[p].(resources := s.players[p].resources.Add(Production, -SumBy(UpgradeBill(start, s, p), orders))))
  }

  predicate TransferApplies(players: map<PlayerId, Player>, o: TransferOrder) {
    o.sender.Some? && o.sender.value in players && o.recipient in players
  }

  function TransferNet(players: map<PlayerId, Player>, p: PlayerId, r: Resource): TransferOrder -> int {
    (o: TransferOrder) =>
      if !TransferApplies(players, o) || o.resource != r then 0
      else (if o.recipient == p then o.amount else 0) - (if o.sender == Some(p) then o.amount else 0)
  }

  ghost function AfterTransfers(players: map<PlayerId, Player>, p: PlayerId, orders: seq<TransferOrder>): Player
    requires p in players
  {
    players[p].(resources := Resources(
      players[p].resources.food + SumBy(TransferNet(players, p, Food), orders),
      players[p].resources.production + SumBy(TransferNet(players, p, Production), orders),
      players[p].resources.money + SumBy(TransferNet(players, p, Money), orders)))
  }

  ghost function Transferred(s: Snapshot, orders: seq<TransferOrder>): Snapshot {
    s.(players := map p | p in s.players :: AfterTransfers(s.players, p, orders))
  }

  ghost function BuildPhase(s: Snapshot, orders: OrderBatch): Snapshot {
    var advanced := QueuesAdvanced(s);
    var recruited := Recruited(advanced, orders.recruitment);
    var upgraded := UpgradesStarted(s.cities, recruited, orders.upgrades);
    Transferred(upgraded, orders.transfers)
  }

  // ---- movement phase ----

  const STEP_TRANSIT: Army -> Option<Army> :=
    (a: Army) =>
      if a.destination == None then Some(a)
      else if a.ticksRemaining - 1 == 0 then
        Some(a.(location := a.destination, destination := None, path := None, ticksRemaining := 0))
      else Some(a.(ticksRemaining := a.ticksRemaining - 1))

  /** The length of the route between two cities; a later edge overrides an earlier one. */
  function EdgeDistance(edges: seq<Edge>, a: CityId, b: CityId): Option<Positive> {
    if edges == [] then None
    else if Joins(edges[|edges| - 1], a, b) then Some(edges[|edges| - 1].distance)
    else EdgeDistance(edges[..|edges| - 1], a, b)
  }

  function MoveOne(a: Army, o: MovementOrder, m: MapDefinition): Army {
    if a.id != o.armyId || a.location == None || a.destination != None then a
    else match EdgeDistance(m.edges, a.location.value, o.destination)
      case None => a
      case Some(distance) =>
        a.(location := None, destination := Some(o.destination), path := Some([o.destination]), ticksRemaining := distance)
  }

  function MoveBy(a: Army, orders: seq<MovementOrder>, m: MapDefinition): Army {
    if orders == [] then a else MoveOne(MoveBy(a, orders[..|orders| - 1], m), orders[|orders| - 1], m)
  }

  function Departing(orders: seq<MovementOrder>, m: MapDefinition): Army -> Option<Army> {
    (a: Army) => Some(MoveBy(a, orders, m))
  }

  ghost function MovementPhase(s: Snapshot, orders: OrderBatch, m: MapDefinition): Snapshot {
    s.(armies := FilterMap(Departing(orders.movements, m), FilterMap(STEP_TRANSIT, s.armies)))
  }

  // ---- combat phase ----

  ghost function Occupants(armies: seq<Army>, c: CityId): set<PlayerId> {
    set a | a in armies && Stationed(a, c) :: a.owner
  }

  ghost predicate Contested(armies: seq<Army>, c: CityId) {
    exists a, b :: a in armies && b in armies && Stationed(a, c) && Stationed(b, c) && a.owner != b.owner
  }

  /** Defenders fight at 12/10, times 10, 13, 17 or 25 tenths by fortification tier, rounded down. */
  function EffectiveStrength(troops: int, isDefender: bool, fortification: Tier): int {
    if !isDefender then troops
    else if fortification == 0 then troops * (12 * 10) / 100
    else if fortification == 1 then troops * (12 * 13) / 100
    else if fortification == 2 then troops * (12 * 17) / 100
    else troops * (12 * 25) / 100
  }

  function TroopsAt(armies: seq<Army>, p: PlayerId, c: CityId): int {
    SumBy(TROOPS, GroupAt(armies, p, c))
  }

  function StrengthAt(s: Snapshot, p: PlayerId, c: CityId): int
    requires c in s.cities
  {
    EffectiveStrength(TroopsAt(s.armies, p, c), s.cities[c].owner == Some(p), s.cities[c].upgrades.fortification)
  }

  function StrengthOf(s: Snapshot, c: CityId): PlayerId -> int {
    (p: PlayerId) => if c in s.cities then StrengthAt(s, p, c) else 0
  }

  ghost function Opposition(s: Snapshot, p: PlayerId, c: CityId): int {
    SumOver(StrengthOf(s, c), Occupants(s.armies, c) - {p})
  }

  /** A tenth of the opposing strength, at most the troops at hand. */
  function CasualtiesFrom(troops: int, opposing: int): int {
    if opposing <= 0 then 0 else Min(troops, opposing / CASUALTY_DIVISOR)
  }

  ghost function CasualtiesAt(s: Snapshot, p: PlayerId, c: CityId): int
    requires c in s.cities
  {
    CasualtiesFrom(TroopsAt(s.armies, p, c), Opposition(s, p, c))
  }

  ghost predicate InBattle(s: Snapshot, a: Army) {
    a.location.Some? && a.location.value in s.cities && a.destination == None && Contested(s.armies, a.location.value)
  }

  ghost function BattleLoss(s: Snapshot, p: PlayerId, c: CityId, a: Army): int {
    if c in s.cities then Loss(GroupAt(s.armies, p, c), CasualtiesAt(s, p, c))(a) else 0
  }

  /** What an army loses: its share of its owner's casualties in the city it stands in. */
  ghost function CombatLoss(s: Snapshot): Army -> int {
    (a: Army) => if InBattle(s, a) then BattleLoss(s, a.owner, a.location.value, a) else 0
  }

  ghost function Survives(loss: Army -> int): Army -> Option<Army> {
    (a: Army) => if a.troops - loss(a) > 0 then Some(a.(troops := a.troops - loss(a))) else None
  }

  ghost function Fought(s: Snapshot): Snapshot {
    s.(armies := FilterMap(Survives(CombatLoss(s)), s.armies))
  }

  /** A city falls to its only occupant, when that occupant is a player. */
  ghost function HolderOf(s: Snapshot, c: CityId): Option<PlayerId>
    requires c in s.cities
  {
    if exists p :: p in s.players && Occupants(s.armies, c) == {p}
    then var p :| p in s.players && Occupants(s.armies, c) == {p}; Some(p)
    else s.cities[c].owner
  }

  ghost function Gained(s: Snapshot, p: PlayerId): set<CityId> {
    set c | c in s.cities && s.cities[c].owner != Some(p) && HolderOf(s, c) == Some(p)
  }

  ghost function Lost(s: Snapshot, p: PlayerId): set<CityId> {
    set c | c in s.cities && s.cities[c].owner == Some(p) && HolderOf(s, c) != Some(p)
  }

  function Outside(ids: set<CityId>): CityId -> bool {
    (c: CityId) => c !in ids
  }

  /** Losses are struck from the list; the first gain re-sorts it. */
  ghost function Revised(listed: seq<CityId>, lost: set<CityId>, gained: set<CityId>): seq<CityId> {
    var kept := Filter(Outside(lost), listed);
    if gained == {} then kept else Listing(Elements(kept) + gained)
  }

  ghost function Holdings(s: Snapshot, p: PlayerId): seq<CityId>
    requires p in s.players
  {
    Revised(s.players[p].citiesOwned, Lost(s, p), Gained(s, p))
  }

  ghost function ControlTransferred(s: Snapshot): Snapshot {
    s.(cities := map c | c in s.cities :: s.cities[c].(owner := HolderOf(s, c)),
       players := map p | p in s.players :: s.players[p].(citiesOwned := Holdings(s, p)))
  }

  ghost function CombatPhase(s: Snapshot): Snapshot {
    ControlTransferred(Fought(s))
  }

  // ---- siege and attrition ----

  ghost predicate AdjacentBy(edges: seq<Edge>, a: CityId, b: CityId) {
    exists e :: e in edges && Joins(e, a, b)
  }

  ghost predicate Adjacent(m: MapDefinition, a: CityId, b: CityId) {
    AdjacentBy(m.edges, a, b)
  }

  /** No neighbour is friendly, and there is at least one neighbour on the map. */
  ghost predicate Besieged(s: Snapshot, m: MapDefinition, c: CityId)
    requires c in s.cities
  {
    && s.cities[c].owner.Some?
    && (exists n :: Adjacent(m, c, n))
    && (forall n :: Adjacent(m, c, n) && n in s.cities && s.cities[n].owner.Some? ==>
          CoalitionOf(s.players, s.cities[n].owner.value) != CoalitionOf(s.players, s.cities[c].owner.value))
  }

  function Weaken(city: City): City {
    if city.upgrades.fortification == 0 then city
    else city.(upgrades := city.upgrades.(fortification := city.upgrades.fortification - 1))
  }

  ghost function SiegeDegraded(s: Snapshot, m: MapDefinition): set<CityId> {
    set c | c in s.cities && s.cities[c].upgrades.fortification > 0 && Besieged(s, m, c)
  }

  ghost function SiegePhase(s: Snapshot, m: MapDefinition): Snapshot {
    s.(cities := map c | c in s.cities ::
         if c in SiegeDegraded(s, m) then Weaken(s.cities[c]) else s.cities[c])
  }

  ghost function Starving(players: map<PlayerId, Player>): set<PlayerId> {
    set p | p in players && players[p].resources.food == 0
  }

  ghost function HungerLoss(starving: set<PlayerId>): Army -> int {
    (a: Army) => if a.owner in starving then STARVATION_LOSS else 0
  }

  ghost predicate Present(s: Snapshot, p: PlayerId) {
    (exists c :: c in s.cities && s.cities[c].owner == Some(p)) || (exists a :: a in s.armies && a.owner == p)
  }

  ghost function Starved(s: Snapshot): Snapshot {
    s.(armies := FilterMap(Survives(HungerLoss(Starving(s.players))), s.armies))
  }

  ghost function UnpaidDegraded(s: Snapshot, unpaid: set<CityId>, degraded: set<CityId>): Snapshot {
    s.(cities := map c | c in s.cities ::
         if c in unpaid && c !in degraded then Weaken(s.cities[c]) else s.cities[c])
  }

  ghost function EliminationMarked(s: Snapshot): Snapshot {
    s.(players := map p | p in s.players :: s.players[p].(isEliminated := !Present(s, p)))
  }

  ghost function AttritionPhase(s: Snapshot, unpaid: set<CityId>, degraded: set<CityId>): Snapshot {
    EliminationMarked(UnpaidDegraded(Starved(s), unpaid, degraded))
  }

  // ---- victory phase ----

  ghost function VictoryPhase(s: Snapshot): Snapshot {
    var leader := match LeaderOf(s, CoalitionKey(s.players)) { case None => None case Some(k) => Some(k.id) };
    var held := MostHeld(s, CoalitionKey(s.players));
    s.(victory := s.victory.(
         leader := leader, citiesHeld := held, countdown := NextCountdown(s.victory, leader, held)))
  }

  // ---- the whole tick ----

  /** Why a tick cannot be resolved: income that cannot be stored, or recruitment orders that cannot be sorted. */
  datatype TickError = IncomeRefused | OrdersNotComparable

  ghost function TickFailure(s: Snapshot, orders: OrderBatch): Option<TickError> {
    if !IncomeStorable(s) then Some(IncomeRefused)
    else if !RecruitSortable(s.cities, orders.recruitment) then Some(OrdersNotComparable)
    else None
  }

  ghost function NextState(s: Snapshot, orders: OrderBatch, m: MapDefinition): Snapshot {
    var fought := CombatPhase(MovementPhase(BuildPhase(ResourcePhase(s), orders), orders, m));
    var besieged := SiegePhase(fought, m);
    VictoryPhase(AttritionPhase(besieged, UnpaidCities(s), SiegeDegraded(fought, m)))
  }
}
