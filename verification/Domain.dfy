/** Match states, orders and maps, as the values that the engine copies around. */
module Domain {
  import opened Collections

  type CityId = string
  type PlayerId = string
  type ArmyId = string

  type Positive = n: int | 0 < n witness 1
  type Tier = n: int | 0 <= n <= 3
  type TargetTier = n: int | 1 <= n <= 3 witness 1

  datatype Resource = Food | Production | Money
  datatype Track = Economy | Military | Fortification

  /** Counts stay plain integers: orders may push food and money below zero inside a tick. */
  datatype Resources = Resources(food: int, production: int, money: int) {
    function Get(r: Resource): int {
      match r
      case Food => food
      case Production => production
      case Money => money
    }

    function Add(r: Resource, amount: int): Resources {
      match r
      case Food => this.(food := food + amount)
      case Production => this.(production := production + amount)
      case Money => this.(money := money + amount)
    }

    predicate Covers(cost: Resources) {
      food >= cost.food && production >= cost.production && money >= cost.money
    }

    function Minus(cost: Resources): Resources {
      Resources(food - cost.food, production - cost.production, money - cost.money)
    }
  }

  datatype Upgrades = Upgrades(economy: Tier, military: Tier, fortification: Tier) {
    function Get(track: Track): Tier {
      match track
      case Economy => economy
      case Military => military
      case Fortification => fortification
    }

    function Set(track: Track, tier: Tier): Upgrades {
      match track
      case Economy => this.(economy := tier)
      case Military => this.(military := tier)
      case Fortification => this.(fortification := tier)
    }
  }

  datatype QueueItem = QueueItem(track: Track, tier: TargetTier, ticksRemaining: int)

  datatype City = City(
    owner: Option<PlayerId>,
    population: nat,
    base: Resources,
    upgrades: Upgrades,
    garrison: nat,
    queue: seq<QueueItem>)

  datatype Army = Army(
    id: ArmyId,
    owner: PlayerId,
    troops: int,
    location: Option<CityId>,
    destination: Option<CityId>,
    path: Option<seq<CityId>>,
    ticksRemaining: int)

  datatype Player = Player(
    resources: Resources,
    citiesOwned: seq<CityId>,
    allianceId: Option<string>,
    isEliminated: bool)

  datatype Victory = Victory(
    leader: Option<string>,
    citiesHeld: nat,
    threshold: nat,
    countdown: Option<nat>)

  datatype Snapshot = Snapshot(
    tick: nat,
    cities: map<CityId, City>,
    armies: seq<Army>,
    players: map<PlayerId, Player>,
    victory: Victory)

  // ---- orders ----

  datatype MovementOrder = MovementOrder(armyId: ArmyId, destination: CityId)
  datatype RecruitmentOrder = RecruitmentOrder(city: CityId, troops: Positive)
  datatype UpgradeOrder = UpgradeOrder(city: CityId, track: Track, target: TargetTier)
  datatype TransferOrder = TransferOrder(sender: Option<PlayerId>, recipient: PlayerId, resource: Resource, amount: Positive)

  datatype OrderBatch = OrderBatch(
    movements: seq<MovementOrder>,
    recruitment: seq<RecruitmentOrder>,
    upgrades: seq<UpgradeOrder>,
    transfers: seq<TransferOrder>)

  const NO_ORDERS := OrderBatch([], [], [], [])

  datatype OrderEnvelope = OrderEnvelope(matchId: string, playerId: PlayerId, tick: nat, orders: OrderBatch)

  // ---- maps ----

  datatype Traversal = Land | Sea
  datatype Edge = Edge(cityA: CityId, cityB: CityId, distance: Positive, traversal: Traversal)
  datatype CityDefinition = CityDefinition(region: string, primary: Resource, spawnAllowed: bool)
  datatype MapDefinition = MapDefinition(cities: map<CityId, CityDefinition>, edges: seq<Edge>)

  /** Edges join known cities; a map that breaks this never loads. */
  ghost predicate MapWellFormed(m: MapDefinition) {
    forall e :: e in m.edges ==> e.cityA in m.cities && e.cityB in m.cities
  }

  predicate Joins(e: Edge, a: CityId, b: CityId) {
    (e.cityA == a && e.cityB == b) || (e.cityA == b && e.cityB == a)
  }

  // ---- costs and multipliers ----

  const RECRUIT_FOOD := 1
  const RECRUIT_PRODUCTION := 5

  function UpgradeCost(track: Track, tier: TargetTier): nat {
    match track
    case Economy => if tier == 1 then 7 else if tier == 2 then 11 else 15
    case Military => if tier == 1 then 8 else if tier == 2 then 12 else 16
    case Fortification => if tier == 1 then 6 else if tier == 2 then 10 else 14
  }

  /** Ticks an upgrade takes to build. */
  function BuildDuration(tier: TargetTier): Positive { tier }

  function EconomyNumerator(tier: Tier): int { 3 + tier }
  const ECONOMY_DENOMINATOR := 3

  function FortificationUpkeep(tier: Tier): int { tier }

  const STARVATION_LOSS := 1
  const CASUALTY_DIVISOR := 10
}
