/** Who pays what in a tick, and why production never runs out. */
module Economy {
  import opened Collections
  import opened Ordering
  import opened Domain
  import opened Phases
  import opened BuildFacts
  import opened Validation
  import opened ValidationFacts
  import opened Submissions
  import opened OrderIndependence

  // ---- recruitment bills ----

  function RecruitBillFor(s: Snapshot, p: PlayerId, r: Resource): RecruitmentOrder -> int {
    (o: RecruitmentOrder) => if Payer(s.cities, s.players, o.city) == Some(p) then RecruitBill(o.troops).Get(r) else 0
  }

  lemma {:induction false} RecruitAllBilled(s: Snapshot, orders: seq<RecruitmentOrder>, p: PlayerId, r: Resource)
    requires p in s.players
    ensures p in RecruitAll(s, orders).players
    ensures RecruitAll(s, orders).players[p].resources.Get(r)
         == s.players[p].resources.Get(r) - SumBy(RecruitBillFor(s, p, r), orders)
  {
    RecruitFrame(s, orders);
    if orders != [] {
      var init, o := orders[..|orders| - 1], orders[|orders| - 1];
      RecruitAllBilled(s, init, p, r);
      RecruitFrame(s, init);
      PayerFromKeys(s, RecruitAll(s, init), o.city);
    }
  }

  lemma PayerFromKeys(s: Snapshot, t: Snapshot, c: CityId)
    requires t.cities == s.cities && t.players.Keys == s.players.Keys
    ensures Payer(t.cities, t.players, c) == Payer(s.cities, s.players, c)
  {
  }

  lemma RecruitedBilled(s: Snapshot, orders: seq<RecruitmentOrder>, p: PlayerId, r: Resource)
    requires p in s.players
    ensures p in Recruited(s, orders).players
    ensures Recruited(s, orders).players[p].resources.Get(r)
         == s.players[p].resources.Get(r) - SumBy(RecruitBillFor(s, p, r), orders)
  {
    var sorted := Sort(RecruitOrder(s.cities), orders);
    RecruitOrderIsTotal(s.cities);
    SortSorts(RecruitOrder(s.cities), orders);
    RecruitAllBilled(s, sorted, p, r);
    SumByMultiset(RecruitBillFor(s, p, r), sorted, orders);
  }

  // ---- the ledger of the build phase ----

  function UpgradeBillIn(start: map<CityId, City>, s: Snapshot, p: PlayerId, r: Resource): UpgradeOrder -> int {
    (o: UpgradeOrder) => if r.Production? && UpgradePayer(start, s, o) == Some(p) then UpgradeCost(o.track, o.target) else 0
  }

  /** What the build phase takes from and gives to one player, resource by resource. */
  ghost function BuildNet(s: Snapshot, orders: OrderBatch, p: PlayerId, r: Resource): int {
    SumBy(TransferNet(s.players, p, r), orders.transfers)
    - SumBy(RecruitBillFor(s, p, r), orders.recruitment) - SumBy(UpgradeBillIn(s.cities, s, p, r), orders.upgrades)
  }

  lemma BuildLedger(s: Snapshot, orders: OrderBatch, p: PlayerId, r: Resource)
    requires p in s.players
    ensures p in BuildPhase(s, orders).players
    ensures BuildPhase(s, orders).players[p].resources.Get(r) == s.players[p].resources.Get(r) + BuildNet(s, orders, p, r)
  {
    var advanced := QueuesAdvanced(s);
    var recruited := Recruited(advanced, orders.recruitment);
    var upgraded := UpgradesStarted(s.cities, recruited, orders.upgrades);
    RecruitedBilled(advanced, orders.recruitment, p, r);
    RecruitFrame(advanced, Sort(RecruitOrder(advanced.cities), orders.recruitment));
    RecruitBillsAgree(s, advanced, orders.recruitment, p, r);
    UpgradeStep(s, recruited, orders.upgrades, p, r);
    TransferNetAgrees(s.players, upgraded.players, orders.transfers, p, r);
    assert Transferred(upgraded, orders.transfers).players[p].resources.Get(r)
      == upgraded.players[p].resources.Get(r) + SumBy(TransferNet(upgraded.players, p, r), orders.transfers);
  }

  lemma RecruitBillsAgree(s: Snapshot, t: Snapshot, orders: seq<RecruitmentOrder>, p: PlayerId, r: Resource)
    requires t == QueuesAdvanced(s)
    ensures SumBy(RecruitBillFor(t, p, r), orders) == SumBy(RecruitBillFor(s, p, r), orders)
  {
    SumByCongruent(RecruitBillFor(t, p, r), RecruitBillFor(s, p, r), orders);
  }

  lemma UpgradeStep(s: Snapshot, t: Snapshot, orders: seq<UpgradeOrder>, p: PlayerId, r: Resource)
    requires t.cities == QueuesAdvanced(s).cities && t.players.Keys == s.players.Keys && p in t.players
    ensures UpgradesStarted(s.cities, t, orders).players[p].resources.Get(r)
         == t.players[p].resources.Get(r) - SumBy(UpgradeBillIn(s.cities, s, p, r), orders)
  {
    if r.Production? {
      SumByCongruent(UpgradeBill(s.cities, t, p), UpgradeBillIn(s.cities, s, p, r), orders);
    } else {
      UpgradesFree(s.cities, s, orders, p, r);
    }
  }

  lemma {:induction false} UpgradesFree(start: map<CityId, City>, s: Snapshot, orders: seq<UpgradeOrder>, p: PlayerId, r: Resource)
    requires !r.Production?
    ensures SumBy(UpgradeBillIn(start, s, p, r), orders) == 0
  {
    if orders != [] { UpgradesFree(start, s, orders[..|orders| - 1], p, r); }
  }

  lemma TransferNetAgrees(a: map<PlayerId, Player>, b: map<PlayerId, Player>, orders: seq<TransferOrder>, p: PlayerId, r: Resource)
    requires a.Keys == b.Keys
    ensures SumBy(TransferNet(a, p, r), orders) == SumBy(TransferNet(b, p, r), orders)
  {
    SumByCongruent(TransferNet(a, p, r), TransferNet(b, p, r), orders);
  }

  // ---- bills against accepted orders ----

  function Credit(players: map<PlayerId, Player>, p: PlayerId, r: Resource): TransferOrder -> int {
    (o: TransferOrder) => if TransferApplies(players, o) && o.resource == r && o.recipient == p then o.amount else 0
  }

  /** What a player is sent in a batch. */
  ghost function Received(s: Snapshot, orders: OrderBatch, p: PlayerId, r: Resource): int {
    SumBy(Credit(s.players, p, r), orders.transfers)
  }

  lemma ReceivedNonNegative(s: Snapshot, orders: OrderBatch, p: PlayerId, r: Resource)
    ensures 0 <= Received(s, orders, p, r)
  {
    SumByNonNegative(Credit(s.players, p, r), orders.transfers);
  }

  function Debit(players: map<PlayerId, Player>, p: PlayerId, r: Resource): TransferOrder -> int {
    (o: TransferOrder) => if TransferApplies(players, o) && o.resource == r && o.sender == Some(p) then 0 - o.amount else 0
  }

  function Sends(p: PlayerId, r: Resource): TransferOrder -> int {
    (o: TransferOrder) => if SentBy()(p)(o) then TransferCost(r)(o) else 0
  }

  /** Nothing is billed that the player did not order: recruitment and transfers exactly, upgrades at most. */
  lemma BillsMatchOrders(s: Snapshot, orders: OrderBatch, p: PlayerId, r: Resource)
    requires p in s.players
    requires forall o :: o in orders.transfers ==> TransferApplies(s.players, o)
    ensures Received(s, orders, p, r) - Spend(PartOf(s, orders, p), r) <= BuildNet(s, orders, p, r)
    ensures !r.Production? ==> BuildNet(s, orders, p, r) == Received(s, orders, p, r) - Spend(PartOf(s, orders, p), r)
  {
    var part := PartOf(s, orders, p);
    SumByFilter(RecruitCost(r), RecruitedBy(s)(p), RecruitBillFor(s, p, r), orders.recruitment);
    TransfersMatch(s, orders.transfers, p, r);
    UpgradesMatch(s, orders.upgrades, p, r);
  }

  lemma TransfersMatch(s: Snapshot, orders: seq<TransferOrder>, p: PlayerId, r: Resource)
    requires forall o :: o in orders ==> TransferApplies(s.players, o)
    ensures SumBy(TransferNet(s.players, p, r), orders)
         == SumBy(Credit(s.players, p, r), orders) - SumBy(TransferCost(r), Filter(SentBy()(p), orders))
  {
    SumByAdd(TransferNet(s.players, p, r), Credit(s.players, p, r), Debit(s.players, p, r), orders);
    SumByFilter(TransferCost(r), SentBy()(p), Sends(p, r), orders);
    SendsAreDebits(s, orders, p, r);
  }

  lemma {:induction false} SendsAreDebits(s: Snapshot, orders: seq<TransferOrder>, p: PlayerId, r: Resource)
    requires forall o :: o in orders ==> TransferApplies(s.players, o)
    ensures SumBy(Debit(s.players, p, r), orders) == -SumBy(Sends(p, r), orders)
  {
    if orders != [] {
      var last := orders[|orders| - 1];
      assert last in orders;
      SendsAreDebits(s, orders[..|orders| - 1], p, r);
      assert TransferCost(r)(last) == if last.resource == r then last.amount else 0;
    }
  }

  function Charged(s: Snapshot, p: PlayerId, r: Resource): UpgradeOrder -> int {
    (o: UpgradeOrder) => if UpgradedBy(s)(p)(o) then UpgradeCostIn(r)(o) else 0
  }

  lemma UpgradesMatch(s: Snapshot, orders: seq<UpgradeOrder>, p: PlayerId, r: Resource)
    ensures SumBy(UpgradeBillIn(s.cities, s, p, r), orders) <= SumBy(UpgradeCostIn(r), Filter(UpgradedBy(s)(p), orders))
    ensures !r.Production? ==>
      SumBy(UpgradeBillIn(s.cities, s, p, r), orders) == 0 == SumBy(UpgradeCostIn(r), Filter(UpgradedBy(s)(p), orders))
  {
    SumByFilter(UpgradeCostIn(r), UpgradedBy(s)(p), Charged(s, p, r), orders);
    SumByBounds(UpgradeBillIn(s.cities, s, p, r), Charged(s, p, r), orders);
    if !r.Production? {
      UpgradesFree(s.cities, s, orders, p, r);
      SumByCongruent(UpgradeBillIn(s.cities, s, p, r), Charged(s, p, r), orders);
    }
  }

  // ---- yields ----

  ghost predicate YieldsOk(s: Snapshot) {
    forall c :: c in s.cities ==> 0 <= s.cities[c].base.food && 0 <= s.cities[c].base.production && 0 <= s.cities[c].base.money
  }

  lemma YieldNonNegative(city: City, r: Resource)
    requires 0 <= city.base.Get(r)
    ensures 0 <= YieldOf(city, r)
  {
  }

  lemma TotalYieldNonNegative(s: Snapshot, p: PlayerId, r: Resource)
    requires YieldsOk(s)
    ensures 0 <= TotalYield(s.cities, p, r)
  {
    forall c | c in OwnedCities(s.cities, p) ensures 0 <= YieldAt(s.cities, r)(c) { YieldNonNegative(s.cities[c], r); }
    SumOverNonNegative(YieldAt(s.cities, r), OwnedCities(s.cities, p));
  }

  ghost predicate ProductionOk(s: Snapshot) {
    forall p :: p in s.players ==> 0 <= s.players[p].resources.production
  }

  /** The resource phase only adds production, so storing it back never fails. */
  lemma IncomeAlwaysStorable(s: Snapshot)
    requires YieldsOk(s) && ProductionOk(s)
    ensures IncomeStorable(s) && ProductionOk(ResourcePhase(s))
  {
    forall p | p in s.players ensures ResourcesAfterIncome(s, p).production >= s.players[p].resources.production {
      TotalYieldNonNegative(s, p, Production);
    }
  }

  // ---- the tick ----

  lemma {:induction false} TransfersApply(s: Snapshot, m: MapDefinition, queue: seq<OrderEnvelope>, players: seq<PlayerId>)
    ensures forall o :: o in JoinedAccepted(s, m, queue, players).transfers ==> TransferApplies(s.players, o)
  {
    if players != [] {
      TransfersApply(s, m, queue, players[..|players| - 1]);
      var p := players[|players| - 1];
      match CombinedFor(queue, p)
      case None =>
      case Some(e) => AcceptedTransfersApply(s, m, e);
    }
  }

  lemma AcceptedTransfersApply(s: Snapshot, m: MapDefinition, e: OrderEnvelope)
    ensures forall o :: o in Validated(s, m, e).accepted.transfers ==> TransferApplies(s.players, o)
  {
    var p := e.playerId;
    if e.tick == s.tick && p in s.players {
      var recruitment := RecruitmentPass(s, p, s.players[p].resources, e.orders.recruitment);
      var upgrade := UpgradePass(s, p, recruitment.budget, e.orders.upgrades);
      TransfersAccepted(s, m, p, upgrade.budget, e.orders.transfers);
    }
  }

  ghost function Spent(s: Snapshot, m: MapDefinition, queue: seq<OrderEnvelope>, p: PlayerId, r: Resource): int {
    Spend(AcceptedFor(s, m, queue, p), r)
  }

  lemma SpentWithinBudget(s: Snapshot, m: MapDefinition, queue: seq<OrderEnvelope>, p: PlayerId, r: Resource)
    requires p in s.players && 0 <= s.players[p].resources.Get(r)
    ensures 0 <= Spent(s, m, queue, p, r) <= s.players[p].resources.Get(r)
  {
    match CombinedFor(queue, p)
    case None =>
    case Some(e) =>
      FilterMember(From(p), queue, Filter(From(p), queue)[0]);
      AcceptedAffordable(s, m, e, r);
  }

  ghost function BuiltState(s: Snapshot, m: MapDefinition, queue: seq<OrderEnvelope>): Snapshot {
    BuildPhase(ResourcePhase(s), QueuedBatch(s, m, queue))
  }

  lemma SamePart(s: Snapshot, t: Snapshot, b: OrderBatch, p: PlayerId)
    requires t.cities == s.cities && t.armies == s.armies
    ensures PartOf(t, b, p) == PartOf(s, b, p)
  {
    FilterSame(MovedBy(t)(p), MovedBy(s)(p), b.movements);
    FilterSame(RecruitedBy(t)(p), RecruitedBy(s)(p), b.recruitment);
    FilterSame(UpgradedBy(t)(p), UpgradedBy(s)(p), b.upgrades);
  }

  lemma {:induction false} FilterSame<T>(f: T -> bool, g: T -> bool, xs: seq<T>)
    requires forall x :: x in xs ==> f(x) == g(x)
    ensures Filter(f, xs) == Filter(g, xs)
  {
    if xs != [] {
      assert xs[|xs| - 1] in xs;
      FilterSame(f, g, xs[..|xs| - 1]);
    }
  }

  /**
   * After building, a player holds what income left, less what its accepted orders cost, plus what it was sent:
   * exactly for food and money, at least for production (an upgrade already under way is not charged again).
   */
  lemma BuildAccounts(s: Snapshot, m: MapDefinition, queue: seq<OrderEnvelope>, p: PlayerId, r: Resource)
    requires p in s.players
    ensures var t := BuiltState(s, m, queue);
      var due := ResourcesAfterIncome(s, p).Get(r) - Spent(s, m, queue, p, r) + Received(s, QueuedBatch(s, m, queue), p, r);
      && p in t.players && due <= t.players[p].resources.Get(r)
      && (!r.Production? ==> t.players[p].resources.Get(r) == due)
  {
    var batch := QueuedBatch(s, m, queue);
    TransfersApply(s, m, queue, Submitters(queue));
    PartOfQueued(s, m, queue, p);
    BatchAccounts(s, ResourcePhase(s), batch, p, r);
  }

  lemma BatchAccounts(s: Snapshot, paid: Snapshot, batch: OrderBatch, p: PlayerId, r: Resource)
    requires p in s.players && paid.players.Keys == s.players.Keys && paid.cities == s.cities && paid.armies == s.armies
    requires forall o :: o in batch.transfers ==> TransferApplies(s.players, o)
    ensures var t := BuildPhase(paid, batch);
      var due := paid.players[p].resources.Get(r) - Spend(PartOf(s, batch, p), r) + Received(s, batch, p, r);
      && p in t.players && due <= t.players[p].resources.Get(r)
      && (!r.Production? ==> t.players[p].resources.Get(r) == due)
  {
    BuildLedger(paid, batch, p, r);
    BillsMatchOrders(paid, batch, p, r);
    SamePart(s, paid, batch, p);
    SumByCongruent(Credit(paid.players, p, r), Credit(s.players, p, r), batch.transfers);
  }

  /** No later phase touches a player's resources. */
  lemma ResourcesSettled(s: Snapshot, orders: OrderBatch, m: MapDefinition, p: PlayerId)
    requires p in s.players
    ensures p in BuildPhase(ResourcePhase(s), orders).players && p in NextState(s, orders, m).players
    ensures NextState(s, orders, m).players[p].resources == BuildPhase(ResourcePhase(s), orders).players[p].resources
  {
    BuildLedger(ResourcePhase(s), orders, p, Food);
  }

  /** Validated orders never drive production below zero. */
  lemma ProductionStaysNonNegative(s: Snapshot, m: MapDefinition, queue: seq<OrderEnvelope>)
    requires YieldsOk(s) && ProductionOk(s)
    ensures IncomeStorable(s) && ProductionOk(NextState(s, QueuedBatch(s, m, queue), m))
  {
    IncomeAlwaysStorable(s);
    var t := NextState(s, QueuedBatch(s, m, queue), m);
    PlayersKept(s, QueuedBatch(s, m, queue), m);
    forall p | p in t.players ensures 0 <= t.players[p].resources.production { ProductionOf(s, m, queue, p); }
  }

  lemma ProductionOf(s: Snapshot, m: MapDefinition, queue: seq<OrderEnvelope>, p: PlayerId)
    requires YieldsOk(s) && ProductionOk(s) && p in s.players
    ensures p in NextState(s, QueuedBatch(s, m, queue), m).players
    ensures 0 <= NextState(s, QueuedBatch(s, m, queue), m).players[p].resources.production
  {
    BuildAccounts(s, m, queue, p, Production);
    SpentWithinBudget(s, m, queue, p, Production);
    ReceivedNonNegative(s, QueuedBatch(s, m, queue), p, Production);
    TotalYieldNonNegative(s, p, Production);
    ResourcesSettled(s, QueuedBatch(s, m, queue), m, p);
  }

  lemma PlayersKept(s: Snapshot, orders: OrderBatch, m: MapDefinition)
    ensures NextState(s, orders, m).players.Keys == s.players.Keys
  {
    var advanced := QueuesAdvanced(ResourcePhase(s));
    RecruitFrame(advanced, Sort(RecruitOrder(advanced.cities), orders.recruitment));
  }

  /** What a player got accepted fits what upkeep leaves it together with what it is sent. */
  ghost predicate SpendingFitsIn(s: Snapshot, m: MapDefinition, queue: seq<OrderEnvelope>, p: PlayerId, r: Resource)
    requires p in s.players
  {
    Spent(s, m, queue, p, r) <= ResourcesAfterIncome(s, p).Get(r) + Received(s, QueuedBatch(s, m, queue), p, r)
  }

  /** Food and money: a tick ends at or above zero exactly when the accepted spending fits what upkeep left. */
  lemma StaysInTheBlackIff(s: Snapshot, m: MapDefinition, queue: seq<OrderEnvelope>, p: PlayerId, r: Resource)
    requires p in s.players && !r.Production?
    ensures p in NextState(s, QueuedBatch(s, m, queue), m).players
    ensures 0 <= NextState(s, QueuedBatch(s, m, queue), m).players[p].resources.Get(r)
      <==> Spent(s, m, queue, p, r) <= ResourcesAfterIncome(s, p).Get(r) + Received(s, QueuedBatch(s, m, queue), p, r)
  {
    BuildAccounts(s, m, queue, p, r);
    ResourcesSettled(s, QueuedBatch(s, m, queue), m, p);
  }

  // ---- transfers only move resources ----

  ghost function Holding(players: map<PlayerId, Player>, r: Resource): map<PlayerId, int> {
    map p | p in players :: players[p].resources.Get(r)
  }

  ghost function Wealth(players: map<PlayerId, Player>, r: Resource): int {
    SumMap(Holding(players, r))
  }

  lemma AdjustedWealth(players: map<PlayerId, Player>, p: PlayerId, given: Resource, amount: int, r: Resource)
    requires p in players
    ensures Wealth(players[p := Adjusted(players[p], given, amount)], r)
         == Wealth(players, r) + if given == r then amount else 0
  {
    var now := players[p].resources.Get(r) + if given == r then amount else 0;
    assert Holding(players[p := Adjusted(players[p], given, amount)], r) == Holding(players, r)[p := now];
    SumMapUpdate(Holding(players, r), p, now);
  }

  /** Debit then credit of the same amount leaves every total alone. */
  lemma SettledWealth(players: map<PlayerId, Player>, o: TransferOrder, r: Resource)
    requires TransferApplies(players, o)
    ensures var debited := players[o.sender.value := Debited(players[o.sender.value], o.resource, o.amount)];
      Wealth(debited[o.recipient := Adjusted(debited[o.recipient], o.resource, o.amount)], r) == Wealth(players, r)
  {
    var debited := players[o.sender.value := Debited(players[o.sender.value], o.resource, o.amount)];
    AdjustedWealth(players, o.sender.value, o.resource, -(o.amount as int), r);
    AdjustedWealth(debited, o.recipient, o.resource, o.amount, r);
  }

  /** One more transfer order leaves every total alone. */
  lemma TransferConserves(s: Snapshot, orders: seq<TransferOrder>, r: Resource)
    requires orders != []
    ensures Wealth(Transferred(s, orders).players, r) == Wealth(Transferred(s, orders[..|orders| - 1]).players, r)
  {
    var i := |orders| - 1;
    var o, before := orders[i], Transferred(s, orders[..i]).players;
    assert orders[..i + 1] == orders;
    if TransferApplies(s.players, o) {
      TransferStep(s, before, orders, i);
      SettledWealth(before, o, r);
      var debited := before[o.sender.value := Debited(before[o.sender.value], o.resource, o.amount)];
      TransfersMadeUnique(s, orders, debited[o.recipient := Adjusted(debited[o.recipient], o.resource, o.amount)]);
    } else {
      TransferSkipped(s, before, orders, i);
      TransfersMadeUnique(s, orders, before);
    }
  }

  /** The total of every resource over all players is the same before and after the transfers. */
  lemma {:induction false} TransfersConserve(s: Snapshot, orders: seq<TransferOrder>, r: Resource)
    ensures Wealth(Transferred(s, orders).players, r) == Wealth(s.players, r)
  {
    if orders == [] {
      assert Holding(Transferred(s, orders).players, r) == Holding(s.players, r);
    } else {
      TransfersConserve(s, orders[..|orders| - 1], r);
      TransferConserves(s, orders, r);
    }
  }

  lemma TransfersMadeUnique(s: Snapshot, orders: seq<TransferOrder>, players: map<PlayerId, Player>)
    requires TransfersMade(s, players, orders)
    ensures players == Transferred(s, orders).players
  {
  }
}
