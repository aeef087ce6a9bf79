/** Exactly when validating a player's envelopes one by one accepts what validating them together would. */
module HarnessBudgets {
  import opened Collections
  import opened Domain
  import opened Phases
  import opened Routes
  import opened Validation
  import opened ValidationFacts
  import opened Submissions
  import opened OrderIndependence
  import opened GreedyPasses
  import opened RunInvariant
  import opened Regression
  import opened Simulation
  import opened HarnessOrders

  // ---- the four passes as greedy rules ----

  const FREE: MovementOrder -> Resources := (o: MovementOrder) => NOTHING
  const RECRUIT_CHARGE: RecruitmentOrder -> Resources := (o: RecruitmentOrder) => RecruitBill(o.troops)
  const UPGRADE_CHARGE: UpgradeOrder -> Resources := (o: UpgradeOrder) => UpgradeCharge(o)
  const TRANSFER_CHARGE: TransferOrder -> Resources := (o: TransferOrder) => TransferCharge(o)

  ghost function MoveRule(s: Snapshot, m: MapDefinition, p: PlayerId): Rule<MovementOrder> {
    Rule((o: MovementOrder) => MovementReason(s, m, p, o) == None,
         (x: MovementOrder, o: MovementOrder) => x.armyId == o.armyId, FREE)
  }

  ghost function RecruitRule(s: Snapshot, p: PlayerId): Rule<RecruitmentOrder> {
    Rule((o: RecruitmentOrder) => CityOwner(s.cities, o.city) == Some(p),
         (x: RecruitmentOrder, o: RecruitmentOrder) => false, RECRUIT_CHARGE)
  }

  ghost function UpgradeRule(s: Snapshot, p: PlayerId): Rule<UpgradeOrder> {
    Rule((o: UpgradeOrder) => CityOwner(s.cities, o.city) == Some(p) && NextTier(s, o),
         (x: UpgradeOrder, o: UpgradeOrder) => x.city == o.city && x.track == o.track, UPGRADE_CHARGE)
  }

  /** Whom a transfer may go to, whatever it costs. */
  ghost predicate MayReceive(s: Snapshot, m: MapDefinition, p: PlayerId, o: TransferOrder) {
    && p in s.players && o.recipient in s.players && !RecipientRelation(s.players[p], s.players[o.recipient]).Enemy?
    && (o.resource.Money? || LandRoute(s, m, p, o.recipient))
  }

  ghost function TransferRule(s: Snapshot, m: MapDefinition, p: PlayerId): Rule<TransferOrder> {
    Rule((o: TransferOrder) => MayReceive(s, m, p, o), (x: TransferOrder, o: TransferOrder) => false, TRANSFER_CHARGE)
  }

  lemma {:induction false} MovesAreGreedy(s: Snapshot, m: MapDefinition, p: PlayerId, start: Resources, orders: seq<MovementOrder>)
    ensures Greedy(MoveRule(s, m, p), NOTHING, orders) == Outcome(MovementPass(s, m, p, start, orders).accepted, NOTHING)
  {
    if orders != [] {
      var o := orders[|orders| - 1];
      MovesAreGreedy(s, m, p, start, orders[..|orders| - 1]);
      var accepted := MovementPass(s, m, p, start, orders[..|orders| - 1]).accepted;
      assert Clashes(MoveRule(s, m, p).clash, accepted, o) <==> ArmyOrdered(accepted, o.armyId);
    }
  }

  lemma {:induction false} RecruitsAreGreedy(s: Snapshot, p: PlayerId, start: Resources, orders: seq<RecruitmentOrder>)
    ensures var pass := RecruitmentPass(s, p, start, orders);
      Greedy(RecruitRule(s, p), start, orders) == Outcome(pass.accepted, pass.budget)
  {
    if orders != [] { RecruitsAreGreedy(s, p, start, orders[..|orders| - 1]); }
  }

  lemma {:induction false} UpgradesAreGreedy(s: Snapshot, p: PlayerId, start: Resources, orders: seq<UpgradeOrder>)
    ensures var pass := UpgradePass(s, p, start, orders);
      Greedy(UpgradeRule(s, p), start, orders) == Outcome(pass.accepted, pass.budget)
  {
    if orders != [] {
      var o := orders[|orders| - 1];
      UpgradesAreGreedy(s, p, start, orders[..|orders| - 1]);
      var accepted := UpgradePass(s, p, start, orders[..|orders| - 1]).accepted;
      assert Clashes(UpgradeRule(s, p).clash, accepted, o) <==> TrackOrdered(accepted, o.city, o.track);
    }
  }

  lemma {:induction false} TransfersAreGreedy(s: Snapshot, m: MapDefinition, p: PlayerId, start: Resources, orders: seq<TransferOrder>)
    requires p in s.players
    ensures var pass := TransferPass(s, m, p, start, orders);
      Greedy(TransferRule(s, m, p), start, FilterMap(Stamped(p), orders)) == Outcome(pass.accepted, pass.budget)
  {
    if orders != [] {
      var o := orders[|orders| - 1];
      TransfersAreGreedy(s, m, p, start, orders[..|orders| - 1]);
      var stamped := StampedInit(p, orders);
      assert MayReceive(s, m, p, o.(sender := Some(p))) <==> MayReceive(s, m, p, o);
      assert TransferCharge(o.(sender := Some(p))) == TransferCharge(o);
    }
  }

  // ---- the parts of an envelope ----

  const MOVES_IN: OrderEnvelope -> seq<MovementOrder> := (e: OrderEnvelope) => e.orders.movements
  const RECRUITS_IN: OrderEnvelope -> seq<RecruitmentOrder> := (e: OrderEnvelope) => e.orders.recruitment
  const UPGRADES_IN: OrderEnvelope -> seq<UpgradeOrder> := (e: OrderEnvelope) => e.orders.upgrades
  const TRANSFERS_IN: OrderEnvelope -> seq<TransferOrder> := (e: OrderEnvelope) => e.orders.transfers

  function StampedIn(p: PlayerId): OrderEnvelope -> seq<TransferOrder> {
    (e: OrderEnvelope) => FilterMap(Stamped(p), e.orders.transfers)
  }

  lemma {:induction false} JoinedIsFlat(envelopes: seq<OrderEnvelope>)
    ensures JoinedOrders(envelopes)
      == OrderBatch(Flat(MOVES_IN, envelopes), Flat(RECRUITS_IN, envelopes), Flat(UPGRADES_IN, envelopes), Flat(TRANSFERS_IN, envelopes))
  {
    if envelopes != [] { JoinedIsFlat(envelopes[..|envelopes| - 1]); }
  }

  lemma {:induction false} StampedIsFlat(p: PlayerId, envelopes: seq<OrderEnvelope>)
    ensures FilterMap(Stamped(p), Flat(TRANSFERS_IN, envelopes)) == Flat(StampedIn(p), envelopes)
  {
    if envelopes != [] {
      var init, e := envelopes[..|envelopes| - 1], envelopes[|envelopes| - 1];
      StampedIsFlat(p, init);
      FilterMapConcat(Stamped(p), Flat(TRANSFERS_IN, init), TRANSFERS_IN(e));
    }
  }

  // ---- what each envelope starts from, and what it gets, by itself ----

  function Same(start: Resources): OrderEnvelope -> Resources {
    (e: OrderEnvelope) => start
  }

  ghost function AfterRecruits(s: Snapshot, p: PlayerId, start: Resources): OrderEnvelope -> Resources {
    (e: OrderEnvelope) => Greedy(RecruitRule(s, p), start, RECRUITS_IN(e)).budget
  }

  ghost function AfterUpgrades(s: Snapshot, p: PlayerId, start: Resources): OrderEnvelope -> Resources {
    (e: OrderEnvelope) => Greedy(UpgradeRule(s, p), AfterRecruits(s, p, start)(e), UPGRADES_IN(e)).budget
  }

  ghost function MovesKept(s: Snapshot, m: MapDefinition, p: PlayerId): OrderEnvelope -> seq<MovementOrder> {
    KeptBy(MoveRule(s, m, p), MOVES_IN, Same(NOTHING))
  }

  ghost function RecruitsKept(s: Snapshot, p: PlayerId, start: Resources): OrderEnvelope -> seq<RecruitmentOrder> {
    KeptBy(RecruitRule(s, p), RECRUITS_IN, Same(start))
  }

  ghost function UpgradesKept(s: Snapshot, p: PlayerId, start: Resources): OrderEnvelope -> seq<UpgradeOrder> {
    KeptBy(UpgradeRule(s, p), UPGRADES_IN, AfterRecruits(s, p, start))
  }

  ghost function TransfersKept(s: Snapshot, m: MapDefinition, p: PlayerId, start: Resources): OrderEnvelope -> seq<TransferOrder> {
    KeptBy(TransferRule(s, m, p), StampedIn(p), AfterUpgrades(s, p, start))
  }

  /** Envelopes of one known player, due now. */
  ghost predicate OwnAndDue(s: Snapshot, p: PlayerId, envelopes: seq<OrderEnvelope>) {
    p in s.players && forall e :: e in envelopes ==> e.playerId == p && e.tick == s.tick
  }

  lemma ValidatedAlone(s: Snapshot, m: MapDefinition, p: PlayerId, e: OrderEnvelope)
    requires OwnAndDue(s, p, [e])
    ensures var start := s.players[p].resources;
      Validated(s, m, e).accepted
      == OrderBatch(MovesKept(s, m, p)(e), RecruitsKept(s, p, start)(e), UpgradesKept(s, p, start)(e), TransfersKept(s, m, p, start)(e))
  {
    assert e in [e];
    var start := s.players[p].resources;
    var recruitment := RecruitmentPass(s, p, start, e.orders.recruitment);
    var upgrade := UpgradePass(s, p, recruitment.budget, e.orders.upgrades);
    MovesAreGreedy(s, m, p, start, e.orders.movements);
    RecruitsAreGreedy(s, p, start, e.orders.recruitment);
    UpgradesAreGreedy(s, p, recruitment.budget, e.orders.upgrades);
    TransfersAreGreedy(s, m, p, upgrade.budget, e.orders.transfers);
  }

  /** What is accepted of a player's envelopes separately. */
  lemma {:induction false} EachIsFlat(s: Snapshot, m: MapDefinition, p: PlayerId, envelopes: seq<OrderEnvelope>)
    requires OwnAndDue(s, p, envelopes)
    ensures var start := s.players[p].resources;
      EachAccepted(s, m, envelopes) == OrderBatch(Flat(MovesKept(s, m, p), envelopes), Flat(RecruitsKept(s, p, start), envelopes),
        Flat(UpgradesKept(s, p, start), envelopes), Flat(TransfersKept(s, m, p, start), envelopes))
  {
    if envelopes != [] {
      assert envelopes[|envelopes| - 1] in envelopes;
      EachIsFlat(s, m, p, envelopes[..|envelopes| - 1]);
      ValidatedAlone(s, m, p, envelopes[|envelopes| - 1]);
    }
  }

  // ---- what is accepted of them together ----

  ghost function Recruits(s: Snapshot, p: PlayerId, envelopes: seq<OrderEnvelope>): Outcome<RecruitmentOrder>
    requires p in s.players
  {
    Greedy(RecruitRule(s, p), s.players[p].resources, Flat(RECRUITS_IN, envelopes))
  }

  ghost function Upgraded(s: Snapshot, p: PlayerId, envelopes: seq<OrderEnvelope>): Outcome<UpgradeOrder>
    requires p in s.players
  {
    Greedy(UpgradeRule(s, p), Recruits(s, p, envelopes).budget, Flat(UPGRADES_IN, envelopes))
  }

  ghost function Sent(s: Snapshot, m: MapDefinition, p: PlayerId, envelopes: seq<OrderEnvelope>): Outcome<TransferOrder>
    requires p in s.players
  {
    Greedy(TransferRule(s, m, p), Upgraded(s, p, envelopes).budget, Flat(StampedIn(p), envelopes))
  }

  ghost function Moved(s: Snapshot, m: MapDefinition, p: PlayerId, envelopes: seq<OrderEnvelope>): Outcome<MovementOrder> {
    Greedy(MoveRule(s, m, p), NOTHING, Flat(MOVES_IN, envelopes))
  }

  lemma TogetherIsGreedy(s: Snapshot, m: MapDefinition, p: PlayerId, envelopes: seq<OrderEnvelope>, e: OrderEnvelope)
    requires OwnAndDue(s, p, [e]) && e.orders == JoinedOrders(envelopes)
    ensures Validated(s, m, e).accepted == OrderBatch(Moved(s, m, p, envelopes).accepted, Recruits(s, p, envelopes).accepted,
                                                      Upgraded(s, p, envelopes).accepted, Sent(s, m, p, envelopes).accepted)
  {
    ValidatedAlone(s, m, p, e);
    assert e in [e];
    JoinedIsFlat(envelopes);
    StampedIsFlat(p, envelopes);
  }
  // ---- which batches can be had together ----

  ghost predicate ArmiesOnce(movements: seq<MovementOrder>) {
    forall i, j :: 0 <= i < j < |movements| ==> movements[i].armyId != movements[j].armyId
  }

  ghost predicate TracksOnce(upgrades: seq<UpgradeOrder>) {
    forall i, j :: 0 <= i < j < |upgrades| ==> !(upgrades[i].city == upgrades[j].city && upgrades[i].track == upgrades[j].track)
  }

  ghost predicate CostsNothing(orders: OrderBatch) {
    orders.recruitment == [] && orders.upgrades == [] && orders.transfers == []
  }

  /** The batch costs nothing at all, or in every resource no more than there is. */
  ghost predicate WithinMeans(start: Resources, orders: OrderBatch) {
    || CostsNothing(orders)
    || forall r: Resource :: Spend(orders, r) <= start.Get(r)
  }

  ghost predicate HadTogether(start: Resources, orders: OrderBatch) {
    ArmiesOnce(orders.movements) && TracksOnce(orders.upgrades) && WithinMeans(start, orders)
  }

  lemma {:induction false} RecruitTotal(xs: seq<RecruitmentOrder>, r: Resource)
    ensures Total(RECRUIT_CHARGE, xs).Get(r) == SumBy(RecruitCost(r), xs)
  {
    if xs != [] { RecruitTotal(xs[..|xs| - 1], r); }
  }

  lemma {:induction false} UpgradeTotal(xs: seq<UpgradeOrder>, r: Resource)
    ensures Total(UPGRADE_CHARGE, xs).Get(r) == SumBy(UpgradeCostIn(r), xs)
  {
    if xs != [] { UpgradeTotal(xs[..|xs| - 1], r); }
  }

  lemma {:induction false} TransferTotal(xs: seq<TransferOrder>, r: Resource)
    ensures Total(TRANSFER_CHARGE, xs).Get(r) == SumBy(TransferCost(r), xs)
  {
    if xs != [] { TransferTotal(xs[..|xs| - 1], r); }
  }

  ghost function Bill(orders: OrderBatch): Resources {
    Plus(Plus(Total(RECRUIT_CHARGE, orders.recruitment), Total(UPGRADE_CHARGE, orders.upgrades)), Total(TRANSFER_CHARGE, orders.transfers))
  }

  lemma BillIsSpend(orders: OrderBatch, r: Resource)
    ensures Bill(orders).Get(r) == Spend(orders, r)
  {
    RecruitTotal(orders.recruitment, r);
    UpgradeTotal(orders.upgrades, r);
    TransferTotal(orders.transfers, r);
  }

  lemma CoversEach(a: Resources, b: Resources, cost: Resource -> int)
    requires forall r: Resource :: b.Get(r) == cost(r)
    ensures (forall r: Resource :: cost(r) <= a.Get(r)) <==> a.Covers(b)
  {
    assert b.Get(Food) == cost(Food) && b.Get(Production) == cost(Production) && b.Get(Money) == cost(Money);
    assert a.Get(Food) == a.food && a.Get(Production) == a.production && a.Get(Money) == a.money;
  }

  lemma MeansAreBills(start: Resources, orders: OrderBatch)
    ensures WithinMeans(start, orders) <==> CostsNothing(orders) || start.Covers(Bill(orders))
  {
    var cost := (r: Resource) => Spend(orders, r);
    forall r: Resource ensures Bill(orders).Get(r) == cost(r) { BillIsSpend(orders, r); }
    CoversEach(start, Bill(orders), cost);
    assert forall r: Resource :: cost(r) == Spend(orders, r);
  }

  lemma ChargesCost()
    ensures Costs(RECRUIT_CHARGE) && Costs(UPGRADE_CHARGE) && Costs(TRANSFER_CHARGE)
  {
  }

  // ---- together means affordable ----

  lemma TogetherIsAffordable(s: Snapshot, m: MapDefinition, p: PlayerId, envelopes: seq<OrderEnvelope>)
    requires p in s.players
    ensures HadTogether(s.players[p].resources, OrderBatch(Moved(s, m, p, envelopes).accepted, Recruits(s, p, envelopes).accepted,
                                                           Upgraded(s, p, envelopes).accepted, Sent(s, m, p, envelopes).accepted))
  {
    var start := s.players[p].resources;
    var orders := OrderBatch(Moved(s, m, p, envelopes).accepted, Recruits(s, p, envelopes).accepted,
                             Upgraded(s, p, envelopes).accepted, Sent(s, m, p, envelopes).accepted);
    GreedyIsFair(MoveRule(s, m, p), NOTHING, Flat(MOVES_IN, envelopes));
    GreedyIsFair(RecruitRule(s, p), start, Flat(RECRUITS_IN, envelopes));
    GreedyIsFair(UpgradeRule(s, p), Recruits(s, p, envelopes).budget, Flat(UPGRADES_IN, envelopes));
    GreedyIsFair(TransferRule(s, m, p), Upgraded(s, p, envelopes).budget, Flat(StampedIn(p), envelopes));
    OnceEach(s, m, p, orders);
    FairSpends(s, m, p, start, orders, Recruits(s, p, envelopes).budget, Upgraded(s, p, envelopes).budget, Sent(s, m, p, envelopes).budget);
  }

  lemma OnceEach(s: Snapshot, m: MapDefinition, p: PlayerId, orders: OrderBatch)
    ensures NoClash(MoveRule(s, m, p).clash, orders.movements) <==> ArmiesOnce(orders.movements)
    ensures NoClash(UpgradeRule(s, p).clash, orders.upgrades) <==> TracksOnce(orders.upgrades)
  {
  }

  lemma FairSpends(s: Snapshot, m: MapDefinition, p: PlayerId, start: Resources, orders: OrderBatch,
                   first: Resources, second: Resources, third: Resources)
    requires Fair(RecruitRule(s, p), start, Outcome(orders.recruitment, first))
    requires Fair(UpgradeRule(s, p), first, Outcome(orders.upgrades, second))
    requires Fair(TransferRule(s, m, p), second, Outcome(orders.transfers, third))
    ensures WithinMeans(start, orders)
  {
    MeansAreBills(start, orders);
    NothingTotals(orders);
    ThreeBills(start, Total(RECRUIT_CHARGE, orders.recruitment), Total(UPGRADE_CHARGE, orders.upgrades),
               Total(TRANSFER_CHARGE, orders.transfers));
  }

  lemma NothingTotals(orders: OrderBatch)
    ensures orders.upgrades == [] ==> Total(UPGRADE_CHARGE, orders.upgrades) == NOTHING
    ensures orders.transfers == [] ==> Total(TRANSFER_CHARGE, orders.transfers) == NOTHING
  {
  }

  lemma ThreeBills(start: Resources, a: Resources, b: Resources, c: Resources)
    ensures start.Covers(Plus(Plus(a, b), c)) <==> start.Minus(a).Minus(b).Minus(c).Covers(NOTHING)
    ensures c == NOTHING ==> (start.Covers(Plus(Plus(a, b), c)) <==> start.Minus(a).Minus(b).Covers(NOTHING))
    ensures b == c == NOTHING ==> (start.Covers(Plus(Plus(a, b), c)) <==> start.Minus(a).Covers(NOTHING))
  {
  }
  // ---- affordable means together ----

  lemma PartCovers(start: Resources, a: Resources, whole: Resources)
    requires whole.Covers(a)
    ensures start.Minus(a).Covers(start.Minus(whole))
  {
  }

  lemma TwoPartsCover(start: Resources, a: Resources, b: Resources, allA: Resources, allB: Resources)
    requires allA.Covers(a) && allB.Covers(b)
    ensures start.Minus(a).Minus(b).Covers(start.Minus(allA).Minus(allB))
  {
  }

  /** What a batch that can be had leaves for each kind of order after the ones before it. */
  lemma MeansByKind(start: Resources, orders: OrderBatch)
    requires WithinMeans(start, orders)
    ensures var a, b := Total(RECRUIT_CHARGE, orders.recruitment), Total(UPGRADE_CHARGE, orders.upgrades);
      && Affordable(RECRUIT_CHARGE, orders.recruitment, start) && Affordable(UPGRADE_CHARGE, orders.upgrades, start.Minus(a))
      && Affordable(TRANSFER_CHARGE, orders.transfers, start.Minus(a).Minus(b))
  {
    MeansAreBills(start, orders);
    ChargesCost();
    TotalCosts(RECRUIT_CHARGE, orders.recruitment);
    TotalCosts(UPGRADE_CHARGE, orders.upgrades);
    TotalCosts(TRANSFER_CHARGE, orders.transfers);
    if !CostsNothing(orders) {
      BillsByKind(start, Total(RECRUIT_CHARGE, orders.recruitment), Total(UPGRADE_CHARGE, orders.upgrades),
                  Total(TRANSFER_CHARGE, orders.transfers));
    }
  }

  lemma BillsByKind(start: Resources, a: Resources, b: Resources, c: Resources)
    requires a.Covers(NOTHING) && b.Covers(NOTHING) && c.Covers(NOTHING) && start.Covers(Plus(Plus(a, b), c))
    ensures start.Covers(a) && start.Minus(a).Covers(b) && start.Minus(a).Minus(b).Covers(c)
  {
  }

  ghost function LeftForUpgrades(s: Snapshot, p: PlayerId, start: Resources, envelopes: seq<OrderEnvelope>): Resources {
    start.Minus(Total(RECRUIT_CHARGE, Flat(RecruitsKept(s, p, start), envelopes)))
  }

  ghost function LeftForTransfers(s: Snapshot, p: PlayerId, start: Resources, envelopes: seq<OrderEnvelope>): Resources {
    LeftForUpgrades(s, p, start, envelopes).Minus(Total(UPGRADE_CHARGE, Flat(UpgradesKept(s, p, start), envelopes)))
  }

  /** By itself each envelope has at least what all recruits together leave for upgrades. */
  lemma MoreForUpgrades(s: Snapshot, p: PlayerId, start: Resources, envelopes: seq<OrderEnvelope>, e: OrderEnvelope)
    requires e in envelopes
    ensures AfterRecruits(s, p, start)(e).Covers(LeftForUpgrades(s, p, start, envelopes))
  {
    ChargesCost();
    GreedyIsFair(RecruitRule(s, p), start, RECRUITS_IN(e));
    PartOfTotal(RECRUIT_CHARGE, RecruitsKept(s, p, start), envelopes, e);
    PartCovers(start, Total(RECRUIT_CHARGE, RecruitsKept(s, p, start)(e)), Total(RECRUIT_CHARGE, Flat(RecruitsKept(s, p, start), envelopes)));
  }

  lemma MoreForTransfers(s: Snapshot, p: PlayerId, start: Resources, envelopes: seq<OrderEnvelope>, e: OrderEnvelope)
    requires e in envelopes
    ensures AfterUpgrades(s, p, start)(e).Covers(LeftForTransfers(s, p, start, envelopes))
  {
    ChargesCost();
    GreedyIsFair(RecruitRule(s, p), start, RECRUITS_IN(e));
    GreedyIsFair(UpgradeRule(s, p), AfterRecruits(s, p, start)(e), UPGRADES_IN(e));
    PartOfTotal(RECRUIT_CHARGE, RecruitsKept(s, p, start), envelopes, e);
    PartOfTotal(UPGRADE_CHARGE, UpgradesKept(s, p, start), envelopes, e);
    TwoPartsCover(start, Total(RECRUIT_CHARGE, RecruitsKept(s, p, start)(e)), Total(UPGRADE_CHARGE, UpgradesKept(s, p, start)(e)),
      Total(RECRUIT_CHARGE, Flat(RecruitsKept(s, p, start), envelopes)), Total(UPGRADE_CHARGE, Flat(UpgradesKept(s, p, start), envelopes)));
  }

  lemma RecruitsTogether(s: Snapshot, p: PlayerId, envelopes: seq<OrderEnvelope>)
    requires p in s.players
    requires var start := s.players[p].resources; Affordable(RECRUIT_CHARGE, Flat(RecruitsKept(s, p, start), envelopes), start)
    ensures var start := s.players[p].resources;
      Recruits(s, p, envelopes) == Outcome(Flat(RecruitsKept(s, p, start), envelopes), LeftForUpgrades(s, p, start, envelopes))
  {
    var start := s.players[p].resources;
    ChargesCost();
    GreedyTogether(RecruitRule(s, p), RECRUITS_IN, Same(start), start, envelopes);
    GreedyIsFair(RecruitRule(s, p), start, Flat(RECRUITS_IN, envelopes));
  }

  lemma UpgradesTogether(s: Snapshot, p: PlayerId, envelopes: seq<OrderEnvelope>, left: Resources)
    requires p in s.players && left == Recruits(s, p, envelopes).budget == LeftForUpgrades(s, p, s.players[p].resources, envelopes)
    requires var kept := Flat(UpgradesKept(s, p, s.players[p].resources), envelopes); TracksOnce(kept) && Affordable(UPGRADE_CHARGE, kept, left)
    ensures var kept := Flat(UpgradesKept(s, p, s.players[p].resources), envelopes);
      Upgraded(s, p, envelopes) == Outcome(kept, left.Minus(Total(UPGRADE_CHARGE, kept)))
  {
    var start := s.players[p].resources;
    ChargesCost();
    forall e | e in envelopes ensures AfterRecruits(s, p, start)(e).Covers(left) { MoreForUpgrades(s, p, start, envelopes, e); }
    GreedyTogether(UpgradeRule(s, p), UPGRADES_IN, AfterRecruits(s, p, start), left, envelopes);
    GreedyIsFair(UpgradeRule(s, p), left, Flat(UPGRADES_IN, envelopes));
  }

  lemma TransfersTogether(s: Snapshot, m: MapDefinition, p: PlayerId, envelopes: seq<OrderEnvelope>, left: Resources)
    requires p in s.players && left == Upgraded(s, p, envelopes).budget == LeftForTransfers(s, p, s.players[p].resources, envelopes)
    requires Affordable(TRANSFER_CHARGE, Flat(TransfersKept(s, m, p, s.players[p].resources), envelopes), left)
    ensures Sent(s, m, p, envelopes).accepted == Flat(TransfersKept(s, m, p, s.players[p].resources), envelopes)
  {
    var start := s.players[p].resources;
    ChargesCost();
    forall e | e in envelopes ensures AfterUpgrades(s, p, start)(e).Covers(left) { MoreForTransfers(s, p, start, envelopes, e); }
    GreedyTogether(TransferRule(s, m, p), StampedIn(p), AfterUpgrades(s, p, start), left, envelopes);
  }

  lemma MovesTogether(s: Snapshot, m: MapDefinition, p: PlayerId, envelopes: seq<OrderEnvelope>)
    requires ArmiesOnce(Flat(MovesKept(s, m, p), envelopes))
    ensures Moved(s, m, p, envelopes).accepted == Flat(MovesKept(s, m, p), envelopes)
  {
    FreeMoves(Flat(MovesKept(s, m, p), envelopes));
    GreedyTogether(MoveRule(s, m, p), MOVES_IN, Same(NOTHING), NOTHING, envelopes);
  }

  lemma {:induction false} FreeMoves(xs: seq<MovementOrder>)
    ensures Total(FREE, xs) == NOTHING
  {
    if xs != [] { FreeMoves(xs[..|xs| - 1]); }
  }

  lemma AffordableIsTogether(s: Snapshot, m: MapDefinition, p: PlayerId, envelopes: seq<OrderEnvelope>)
    requires OwnAndDue(s, p, envelopes) && HadTogether(s.players[p].resources, EachAccepted(s, m, envelopes))
    ensures EachAccepted(s, m, envelopes) == OrderBatch(Moved(s, m, p, envelopes).accepted, Recruits(s, p, envelopes).accepted,
                                                        Upgraded(s, p, envelopes).accepted, Sent(s, m, p, envelopes).accepted)
  {
    var start := s.players[p].resources;
    EachIsFlat(s, m, p, envelopes);
    MeansByKind(start, EachAccepted(s, m, envelopes));
    MovesTogether(s, m, p, envelopes);
    RecruitsTogether(s, p, envelopes);
    UpgradesTogether(s, p, envelopes, Recruits(s, p, envelopes).budget);
    TransfersTogether(s, m, p, envelopes, Upgraded(s, p, envelopes).budget);
  }

  // ---- the batch ----

  lemma {:induction false} PartOfEach(s: Snapshot, m: MapDefinition, envelopes: seq<OrderEnvelope>, p: PlayerId)
    ensures PartOf(s, EachAccepted(s, m, envelopes), p) == EachAccepted(s, m, Filter(From(p), envelopes))
  {
    if envelopes == [] {
      PartOfNothing(s, p);
    } else {
      var init, e := envelopes[..|envelopes| - 1], envelopes[|envelopes| - 1];
      PartOfEach(s, m, init, p);
      PartOfJoin(s, EachAccepted(s, m, init), Validated(s, m, e).accepted, p);
      AcceptedIsOwn(s, m, e);
      PartOfOwn(s, Validated(s, m, e).accepted, e.playerId, p);
      EachOneMore(s, m, Filter(From(p), init), e);
      JoinUnit(EachAccepted(s, m, Filter(From(p), init)));
    }
  }

  ghost predicate AllDueNow(s: Snapshot, envelopes: seq<OrderEnvelope>) {
    forall e :: e in envelopes ==> e.tick == s.tick
  }

  /** One known player: separate validation accepts what joint validation accepts exactly if it can all be had together. */
  lemma OnePlayerIff(s: Snapshot, m: MapDefinition, envelopes: seq<OrderEnvelope>, p: PlayerId)
    requires AllDueNow(s, envelopes) && p in s.players
    ensures PartOf(s, EachAccepted(s, m, envelopes), p) == AcceptedFor(s, m, envelopes, p)
      <==> HadTogether(s.players[p].resources, PartOf(s, EachAccepted(s, m, envelopes), p))
  {
    var own := Filter(From(p), envelopes);
    PartOfEach(s, m, envelopes, p);
    if own != [] {
      forall e | e in own ensures e.playerId == p && e.tick == s.tick { FilterMember(From(p), envelopes, e); }
      OwnIff(s, m, own, p, own[0].(orders := JoinedOrders(own)));
    }
  }

  lemma OwnIff(s: Snapshot, m: MapDefinition, own: seq<OrderEnvelope>, p: PlayerId, e: OrderEnvelope)
    requires OwnAndDue(s, p, own) && own != [] && e == own[0].(orders := JoinedOrders(own))
    ensures EachAccepted(s, m, own) == Validated(s, m, e).accepted <==> HadTogether(s.players[p].resources, EachAccepted(s, m, own))
  {
    assert own[0] in own;
    TogetherIsGreedy(s, m, p, own, e);
    TogetherIsAffordable(s, m, p, own);
    if HadTogether(s.players[p].resources, EachAccepted(s, m, own)) { AffordableIsTogether(s, m, p, own); }
  }

  /** A player nobody knows gets nothing accepted either way. */
  lemma {:induction false} StrangersGetNothing(s: Snapshot, m: MapDefinition, own: seq<OrderEnvelope>, p: PlayerId)
    requires p !in s.players && forall e :: e in own ==> e.playerId == p
    ensures EachAccepted(s, m, own) == NO_ORDERS
  {
    if own != [] {
      assert own[|own| - 1] in own;
      StrangersGetNothing(s, m, own[..|own| - 1], p);
    }
  }

  lemma StrangerIff(s: Snapshot, m: MapDefinition, envelopes: seq<OrderEnvelope>, p: PlayerId)
    requires p !in s.players
    ensures PartOf(s, EachAccepted(s, m, envelopes), p) == AcceptedFor(s, m, envelopes, p) == NO_ORDERS
  {
    var own := Filter(From(p), envelopes);
    PartOfEach(s, m, envelopes, p);
    forall e | e in own ensures e.playerId == p { FilterMember(From(p), envelopes, e); }
    StrangersGetNothing(s, m, own, p);
    if own != [] { assert own[0] in own; }
  }

  /** What every known player gets accepted separately can be had together. */
  ghost predicate AllHadTogether(s: Snapshot, m: MapDefinition, envelopes: seq<OrderEnvelope>) {
    forall p :: p in s.players ==> HadTogether(s.players[p].resources, PartOf(s, EachAccepted(s, m, envelopes), p))
  }

  /**
   * For envelopes that are due, validating them one by one accepts of every player just what validating the player's
   * orders together accepts, exactly if no player's separately accepted orders name an army twice or a track of a city
   * twice or, when any of them costs anything, cost more of a resource than the player has.
   */
  lemma SeparateIsTogetherIff(s: Snapshot, m: MapDefinition, envelopes: seq<OrderEnvelope>)
    requires AllDueNow(s, envelopes)
    ensures (forall p :: PartOf(s, EachAccepted(s, m, envelopes), p) == AcceptedFor(s, m, envelopes, p))
      <==> AllHadTogether(s, m, envelopes)
  {
    forall p | p in s.players
      ensures PartOf(s, EachAccepted(s, m, envelopes), p) == AcceptedFor(s, m, envelopes, p)
        <==> HadTogether(s.players[p].resources, PartOf(s, EachAccepted(s, m, envelopes), p))
    {
      OnePlayerIff(s, m, envelopes, p);
    }
    forall p | p !in s.players ensures PartOf(s, EachAccepted(s, m, envelopes), p) == AcceptedFor(s, m, envelopes, p) {
      StrangerIff(s, m, envelopes, p);
    }
  }

  lemma {:induction false} EachIssued(s: Snapshot, m: MapDefinition, envelopes: seq<OrderEnvelope>)
    ensures BatchIssued(s, EachAccepted(s, m, envelopes))
  {
    if envelopes != [] {
      var e := envelopes[|envelopes| - 1];
      EachIssued(s, m, envelopes[..|envelopes| - 1]);
      AcceptedIsOwn(s, m, e);
      OwnIsIssued(s, Validated(s, m, e).accepted, e.playerId);
      IssuedJoin(s, EachAccepted(s, m, envelopes[..|envelopes| - 1]), Validated(s, m, e).accepted);
    }
  }

  /** Then the harness's next state is the service's. */
  lemma HarnessStateIsTheServices(s: Snapshot, m: MapDefinition, envelopes: seq<OrderEnvelope>)
    requires AllDueNow(s, envelopes) && AllHadTogether(s, m, envelopes)
    ensures NextState(s, EachAccepted(s, m, envelopes), m) == NextState(s, QueuedBatch(s, m, envelopes), m)
  {
    var a, b := EachAccepted(s, m, envelopes), QueuedBatch(s, m, envelopes);
    SeparateIsTogetherIff(s, m, envelopes);
    EachIssued(s, m, envelopes);
    JoinedIssued(s, m, envelopes, Submitters(envelopes));
    forall p ensures PartOf(s, a, p) == PartOf(s, b, p) { PartOfQueued(s, m, envelopes, p); }
    SameTick(s, m, a, b);
  }
  /** So is every state of a simulation fed by the harness, as long as each tick's envelopes can be had together. */
  lemma HarnessRunsTheService(states: seq<Snapshot>, give: OrderProvider, m: MapDefinition, envelopes: seq<seq<OrderEnvelope>>)
    requires |states| == |envelopes| + 1 && Simulation.Chain(states, None, Some(give), m)
    requires forall i :: 0 <= i < |envelopes| ==> give(states[i].tick, states[i]) == EachAccepted(states[i], m, envelopes[i])
    requires forall i :: 0 <= i < |envelopes| ==> AllDueNow(states[i], envelopes[i]) && AllHadTogether(states[i], m, envelopes[i])
    ensures IsRun(m, states, envelopes)
  {
    forall i | 0 <= i < |envelopes| ensures states[i + 1] == Tick(states[i], m, envelopes[i]) {
      HarnessStateIsTheServices(states[i], m, envelopes[i]);
      assert states[i + 1] == Stepped(states[i], None, Some(give), m);
    }
  }
}
