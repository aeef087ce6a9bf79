/** Food can go below zero, and an army in debt does not starve: a small state that shows both. */
module FoodDebt {
  import opened Collections
  import opened Domain
  import opened Phases
  import opened Validation
  import opened ValidationFacts
  import opened Submissions
  import opened Economy
  import opened TroopLedger

  const YORK: City := City(Some("p"), 10, Resources(1, 1, 1), Upgrades(0, 0, 0), 15, [])

  /** One player, one city whose people eat the whole income, five food in store. */
  const LEAN: Snapshot := Snapshot(0, map["york" := YORK], [], map["p" := Player(Resources(5, 100, 0), ["york"], None, false)],
                                   Victory(None, 0, 1, None))

  const FIVE_RECRUITS: OrderEnvelope := OrderEnvelope("match", "p", 0, OrderBatch([], [RecruitmentOrder("york", 5)], [], []))

  lemma YorkBooks(s: Snapshot)
    requires s.cities == LEAN.cities
    ensures TotalYield(s.cities, "p", Food) == 1 && TotalPopulation(s.cities, "p") == 10
  {
    assert OwnedCities(s.cities, "p") == {"york"};
    SumOverEmpty(YieldAt(s.cities, Food));
    SumOverAdd(YieldAt(s.cities, Food), {}, "york");
    SumOverEmpty(PopulationAt(s.cities));
    SumOverAdd(PopulationAt(s.cities), {}, "york");
    assert {} + {"york"} == {"york"};
  }

  lemma LeanIncome()
    ensures ResourcesAfterIncome(LEAN, "p").food == 0
  {
    YorkBooks(LEAN);
    assert SumBy(OwnTroops("p"), LEAN.armies) == 0;
  }

  const INDEBTED: Snapshot := LEAN.(players := map["p" := Player(Resources(-5, 100, 0), ["york"], None, false)])

  /** Income never carries a food debt over: what would leave fourteen below zero leaves nothing owed. */
  lemma DebtForgotten()
    ensures INDEBTED.players["p"].resources.food + TotalYield(INDEBTED.cities, "p", Food) - TotalPopulation(INDEBTED.cities, "p") == -14
    ensures ResourcesAfterIncome(INDEBTED, "p").food == 0
  {
    YorkBooks(INDEBTED);
    assert SumBy(OwnTroops("p"), INDEBTED.armies) == 0;
  }

  lemma RecruitsAccepted(m: MapDefinition)
    ensures Validated(LEAN, m, FIVE_RECRUITS).accepted == FIVE_RECRUITS.orders
  {
    var orders := FIVE_RECRUITS.orders.recruitment;
    var start := LEAN.players["p"].resources;
    assert orders[..|orders| - 1] == [];
    assert RecruitmentPass(LEAN, "p", start, []) == Pass([], [], start);
    assert RecruitmentReason(LEAN, "p", start, orders[0]) == None;
  }

  lemma FiveSpent(m: MapDefinition)
    ensures AcceptedFor(LEAN, m, [FIVE_RECRUITS], "p") == FIVE_RECRUITS.orders
    ensures Spent(LEAN, m, [FIVE_RECRUITS], "p", Food) == 5
    ensures QueuedBatch(LEAN, m, [FIVE_RECRUITS]) == FIVE_RECRUITS.orders
  {
    var queue := [FIVE_RECRUITS];
    assert queue[..|queue| - 1] == [];
    assert Filter(From("p"), queue) == queue;
    assert JoinedOrders([]) == NO_ORDERS;
    JoinUnit(FIVE_RECRUITS.orders);
    assert CombinedFor(queue, "p") == Some(FIVE_RECRUITS);
    RecruitsAccepted(m);
    SumOfOne(RecruitCost(Food), FIVE_RECRUITS.orders.recruitment[0]);
    assert Submitters([]) == [];
    assert Submitters(queue) == ["p"];
    assert ["p"][..0] == [];
    assert JoinedAccepted(LEAN, m, queue, []) == NO_ORDERS;
  }

  /** Validation budgets against five food, upkeep eats it first, and the tick ends five below zero with no one starving. */
  lemma FoodGoesNegative(m: MapDefinition)
    ensures var t := NextState(LEAN, QueuedBatch(LEAN, m, [FIVE_RECRUITS]), m);
      && "p" in t.players && t.players["p"].resources.food == -5
      && FallenToHunger(LEAN, QueuedBatch(LEAN, m, [FIVE_RECRUITS]), m, "p") == 0
  {
    LeanIncome();
    FiveSpent(m);
    BuildAccounts(LEAN, m, [FIVE_RECRUITS], "p", Food);
    ResourcesSettled(LEAN, QueuedBatch(LEAN, m, [FIVE_RECRUITS]), m, "p");
    assert Received(LEAN, FIVE_RECRUITS.orders, "p", Food) == 0;
  }
}
