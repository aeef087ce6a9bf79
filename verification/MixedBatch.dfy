/** A batch that no validator would let through and that the tick cannot even sort. */
module MixedBatch {
  import opened Collections
  import opened Domain
  import opened Phases
  import opened Economy
  import opened FoodDebt

  /** One recruitment order for an owned city and one for a city that does not exist. */
  const MIXED: OrderBatch := OrderBatch([], [RecruitmentOrder("york", 1), RecruitmentOrder("nowhere", 1)], [], [])

  /** Income is no obstacle here, and still the tick fails: the two orders cannot be compared. */
  lemma MixedBatchFails()
    ensures TickFailure(LEAN, NO_ORDERS) == None && TickFailure(LEAN, MIXED) == Some(OrdersNotComparable)
  {
    IncomeAlwaysStorable(LEAN);
    var owned, unknown := MIXED.recruitment[0], MIXED.recruitment[1];
    assert owned in MIXED.recruitment && unknown in MIXED.recruitment;
    assert HasOwner(LEAN.cities)(owned) && !HasOwner(LEAN.cities)(unknown);
  }
}
