/** The regression harness validates each envelope by itself: when that is the combined batch, and when it overspends. */
module HarnessOrders {
  import opened Collections
  import opened Domain
  import opened Validation
  import opened Submissions
  import opened ValidationFacts
  import opened TroopLedger
  import opened Regression
  import opened Simulation
  import opened Economy
  import opened FoodDebt

  /** Every envelope's accepted orders, joined in order. */
  ghost function EachAccepted(s: Snapshot, m: MapDefinition, envelopes: seq<OrderEnvelope>): OrderBatch {
    if envelopes == [] then NO_ORDERS
    else Join(EachAccepted(s, m, envelopes[..|envelopes| - 1]), Validated(s, m, envelopes[|envelopes| - 1]).accepted)
  }

  ghost function EachRejected(s: Snapshot, m: MapDefinition, envelopes: seq<OrderEnvelope>): seq<Rejection> {
    if envelopes == [] then []
    else EachRejected(s, m, envelopes[..|envelopes| - 1]) + Validated(s, m, envelopes[|envelopes| - 1]).rejected
  }

  /** The harness's order provider for one tick. */
  method ProvideOrders(s: Snapshot, m: MapDefinition, envelopes: seq<OrderEnvelope>)
    returns (accepted: OrderBatch, rejections: seq<Rejection>)
    ensures accepted == EachAccepted(s, m, envelopes) && rejections == EachRejected(s, m, envelopes)
  {
    accepted, rejections := NO_ORDERS, [];
    var i := 0;
    while i < |envelopes|
      invariant 0 <= i <= |envelopes|
      invariant accepted == EachAccepted(s, m, envelopes[..i]) && rejections == EachRejected(s, m, envelopes[..i])
    {
      assert envelopes[..i + 1][..i] == envelopes[..i];
      var validation := ValidateOrderEnvelope(s, m, envelopes[i]);
      accepted := Join(accepted, validation.accepted);
      rejections := rejections + validation.rejected;
      i := i + 1;
    }
    assert envelopes[..i] == envelopes;
  }

  lemma EachOneMore(s: Snapshot, m: MapDefinition, envelopes: seq<OrderEnvelope>, e: OrderEnvelope)
    ensures EachAccepted(s, m, envelopes + [e]) == Join(EachAccepted(s, m, envelopes), Validated(s, m, e).accepted)
    ensures EachRejected(s, m, envelopes + [e]) == EachRejected(s, m, envelopes) + Validated(s, m, e).rejected
  {
    assert (envelopes + [e])[..|envelopes + [e]| - 1] == envelopes;
  }

  // ---- one envelope a player ----

  ghost predicate OneEach(envelopes: seq<OrderEnvelope>) {
    forall i, j :: 0 <= i < j < |envelopes| ==> envelopes[i].playerId != envelopes[j].playerId
  }

  lemma {:induction false} SubmittersOfOneEach(envelopes: seq<OrderEnvelope>)
    requires OneEach(envelopes)
    ensures |Submitters(envelopes)| == |envelopes|
    ensures forall i :: 0 <= i < |envelopes| ==> Submitters(envelopes)[i] == envelopes[i].playerId
  {
    if envelopes != [] {
      SubmittersOfOneEach(envelopes[..|envelopes| - 1]);
    }
  }

  lemma {:induction false} OwnOfOneEach(envelopes: seq<OrderEnvelope>, i: nat)
    requires OneEach(envelopes) && i < |envelopes|
    ensures Filter(From(envelopes[i].playerId), envelopes) == [envelopes[i]]
  {
    var init, p := envelopes[..|envelopes| - 1], envelopes[i].playerId;
    if i == |envelopes| - 1 {
      FilterNone(From(p), init);
    } else {
      OwnOfOneEach(init, i);
    }
  }

  lemma {:induction false} JoinedIsEach(s: Snapshot, m: MapDefinition, queue: seq<OrderEnvelope>, players: seq<PlayerId>,
                                        envelopes: seq<OrderEnvelope>)
    requires |players| == |envelopes|
    requires forall i :: 0 <= i < |players| ==> CombinedFor(queue, players[i]) == Some(envelopes[i])
    ensures JoinedAccepted(s, m, queue, players) == EachAccepted(s, m, envelopes)
  {
    if players != [] {
      JoinedIsEach(s, m, queue, players[..|players| - 1], envelopes[..|envelopes| - 1]);
    }
  }

  /** With at most one envelope a player, validating each by itself gives the batch the service would resolve. */
  lemma HarnessIsQueued(s: Snapshot, m: MapDefinition, envelopes: seq<OrderEnvelope>)
    requires OneEach(envelopes)
    ensures EachAccepted(s, m, envelopes) == QueuedBatch(s, m, envelopes)
  {
    var players := Submitters(envelopes);
    SubmittersOfOneEach(envelopes);
    forall i | 0 <= i < |players| ensures CombinedFor(envelopes, players[i]) == Some(envelopes[i]) {
      OwnOfOneEach(envelopes, i);
      CombinedOne(envelopes, envelopes[i]);
    }
    JoinedIsEach(s, m, envelopes, players, envelopes);
  }

  /** So a harness simulation of such envelopes is one of the runs that the invariants cover. */
  lemma HarnessSimulationIsRun(states: seq<Snapshot>, give: OrderProvider, m: MapDefinition, envelopes: seq<seq<OrderEnvelope>>)
    requires |states| == |envelopes| + 1 && Simulation.Chain(states, None, Some(give), m)
    requires forall i :: 0 <= i < |envelopes| ==> OneEach(envelopes[i])
    requires forall i :: 0 <= i < |envelopes| ==> give(states[i].tick, states[i]) == EachAccepted(states[i], m, envelopes[i])
    ensures IsRun(m, states, envelopes)
  {
    forall i | 0 <= i < |envelopes| ensures give(states[i].tick, states[i]) == QueuedBatch(states[i], m, envelopes[i]) {
      HarnessIsQueued(states[i], m, envelopes[i]);
    }
    SimulationIsRun(states, give, m, envelopes);
  }

  // ---- two envelopes of one player ----

  /** Two envelopes of one player are budgeted twice: five food buy ten recruits here, and five through the service. */
  lemma TwoEnvelopesOverspend(m: MapDefinition)
    ensures LEAN.players["p"].resources.food == 5
    ensures Spend(EachAccepted(LEAN, m, [FIVE_RECRUITS, FIVE_RECRUITS]), Food) == 10
    ensures Spent(LEAN, m, [FIVE_RECRUITS, FIVE_RECRUITS], "p", Food) <= 5
  {
    var order := FIVE_RECRUITS.orders.recruitment[0];
    EachTwice(m);
    assert [order, order][..1] == [order];
    SumOfOne(RecruitCost(Food), order);
    SpentWithinBudget(LEAN, m, [FIVE_RECRUITS, FIVE_RECRUITS], "p", Food);
  }

  lemma EachTwice(m: MapDefinition)
    ensures EachAccepted(LEAN, m, [FIVE_RECRUITS, FIVE_RECRUITS]) == Join(FIVE_RECRUITS.orders, FIVE_RECRUITS.orders)
  {
    var two := [FIVE_RECRUITS, FIVE_RECRUITS];
    RecruitsAccepted(m);
    assert two[..1] == [FIVE_RECRUITS] && [FIVE_RECRUITS][..0] == [];
    JoinUnit(FIVE_RECRUITS.orders);
    assert EachAccepted(LEAN, m, [FIVE_RECRUITS]) == FIVE_RECRUITS.orders;
  }
}
