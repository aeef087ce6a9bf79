/** Queued submissions: one combined envelope per player, validated and joined into one batch. */
module Submissions {
  import opened Collections
  import opened Domain
  import opened Validation

  function Join(a: OrderBatch, b: OrderBatch): OrderBatch {
    OrderBatch(a.movements + b.movements, a.recruitment + b.recruitment, a.upgrades + b.upgrades, a.transfers + b.transfers)
  }

  /** The players who submitted, in the order of their first submission. */
  function Submitters(queue: seq<OrderEnvelope>): seq<PlayerId> {
    if queue == [] then [] else
      var earlier, p := Submitters(queue[..|queue| - 1]), queue[|queue| - 1].playerId;
      if p in earlier then earlier else earlier + [p]
  }

  function From(p: PlayerId): OrderEnvelope -> bool {
    (e: OrderEnvelope) => e.playerId == p
  }

  function JoinedOrders(queue: seq<OrderEnvelope>): OrderBatch {
    if queue == [] then NO_ORDERS
    else Join(JoinedOrders(queue[..|queue| - 1]), queue[|queue| - 1].orders)
  }

  /** One envelope holding all of a player's orders, headed like the player's first submission. */
  function CombinedFor(queue: seq<OrderEnvelope>, p: PlayerId): Option<OrderEnvelope> {
    var own := Filter(From(p), queue);
    if own == [] then None else Some(own[0].(orders := JoinedOrders(own)))
  }

  function Combined(queue: seq<OrderEnvelope>, players: seq<PlayerId>): seq<OrderEnvelope> {
    if players == [] then [] else
      var earlier := Combined(queue, players[..|players| - 1]);
      match CombinedFor(queue, players[|players| - 1])
      case None => earlier
      case Some(e) => earlier + [e]
  }

  ghost function AcceptedFor(s: Snapshot, m: MapDefinition, queue: seq<OrderEnvelope>, p: PlayerId): OrderBatch {
    match CombinedFor(queue, p)
    case None => NO_ORDERS
    case Some(e) => Validated(s, m, e).accepted
  }

  ghost function JoinedAccepted(s: Snapshot, m: MapDefinition, queue: seq<OrderEnvelope>, players: seq<PlayerId>): OrderBatch {
    if players == [] then NO_ORDERS
    else Join(JoinedAccepted(s, m, queue, players[..|players| - 1]), AcceptedFor(s, m, queue, players[|players| - 1]))
  }

  /** The batch a tick resolves: what each submitter got accepted, joined in order of first submission. */
  ghost function QueuedBatch(s: Snapshot, m: MapDefinition, queue: seq<OrderEnvelope>): OrderBatch {
    JoinedAccepted(s, m, queue, Submitters(queue))
  }

  // ---- facts about submitters ----

  lemma {:induction false} SubmittersAre(queue: seq<OrderEnvelope>)
    ensures Distinct(Submitters(queue))
    ensures forall p :: p in Submitters(queue) <==> Filter(From(p), queue) != []
  {
    if queue != [] {
      var init, last := queue[..|queue| - 1], queue[|queue| - 1];
      SubmittersAre(init);
      forall p ensures p in Submitters(queue) <==> p in Submitters(init) || p == last.playerId { }
    }
  }

  lemma JoinUnit(a: OrderBatch)
    ensures Join(NO_ORDERS, a) == a && Join(a, NO_ORDERS) == a
  {
  }

  /** A sole submission is its own combination. */
  lemma CombinedOne(queue: seq<OrderEnvelope>, e: OrderEnvelope)
    requires Filter(From(e.playerId), queue) == [e]
    ensures CombinedFor(queue, e.playerId) == Some(e)
  {
    assert [e][..0] == [] && JoinedOrders([]) == NO_ORDERS;
    JoinUnit(e.orders);
  }

  // ---- the loops ----

  ghost predicate CombinedSoFar(queue: seq<OrderEnvelope>, combined: map<PlayerId, OrderEnvelope>) {
    forall p :: CombinedFor(queue, p) == if p in combined then Some(combined[p]) else None
  }

  function Extended(combined: Option<OrderEnvelope>, e: OrderEnvelope): OrderEnvelope {
    match combined
    case None => e
    case Some(c) => c.(orders := Join(c.orders, e.orders))
  }

  lemma CombineOne(queue: seq<OrderEnvelope>, i: nat, p: PlayerId)
    requires i < |queue|
    ensures CombinedFor(queue[..i + 1], p) ==
      if p == queue[i].playerId then Some(Extended(CombinedFor(queue[..i], p), queue[i])) else CombinedFor(queue[..i], p)
  {
    var e := queue[i];
    FilterStep(From(p), queue, i);
    if p == e.playerId {
      var own := Filter(From(p), queue[..i]);
      assert (own + [e])[..|own + [e]| - 1] == own;
      assert JoinedOrders(own + [e]) == Join(JoinedOrders(own), e.orders);
      JoinUnit(e.orders);
    } else {
      assert Filter(From(p), queue[..i + 1]) == Filter(From(p), queue[..i]);
    }
  }

  lemma CombineStep(queue: seq<OrderEnvelope>, i: nat, combined: map<PlayerId, OrderEnvelope>)
    requires i < |queue| && CombinedSoFar(queue[..i], combined)
    ensures var e := queue[i];
      CombinedSoFar(queue[..i + 1],
        combined[e.playerId := if e.playerId in combined
          then combined[e.playerId].(orders := Join(combined[e.playerId].orders, e.orders)) else e])
  {
    forall p ensures CombinedFor(queue[..i + 1], p) ==
      if p == queue[i].playerId then Some(Extended(CombinedFor(queue[..i], p), queue[i])) else CombinedFor(queue[..i], p)
    {
      CombineOne(queue, i, p);
    }
    assert CombinedFor(queue[..i], queue[i].playerId)
      == if queue[i].playerId in combined then Some(combined[queue[i].playerId]) else None;
  }

  method CombineSubmissionsByPlayer(queue: seq<OrderEnvelope>) returns (envelopes: seq<OrderEnvelope>)
    ensures envelopes == Combined(queue, Submitters(queue))
  {
    var combined: map<PlayerId, OrderEnvelope> := map[];
    var players: seq<PlayerId> := [];
    var i := 0;
    while i < |queue|
      invariant 0 <= i <= |queue|
      invariant CombinedSoFar(queue[..i], combined)
      invariant players == Submitters(queue[..i])
      invariant forall p :: p in players <==> p in combined
    {
      var e := queue[i];
      CombineStep(queue, i, combined);
      assert queue[..i + 1][..i] == queue[..i];
      if e.playerId !in combined {
        combined := combined[e.playerId := e];
        players := players + [e.playerId];
      } else {
        combined := combined[e.playerId := combined[e.playerId].(orders := Join(combined[e.playerId].orders, e.orders))];
      }
      i := i + 1;
    }
    assert queue[..i] == queue;
    envelopes := [];
    var k := 0;
    while k < |players|
      invariant 0 <= k <= |players|
      invariant envelopes == Combined(queue, players[..k])
    {
      assert players[..k + 1][..k] == players[..k];
      assert CombinedFor(queue, players[k]) == Some(combined[players[k]]);
      envelopes := envelopes + [combined[players[k]]];
      k := k + 1;
    }
    assert players[..k] == players;
  }

  method ValidateQueuedOrders(s: Snapshot, m: MapDefinition, queue: seq<OrderEnvelope>) returns (batch: OrderBatch)
    ensures batch == QueuedBatch(s, m, queue)
  {
    var envelopes := CombineSubmissionsByPlayer(queue);
    ghost var players := Submitters(queue);
    SubmittersAre(queue);
    CombinedAll(queue, players);
    batch := NO_ORDERS;
    var i := 0;
    while i < |envelopes|
      invariant 0 <= i <= |envelopes| == |players|
      invariant batch == JoinedAccepted(s, m, queue, players[..i])
    {
      var result := ValidateOrderEnvelope(s, m, envelopes[i]);
      assert players[..i + 1][..i] == players[..i];
      batch := Join(batch, result.accepted);
      i := i + 1;
    }
    assert players[..i] == players;
  }

  lemma {:induction false} CombinedAll(queue: seq<OrderEnvelope>, players: seq<PlayerId>)
    requires forall p :: p in players ==> Filter(From(p), queue) != []
    ensures |Combined(queue, players)| == |players|
    ensures forall i :: 0 <= i < |players| ==> CombinedFor(queue, players[i]) == Some(Combined(queue, players)[i])
  {
    if players != [] {
      assert players[|players| - 1] in players;
      CombinedAll(queue, players[..|players| - 1]);
    }
  }
}
