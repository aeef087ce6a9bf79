/** When the treaties of a record depend on how different players' submissions were interleaved, and when they do not. */
module BlameOrder {
  import opened Collections
  import opened Ordering
  import opened Domain
  import opened Casualties
  import opened Validation
  import opened ValidationFacts
  import opened Submissions
  import opened OrderIndependence
  import opened RecordTypes
  import opened TreatyRules
  import opened HostileBreaks
  import opened RecordSteps
  import opened RecordRuns
  import opened Routes

  /** The same queue but for the interleaving of different players' submissions. */
  ghost predicate SameSubmissions(one: seq<OrderEnvelope>, other: seq<OrderEnvelope>) {
    forall p :: Filter(From(p), one) == Filter(From(p), other)
  }

  /** Two players march on each other and the treaty binds them. */
  ghost predicate MarchBothWays(s: Snapshot, movements: seq<MovementOrder>, t: Treaty, p: PlayerId, q: PlayerId) {
    && Hits(t, Attack(p, q))
    && (exists o :: o in movements && OrderedAgainst(s, o, Attack(p, q)))
    && (exists o :: o in movements && OrderedAgainst(s, o, Attack(q, p)))
  }

  /** Some treaty in force binds two players who march on each other. */
  ghost predicate Disputed(treaties: seq<Treaty>, s: Snapshot, movements: seq<MovementOrder>) {
    exists t, p, q :: t in treaties && t.status.Active? && MarchBothWays(s, movements, t, p, q)
  }

  ghost function TreatiesAfter(treaties: seq<Treaty>, s: Snapshot, m: MapDefinition, queue: seq<OrderEnvelope>): seq<Treaty> {
    Reconciled(treaties, s, QueuedBatch(s, m, queue).movements)
  }

  // ---- without a dispute the interleaving does not matter ----

  lemma SameMoves(s: Snapshot, m: MapDefinition, one: seq<OrderEnvelope>, other: seq<OrderEnvelope>)
    requires SameSubmissions(one, other)
    ensures forall o :: o in QueuedBatch(s, m, one).movements <==> o in QueuedBatch(s, m, other).movements
  {
    QueuedSameParts(s, m, one, other);
    var xs, ys := QueuedBatch(s, m, one).movements, QueuedBatch(s, m, other).movements;
    SamePartsByKind(s, QueuedBatch(s, m, one), QueuedBatch(s, m, other));
    SameMultiset(MovedBy(s), xs, ys);
    forall o ensures o in xs <==> o in ys { assert o in multiset(xs) <==> o in multiset(ys); }
  }

  /** The attacks that cross a treaty are all one and the same when only one side marches. */
  lemma OneAttackCrosses(s: Snapshot, movements: seq<MovementOrder>, t: Treaty, g: Attack, h: Attack)
    requires UniqueIds(s.armies) && forall p, q :: !MarchBothWays(s, movements, t, p, q)
    requires g in AttacksOf(s, movements) && h in AttacksOf(s, movements) && Hits(t, g) && Hits(t, h)
    ensures g == h
  {
    PairInOrder(g.attacker, g.defender);
    PairInOrder(h.attacker, h.defender);
    if g != h {
      assert h == Attack(g.defender, g.attacker) && g == Attack(g.attacker, g.defender);
      AttackedIff(s, movements, g);
      AttackedIff(s, movements, h);
      assert MarchBothWays(s, movements, t, g.attacker, g.defender);
    }
  }

  lemma UndisputedTreaty(s: Snapshot, xs: seq<MovementOrder>, ys: seq<MovementOrder>, t: Treaty)
    requires UniqueIds(s.armies) && forall o :: o in xs <==> o in ys
    requires t.status.Active? ==> forall p, q :: !MarchBothWays(s, xs, t, p, q)
    ensures BrokenBy(t, AttacksOf(s, xs), s.tick) == BrokenBy(t, AttacksOf(s, ys), s.tick)
  {
    var gs, hs := AttacksOf(s, xs), AttacksOf(s, ys);
    forall h ensures h in gs <==> h in hs {
      AttackedIff(s, xs, h);
      AttackedIff(s, ys, h);
    }
    if Crossed(t, gs) { SameCrossing(t, gs, hs); }
    if Crossed(t, hs) { SameCrossing(t, hs, gs); }
    var k := FirstAttackBreaks(t, gs, s.tick);
    var l := FirstAttackBreaks(t, hs, s.tick);
    if t.status.Active? && Crossed(t, gs) {
      assert gs[k] in gs && hs[l] in gs;
      OneAttackCrosses(s, xs, t, gs[k], hs[l]);
    }
  }

  lemma SameCrossing(t: Treaty, gs: seq<Attack>, hs: seq<Attack>)
    requires Crossed(t, gs) && forall h :: h in gs ==> h in hs
    ensures Crossed(t, hs)
  {
    var k :| 0 <= k < |gs| && Hits(t, gs[k]);
    assert gs[k] in gs;
    var l :| 0 <= l < |hs| && hs[l] == gs[k];
    assert Hits(t, hs[l]);
  }

  lemma UndisputedIgnoresInterleaving(treaties: seq<Treaty>, s: Snapshot, m: MapDefinition,
                                      one: seq<OrderEnvelope>, other: seq<OrderEnvelope>)
    requires UniqueIds(s.armies) && SameSubmissions(one, other)
    requires !Disputed(treaties, s, QueuedBatch(s, m, one).movements)
    ensures TreatiesAfter(treaties, s, m, one) == TreatiesAfter(treaties, s, m, other)
  {
    var xs, ys := QueuedBatch(s, m, one).movements, QueuedBatch(s, m, other).movements;
    SameMoves(s, m, one, other);
    forall i | 0 <= i < |treaties|
      ensures BrokenBy(treaties[i], AttacksOf(s, xs), s.tick) == BrokenBy(treaties[i], AttacksOf(s, ys), s.tick)
    {
      assert treaties[i] in treaties;
      UndisputedTreaty(s, xs, ys, treaties[i]);
    }
  }

  // ---- in a dispute, whoever is moved to the front is blamed ----

  function NotFrom(p: PlayerId): OrderEnvelope -> bool {
    (e: OrderEnvelope) => e.playerId != p
  }

  /** The same queue with one player's submissions first. */
  function Promoted(queue: seq<OrderEnvelope>, p: PlayerId): seq<OrderEnvelope> {
    Filter(From(p), queue) + Filter(NotFrom(p), queue)
  }

  lemma PromotedIsSame(queue: seq<OrderEnvelope>, p: PlayerId)
    ensures SameSubmissions(queue, Promoted(queue, p))
  {
    var others := NotFrom(p);
    forall q ensures Filter(From(q), queue) == Filter(From(q), Promoted(queue, p)) {
      FilterConcat(From(q), Filter(From(p), queue), Filter(others, queue));
      if q == p {
        FilterFilter(From(p), From(p), From(p), queue);
        forall e | e in Filter(others, queue) ensures !From(p)(e) { FilterMember(others, queue, e); }
        FilterNone(From(p), Filter(others, queue));
      } else {
        forall e | e in Filter(From(p), queue) ensures !From(q)(e) { FilterMember(From(p), queue, e); }
        FilterNone(From(q), Filter(From(p), queue));
        FilterFilter(others, From(q), From(q), queue);
      }
    }
  }

  lemma {:induction false} FirstSubmitter(queue: seq<OrderEnvelope>)
    requires queue != []
    ensures Submitters(queue) != [] && Submitters(queue)[0] == queue[0].playerId
  {
    if |queue| > 1 { FirstSubmitter(queue[..|queue| - 1]); }
  }

  lemma {:induction false} FirstAcceptedFirst(s: Snapshot, m: MapDefinition, queue: seq<OrderEnvelope>, players: seq<PlayerId>)
    requires players != []
    ensures AcceptedFor(s, m, queue, players[0]).movements <= JoinedAccepted(s, m, queue, players).movements
  {
    if |players| > 1 {
      FirstAcceptedFirst(s, m, queue, players[..|players| - 1]);
    } else {
      assert JoinedAccepted(s, m, queue, []) == NO_ORDERS;
      JoinUnit(AcceptedFor(s, m, queue, players[0]));
    }
  }

  /** The attacks of a player whose submissions come first come first. */
  lemma PromotedMovesFirst(s: Snapshot, m: MapDefinition, queue: seq<OrderEnvelope>, p: PlayerId)
    requires Filter(From(p), queue) != []
    ensures AcceptedFor(s, m, queue, p).movements <= QueuedBatch(s, m, Promoted(queue, p)).movements
  {
    var promoted := Promoted(queue, p);
    PromotedIsSame(queue, p);
    assert Filter(From(p), queue) == Filter(From(p), promoted);
    FilterMember(From(p), queue, promoted[0]);
    FirstSubmitter(promoted);
    FirstAcceptedFirst(s, m, promoted, Submitters(promoted));
  }

  lemma {:induction false} AttacksInOrder(s: Snapshot, first: seq<MovementOrder>, all: seq<MovementOrder>)
    requires first <= all
    ensures AttacksOf(s, first) <= AttacksOf(s, all)
  {
    if first == all {
    } else {
      AttacksInOrder(s, first, all[..|all| - 1]);
    }
  }

  lemma FirstCrossingBlamed(t: Treaty, first: seq<Attack>, all: seq<Attack>, p: PlayerId, tick: nat)
    requires t.status.Active? && first <= all && Crossed(t, first) && forall h :: h in first ==> h.attacker == p
    ensures BrokenBy(t, all, tick).withdrawnBy == Some(p)
  {
    var k := FirstAttackBreaks(t, all, tick);
    var j :| 0 <= j < |first| && Hits(t, first[j]);
    assert all[j] == first[j];
    assert all[k] == first[k] && first[k] in first;
  }

  /** With a player's submissions first, the player's own attacks are the first of the tick. */
  lemma OwnAttacksFirst(s: Snapshot, m: MapDefinition, queue: seq<OrderEnvelope>, h: Attack, o: MovementOrder) returns (own: seq<Attack>)
    requires UniqueIds(s.armies) && o in QueuedBatch(s, m, queue).movements && OrderedAgainst(s, o, h)
    ensures own <= AttacksOf(s, QueuedBatch(s, m, Promoted(queue, h.attacker)).movements)
    ensures h in own && forall g :: g in own ==> g.attacker == h.attacker
  {
    var p := h.attacker;
    var orders := AcceptedFor(s, m, queue, p).movements;
    own := AttacksOf(s, orders);
    ArmyFound(s.armies, o.armyId);
    PartOfQueued(s, m, queue, p);
    FilterMember(MovedBy(s)(p), QueuedBatch(s, m, queue).movements, o);
    assert orders == PartOf(s, QueuedBatch(s, m, queue), p).movements;
    assert o in orders;
    AttackedIff(s, orders, h);
    forall g | g in own ensures g.attacker == p { OwnAttacks(s, m, queue, p, g); }
    PromotedMovesFirst(s, m, queue, p);
    AttacksInOrder(s, orders, QueuedBatch(s, m, Promoted(queue, p)).movements);
  }

  /** A player who marches on a treaty partner is blamed once the player's own submissions come first. */
  lemma PromotedIsBlamed(t: Treaty, s: Snapshot, m: MapDefinition, queue: seq<OrderEnvelope>, h: Attack, o: MovementOrder)
    requires UniqueIds(s.armies) && t.status.Active? && Hits(t, h)
    requires o in QueuedBatch(s, m, queue).movements && OrderedAgainst(s, o, h)
    ensures BrokenBy(t, AttacksOf(s, QueuedBatch(s, m, Promoted(queue, h.attacker)).movements), s.tick).withdrawnBy == Some(h.attacker)
  {
    var own := OwnAttacksFirst(s, m, queue, h, o);
    var k :| 0 <= k < |own| && own[k] == h;
    assert Crossed(t, own);
    FirstCrossingBlamed(t, own, AttacksOf(s, QueuedBatch(s, m, Promoted(queue, h.attacker)).movements), h.attacker, s.tick);
  }

  lemma OwnAttacks(s: Snapshot, m: MapDefinition, queue: seq<OrderEnvelope>, p: PlayerId, g: Attack)
    requires UniqueIds(s.armies) && g in AttacksOf(s, AcceptedFor(s, m, queue, p).movements)
    ensures g.attacker == p
  {
    var own := AcceptedFor(s, m, queue, p).movements;
    AttackedIff(s, own, g);
    var o :| o in own && OrderedAgainst(s, o, g);
    AcceptedForIsOwn(s, m, queue, p);
    ArmyFound(s.armies, o.armyId);
  }

  lemma DisputeShows(treaties: seq<Treaty>, s: Snapshot, m: MapDefinition, queue: seq<OrderEnvelope>)
    requires UniqueIds(s.armies) && Disputed(treaties, s, QueuedBatch(s, m, queue).movements)
    ensures exists p, q :: TreatiesAfter(treaties, s, m, Promoted(queue, p)) != TreatiesAfter(treaties, s, m, Promoted(queue, q))
  {
    var movements := QueuedBatch(s, m, queue).movements;
    var t, p, q :| t in treaties && t.status.Active? && MarchBothWays(s, movements, t, p, q);
    var o :| o in movements && OrderedAgainst(s, o, Attack(p, q));
    var u :| u in movements && OrderedAgainst(s, u, Attack(q, p));
    PairInOrder(p, q);
    PromotedIsBlamed(t, s, m, queue, Attack(p, q), o);
    PromotedIsBlamed(t, s, m, queue, Attack(q, p), u);
    var i :| 0 <= i < |treaties| && treaties[i] == t;
    assert TreatiesAfter(treaties, s, m, Promoted(queue, p))[i].withdrawnBy == Some(p);
    assert TreatiesAfter(treaties, s, m, Promoted(queue, q))[i].withdrawnBy == Some(q);
  }

  /**
   * The treaties after a tick are the same for every interleaving of the queue exactly when no treaty in force binds
   * two players whose accepted movements march on each other.
   */
  lemma InterleavingIrrelevantIff(treaties: seq<Treaty>, s: Snapshot, m: MapDefinition, queue: seq<OrderEnvelope>)
    requires UniqueIds(s.armies)
    ensures (forall other :: SameSubmissions(queue, other) ==> TreatiesAfter(treaties, s, m, other) == TreatiesAfter(treaties, s, m, queue))
      <==> !Disputed(treaties, s, QueuedBatch(s, m, queue).movements)
  {
    if Disputed(treaties, s, QueuedBatch(s, m, queue).movements) {
      DisputeShows(treaties, s, m, queue);
      var p, q :| TreatiesAfter(treaties, s, m, Promoted(queue, p)) != TreatiesAfter(treaties, s, m, Promoted(queue, q));
      PromotedIsSame(queue, p);
      PromotedIsSame(queue, q);
    } else {
      forall other | SameSubmissions(queue, other) ensures TreatiesAfter(treaties, s, m, other) == TreatiesAfter(treaties, s, m, queue) {
        UndisputedIgnoresInterleaving(treaties, s, m, queue, other);
      }
    }
  }

  // ---- the record ----

  lemma DueInterleaving(r: Record, t: Record)
    requires r.state == t.state && SameSubmissions(r.submissions, t.submissions)
    ensures SameSubmissions(DueQueue(r), DueQueue(t))
  {
    var due := DueAt(r.state.tick);
    forall p ensures Filter(From(p), DueQueue(r)) == Filter(From(p), DueQueue(t)) {
      FiltersCommute(due, From(p), r.submissions);
      FiltersCommute(due, From(p), t.submissions);
    }
  }

  /** Without a dispute an advance leaves the same state and the same treaties, and as many announcements. */
  lemma AdvanceIgnoresInterleavingOfAll(r: Record, t: Record, m: MapDefinition)
    requires r.state == t.state && r.treaties == t.treaties && |r.messages| == |t.messages| && UniqueIds(r.state.armies)
    requires SameSubmissions(r.submissions, t.submissions)
    requires !Disputed(r.treaties, r.state, QueuedBatch(r.state, m, DueQueue(r)).movements)
    ensures Advanced(r, m).state == Advanced(t, m).state && Advanced(r, m).treaties == Advanced(t, m).treaties
    ensures |Advanced(r, m).messages| == |Advanced(t, m).messages|
  {
    AdvanceIgnoresInterleaving(r, t, m);
    DueInterleaving(r, t);
    UndisputedIgnoresInterleaving(r.treaties, r.state, m, DueQueue(r), DueQueue(t));
    AnnouncementsOf(r, m, AttacksOf(r.state, QueuedBatch(r.state, m, DueQueue(r)).movements));
    AnnouncementsOf(t, m, AttacksOf(t.state, QueuedBatch(t.state, m, DueQueue(t)).movements));
  }

  /** As many announcements as treaties that are no longer in force. */
  lemma AnnouncementsOf(r: Record, m: MapDefinition, attacks: seq<Attack>)
    requires attacks == AttacksOf(r.state, QueuedBatch(r.state, m, DueQueue(r)).movements)
    ensures |Advanced(r, m).messages| == |r.messages| + InForce(r.treaties) - InForce(Advanced(r, m).treaties)
  {
    OneNoticePerBreak(r.treaties, attacks, r.state.tick);
    PostedCount(r.messages, r.state.tick, BreakNews(r.treaties, attacks, r.state.tick));
  }

  lemma {:induction false} PostedCount(messages: seq<Message>, tick: nat, news: seq<string>)
    ensures |Posted(messages, tick, news)| == |messages| + |news|
  {
    if news != [] { PostedCount(messages, tick, news[..|news| - 1]); }
  }

  // ---- a dispute ----

  const ROAD: MapDefinition := MapDefinition(
    map["york" := CityDefinition("north", Food, true), "leeds" := CityDefinition("north", Food, true)],
    [Edge("york", "leeds", 1, Land)])

  const PLAIN: Resources := Resources(10, 10, 10)

  function CityOf(p: PlayerId): City {
    City(Some(p), 1, PLAIN, Upgrades(0, 0, 0), 0, [])
  }

  function ArmyOf(id: ArmyId, p: PlayerId, c: CityId): Army {
    Army(id, p, 5, Some(c), None, None, 0)
  }

  /** Two neighbours, each with one city and one army. */
  const NEIGHBOURS: Snapshot := Snapshot(
    0, map["york" := CityOf("p"), "leeds" := CityOf("q")], [ArmyOf("a", "p", "york"), ArmyOf("b", "q", "leeds")],
    map["p" := Player(PLAIN, ["york"], None, false), "q" := Player(PLAIN, ["leeds"], None, false)], Victory(None, 0, 2, None))

  const PACT: Treaty := Treaty(0, "p", "q", NonAggression, Active, "p", 0, Some(0), None, None)

  function March(p: PlayerId, a: ArmyId, c: CityId): OrderEnvelope {
    OrderEnvelope("match", p, 0, OrderBatch([MovementOrder(a, c)], [], [], []))
  }

  const P_MARCHES := March("p", "a", "leeds")
  const Q_MARCHES := March("q", "b", "york")

  function Waiting(submissions: seq<OrderEnvelope>): Record {
    Record("match", NEIGHBOURS, submissions, [], [], [PACT], [])
  }

  lemma MarchAccepted(e: OrderEnvelope)
    requires e == P_MARCHES || e == Q_MARCHES
    ensures Validated(NEIGHBOURS, ROAD, e).accepted.movements == e.orders.movements
  {
    var orders := e.orders.movements;
    var start := NEIGHBOURS.players[e.playerId].resources;
    assert orders[..|orders| - 1] == [];
    assert MovementPass(NEIGHBOURS, ROAD, e.playerId, start, []) == Pass([], [], start);
    assert ROAD.edges[0] in ROAD.edges && Joins(ROAD.edges[0], "york", "leeds");
    ConnectedAnyMode(ROAD, "york", "leeds");
    ConnectedAnyMode(ROAD, "leeds", "york");
    LastArmy();
    assert MovementReason(NEIGHBOURS, ROAD, e.playerId, orders[0]) == None;
  }

  lemma LastArmy()
    ensures FindArmy(NEIGHBOURS.armies, "a") == Some(NEIGHBOURS.armies[0])
    ensures FindArmy(NEIGHBOURS.armies, "b") == Some(NEIGHBOURS.armies[1])
  {
    assert NEIGHBOURS.armies[..1] == [NEIGHBOURS.armies[0]];
  }

  lemma TwoSubmitters(e: OrderEnvelope, f: OrderEnvelope)
    requires e.playerId != f.playerId
    ensures Filter(From(e.playerId), [e, f]) == [e] && Filter(From(f.playerId), [e, f]) == [f]
    ensures Promoted([e, f], e.playerId) == [e, f] && Promoted([e, f], f.playerId) == [f, e]
  {
    FilterTwo(From(e.playerId), e, f);
    FilterTwo(From(f.playerId), e, f);
    FilterTwo(NotFrom(e.playerId), e, f);
    FilterTwo(NotFrom(f.playerId), e, f);
  }

  lemma FilterTwo<T>(keep: T -> bool, x: T, y: T)
    ensures Filter(keep, [x, y]) == (if keep(x) then [x] else []) + (if keep(y) then [y] else [])
  {
    assert [x, y][..1] == [x] && [x][..0] == [];
    assert Filter(keep, [x]) == if keep(x) then [x] else [];
  }

  /** The marching order is in the batch. */
  lemma Marches(e: OrderEnvelope)
    requires e == P_MARCHES || e == Q_MARCHES
    ensures e.orders.movements[0] in QueuedBatch(NEIGHBOURS, ROAD, [P_MARCHES, Q_MARCHES]).movements
  {
    TwoSubmitters(P_MARCHES, Q_MARCHES);
    MarchAccepted(e);
    SoleSubmission(NEIGHBOURS, ROAD, [P_MARCHES, Q_MARCHES], e, e.orders.movements[0]);
  }

  lemma SoleSubmission(s: Snapshot, m: MapDefinition, queue: seq<OrderEnvelope>, e: OrderEnvelope, o: MovementOrder)
    requires Filter(From(e.playerId), queue) == [e] && o in Validated(s, m, e).accepted.movements
    ensures o in QueuedBatch(s, m, queue).movements
  {
    CombinedOne(queue, e);
    AcceptedIsQueued(s, m, queue, e.playerId, o);
  }

  lemma AcceptedIsQueued(s: Snapshot, m: MapDefinition, queue: seq<OrderEnvelope>, p: PlayerId, o: MovementOrder)
    requires o in AcceptedFor(s, m, queue, p).movements
    ensures o in QueuedBatch(s, m, queue).movements
  {
    PartOfQueued(s, m, queue, p);
    FilterMember(MovedBy(s)(p), QueuedBatch(s, m, queue).movements, o);
    assert PartOf(s, QueuedBatch(s, m, queue), p).movements == Filter(MovedBy(s)(p), QueuedBatch(s, m, queue).movements);
  }

  lemma MarchesAgainst()
    ensures OrderedAgainst(NEIGHBOURS, MovementOrder("a", "leeds"), Attack("p", "q"))
    ensures OrderedAgainst(NEIGHBOURS, MovementOrder("b", "york"), Attack("q", "p"))
    ensures Hits(PACT, Attack("p", "q")) && Hits(PACT, Attack("q", "p"))
  {
    assert NEIGHBOURS.armies[0] in NEIGHBOURS.armies && NEIGHBOURS.armies[1] in NEIGHBOURS.armies;
    PairInOrder("p", "q");
    assert StrLe("p", "q");
  }

  /** The queue orders p's army against q, and q's against p. */
  ghost predicate BothMarch(s: Snapshot, m: MapDefinition, queue: seq<OrderEnvelope>) {
    && UniqueIds(s.armies) && s.tick == 0 && MarchBothWays(s, QueuedBatch(s, m, queue).movements, PACT, "p", "q")
  }

  lemma TheyBothMarch()
    ensures BothMarch(NEIGHBOURS, ROAD, [P_MARCHES, Q_MARCHES])
  {
    Marches(P_MARCHES);
    Marches(Q_MARCHES);
    MarchesAgainst();
  }

  /** Two queues that differ in nothing but the interleaving of two players, and a pact that each blames on the other. */
  lemma WhoeverSubmitsFirstIsBlamed()
    ensures SameSubmissions([P_MARCHES, Q_MARCHES], [Q_MARCHES, P_MARCHES])
    ensures Advanced(Waiting([P_MARCHES, Q_MARCHES]), ROAD).treaties == [PactBrokenBy("p")]
    ensures Advanced(Waiting([Q_MARCHES, P_MARCHES]), ROAD).treaties == [PactBrokenBy("q")]
  {
    TwoSubmitters(P_MARCHES, Q_MARCHES);
    PromotedIsSame([P_MARCHES, Q_MARCHES], "q");
    TheyBothMarch();
    FirstIsBlamed(Waiting([P_MARCHES, Q_MARCHES]), ROAD, P_MARCHES, Q_MARCHES, "p");
    FirstIsBlamed(Waiting([Q_MARCHES, P_MARCHES]), ROAD, P_MARCHES, Q_MARCHES, "q");
  }

  function PactBrokenBy(p: PlayerId): Treaty {
    PACT.(status := if p == "p" then BrokenByA else BrokenByB, withdrawnBy := Some(p), withdrawnTick := Some(0))
  }

  lemma FirstIsBlamed(r: Record, m: MapDefinition, e: OrderEnvelope, f: OrderEnvelope, p: PlayerId)
    requires r.treaties == [PACT] && BothMarch(r.state, m, [e, f]) && (p == "p" || p == "q")
    requires e.playerId == "p" && f.playerId == "q" && e.tick == 0 && f.tick == 0
    requires r.submissions == if p == "p" then [e, f] else [f, e]
    ensures Advanced(r, m).treaties == [PactBrokenBy(p)]
  {
    AllDue(r, e, f, p);
    var o := MarchAgainst(r.state, QueuedBatch(r.state, m, [e, f]).movements, p);
    DueBlames(r, m, [e, f], p, o);
  }

  lemma AllDue(r: Record, e: OrderEnvelope, f: OrderEnvelope, p: PlayerId)
    requires e.playerId == "p" && f.playerId == "q" && e.tick == f.tick == r.state.tick && (p == "p" || p == "q")
    requires r.submissions == if p == "p" then [e, f] else [f, e]
    ensures DueQueue(r) == Promoted([e, f], p)
  {
    TwoSubmitters(e, f);
    FilterAll(DueAt(r.state.tick), r.submissions);
  }

  function Rival(p: PlayerId): PlayerId { if p == "p" then "q" else "p" }

  lemma MarchAgainst(s: Snapshot, movements: seq<MovementOrder>, p: PlayerId) returns (o: MovementOrder)
    requires MarchBothWays(s, movements, PACT, "p", "q") && (p == "p" || p == "q")
    ensures o in movements && OrderedAgainst(s, o, Attack(p, Rival(p))) && Hits(PACT, Attack(p, Rival(p)))
  {
    PairInOrder("p", "q");
    o :| o in movements && OrderedAgainst(s, o, Attack(p, Rival(p)));
  }

  lemma DueBlames(r: Record, m: MapDefinition, queue: seq<OrderEnvelope>, p: PlayerId, o: MovementOrder)
    requires r.treaties == [PACT] && r.state.tick == 0 && UniqueIds(r.state.armies) && DueQueue(r) == Promoted(queue, p)
    requires o in QueuedBatch(r.state, m, queue).movements && OrderedAgainst(r.state, o, Attack(p, Rival(p)))
    requires Hits(PACT, Attack(p, Rival(p)))
    ensures Advanced(r, m).treaties == [PactBrokenBy(p)]
  {
    var attacks := AttacksOf(r.state, QueuedBatch(r.state, m, DueQueue(r)).movements);
    PromotedIsBlamed(PACT, r.state, m, queue, Attack(p, Rival(p)), o);
    PactBroken(attacks, p);
    assert AllBrokenBy([PACT], attacks, 0) == [BrokenBy(PACT, attacks, 0)];
  }

  lemma PactBroken(attacks: seq<Attack>, p: PlayerId)
    requires BrokenBy(PACT, attacks, 0).withdrawnBy == Some(p)
    ensures BrokenBy(PACT, attacks, 0) == PactBrokenBy(p)
  {
    var k := FirstAttackBreaks(PACT, attacks, 0);
    assert CrossedAt(PACT, attacks, k);
    PairInOrder(attacks[k].attacker, attacks[k].defender);
  }
}
